/**
 * JavaScript value semantics the proxy's mapping rules depend on.
 *
 * Upstream JSON fields that may be missing or null are `Option<string>`;
 * `None` stands for both `undefined` and `null`, which every rule of the
 * proxy treats alike.
 */
module JsValues {

  datatype Option<+T> = None | Some(value: T)

  /** A possibly missing string is truthy exactly when it is present and non-empty. */
  predicate Truthy(v: Option<string>) {
    v.Some? && v.value != ""
  }

  /** The expression `v || fallback`, with a string fallback. */
  function Or(v: Option<string>, fallback: string): (r: string)
    ensures Truthy(v) ==> r == v.value
    ensures !Truthy(v) ==> r == fallback
    ensures r == "" ==> fallback == ""
  {
    if Truthy(v) then v.value else fallback
  }

  /** The expression `v || null`. */
  function OrNull(v: Option<string>): (r: Option<string>)
    ensures Truthy(v) ==> r == v
    ensures !Truthy(v) ==> r == None
  {
    if Truthy(v) then v else None
  }

  /** Applying `|| null` and then `|| fallback` is the same as `|| fallback` alone. */
  lemma OrAfterOrNull(v: Option<string>, fallback: string)
    ensures Or(OrNull(v), fallback) == Or(v, fallback)
    ensures OrNull(v) != Some("")
    ensures Truthy(OrNull(v)) == Truthy(v)
  {
  }
}
