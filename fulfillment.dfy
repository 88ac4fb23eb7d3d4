/**
 * The table that turns an upstream fulfillment status code into a French
 * label and a badge variant. The order list and the order detail both use it.
 */
module Fulfillment {
  import opened JsValues

  /** The `{ label, variant }` pair of the source; `label` is a Dafny keyword. */
  datatype Badge = Badge(text: string, variant: string)

  const DefaultStatus: string := "unfulfilled"

  /** The codes the table recognizes; any other code falls to the default row. */
  predicate IsKnownStatus(code: string) {
    code in ["fulfilled", "partial", "restocked", "pending", "unfulfilled"]
  }

  /**
   * `mapFulfillmentStatus`: a missing or empty code counts as "unfulfilled".
   * Every label reads back to the effective code it came from, so no two rows
   * share a label, and the variant is one of the four the portal styles.
   */
  function MapFulfillmentStatus(raw: Option<string>): (b: Badge)
    ensures StatusOfLabel(b.text) == Some(EffectiveStatus(raw))
    ensures b.variant in ["success", "warning", "default", "info"]
  {
    var status := Or(raw, DefaultStatus);
    if status == "fulfilled" then Badge("Expédiée", "success")
    else if status == "partial" then Badge("Partiellement expédiée", "warning")
    else if status == "restocked" then Badge("Retournée en stock", "default")
    else if status == "pending" then Badge("En attente d\U{2019}expédition", "info")
    else Badge("En préparation", "info")
  }

  /** The code a status maps as: an unrecognized, missing or empty code maps as "unfulfilled". */
  function EffectiveStatus(raw: Option<string>): (code: string)
    ensures IsKnownStatus(code)
    ensures Truthy(raw) && IsKnownStatus(raw.value) ==> code == raw.value
    ensures !(Truthy(raw) && IsKnownStatus(raw.value)) ==> code == DefaultStatus
  {
    var s := Or(raw, DefaultStatus);
    if IsKnownStatus(s) then s else DefaultStatus
  }

  /** Reads a label back to the code that produces it. */
  function StatusOfLabel(text: string): Option<string> {
    if text == "Expédiée" then Some("fulfilled")
    else if text == "Partiellement expédiée" then Some("partial")
    else if text == "Retournée en stock" then Some("restocked")
    else if text == "En attente d\U{2019}expédition" then Some("pending")
    else if text == "En préparation" then Some(DefaultStatus)
    else None
  }

  /** The exact row for each code, and the default row for everything else. */
  lemma StatusTable(raw: Option<string>)
    ensures raw == Some("fulfilled") ==> MapFulfillmentStatus(raw) == Badge("Expédiée", "success")
    ensures raw == Some("partial") ==> MapFulfillmentStatus(raw) == Badge("Partiellement expédiée", "warning")
    ensures raw == Some("restocked") ==> MapFulfillmentStatus(raw) == Badge("Retournée en stock", "default")
    ensures raw == Some("pending") ==> MapFulfillmentStatus(raw) == Badge("En attente d\U{2019}expédition", "info")
    ensures !(Truthy(raw) && raw.value in ["fulfilled", "partial", "restocked", "pending"])
      ==> MapFulfillmentStatus(raw) == Badge("En préparation", "info")
  {
  }

  /** Two codes get the same badge exactly when they map as the same code. */
  lemma SameBadgeIffSameStatus(a: Option<string>, b: Option<string>)
    ensures MapFulfillmentStatus(a) == MapFulfillmentStatus(b) <==> EffectiveStatus(a) == EffectiveStatus(b)
  {
  }
}
