/**
 * The customer profile of the portal: how an upstream customer record is
 * shown, and how a portal profile edit becomes an upstream update.
 */
module Profiles {
  import opened JsValues
  import opened JsStrings

  /** The fields of an upstream customer record the proxy reads. */
  datatype Customer = Customer(
    firstName: Option<string>,
    lastName: Option<string>,
    email: Option<string>,
    note: Option<string>)

  datatype Notifications = Notifications(orders: bool, promos: bool)

  datatype Profile = Profile(
    fullName: string,
    email: string,
    nickname: string,
    notifications: Notifications,
    mode: string)

  /**
   * `` `${first || ""} ${last || ""}`.trim() ``, the display name used for
   * the profile and for both order addresses.
   */
  function DisplayName(first: Option<string>, last: Option<string>): (name: string)
    ensures IsTrimmed(name)
  {
    Trim(Or(first, "") + " " + Or(last, ""))
  }

  /**
   * How the display name depends on which parts are present: nothing at all
   * gives "", one part alone gives that part trimmed, two trimmed parts are
   * joined by one space.
   */
  lemma DisplayNameCases(first: Option<string>, last: Option<string>)
    ensures !Truthy(first) && !Truthy(last) ==> DisplayName(first, last) == ""
    ensures !Truthy(last) ==> DisplayName(first, last) == Trim(Or(first, ""))
    ensures !Truthy(first) ==> DisplayName(first, last) == Trim(Or(last, ""))
    ensures Truthy(first) && Truthy(last) && IsTrimmed(first.value) && IsTrimmed(last.value)
      ==> DisplayName(first, last) == first.value + " " + last.value
  {
    var f, l := Or(first, ""), Or(last, "");
    if l == "" {
      FirstPartOnly(f);
    }
    if f == "" {
      LastPartOnly(l);
    }
    if f != "" && l != "" && IsTrimmed(f) && IsTrimmed(l) {
      TwoPartName(f, l);
    }
  }

  /** A first name with no last name: the template's separating space is trimmed away. */
  lemma FirstPartOnly(first: string)
    ensures Trim(first + " " + "") == Trim(first)
  {
    assert AllWhitespace(" ");
    assert first + " " + "" == [] + first + " ";
    TrimIgnoresPadding([], first, " ");
  }

  /** A last name with no first name: the template's leading space is trimmed away. */
  lemma LastPartOnly(last: string)
    ensures Trim("" + " " + last) == Trim(last)
  {
    assert AllWhitespace(" ");
    assert "" + " " + last == " " + last + [];
    TrimIgnoresPadding(" ", last, []);
  }

  lemma TwoPartName(f: string, l: string)
    requires f != "" && l != "" && IsTrimmed(f) && IsTrimmed(l)
    ensures Trim(f + " " + l) == f + " " + l
  {
    var s := f + " " + l;
    assert s[0] == f[0] && s[|s| - 1] == l[|l| - 1];
    assert s == [] + s + [];
    TrimUnique([], s, []);
  }

  /** `mapShopifyCustomerToProfile`. */
  function MapCustomerToProfile(c: Customer): (p: Profile)
    ensures p.fullName == DisplayName(c.firstName, c.lastName) && IsTrimmed(p.fullName)
    ensures p.email == "" <==> !Truthy(c.email)
    ensures Truthy(c.email) ==> p.email == c.email.value
    ensures p.nickname == "" <==> !Truthy(c.note)
    ensures Truthy(c.note) ==> p.nickname == c.note.value
    ensures p.notifications == Notifications(true, true) && p.mode == "shopify"
  {
    Profile(
      DisplayName(c.firstName, c.lastName),
      Or(c.email, ""),
      Or(c.note, ""),
      Notifications(true, true),
      "shopify")
  }

  datatype NameParts = NameParts(first: string, last: string)

  /**
   * `const [firstName, ...rest] = (fullName || "").split(" ")` and
   * `rest.join(" ")`: the first name is everything before the first space,
   * the last name everything after it.
   */
  function SplitFullName(fullName: Option<string>): (n: NameParts)
    ensures ' ' !in n.first
    ensures var s := Or(fullName, "");
      && (' ' in s ==> n.first + " " + n.last == s)
      && (' ' !in s ==> n.first == s && n.last == "")
  {
    var s := Or(fullName, "");
    var parts := Split(s, ' ');
    JoinSplit(s, ' ');
    NameParts(parts[0], Join(parts[1..], ' '))
  }

  /** The body of a profile edit; its `notifications` field is read but not used. */
  datatype ProfileEdit = ProfileEdit(
    fullName: Option<string>,
    email: Option<string>,
    nickname: Option<string>)

  /** The `customer` object sent upstream; `None` is a JSON `null`. */
  datatype UpdatePayload = UpdatePayload(
    id: string,
    firstName: Option<string>,
    lastName: Option<string>,
    email: Option<string>,
    note: string)

  /** The update payload: empty names and email are sent as `null`, an empty nickname as "". */
  function BuildUpdatePayload(customerId: string, edit: ProfileEdit): (p: UpdatePayload)
    ensures p.id == customerId
    ensures p.firstName != Some("") && p.lastName != Some("") && p.email != Some("")
    ensures ' ' !in Or(p.firstName, "")
    ensures Or(p.email, "") == Or(edit.email, "")
    ensures p.note == "" <==> !Truthy(edit.nickname)
    ensures Truthy(edit.nickname) ==> p.note == edit.nickname.value
    ensures var s := Or(edit.fullName, "");
      && (' ' in s ==> Or(p.firstName, "") + " " + Or(p.lastName, "") == s)
      && (' ' !in s ==> Or(p.firstName, "") == s && p.lastName == None)
  {
    var n := SplitFullName(edit.fullName);
    UpdatePayload(
      customerId,
      OrNull(Some(n.first)),
      OrNull(Some(n.last)),
      OrNull(edit.email),
      Or(edit.nickname, ""))
  }

  /** The customer record upstream holds once it has applied `p` verbatim. */
  function AppliedUpdate(p: UpdatePayload): Customer {
    Customer(p.firstName, p.lastName, p.email, Some(p.note))
  }

  /**
   * Reading a profile back after an update that upstream applied verbatim
   * gives the edit, with the full name trimmed.
   */
  lemma UpdateThenRead(customerId: string, edit: ProfileEdit)
    ensures MapCustomerToProfile(AppliedUpdate(BuildUpdatePayload(customerId, edit)))
      == Profile(Trim(Or(edit.fullName, "")), Or(edit.email, ""), Or(edit.nickname, ""),
                 Notifications(true, true), "shopify")
  {
    var s := Or(edit.fullName, "");
    var n := SplitFullName(edit.fullName);
    var p := BuildUpdatePayload(customerId, edit);
    OrAfterOrNull(Some(n.first), "");
    OrAfterOrNull(Some(n.last), "");
    OrAfterOrNull(edit.email, "");
    var f, l := Or(p.firstName, ""), Or(p.lastName, "");
    assert f == n.first && l == n.last;
    if ' ' !in s {
      assert AllWhitespace(" ");
      assert f + " " + l == [] + s + " ";
      TrimIgnoresPadding([], s, " ");
    }
    assert DisplayName(p.firstName, p.lastName) == Trim(s);
  }

  /**
   * A first word without spaces, a space, then anything: the split gives the
   * word and the rest back, whatever spaces the rest holds.
   */
  lemma SplitFirstWord(first: string, rest: string)
    requires ' ' !in first
    ensures SplitFullName(Some(first + " " + rest)) == NameParts(first, rest)
  {
    var s := first + " " + rest;
    var n := SplitFullName(Some(s));
    assert Or(Some(s), "") == s;
    assert n.first + " " + n.last == s;
    var j, k := |n.first|, |first|;
    assert s[j] == ' ' && s[k] == ' ';
    assert forall i :: 0 <= i < k ==> s[i] == first[i] != ' ';
    assert forall i :: 0 <= i < j ==> s[i] == n.first[i] != ' ';
    assert j == k;
    assert n.first == s[..k] == first;
    assert n.last == s[k + 1..] == rest;
  }

  /**
   * The example names "Jean Paul Dupont" and "Jean Dupont", written word by
   * word. The names are parameters fixed by `requires` so that the verifier
   * does not unfold the recursive split over literal strings.
   */
  lemma SplitExamples(three: string, two: string)
    requires three == "Jean" + " " + "Paul Dupont" && two == "Jean" + " " + "Dupont"
    ensures SplitFullName(Some(three)) == NameParts("Jean", "Paul Dupont")
    ensures SplitFullName(Some(two)) == NameParts("Jean", "Dupont")
  {
    assert ' ' !in "Jean";
    SplitFirstWord("Jean", "Paul Dupont");
    SplitFirstWord("Jean", "Dupont");
  }
}
