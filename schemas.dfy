/** The `clientSchema` object schema (src/lib/schemas.ts): presence and length bounds on a client
    record, with every failed check reported, in field order and check order. */
module Schemas {
  import opened Results

  const MaxNameLength: nat := 200
  const MaxEmailLength: nat := 254
  const MaxPhoneLength: nat := 50
  const MaxAddressLength: nat := 500

  /** A value of a field declared `.optional().nullable()`. */
  datatype Nullable = Missing | Null | Present(text: string)

  datatype ClientInput = ClientInput(name: string, email: string, phone: Nullable, address: Nullable)

  /** One failed check: the field's key and the schema's message. */
  datatype Issue = Issue(path: string, message: string)

  /** The checks of `name`: `.min(1)`, then `.max(200)`. */
  function NameIssues(name: string): (issues: seq<Issue>)
    ensures issues == [] <==> 1 <= |name| <= MaxNameLength
    ensures |issues| <= 1
    ensures forall k :: 0 <= k < |issues| ==> issues[k].path == "name"
  {
    (if |name| < 1 then [Issue("name", "Name is required")] else [])
    + (if |name| > 200 then [Issue("name", "Name must be 200 characters or less")] else [])
  }

  /** The checks of `email`: `.min(1)`, `.email()`, then `.max(254)`. The library's email test is
      the parameter `isEmail`. */
  function EmailIssues(email: string, isEmail: string -> bool): (issues: seq<Issue>)
    ensures issues == [] <==> 1 <= |email| <= MaxEmailLength && isEmail(email)
    ensures |issues| <= 2
    ensures forall k :: 0 <= k < |issues| ==> issues[k].path == "email"
    ensures email == [] ==> issues[0] == Issue("email", "Email is required")
    ensures |email| > MaxEmailLength ==> issues[|issues| - 1] == Issue("email", "Email must be 254 characters or less")
  {
    (if |email| < 1 then [Issue("email", "Email is required")] else [])
    + (if !isEmail(email) then [Issue("email", "Invalid email format")] else [])
    + (if |email| > 254 then [Issue("email", "Email must be 254 characters or less")] else [])
  }

  /** The check of a nullable optional text field: only a present value is measured. */
  function OptionalIssues(path: string, value: Nullable, max: nat, message: string): (issues: seq<Issue>)
    ensures issues == [] <==> (value.Present? ==> |value.text| <= max)
    ensures issues != [] ==> issues == [Issue(path, message)]
  {
    if value.Present? && |value.text| > max then [Issue(path, message)] else []
  }

  /** Every issue `clientSchema.safeParse` reports, in field order. */
  function ClientIssues(input: ClientInput, isEmail: string -> bool): (issues: seq<Issue>)
    ensures |issues| <= 5
    ensures forall k :: 0 <= k < |issues| ==> issues[k].path in ["name", "email", "phone", "address"]
  {
    NameIssues(input.name) + EmailIssues(input.email, isEmail)
    + OptionalIssues("phone", input.phone, 50, "Phone must be 50 characters or less")
    + OptionalIssues("address", input.address, 500, "Address must be 500 characters or less")
  }

  /** The record a client form must satisfy. */
  predicate WellFormed(input: ClientInput, isEmail: string -> bool) {
    && 1 <= |input.name| <= MaxNameLength
    && 1 <= |input.email| <= MaxEmailLength && isEmail(input.email)
    && (input.phone.Present? ==> |input.phone.text| <= MaxPhoneLength)
    && (input.address.Present? ==> |input.address.text| <= MaxAddressLength)
  }

  /** `clientSchema.safeParse`: the record itself, or every issue found. */
  function SafeParse(input: ClientInput, isEmail: string -> bool): (r: Result<ClientInput, seq<Issue>>)
    ensures r.Ok? <==> WellFormed(input, isEmail)
    ensures r.Ok? ==> r.value == input
    ensures r.Err? ==> r.error != [] && |r.error| <= 5
  {
    var issues := ClientIssues(input, isEmail);
    if issues == [] then Ok(input) else Err(issues)
  }

  /** The issues of each field come before those of the next: name, email, phone, address. */
  lemma IssuesInFieldOrder(input: ClientInput, isEmail: string -> bool, i: nat, j: nat)
    requires i < j < |ClientIssues(input, isEmail)|
    ensures FieldRank(ClientIssues(input, isEmail)[i].path) <= FieldRank(ClientIssues(input, isEmail)[j].path)
  {
    var n := NameIssues(input.name);
    var e := EmailIssues(input.email, isEmail);
    var p := OptionalIssues("phone", input.phone, 50, "Phone must be 50 characters or less");
    var a := OptionalIssues("address", input.address, 500, "Address must be 500 characters or less");
    var all := n + e + p + a;
    assert all == ClientIssues(input, isEmail);
    forall k | 0 <= k < |all|
      ensures FieldRank(all[k].path) == if k < |n| then 0 else if k < |n| + |e| then 1
                                        else if k < |n| + |e| + |p| then 2 else 3
    {
      if k < |n| {
        assert all[k] == n[k];
      } else if k < |n| + |e| {
        assert all[k] == e[k - |n|];
      } else if k < |n| + |e| + |p| {
        assert all[k] == p[k - |n| - |e|];
      } else {
        assert all[k] == a[k - |n| - |e| - |p|];
      }
    }
  }

  /** The position of a field in the schema's declaration. */
  function FieldRank(path: string): nat {
    if path == "name" then 0 else if path == "email" then 1 else if path == "phone" then 2 else 3
  }

  /** Missing and null optional fields are accepted alike; only the length of a present one
      matters. */
  lemma OptionalFieldsNullable(input: ClientInput, isEmail: string -> bool)
    ensures SafeParse(input.(phone := Null), isEmail).Ok? == SafeParse(input.(phone := Missing), isEmail).Ok?
    ensures SafeParse(input.(address := Null), isEmail).Ok? == SafeParse(input.(address := Missing), isEmail).Ok?
  {
  }
}
