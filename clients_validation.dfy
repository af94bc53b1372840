/** Field rules for the client form (src/lib/clients-validation.ts). The result type is the one
    the invoice rules use: the two files declare the same shape. */
module ClientValidation {
  import opened Results
  import opened Text
  import opened InvoiceValidation

  // CLIENT_VALIDATION_MESSAGES
  const NameRequired: string := "Client name is required"
  const EmailRequired: string := "Email is required"
  const EmailInvalid: string := "Please enter a valid email address"

  datatype ClientFormData = ClientFormData(name: string, email: string, phone: Option<string>, address: Option<string>)

  /** A character the class `[^\s@]` accepts. */
  predicate EmailChar(c: char) {
    !IsSpace(c) && c != '@'
  }

  /** Every character except the one at `at` is accepted by `[^\s@]`. */
  predicate EmailCharsExcept(s: string, at: int) {
    forall k :: 0 <= k < |s| && k != at ==> EmailChar(s[k])
  }

  /** A '.' at `d` with at least one character between it and the '@' at `at`, and one after it. */
  predicate DotAt(s: string, at: int, d: int) {
    0 <= at && at + 1 < d < |s| - 1 && s[d] == '.'
  }

  /** `/^[^\s@]+@[^\s@]+\.[^\s@]+$/.test(s)`: a non-empty local part, one '@', and a domain with a
      dot that has a character on each side; no whitespace and no second '@' anywhere. Since '.'
      is itself in `[^\s@]`, any such dot lets the pattern match. */
  function EmailPattern(s: string): (r: bool)
    ensures r ==> 5 <= |s|
  {
    exists at :: 0 < at < |s| && s[at] == '@' && EmailCharsExcept(s, at) &&
      exists d :: 0 <= d < |s| && DotAt(s, at, d)
  }

  /** The same pattern read the other way round: cut at the first '@' and inspect both sides. */
  predicate EmailShape(s: string) {
    var local := BeforeFirst(s, '@');
    && 0 < |local| < |s|
    && EmailCharsExcept(s, |local|)
    && exists d :: 0 <= d < |s| && DotAt(s, |local|, d)
  }

  /** Matching the pattern is the same as having a non-empty part before the first '@', no
      further '@', no whitespace, and a dot strictly inside the domain. */
  lemma EmailPatternIffShape(s: string)
    ensures EmailPattern(s) <==> EmailShape(s)
  {
    var local := BeforeFirst(s, '@');
    if EmailPattern(s) {
      var at :| 0 < at < |s| && s[at] == '@' && EmailCharsExcept(s, at) &&
        exists d :: 0 <= d < |s| && DotAt(s, at, d);
    }
    if EmailShape(s) {
      assert s[|local|] == '@';
    }
  }

  /** A string the pattern accepts is never blank: its first character is not whitespace. */
  lemma EmailPatternNotBlank(s: string)
    ensures EmailPattern(s) ==> !Blank(s) && Trim(s) != []
  {
    if !EmailPattern(s) {
      return;
    }
    var at :| 0 < at < |s| && s[at] == '@' && EmailCharsExcept(s, at) &&
      exists d :: 0 <= d < |s| && DotAt(s, at, d);
    assert EmailChar(s[0]);
    TrimEmptyIffBlank(s);
  }

  /** `validateClientName`: a name that is empty or only whitespace is rejected. */
  function ValidateClientName(name: string): (r: ValidationResult)
    ensures r.field == "name"
    ensures r.valid <==> !Blank(name)
    ensures r.message == if r.valid then "" else NameRequired
  {
    TrimEmptyIffBlank(name);
    if name == [] || Trim(name) == [] then InvalidResult("name", NameRequired) else ValidResult("name")
  }

  /** `validateClientEmail`: a blank email is "required"; otherwise it must match the pattern. */
  function ValidateClientEmail(email: string): (r: ValidationResult)
    ensures r.field == "email"
    ensures r.valid <==> EmailPattern(email)
    ensures r.message == EmailRequired <==> Blank(email)
    ensures r.message == EmailInvalid <==> !Blank(email) && !EmailPattern(email)
    ensures r.valid <==> r.message == ""
  {
    TrimEmptyIffBlank(email);
    EmailPatternNotBlank(email);
    if email == [] || Trim(email) == [] then InvalidResult("email", EmailRequired)
    else if !EmailPattern(email) then InvalidResult("email", EmailInvalid)
    else ValidResult("email")
  }

  /** `validateClient`: the failed name check, then the failed email check. */
  function ValidateClient(data: ClientFormData): (errors: seq<ValidationResult>)
    ensures |errors| <= 2
    ensures errors == [] <==> !Blank(data.name) && EmailPattern(data.email)
    ensures forall k :: 0 <= k < |errors| ==> !errors[k].valid
    ensures Blank(data.name) <==> errors != [] && errors[0].field == "name"
    ensures |errors| == 2 ==> errors[0].field == "name" && errors[1].field == "email"
    ensures errors == (if Blank(data.name) then [ValidateClientName(data.name)] else []) +
                      (if EmailPattern(data.email) then [] else [ValidateClientEmail(data.email)])
  {
    Push(Push([], ValidateClientName(data.name)), ValidateClientEmail(data.email))
  }

  /** A typical address passes and an address without a dot in its domain does not. */
  lemma EmailExamples()
    ensures EmailPattern("ann@example.com")
    ensures !EmailPattern("ann@example")
    ensures !EmailPattern("@b.co")
  {
    assert DotAt("ann@example.com", 3, 11);
    assert EmailCharsExcept("ann@example.com", 3);
  }
}
