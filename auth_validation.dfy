/** Field rules for the sign-in and registration forms (src/lib/auth-validation.ts). Each rule
    returns the same result shape as the invoice rules. */
module AuthValidation {
  import opened Text
  import opened InvoiceValidation
  import ClientValidation

  const EmailRequired: string := "Email is required"
  const EmailBadFormat: string := "Invalid email format"
  const PasswordRequired: string := "Password is required"
  const PasswordTooShort: string := "Password must be at least 8 characters"
  const NameRequired: string := "Name is required"
  const NameTooShort: string := "Name must be at least 2 characters"

  const MinPasswordLength: nat := 8
  const MinNameLength: nat := 2

  /** `validateEmail`: only the empty string is "required"; anything else, whitespace included,
      must match the same pattern the client form uses. */
  function ValidateEmail(email: string): (r: ValidationResult)
    ensures r.field == "email"
    ensures r.valid <==> ClientValidation.EmailPattern(email)
    ensures r.message == EmailRequired <==> email == []
    ensures r.message == EmailBadFormat <==> email != [] && !ClientValidation.EmailPattern(email)
    ensures r.valid <==> r.message == ""
  {
    if email == [] then InvalidResult("email", EmailRequired)
    else if !ClientValidation.EmailPattern(email) then InvalidResult("email", EmailBadFormat)
    else ValidResult("email")
  }

  /** `validatePassword`: at least eight characters; the empty password is "required". */
  function ValidatePassword(password: string): (r: ValidationResult)
    ensures r.field == "password"
    ensures r.valid <==> |password| >= MinPasswordLength
    ensures r.message == PasswordRequired <==> password == []
    ensures r.message == PasswordTooShort <==> 0 < |password| < MinPasswordLength
    ensures r.valid <==> r.message == ""
  {
    if password == [] then InvalidResult("password", PasswordRequired)
    else if |password| < 8 then InvalidResult("password", PasswordTooShort)
    else ValidResult("password")
  }

  /** `validateName`: at least two characters; the empty name is "required". Whitespace counts. */
  function ValidateName(name: string): (r: ValidationResult)
    ensures r.field == "name"
    ensures r.valid <==> |name| >= MinNameLength
    ensures r.message == NameRequired <==> name == []
    ensures r.message == NameTooShort <==> 0 < |name| < MinNameLength
    ensures r.valid <==> r.message == ""
  {
    if name == [] then InvalidResult("name", NameRequired)
    else if |name| < 2 then InvalidResult("name", NameTooShort)
    else ValidResult("name")
  }

  /** The sign-in and client forms accept exactly the same emails; they differ only in wording,
      and in that a whitespace-only email is "required" on the client form but badly formatted
      here. */
  lemma EmailRulesAgree(email: string)
    ensures ValidateEmail(email).valid == ClientValidation.ValidateClientEmail(email).valid
    ensures email != [] && Blank(email) ==>
      ValidateEmail(email).message == EmailBadFormat &&
      ClientValidation.ValidateClientEmail(email).message == ClientValidation.EmailRequired
  {
    if email != [] && Blank(email) {
      ClientValidation.EmailPatternNotBlank(email);
    }
  }
}
