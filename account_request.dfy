/** The account payload and its declarative field constraints. */
module AccountRequests {
  import opened Wrappers
  import opened Basics
  import opened RestErrors

  /** The create/update payload; each field is `null` when the JSON omits it. */
  datatype AccountRequest = AccountRequest(firstName: JString, lastName: JString, email: JString)

  const FirstNameRequired := FieldError("firstName", "First name is required")
  const LastNameRequired := FieldError("lastName", "Last name is required")
  const EmailRequired := FieldError("email", "Email is required")
  const EmailInvalid := FieldError("email", "Email must be valid")

  /** `@Email` lets `null` and the empty string through; any other value must have the shape
      `isEmail` accepts. The email grammar is the validator library's and is a parameter of
      the model. */
  predicate EmailMalformed(email: JString, isEmail: string -> bool) {
    email.Some? && email.value != "" && !isEmail(email.value)
  }

  predicate Acceptable(req: AccountRequest, isEmail: string -> bool) {
    !IsBlank(req.firstName) && !IsBlank(req.lastName) && !IsBlank(req.email)
    && !EmailMalformed(req.email, isEmail)
  }

  /** Every violated constraint of the payload, all reported together in declaration order. */
  function Violations(req: AccountRequest, isEmail: string -> bool): (errors: seq<FieldError>)
    ensures FirstNameRequired in errors <==> IsBlank(req.firstName)
    ensures LastNameRequired in errors <==> IsBlank(req.lastName)
    ensures EmailRequired in errors <==> IsBlank(req.email)
    ensures EmailInvalid in errors <==> EmailMalformed(req.email, isEmail)
    ensures forall i :: 0 <= i < |errors| ==>
              errors[i] in {FirstNameRequired, LastNameRequired, EmailRequired, EmailInvalid}
    ensures forall i, j :: 0 <= i < j < |errors| ==> errors[i] != errors[j]
    ensures errors == [] <==> Acceptable(req, isEmail)
  {
    (if IsBlank(req.firstName) then [FirstNameRequired] else [])
    + (if IsBlank(req.lastName) then [LastNameRequired] else [])
    + (if IsBlank(req.email) then [EmailRequired] else [])
    + (if EmailMalformed(req.email, isEmail) then [EmailInvalid] else [])
  }

  function Entry(violated: bool, e: FieldError): map<string, string> {
    if violated then map[e.field := e.message] else map[]
  }

  /** The `details` map the four constraints produce, given which of them are violated,
      reported in declaration order. */
  function ExpectedDetails(firstBlank: bool, lastBlank: bool, emailBlank: bool, emailMalformed: bool)
    : (d: map<string, string>)
    ensures d.Keys <= {"firstName", "lastName", "email"}
    ensures "firstName" in d <==> firstBlank
    ensures "firstName" in d ==> d["firstName"] == "First name is required"
    ensures "lastName" in d <==> lastBlank
    ensures "lastName" in d ==> d["lastName"] == "Last name is required"
    ensures "email" in d <==> emailBlank || emailMalformed
    ensures "email" in d ==> d["email"] in {"Email is required", "Email must be valid"}
    ensures emailBlank && !emailMalformed ==> d["email"] == "Email is required"
    ensures emailMalformed ==> d["email"] == "Email must be valid"
  {
    Entry(firstBlank, FirstNameRequired) + Entry(lastBlank, LastNameRequired)
    + Entry(emailBlank, EmailRequired) + Entry(emailMalformed, EmailInvalid)
  }

  /** The handler's `details` map for a payload's violations. */
  lemma ViolationDetails(req: AccountRequest, isEmail: string -> bool)
    ensures FieldDetails(Violations(req, isEmail)) ==
            ExpectedDetails(IsBlank(req.firstName), IsBlank(req.lastName), IsBlank(req.email),
                            EmailMalformed(req.email, isEmail))
  {
    var first := if IsBlank(req.firstName) then [FirstNameRequired] else [];
    var last := if IsBlank(req.lastName) then [LastNameRequired] else [];
    var required := if IsBlank(req.email) then [EmailRequired] else [];
    var shape := if EmailMalformed(req.email, isEmail) then [EmailInvalid] else [];
    assert Violations(req, isEmail) == first + last + required + shape;
    FieldDetailsAppend(first + last + required, shape);
    FieldDetailsAppend(first + last, required);
    FieldDetailsAppend(first, last);
    FieldDetailsSingle(FirstNameRequired);
    FieldDetailsSingle(LastNameRequired);
    FieldDetailsSingle(EmailRequired);
    FieldDetailsSingle(EmailInvalid);
  }

  /** The `details` map of a rejected payload has no entries beyond the three fields. */
  lemma DetailsFields(req: AccountRequest, isEmail: string -> bool)
    ensures FieldDetails(Violations(req, isEmail)).Keys <= {"firstName", "lastName", "email"}
  {
    ViolationDetails(req, isEmail);
  }

  /** A first name gets a `details` entry exactly when it is blank, with its message. */
  lemma FirstNameDetailsReported(req: AccountRequest, isEmail: string -> bool)
    ensures var d := FieldDetails(Violations(req, isEmail));
            && ("firstName" in d <==> IsBlank(req.firstName))
            && ("firstName" in d ==> d["firstName"] == "First name is required")
  {
    ViolationDetails(req, isEmail);
  }

  /** A last name gets a `details` entry exactly when it is blank, with its message. */
  lemma LastNameDetailsReported(req: AccountRequest, isEmail: string -> bool)
    ensures var d := FieldDetails(Violations(req, isEmail));
            && ("lastName" in d <==> IsBlank(req.lastName))
            && ("lastName" in d ==> d["lastName"] == "Last name is required")
  {
    ViolationDetails(req, isEmail);
  }

  /** The `details` map has an email entry exactly when the email is blank or malformed.
      When it is both, which of the two messages ends up in the map depends on the
      validator's reporting order. */
  lemma EmailDetailsReported(req: AccountRequest, isEmail: string -> bool)
    ensures var d := FieldDetails(Violations(req, isEmail));
            && ("email" in d <==> IsBlank(req.email) || EmailMalformed(req.email, isEmail))
            && ("email" in d ==> d["email"] in {"Email is required", "Email must be valid"})
            && (IsBlank(req.email) && !EmailMalformed(req.email, isEmail) ==> d["email"] == "Email is required")
            && (!IsBlank(req.email) && EmailMalformed(req.email, isEmail) ==> d["email"] == "Email must be valid")
  {
    ViolationDetails(req, isEmail);
  }

  /** A blank first name and a malformed email are reported together, each with its message. */
  lemma BlankFirstNameAndBadEmailReportedTogether(isEmail: string -> bool)
    requires !isEmail("invalid-email")
    ensures FieldDetails(Violations(AccountRequest(Some(""), Some("Doe"), Some("invalid-email")), isEmail))
            == map["firstName" := "First name is required", "email" := "Email must be valid"]
  {
    var req := AccountRequest(Some(""), Some("Doe"), Some("invalid-email"));
    assert !IsBlank(req.lastName) by { assert req.lastName.value[0] == 'D'; }
    assert !IsBlank(req.email) by { assert req.email.value[0] == 'i'; }
    ViolationDetails(req, isEmail);
  }
}
