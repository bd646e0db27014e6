/**
 * `loginSchema`: the sign-in form's two fields and the empty form the page
 * starts from. zod's own email test is passed in as `isEmail`. Keys other
 * than the two fields are dropped by the object schema, not rejected.
 */
module LoginSchema {
  import opened ZodChecks

  datatype LoginField = Email | Password

  /** The submitted values: the two fields and whatever other keys came along. */
  datatype LoginFormData = LoginFormData(email: string, password: string, others: map<string, string>)

  /** The issues of a form, field by field in the schema's order. */
  function LoginIssues(f: LoginFormData, isEmail: string -> bool): seq<Issue<LoginField>> {
    EmailCheck(Email, f.email, isEmail, "Enter valid email address") + MinLength(Email, f.email, 1, "Email is required")
    + MinLength(Password, f.password, 6, "Password must be at least 6 characters")
    + MaxLength(Password, f.password, 50, "Password must be less than 50 characters")
  }

  predicate ValidLoginForm(f: LoginFormData, isEmail: string -> bool) {
    LoginIssues(f, isEmail) == []
  }

  /** A form is valid exactly when the email passes the test and is non-empty and the password has 6 to 50 characters. */
  lemma ValidLoginFormIff(f: LoginFormData, isEmail: string -> bool)
    ensures ValidLoginForm(f, isEmail) <==> (isEmail(f.email) && |f.email| >= 1 && 6 <= |f.password| <= 50)
  {
  }

  /** Only the email and the password are constrained: other keys never change the issues. */
  lemma OtherKeysIgnored(f: LoginFormData, others: map<string, string>, isEmail: string -> bool)
    ensures LoginIssues(f.(others := others), isEmail) == LoginIssues(f, isEmail)
  {
  }

  /** Every issue is attached to a field whose check failed. */
  lemma LoginIssuesBelongToFailingFields(f: LoginFormData, isEmail: string -> bool, i: Issue<LoginField>)
    requires i in LoginIssues(f, isEmail)
    ensures i.path == Email ==> !(isEmail(f.email) && |f.email| >= 1)
    ensures i.path == Password ==> !(6 <= |f.password| <= 50)
  {
  }

  /** `defaultValues`: both fields empty. */
  const DefaultLoginFormData := LoginFormData("", "", map[])

  /** The empty form fails whatever the email test says, at least on the password's length. */
  lemma DefaultLoginFormRejected(isEmail: string -> bool)
    ensures !ValidLoginForm(DefaultLoginFormData, isEmail)
    ensures Issue(Password, "Password must be at least 6 characters") in LoginIssues(DefaultLoginFormData, isEmail)
    ensures Issue(Email, "Email is required") in LoginIssues(DefaultLoginFormData, isEmail)
  {
  }
}
