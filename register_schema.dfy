/**
 * `registerSchema`: the sign-up form's fields, the check that both passwords
 * agree, and the empty form the page starts from. zod's own email test is
 * passed in as `isEmail`.
 */
module RegisterSchema {
  import opened ZodChecks

  datatype RegisterField = Name | Email | Password | ConfirmPassword

  datatype RegisterFormData = RegisterFormData(name: string, email: string, password: string, confirmPassword: string)

  const PasswordTooShort := "Password must be at least 6 characters"
  const PasswordTooLong := "Password must be less than 50 characters"
  const PasswordsDiffer := "Passwords not match"

  /** The issues of the field checks, field by field in the schema's order. */
  function FieldIssues(f: RegisterFormData, isEmail: string -> bool): seq<Issue<RegisterField>> {
    MinLength(Name, f.name, 1, "Name is required")
    + EmailCheck(Email, f.email, isEmail, "Enter valid email address") + MinLength(Email, f.email, 1, "Email is required")
    + MinLength(Password, f.password, 6, PasswordTooShort) + MaxLength(Password, f.password, 50, PasswordTooLong)
    + MinLength(ConfirmPassword, f.confirmPassword, 6, PasswordTooShort)
    + MaxLength(ConfirmPassword, f.confirmPassword, 50, PasswordTooLong)
  }

  /**
   * The object's issues followed by the refinement's: the passwords are
   * compared even when a field check failed, and a mismatch is reported on
   * `confirmPassword`.
   */
  function RegisterIssues(f: RegisterFormData, isEmail: string -> bool): seq<Issue<RegisterField>> {
    FieldIssues(f, isEmail)
    + (if f.password == f.confirmPassword then [] else [Issue(ConfirmPassword, PasswordsDiffer)])
  }

  predicate ValidRegisterForm(f: RegisterFormData, isEmail: string -> bool) {
    RegisterIssues(f, isEmail) == []
  }

  /**
   * A form is valid exactly when the name is non-empty, the email passes the
   * email test and is non-empty, both passwords have 6 to 50 characters, and
   * they are equal.
   */
  lemma ValidRegisterFormIff(f: RegisterFormData, isEmail: string -> bool)
    ensures ValidRegisterForm(f, isEmail) <==>
      (|f.name| >= 1 && isEmail(f.email) && |f.email| >= 1 && 6 <= |f.password| <= 50
      && 6 <= |f.confirmPassword| <= 50 && f.password == f.confirmPassword)
  {
  }

  /** Differing passwords are always reported, on the confirmation field, whatever else is wrong. */
  lemma MismatchReportedOnConfirmation(f: RegisterFormData, isEmail: string -> bool)
    requires f.password != f.confirmPassword
    ensures !ValidRegisterForm(f, isEmail)
    ensures RegisterIssues(f, isEmail)[|RegisterIssues(f, isEmail)| - 1] == Issue(ConfirmPassword, PasswordsDiffer)
  {
  }

  /** The mismatch issue is raised only for differing passwords, and only on the confirmation field. */
  lemma MismatchIssueOnlyForMismatch(f: RegisterFormData, isEmail: string -> bool, i: Issue<RegisterField>)
    requires i in RegisterIssues(f, isEmail) && i.message == PasswordsDiffer
    ensures f.password != f.confirmPassword && i.path == ConfirmPassword
  {
    assert i !in FieldIssues(f, isEmail);
  }

  /** An empty email gets both the format issue and the required issue, in that order. */
  lemma EmptyEmailIssues(f: RegisterFormData, isEmail: string -> bool)
    requires f.email == "" && !isEmail("")
    ensures var issues := RegisterIssues(f, isEmail);
      exists k :: 0 <= k < |issues| - 1 && issues[k] == Issue(Email, "Enter valid email address")
        && issues[k + 1] == Issue(Email, "Email is required")
  {
    var name := MinLength(Name, f.name, 1, "Name is required");
    var issues := RegisterIssues(f, isEmail);
    assert issues[|name|] == Issue(Email, "Enter valid email address");
    assert issues[|name| + 1] == Issue(Email, "Email is required");
  }

  /** `defaultValues`: every field empty. */
  const DefaultRegisterFormData := RegisterFormData("", "", "", "")

  /** The empty form fails whatever the email test says; its passwords agree, so no mismatch is reported. */
  lemma DefaultRegisterFormRejected(isEmail: string -> bool)
    ensures !ValidRegisterForm(DefaultRegisterFormData, isEmail)
    ensures Issue(Name, "Name is required") in RegisterIssues(DefaultRegisterFormData, isEmail)
    ensures Issue(Password, PasswordTooShort) in RegisterIssues(DefaultRegisterFormData, isEmail)
    ensures Issue(ConfirmPassword, PasswordsDiffer) !in RegisterIssues(DefaultRegisterFormData, isEmail)
  {
  }
}
