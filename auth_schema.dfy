/** The login and sign-up form rules. The e-mail format rule is not part of this model. */
module AuthSchema {

  /** A rule a form breaks: the field it is reported on and its message. */
  datatype Issue = Issue(path: string, message: string)

  const MinPasswordLength: nat := 6
  const MinPhoneLength: nat := 9

  const PasswordTooShort := Issue("password", "Password must be at least 6 characters")
  const InvalidRole := Issue("role", "Invalid role")
  const PhoneTooShort := Issue("phone", "Phone number must be at least 9 digits")
  const PasswordsDiffer := Issue("confirmPassword", "Passwords don't match")

  /** The roles the enum admits. */
  predicate IsRole(role: string) {
    role == "user" || role == "admin"
  }

  datatype LoginForm = LoginForm(email: string, password: string)

  /** `loginSchema`: the issues a login form raises. */
  function LoginIssues(f: LoginForm): (issues: seq<Issue>)
    ensures issues == [] <==> |f.password| >= 6
    ensures issues != [] ==> issues == [PasswordTooShort]
  {
    if |f.password| < MinPasswordLength then [PasswordTooShort] else []
  }

  datatype SignupForm = SignupForm(email: string, password: string, confirmPassword: string, role: string, phone: string)

  /** `signupSchema`: the field rules in field order, then the equality refinement, which
      is reported on `confirmPassword`. A role outside the enum aborts the object parse,
      so the refinement does not run then; a length rule that fails does not abort. */
  function SignupIssues(f: SignupForm): (issues: seq<Issue>)
    ensures issues == [] <==>
              |f.password| >= 6 && IsRole(f.role) && |f.phone| >= 9 && f.password == f.confirmPassword
    ensures PasswordTooShort in issues <==> |f.password| < 6
    ensures InvalidRole in issues <==> !IsRole(f.role)
    ensures PhoneTooShort in issues <==> |f.phone| < 9
    ensures PasswordsDiffer in issues <==> IsRole(f.role) && f.password != f.confirmPassword
    ensures forall i :: i in issues && i.path == "confirmPassword" ==> i == PasswordsDiffer
  {
    (if |f.password| < MinPasswordLength then [PasswordTooShort] else [])
    + (if !IsRole(f.role) then [InvalidRole] else [])
    + (if |f.phone| < MinPhoneLength then [PhoneTooShort] else [])
    + (if IsRole(f.role) && f.password != f.confirmPassword then [PasswordsDiffer] else [])
  }

  /** The confirmation has no length rule of its own: with a matching password, a short
      confirmation raises no issue on `confirmPassword`, and a mismatch is the only issue
      that field can raise. */
  lemma ConfirmationOnlyChecksEquality(f: SignupForm)
    requires f.password == f.confirmPassword
    ensures forall i :: i in SignupIssues(f) ==> i.path != "confirmPassword"
  {
  }

  /** An invalid role hides a password mismatch: the form reports the role alone, and the
      mismatch shows only once the role is corrected. */
  lemma InvalidRoleHidesMismatch(f: SignupForm)
    requires !IsRole(f.role) && f.password != f.confirmPassword
    ensures PasswordsDiffer !in SignupIssues(f)
    ensures PasswordsDiffer in SignupIssues(f.(role := "user"))
  {
  }

  /** The sign-up password rule is the login password rule: a password the sign-up form
      accepts is accepted by the login form. */
  lemma SignupPasswordPassesLogin(f: SignupForm)
    requires SignupIssues(f) == []
    ensures LoginIssues(LoginForm(f.email, f.password)) == []
  {
  }
}
