/** The user form rules used by the admin user dialog. The e-mail format rule is not
    part of this model. */
module UserSchema {
  import opened Js
  import opened Types
  import AuthSchema

  /** The form as entered; optional fields may be absent. */
  datatype UserForm = UserForm(
    username: string, email: string, role: string,
    firstName: Option<string>, lastName: Option<string>,
    phone: string, bio: Option<string>, profilePicture: Option<string>,
    balance: Option<int>)

  /** The parsed values: the role as an enum and the balance with its default filled in. */
  datatype UserFormValues = UserFormValues(
    username: string, email: string, role: Role,
    firstName: Option<string>, lastName: Option<string>,
    phone: string, bio: Option<string>, profilePicture: Option<string>,
    balance: int)

  datatype Parsed = Valid(values: UserFormValues) | Invalid(issues: seq<AuthSchema.Issue>)

  const MinUsernameLength: nat := 3
  const PhoneLength: nat := 9

  function RoleOf(role: string): Role
    requires AuthSchema.IsRole(role)
  {
    if role == "admin" then AdminRole else UserRole
  }

  /** `userFormSchema.safeParse`. */
  function ParseUserForm(f: UserForm): (p: Parsed)
    ensures p.Valid? <==> |f.username| >= 3 && AuthSchema.IsRole(f.role) && |f.phone| == 9
    ensures p.Valid? ==>
              p.values.username == f.username && p.values.email == f.email && p.values.phone == f.phone
              && (p.values.role == AdminRole <==> f.role == "admin")
              && p.values.firstName == f.firstName && p.values.lastName == f.lastName
              && p.values.bio == f.bio && p.values.profilePicture == f.profilePicture
              && p.values.balance == f.balance.GetOr(0)
    ensures p.Invalid? ==> p.issues != []
  {
    var issues :=
      (if |f.username| < MinUsernameLength then [AuthSchema.Issue("username", "Username must be at least 3 characters")] else [])
      + (if !AuthSchema.IsRole(f.role) then [AuthSchema.Issue("role", "Invalid option")] else [])
      + (if |f.phone| < PhoneLength then [AuthSchema.Issue("phone", "Phone must be at least 9 digits")] else [])
      + (if |f.phone| > PhoneLength then [AuthSchema.Issue("phone", "Phone must be at most 9 digits")] else []);
    if issues == [] then
      Valid(UserFormValues(f.username, f.email, RoleOf(f.role), f.firstName, f.lastName,
                           f.phone, f.bio, f.profilePicture, f.balance.GetOr(0)))
    else Invalid(issues)
  }

  /** The optional fields never decide validity: any choice of them, present or absent,
      parses the same way. */
  lemma OptionalFieldsDoNotMatter(f: UserForm, firstName: Option<string>, lastName: Option<string>,
                                  bio: Option<string>, profilePicture: Option<string>, balance: Option<int>)
    ensures ParseUserForm(f).Valid? ==
            ParseUserForm(f.(firstName := firstName, lastName := lastName, bio := bio,
                             profilePicture := profilePicture, balance := balance)).Valid?
  {
  }

  /** A phone the user form accepts also meets the sign-up phone rule, but the sign-up
      form accepts longer phones the user form refuses. */
  lemma PhoneRulesCompared(f: UserForm)
    ensures ParseUserForm(f).Valid? ==> |f.phone| >= AuthSchema.MinPhoneLength
    ensures |f.username| >= 3 && AuthSchema.IsRole(f.role) && |f.phone| == 10 ==> ParseUserForm(f).Invalid?
  {
  }
}
