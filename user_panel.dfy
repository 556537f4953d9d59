/** `UserPanel`: the create/edit form for a user account and its zod schema. */
module UserPanel {
  import opened Wrappers
  import opened Forms
  import opened Domain
  import LoginSchema

  /** The form's values as handed to the resolver. */
  datatype UserInput = UserInput(
    name: Input, username: Input, email: Input, phone: Input,
    role: Input, department: Input, isActive: Input, id: Input, password: Input)

  const NameRequired := "Tên là bắt buộc."
  const UsernameTooShort := "Tên đăng nhập phải có ít nhất 3 ký tự."
  const EmailInvalid := "Email không hợp lệ."
  const RoleRequired := "Vai trò là bắt buộc"
  const DepartmentRequired := "Khoa là bắt buộc"
  /** The message the password bound reports, whatever the bound. */
  const PasswordTooShort := "Mật khẩu phải có ít nhất 6 ký tự."
  const PasswordRequiredOnCreate := "Mật khẩu là bắt buộc khi tạo tài khoản mới."

  /** The password bound as written, and the bound its message announces. */
  const WrittenPasswordMin: nat := 3
  const IntendedPasswordMin: nat := 6

  predicate IsRole(s: string) { ParseRole(s).Some? }
  predicate IsDepartment(s: string) { ParseDepartment(s).Some? }

  /** `z.string().email(...).optional().nullable().or(z.literal(""))`. */
  function EmailVerdict(v: Input, isEmail: string -> bool): (r: Verdict)
    ensures Sound(r)
    ensures Clean(r) <==> v == Undefined || v == Null || v == Str("") || (v.Str? && isEmail(v.s))
  {
    Union(Nullable(v, Optional(v, Email(v, "email", EmailInvalid, isEmail))), Literal(v, "email", ""), "email")
  }

  /** `z.union([z.literal(""), z.string().min(passwordMin, ...)])`. */
  function PasswordVerdict(v: Input, passwordMin: nat): (r: Verdict)
    ensures Sound(r)
    ensures Clean(r) <==> v.Str? && (v.s == "" || |v.s| >= passwordMin)
  {
    Union(Literal(v, "password", ""), StringMin(v, "password", passwordMin, PasswordTooShort), "password")
  }

  /** The field checks, in the schema's declaration order, with the given password bound. */
  function FieldVerdicts(f: UserInput, isEmail: string -> bool, passwordMin: nat): (r: Verdict)
    ensures Sound(r)
  {
    Both(StringMin(f.name, "name", 1, NameRequired),
    Both(StringMin(f.username, "username", 3, UsernameTooShort),
    Both(EmailVerdict(f.email, isEmail),
    Both(Nullable(f.phone, Optional(f.phone, StringMin(f.phone, "phone", 0, ""))),
    Both(Enum(f.role, "role", RoleRequired, IsRole),
    Both(Enum(f.department, "department", DepartmentRequired, IsDepartment),
    Both(Boolean(f.isActive, "isActive"),
    Both(Optional(f.id, StringMin(f.id, "id", 0, "")),
         PasswordVerdict(f.password, passwordMin)))))))))
  }

  /** The schema with the given password bound; the refinement asks for a password when there is no `id`. */
  function ValidateWith(f: UserInput, isEmail: string -> bool, passwordMin: nat): Verdict {
    Refined(FieldVerdicts(f, isEmail, passwordMin), Truthy(f.id) || Truthy(f.password),
            "password", PasswordRequiredOnCreate)
  }

  /** `schema` as written. */
  function Validate(f: UserInput, isEmail: string -> bool): Verdict {
    ValidateWith(f, isEmail, WrittenPasswordMin)
  }

  /** The values each field accepts, stated without zod. */
  predicate FieldsAcceptable(f: UserInput, isEmail: string -> bool, passwordMin: nat) {
    f.name.Str? && |f.name.s| >= 1
    && f.username.Str? && |f.username.s| >= 3
    && (f.email == Undefined || f.email == Null || f.email == Str("") || (f.email.Str? && isEmail(f.email.s)))
    && (f.phone == Undefined || f.phone == Null || f.phone.Str?)
    && f.role.Str? && ParseRole(f.role.s).Some?
    && f.department.Str? && ParseDepartment(f.department.s).Some?
    && f.isActive.Flag?
    && (f.id == Undefined || f.id.Str?)
    && f.password.Str? && (f.password.s == "" || |f.password.s| >= passwordMin)
  }

  /**
   * The form is accepted exactly when every field holds an acceptable value and,
   * without an `id` (a new account), the password is not empty.
   */
  lemma AcceptsExactly(f: UserInput, isEmail: string -> bool, passwordMin: nat)
    ensures Clean(ValidateWith(f, isEmail, passwordMin))
        <==> FieldsAcceptable(f, isEmail, passwordMin) && (Truthy(f.id) || Truthy(f.password))
  {
  }

  /** Creating an account (no `id`) needs a password of at least the bound. */
  lemma CreateRequiresPassword(f: UserInput, isEmail: string -> bool, passwordMin: nat)
    requires Clean(ValidateWith(f, isEmail, passwordMin)) && !Truthy(f.id)
    ensures f.password.Str? && |f.password.s| >= passwordMin && f.password.s != ""
  {
    AcceptsExactly(f, isEmail, passwordMin);
  }

  /** Editing an account (an `id`) may leave the password empty. */
  lemma EditMayKeepPassword(f: UserInput, isEmail: string -> bool)
    requires FieldsAcceptable(f, isEmail, WrittenPasswordMin) && Truthy(f.id) && f.password == Str("")
    ensures Clean(Validate(f, isEmail))
  {
    AcceptsExactly(f, isEmail, WrittenPasswordMin);
  }

  /** `initFormValues`: a new active user in the school office, every text empty. */
  const InitFormValues := UserInput(Str(""), Str(""), Str(""), Str(""), Str("USER"), Str("SCHOOLOFFICE"),
                                    Flag(true), Undefined, Str(""))

  /** The initial values are refused for the name, the username and the missing password, in that order. */
  lemma InitFormValuesIssues(isEmail: string -> bool)
    ensures Validate(InitFormValues, isEmail).issues
         == [Issue("name", NameRequired), Issue("username", UsernameTooShort),
             Issue("password", PasswordRequiredOnCreate)]
  {
  }

  /**
   * As written, a new account whose password has 3 to 5 characters passes the
   * form, yet `loginSchema` refuses every such password, so that account can
   * never sign in.
   */
  lemma ShortPasswordPassesFormNotLogin(f: UserInput, isEmail: string -> bool)
    requires Clean(Validate(f, isEmail)) && f.password.Str? && |f.password.s| < IntendedPasswordMin
    ensures f.username.Str?
    ensures !LoginSchema.Accepts(LoginSchema.LoginBody(LoginSchema.Text(f.username.s), LoginSchema.Text(f.password.s)))
  {
    AcceptsExactly(f, isEmail, WrittenPasswordMin);
  }

  /** One such account: username "abc", password "abc". */
  lemma ShortPasswordExample(isEmail: string -> bool)
    ensures var f := InitFormValues.(name := Str("A"), username := Str("abc"), password := Str("abc"));
      Clean(Validate(f, isEmail)) && f.password.Str? && |f.password.s| < IntendedPasswordMin
  {
    var f := InitFormValues.(name := Str("A"), username := Str("abc"), password := Str("abc"));
    AcceptsExactly(f, isEmail, WrittenPasswordMin);
    assert ParseRole("USER").Some? && ParseDepartment("SCHOOLOFFICE").Some?;
  }

  /** With the bound its message announces, every account the form creates passes `loginSchema`. */
  lemma IntendedCreateCanSignIn(f: UserInput, isEmail: string -> bool)
    requires Clean(ValidateWith(f, isEmail, IntendedPasswordMin)) && !Truthy(f.id)
    ensures f.username.Str? && f.password.Str?
    ensures LoginSchema.Accepts(LoginSchema.LoginBody(LoginSchema.Text(f.username.s), LoginSchema.Text(f.password.s)))
  {
    AcceptsExactly(f, isEmail, IntendedPasswordMin);
  }
}
