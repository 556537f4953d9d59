/** `ContactPanel`: the create/edit form for a contact and its zod schema. */
module ContactPanel {
  import opened Forms

  datatype ContactInput = ContactInput(
    name: Input, email: Input, phone: Input, description: Input, id: Input, isActive: Input)

  const NameRequired := "Tên liên hệ là bắt buộc."
  const EmailInvalid := "Cần nhập email đúng định dạng"

  /** `z.union([z.literal(""), z.string().email(...)])`: no `optional`, so a missing e-mail is refused. */
  function EmailVerdict(v: Input, isEmail: string -> bool): (r: Verdict)
    ensures Sound(r)
    ensures Clean(r) <==> v == Str("") || (v.Str? && isEmail(v.s))
  {
    Union(Literal(v, "email", ""), Email(v, "email", EmailInvalid, isEmail), "email")
  }

  /** `schema`. */
  function Validate(f: ContactInput, isEmail: string -> bool): (r: Verdict)
    ensures Sound(r)
  {
    Both(StringMin(f.name, "name", 1, NameRequired),
    Both(EmailVerdict(f.email, isEmail),
    Both(Optional(f.phone, StringMin(f.phone, "phone", 0, "")),
    Both(Optional(f.description, StringMin(f.description, "description", 0, "")),
    Both(Optional(f.id, StringMin(f.id, "id", 0, "")),
         Boolean(f.isActive, "isActive"))))))
  }

  /**
   * A contact is accepted exactly when it has a non-empty name, an e-mail that
   * is "" or well-formed, optional text for phone, description and id, and a
   * boolean `isActive`.
   */
  lemma AcceptsExactly(f: ContactInput, isEmail: string -> bool)
    ensures Clean(Validate(f, isEmail)) <==>
      f.name.Str? && |f.name.s| >= 1
      && (f.email == Str("") || (f.email.Str? && isEmail(f.email.s)))
      && (f.phone == Undefined || f.phone.Str?)
      && (f.description == Undefined || f.description.Str?)
      && (f.id == Undefined || f.id.Str?)
      && f.isActive.Flag?
  {
  }

  /** A missing e-mail stops the parse with a union error, whatever the e-mail check is. */
  lemma MissingEmailRefused(isEmail: string -> bool)
    ensures EmailVerdict(Undefined, isEmail) == Verdict([Issue("email", InvalidUnion)], true)
  {
  }

  /** `initFormValues`: empty texts, active. */
  const InitFormValues := ContactInput(Str(""), Str(""), Str(""), Str(""), Undefined, Flag(true))

  /** Only the name rule refuses the initial values. */
  lemma InitFormValuesIssues(isEmail: string -> bool)
    ensures Validate(InitFormValues, isEmail) == Verdict([Issue("name", NameRequired)], false)
  {
  }
}
