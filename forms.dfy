/**
 * The part of zod's object validation the admin forms rely on (zod 3 rules):
 * every field of an object schema is checked in declaration order and all of
 * their issues are reported; a failed length or format check lets parsing go
 * on ("dirty"), while a value of the wrong type, an enum miss or a union none
 * of whose branches fits stops it ("aborted") and then object-level refinements
 * are skipped.
 */
module Forms {
  import opened Wrappers

  /** A value held by a form field, as JavaScript sees it; numbers are integers here. */
  datatype Input =
    | Undefined
    | Null
    | Str(s: string)
    | Num(n: int)
    | Flag(b: bool)
    | Date(time: int)
    | List(items: seq<Input>)

  /** JavaScript truthiness of a field value. */
  predicate Truthy(v: Input) {
    match v
    case Undefined | Null => false
    case Str(s) => s != []
    case Num(n) => n != 0
    case Flag(b) => b
    case Date(_) | List(_) => true
  }

  datatype Issue = Issue(path: string, message: string)

  /** The verdict on one field: its issues, and whether parsing was stopped. */
  datatype Verdict = Verdict(issues: seq<Issue>, aborted: bool)

  /** A stopped parse always reports why. */
  predicate Sound(v: Verdict) {
    v.aborted ==> v.issues != []
  }

  predicate Clean(v: Verdict) {
    v.issues == [] && !v.aborted
  }

  const Pass := Verdict([], false)

  /** A failed check: reported, parsing goes on. */
  function Flagged(path: string, message: string): (r: Verdict)
    ensures Sound(r) && !Clean(r) && !r.aborted
  {
    Verdict([Issue(path, message)], false)
  }

  /** A type-level failure: reported, parsing stops. */
  function Stopped(path: string, message: string): (r: Verdict)
    ensures Sound(r) && !Clean(r) && r.aborted
  {
    Verdict([Issue(path, message)], true)
  }

  /** zod's own messages; their exact wording is not part of this model. */
  const ExpectedString := "Expected string"
  const ExpectedBoolean := "Expected boolean"
  const ExpectedNumber := "Expected number"
  const ExpectedDate := "Expected date"
  const ExpectedArray := "Expected array"
  const InvalidLiteral := "Invalid literal value"
  const InvalidUnion := "Invalid input"
  const InvalidEnum := "Invalid enum value"

  /** `z.string().min(min, message)`; `min` 0 is a plain `z.string()`. */
  function StringMin(v: Input, path: string, min: nat, message: string): (r: Verdict)
    ensures Sound(r)
    ensures Clean(r) <==> v.Str? && |v.s| >= min
    ensures !r.aborted <==> v.Str?
  {
    match v
    case Str(s) => if |s| < min then Flagged(path, message) else Pass
    case _ => Stopped(path, ExpectedString)
  }

  /** `z.string().email(message)`; what counts as an e-mail address is the parameter `isEmail`. */
  function Email(v: Input, path: string, message: string, isEmail: string -> bool): (r: Verdict)
    ensures Sound(r)
    ensures Clean(r) <==> v.Str? && isEmail(v.s)
    ensures !r.aborted <==> v.Str?
  {
    match v
    case Str(s) => if isEmail(s) then Pass else Flagged(path, message)
    case _ => Stopped(path, ExpectedString)
  }

  /** `z.literal(lit)`. */
  function Literal(v: Input, path: string, lit: string): (r: Verdict)
    ensures Sound(r)
    ensures Clean(r) <==> v == Str(lit)
    ensures r.aborted <==> v != Str(lit)
  {
    if v == Str(lit) then Pass else Stopped(path, InvalidLiteral)
  }

  function Boolean(v: Input, path: string): (r: Verdict)
    ensures Sound(r) && (Clean(r) <==> v.Flag?) && (r.aborted <==> !v.Flag?)
  {
    if v.Flag? then Pass else Stopped(path, ExpectedBoolean)
  }

  function Number(v: Input, path: string): (r: Verdict)
    ensures Sound(r) && (Clean(r) <==> v.Num?) && (r.aborted <==> !v.Num?)
  {
    if v.Num? then Pass else Stopped(path, ExpectedNumber)
  }

  function DateValue(v: Input, path: string): (r: Verdict)
    ensures Sound(r) && (Clean(r) <==> v.Date?) && (r.aborted <==> !v.Date?)
  {
    if v.Date? then Pass else Stopped(path, ExpectedDate)
  }

  /** `z.nativeEnum(E, { message })`: the value must be one of the enum's strings. */
  function Enum(v: Input, path: string, message: string, member: string -> bool): (r: Verdict)
    ensures Sound(r)
    ensures Clean(r) <==> v.Str? && member(v.s)
    ensures r.aborted <==> !Clean(r)
  {
    if v.Str? && member(v.s) then Pass else Stopped(path, message)
  }

  /** `.optional()`: `undefined` passes, anything else goes to the inner schema. */
  function Optional(v: Input, inner: Verdict): (r: Verdict)
    ensures Sound(inner) ==> Sound(r)
    ensures Clean(r) <==> v == Undefined || Clean(inner)
  {
    if v == Undefined then Pass else inner
  }

  /** `.nullable()`: `null` passes, anything else goes to the inner schema. */
  function Nullable(v: Input, inner: Verdict): (r: Verdict)
    ensures Sound(inner) ==> Sound(r)
    ensures Clean(r) <==> v == Null || Clean(inner)
  {
    if v == Null then Pass else inner
  }

  /**
   * `z.union([a, b])` and `a.or(b)`: the first branch that fits; failing that,
   * the first branch that was only flagged, with its issues; failing that, a
   * union error that stops parsing.
   */
  function Union(a: Verdict, b: Verdict, path: string): (r: Verdict)
    ensures Sound(a) && Sound(b) ==> Sound(r)
    ensures Clean(r) <==> Clean(a) || Clean(b)
    ensures r.aborted <==> a.aborted && b.aborted && !Clean(a) && !Clean(b)
  {
    if Clean(a) then a
    else if Clean(b) then b
    else if !a.aborted then a
    else if !b.aborted then b
    else Stopped(path, InvalidUnion)
  }

  /** `z.array(z.string())`: an array whose every element is a string. */
  function Strings(v: Input, path: string): (r: Verdict)
    ensures Sound(r)
    ensures Clean(r) <==> v.List? && forall i :: 0 <= i < |v.items| ==> v.items[i].Str?
    ensures r.aborted <==> !Clean(r)
  {
    if v.List? && forall i :: 0 <= i < |v.items| ==> v.items[i].Str? then Pass
    else if v.List? then Stopped(path, ExpectedString)
    else Stopped(path, ExpectedArray)
  }

  /** `z.nativeEnum(E).array().min(min, message)`. */
  function EnumList(v: Input, path: string, min: nat, message: string, member: string -> bool): (r: Verdict)
    ensures Sound(r)
    ensures Clean(r) <==>
      (v.List? && |v.items| >= min && forall i :: 0 <= i < |v.items| ==> v.items[i].Str? && member(v.items[i].s))
    ensures !r.aborted <==> v.List? && forall i :: 0 <= i < |v.items| ==> v.items[i].Str? && member(v.items[i].s)
  {
    if !v.List? then Stopped(path, ExpectedArray)
    else if !forall i :: 0 <= i < |v.items| ==> v.items[i].Str? && member(v.items[i].s) then Stopped(path, InvalidEnum)
    else if |v.items| < min then Flagged(path, message)
    else Pass
  }

  /** `.default(d)`: the value the parsed object holds for a field. */
  function Defaulted(v: Input, d: Input): (r: Input)
    ensures v != Undefined ==> r == v
    ensures v == Undefined ==> r == d
  {
    if v == Undefined then d else v
  }

  /** Two fields of an object, checked in order: both sets of issues are reported. */
  function Both(a: Verdict, b: Verdict): (r: Verdict)
    ensures Sound(a) && Sound(b) ==> Sound(r)
    ensures Clean(r) <==> Clean(a) && Clean(b)
    ensures r.aborted <==> a.aborted || b.aborted
  {
    Verdict(a.issues + b.issues, a.aborted || b.aborted)
  }

  /**
   * An object schema with a refinement: the refinement's issue is added only
   * if no field stopped the parse and the refinement's predicate fails.
   */
  function Refined(fields: Verdict, holds: bool, path: string, message: string): (r: Verdict)
    ensures Sound(fields) ==> Sound(r)
    ensures Clean(r) <==> Clean(fields) && holds
  {
    if fields.aborted || holds then fields
    else Verdict(fields.issues + [Issue(path, message)], false)
  }
}
