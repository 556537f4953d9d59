/**
 * The enumerations and the user entity shared by the server and the admin UI.
 * Enumerated fields arrive as raw strings (from JSON or a form), so each enum comes with the
 * string it is spelled as and a parser that recognises exactly those spellings.
 */
module Domain {
  import opened Wrappers

  datatype Role = Admin | User

  function RoleName(r: Role): string {
    match r
    case Admin => "ADMIN"
    case User => "USER"
  }

  function ParseRole(s: string): (r: Option<Role>)
    ensures r.Some? ==> RoleName(r.value) == s
    ensures forall x :: RoleName(x) == s ==> r == Some(x)
  {
    if s == "ADMIN" then Some(Admin) else if s == "USER" then Some(Role.User) else None
  }

  datatype Department = Electrical | Electronic | Communication | Automation | SchoolOffice

  function DepartmentName(d: Department): string {
    match d
    case Electrical => "ELECTRICAL"
    case Electronic => "ELECTRONIC"
    case Communication => "COMMUNICATION"
    case Automation => "AUTOMATION"
    case SchoolOffice => "SCHOOLOFFICE"
  }

  function ParseDepartment(s: string): (r: Option<Department>)
    ensures r.Some? ==> DepartmentName(r.value) == s
    ensures forall x :: DepartmentName(x) == s ==> r == Some(x)
  {
    if s == "ELECTRICAL" then Some(Electrical)
    else if s == "ELECTRONIC" then Some(Electronic)
    else if s == "COMMUNICATION" then Some(Communication)
    else if s == "AUTOMATION" then Some(Automation)
    else if s == "SCHOOLOFFICE" then Some(SchoolOffice)
    else None
  }

  datatype PartnerType = Individual | Organization | OtherType

  function PartnerTypeName(t: PartnerType): string {
    match t
    case Individual => "INDIVIDUAL"
    case Organization => "ORGANIZATION"
    case OtherType => "OTHER"
  }

  function ParsePartnerType(s: string): (r: Option<PartnerType>)
    ensures r.Some? ==> PartnerTypeName(r.value) == s
    ensures forall x :: PartnerTypeName(x) == s ==> r == Some(x)
  {
    if s == "INDIVIDUAL" then Some(Individual)
    else if s == "ORGANIZATION" then Some(Organization)
    else if s == "OTHER" then Some(OtherType)
    else None
  }

  /** Declaration order of the enum, which `Object.values` follows. */
  const PartnerTypes: seq<PartnerType> := [Individual, Organization, OtherType]

  datatype PartnerSector = Academic | Industry | Ngo | Government | Others

  function PartnerSectorName(s: PartnerSector): string {
    match s
    case Academic => "ACADEMIC"
    case Industry => "INDUSTRY"
    case Ngo => "NGO"
    case Government => "GOVERNMENT"
    case Others => "OTHERS"
  }

  function ParsePartnerSector(s: string): (r: Option<PartnerSector>)
    ensures r.Some? ==> PartnerSectorName(r.value) == s
    ensures forall x :: PartnerSectorName(x) == s ==> r == Some(x)
  {
    if s == "ACADEMIC" then Some(Academic)
    else if s == "INDUSTRY" then Some(Industry)
    else if s == "NGO" then Some(Ngo)
    else if s == "GOVERNMENT" then Some(Government)
    else if s == "OTHERS" then Some(Others)
    else None
  }

  const PartnerSectors: seq<PartnerSector> := [Academic, Industry, Ngo, Government, Others]

  datatype PartnerRank = Diamond | Gold | Silver | NotYet | OtherRank

  function PartnerRankName(r: PartnerRank): string {
    match r
    case Diamond => "DIAMOND"
    case Gold => "GOLD"
    case Silver => "SILVER"
    case NotYet => "NOTYET"
    case OtherRank => "OTHER"
  }

  function ParsePartnerRank(s: string): (r: Option<PartnerRank>)
    ensures r.Some? ==> PartnerRankName(r.value) == s
    ensures forall x :: PartnerRankName(x) == s ==> r == Some(x)
  {
    if s == "DIAMOND" then Some(Diamond)
    else if s == "GOLD" then Some(Gold)
    else if s == "SILVER" then Some(Silver)
    else if s == "NOTYET" then Some(NotYet)
    else if s == "OTHER" then Some(OtherRank)
    else None
  }

  const PartnerRanks: seq<PartnerRank> := [Diamond, Gold, Silver, NotYet, OtherRank]

  datatype EventStatus = Prospect | Pending | Active | Closed | Terminated

  function EventStatusName(s: EventStatus): string {
    match s
    case Prospect => "PROSPECT"
    case Pending => "PENDING"
    case Active => "ACTIVE"
    case Closed => "CLOSED"
    case Terminated => "TERMINATED"
  }

  function ParseEventStatus(s: string): (r: Option<EventStatus>)
    ensures r.Some? ==> EventStatusName(r.value) == s
    ensures forall x :: EventStatusName(x) == s ==> r == Some(x)
  {
    if s == "PROSPECT" then Some(Prospect)
    else if s == "PENDING" then Some(Pending)
    else if s == "ACTIVE" then Some(Active)
    else if s == "CLOSED" then Some(Closed)
    else if s == "TERMINATED" then Some(Terminated)
    else None
  }

  const EventStatuses: seq<EventStatus> := [Prospect, Pending, Active, Closed, Terminated]

  /** An option of a select input: its value and the label (`text`) shown for it. */
  datatype Choice = Choice(value: string, text: string)

  /** A stored user row; `password` holds the bcrypt hash. */
  datatype User = User(
    id: string, name: string, username: string, password: string,
    email: Option<string>, phone: Option<string>,
    role: Role, department: Department,
    isActive: bool, hasPasswordChanged: bool)

  /** A user as the API hands it out: every column except `password`. */
  datatype PublicUser = PublicUser(
    id: string, name: string, username: string,
    email: Option<string>, phone: Option<string>,
    role: Role, department: Department,
    isActive: bool, hasPasswordChanged: bool)

  /** `const { password, ...rest } = user` and the store's `omit: { password: true }`. */
  function WithoutPassword(u: User): (p: PublicUser)
    ensures p.id == u.id && p.username == u.username && p.role == u.role
    ensures p.isActive == u.isActive && p.hasPasswordChanged == u.hasPasswordChanged
    ensures p.name == u.name && p.email == u.email && p.phone == u.phone && p.department == u.department
  {
    PublicUser(u.id, u.name, u.username, u.email, u.phone, u.role, u.department,
               u.isActive, u.hasPasswordChanged)
  }

  /** `findUnique({ where: { id } })` over the user table (ids are unique). */
  function FindById(users: seq<User>, id: string): (r: Option<User>)
    ensures r.Some? ==> r.value in users && r.value.id == id
    ensures r.None? ==> forall u :: u in users ==> u.id != id
  {
    if |users| == 0 then None
    else if users[0].id == id then Some(users[0])
    else FindById(users[1..], id)
  }

  /** `findUnique({ where: { username } })` over the user table (usernames are unique). */
  function FindByUsername(users: seq<User>, username: string): (r: Option<User>)
    ensures r.Some? ==> r.value in users && r.value.username == username
    ensures r.None? ==> forall u :: u in users ==> u.username != username
  {
    if |users| == 0 then None
    else if users[0].username == username then Some(users[0])
    else FindByUsername(users[1..], username)
  }

  /** `update({ where: { id }, data: { hasPasswordChanged } })`: rewrites the flag of the row `id`. */
  function SetPasswordChanged(users: seq<User>, id: string, flag: bool): (r: seq<User>)
    ensures |r| == |users|
    ensures forall i :: 0 <= i < |users| ==>
      r[i] == if users[i].id == id then users[i].(hasPasswordChanged := flag) else users[i]
  {
    seq(|users|, i requires 0 <= i < |users| =>
      if users[i].id == id then users[i].(hasPasswordChanged := flag) else users[i])
  }

  /** After the flag is rewritten, looking the user up by id finds the same row with the new flag. */
  lemma {:induction false} FindAfterSetPasswordChanged(users: seq<User>, id: string, flag: bool)
    ensures FindById(SetPasswordChanged(users, id, flag), id)
         == MapOption(FindById(users, id), (u: User) => u.(hasPasswordChanged := flag))
    decreases |users|
  {
    if |users| > 0 {
      assert SetPasswordChanged(users, id, flag)[1..] == SetPasswordChanged(users[1..], id, flag);
      FindAfterSetPasswordChanged(users[1..], id, flag);
    }
  }

  predicate UniqueUserIds(users: seq<User>) {
    forall i, j :: 0 <= i < j < |users| ==> users[i].id != users[j].id
  }

  /** With unique ids, looking a stored user up by its id finds that user. */
  lemma {:induction false} FindByOwnId(users: seq<User>, u: User)
    requires UniqueUserIds(users) && u in users
    ensures FindById(users, u.id) == Some(u)
    decreases |users|
  {
    if users[0] != u {
      assert u in users[1..];
      assert users[0].id != u.id by {
        var k :| 0 <= k < |users| && users[k] == u;
      }
      FindByOwnId(users[1..], u);
    }
  }

  predicate UniqueUsernames(users: seq<User>) {
    forall i, j :: 0 <= i < j < |users| ==> users[i].username != users[j].username
  }

  /** With unique usernames, looking a stored user up by its username finds that user. */
  lemma {:induction false} FindByOwnUsername(users: seq<User>, u: User)
    requires UniqueUsernames(users) && u in users
    ensures FindByUsername(users, u.username) == Some(u)
    decreases |users|
  {
    if users[0] != u {
      assert u in users[1..];
      assert users[0].username != u.username by {
        var k :| 0 <= k < |users| && users[k] == u;
      }
      FindByOwnUsername(users[1..], u);
    }
  }
}
