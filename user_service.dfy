/**
 * The user service: `listUsers` (the shared list query over the user
 * table, `password` omitted, then the caller's own row moved to the top)
 * and the password rules of `updateUser`.
 */
module UserService {
  import opened Wrappers
  import opened Domain
  import opened Store
  import opened ListQuery
  import Text
  import Seqs

  // ---------------------------------------------------------------------
  // listUsers

  const UserSearchColumns: seq<string> := ["name", "email"]
  const UserColumns: set<string> :=
    {"id", "name", "username", "password", "email", "phone", "role", "department",
     "isActive", "hasPasswordChanged", "createdAt", "updatedAt"}

  function IsCaller(uid: string): Row -> bool {
    (r: Row) => r.id == uid
  }

  function NotCaller(uid: string): Row -> bool {
    (r: Row) => r.id != uid
  }

  /**
   * The page after the in-place sort whose comparator puts the caller's row
   * before every other and leaves the others tied: a stable partition.
   */
  function CurrentUserFirst(rows: seq<Row>, uid: string): seq<Row> {
    Seqs.Filter(rows, IsCaller(uid)) + Seqs.Filter(rows, NotCaller(uid))
  }

  predicate UniqueIds(rows: seq<Row>) {
    forall i, j :: 0 <= i < j < |rows| ==> rows[i].id != rows[j].id
  }

  /** `users.sort(...)` on the fetched page, in place. */
  method PinCurrentUser(a: array<Row>, uid: string)
    modifies a
    ensures a[..] == CurrentUserFirst(old(a[..]), uid)
  {
    var mine, others := SplitByCaller(a, uid);
    var sorted := mine + others;
    assert sorted == CurrentUserFirst(old(a[..]), uid);
    CurrentUserFirstLength(a[..], uid);
    assert |sorted| == a.Length;
    var k := 0;
    while k < a.Length
      invariant 0 <= k <= a.Length
      invariant forall j :: 0 <= j < k ==> a[j] == sorted[j]
    {
      a[k] := sorted[k];
      k := k + 1;
    }
    assert a[..] == sorted;
  }

  /** One pass over the page, collecting the caller's rows and the others, each in order. */
  method SplitByCaller(a: array<Row>, uid: string) returns (mine: seq<Row>, others: seq<Row>)
    ensures mine == Seqs.Filter(a[..], IsCaller(uid))
    ensures others == Seqs.Filter(a[..], NotCaller(uid))
  {
    mine, others := [], [];
    var i := 0;
    while i < a.Length
      invariant 0 <= i <= a.Length
      invariant mine == Seqs.Filter(a[..i], IsCaller(uid))
      invariant others == Seqs.Filter(a[..i], NotCaller(uid))
    {
      var row := a[i];
      assert a[..i + 1] == a[..i] + [row];
      Seqs.FilterSnoc(a[..i], row, IsCaller(uid));
      Seqs.FilterSnoc(a[..i], row, NotCaller(uid));
      if row.id == uid {
        mine := mine + [row];
      } else {
        others := others + [row];
      }
      i := i + 1;
    }
    assert a[..a.Length] == a[..];
  }

  /** `listUsers`: the shared list query with `password` omitted, then the caller's row first. */
  method ListUsers(m: QueryDataModel, requestUserId: string, table: seq<Row>)
    returns (res: Result<ListPage, StoreError>)
    ensures res.Success? <==> Admissible(m, UserSearchColumns, UserColumns)
    ensures res.Success? ==>
      (PaginationValid(m)
       && res.value.totalCount == |Matching(m, UserSearchColumns, table)|
       && res.value.rows == CurrentUserFirst(Project(Reference(m, UserSearchColumns, table), {"password"}), requestUserId))
    ensures res.Success? ==> forall i :: 0 <= i < |res.value.rows| ==> "password" !in res.value.rows[i].cols
  {
    var page := RunList(m, UserSearchColumns, UserColumns, {"password"}, table);
    if page.Failure? {
      return Failure(page.error);
    }
    var rows := page.value.rows;
    var a := new Row[|rows|](i requires 0 <= i < |rows| => rows[i]);
    assert a[..] == rows;
    PinCurrentUser(a, requestUserId);
    var pinned := a[..];
    forall i | 0 <= i < |pinned| ensures "password" !in pinned[i].cols {
      CurrentUserFirstMembers(rows, requestUserId, pinned[i]);
    }
    res := Success(ListPage(page.value.totalCount, pinned));
  }

  lemma CurrentUserFirstMembers(rows: seq<Row>, uid: string, r: Row)
    requires r in CurrentUserFirst(rows, uid)
    ensures r in rows
  {
    CurrentUserFirstIsPermutation(rows, uid);
    assert r in multiset(CurrentUserFirst(rows, uid));
  }

  lemma CurrentUserFirstLength(rows: seq<Row>, uid: string)
    ensures |CurrentUserFirst(rows, uid)| == |rows|
  {
    CurrentUserFirstIsPermutation(rows, uid);
    assert |CurrentUserFirst(rows, uid)| == |multiset(CurrentUserFirst(rows, uid))|;
  }

  /** The reordered page holds exactly the fetched rows. */
  lemma CurrentUserFirstIsPermutation(rows: seq<Row>, uid: string)
    ensures multiset(CurrentUserFirst(rows, uid)) == multiset(rows)
  {
    Seqs.PartitionMultiset(rows, IsCaller(uid), NotCaller(uid));
  }

  /**
   * When the caller's row is on the page it comes first and the other rows
   * follow in their fetched order.
   */
  lemma CallerOnTop(rows: seq<Row>, uid: string, k: int)
    requires UniqueIds(rows)
    requires 0 <= k < |rows| && rows[k].id == uid
    ensures CurrentUserFirst(rows, uid) == [rows[k]] + Seqs.Filter(rows, NotCaller(uid))
  {
    Seqs.FilterSingle(rows, IsCaller(uid), k);
  }

  /** When the caller's row is not on the page nothing moves. */
  lemma CallerAbsentKeepsOrder(rows: seq<Row>, uid: string)
    requires forall i :: 0 <= i < |rows| ==> rows[i].id != uid
    ensures CurrentUserFirst(rows, uid) == rows
  {
    Seqs.FilterNone(rows, IsCaller(uid));
    Seqs.FilterAll(rows, NotCaller(uid));
  }

  // ---------------------------------------------------------------------
  // updateUser

  /** `TUserUpdate`: every field optional, plus `currentPassword`. */
  datatype UserUpdate = UserUpdate(
    name: Option<string>, password: Option<string>,
    email: Option<Option<string>>, phone: Option<Option<string>>,
    role: Option<Role>, department: Option<Department>,
    isActive: Option<bool>, hasPasswordChanged: Option<bool>,
    currentPassword: Option<string>)

  /** The `data` handed to `db.user.update`; it has no `currentPassword`. */
  datatype UserPatch = UserPatch(
    name: Option<string>, password: Option<string>,
    email: Option<Option<string>>, phone: Option<Option<string>>,
    role: Option<Role>, department: Option<Department>,
    isActive: Option<bool>, hasPasswordChanged: Option<bool>)

  datatype UpdateError =
    | CurrentPasswordMissing
    | UserNotFound
    | CurrentPasswordWrong
    | PasswordTooShort
    | RecordNotFound   // raised by the store when no row has the id

  /** The messages the service throws; the store's own error is not part of this model. */
  function ThrownMessage(e: UpdateError): (m: Option<string>)
    ensures m.None? <==> e == RecordNotFound
  {
    match e
    case CurrentPasswordMissing => Some("Mật khẩu hiện tại không được để trống.")
    case UserNotFound => Some("Người dùng không tồn tại.")
    case CurrentPasswordWrong => Some("Mật khẩu hiện tại không đúng.")
    case PasswordTooShort => Some("Mật khẩu phải có ít nhất 6 ký tự.")
    case RecordNotFound => None
  }

  datatype UpdateOutcome = UpdateOutcome(user: PublicUser, hasPasswordChanged: bool)

  /** A JavaScript-truthy optional string: present and non-empty. */
  predicate Truthy(o: Option<string>) {
    o.Some? && o.value != ""
  }

  function TrimmedNew(d: UserUpdate): Option<string> { MapOption(d.password, Text.Trim) }
  function TrimmedCurrent(d: UserUpdate): Option<string> { MapOption(d.currentPassword, Text.Trim) }

  /** The current-password checks run for a non-admin, and for an admin editing their own account. */
  predicate ChecksApply(requester: PublicUser, id: string) {
    requester.role != Admin || requester.id == id
  }

  /** The current-password checks, when they run, are all met. */
  predicate ChecksPass(id: string, d: UserUpdate, requester: PublicUser, users: seq<User>,
                       compare: (string, string) -> bool) {
    ChecksApply(requester, id) ==>
      (Truthy(TrimmedCurrent(d)) || !Truthy(TrimmedNew(d)))
      && (Truthy(TrimmedCurrent(d)) ==>
            FindById(users, id).Some? && compare(TrimmedCurrent(d).value, FindById(users, id).value.password))
  }

  function ApplyPatch(u: User, p: UserPatch): (r: User)
    ensures r.id == u.id && r.username == u.username
    ensures r.password == p.password.GetOr(u.password)
    ensures r.hasPasswordChanged == p.hasPasswordChanged.GetOr(u.hasPasswordChanged)
    ensures r.isActive == p.isActive.GetOr(u.isActive)
    ensures r.name == p.name.GetOr(u.name) && r.email == p.email.GetOr(u.email)
    ensures r.phone == p.phone.GetOr(u.phone) && r.role == p.role.GetOr(u.role)
    ensures r.department == p.department.GetOr(u.department)
  {
    u.(name := p.name.GetOr(u.name),
       password := p.password.GetOr(u.password),
       email := p.email.GetOr(u.email),
       phone := p.phone.GetOr(u.phone),
       role := p.role.GetOr(u.role),
       department := p.department.GetOr(u.department),
       isActive := p.isActive.GetOr(u.isActive),
       hasPasswordChanged := p.hasPasswordChanged.GetOr(u.hasPasswordChanged))
  }

  /** `update({ where: { id }, data })`. */
  function UpdateById(users: seq<User>, id: string, p: UserPatch): (r: seq<User>)
    ensures |r| == |users|
    ensures forall i :: 0 <= i < |users| ==> r[i] == if users[i].id == id then ApplyPatch(users[i], p) else users[i]
  {
    seq(|users|, i requires 0 <= i < |users| => if users[i].id == id then ApplyPatch(users[i], p) else users[i])
  }

  lemma {:induction false} FindAfterUpdate(users: seq<User>, id: string, p: UserPatch)
    ensures FindById(UpdateById(users, id, p), id) == MapOption(FindById(users, id), (u: User) => ApplyPatch(u, p))
    decreases |users|
  {
    if |users| > 0 {
      assert UpdateById(users, id, p)[1..] == UpdateById(users[1..], id, p);
      FindAfterUpdate(users[1..], id, p);
    }
  }

  /** `{ ...data }` with `currentPassword` deleted: the payload before any password rewriting. */
  function Payload(d: UserUpdate): UserPatch {
    UserPatch(d.name, d.password, d.email, d.phone, d.role, d.department, d.isActive, d.hasPasswordChanged)
  }

  /**
   * The data written, as the code writes it: a truthy trimmed new password is
   * replaced by its hash and raises the flag; otherwise the payload is written
   * unchanged, including a blank `password`.
   */
  function WrittenPatch(d: UserUpdate, hash: string -> string): UserPatch {
    if Truthy(TrimmedNew(d))
    then Payload(d).(password := Some(hash(TrimmedNew(d).value)), hasPasswordChanged := Some(true))
    else Payload(d)
  }

  /** The evident intent: a blank new password leaves the stored password alone. */
  function IntendedPatch(d: UserUpdate, hash: string -> string): UserPatch {
    if Truthy(TrimmedNew(d))
    then Payload(d).(password := Some(hash(TrimmedNew(d).value)), hasPasswordChanged := Some(true))
    else Payload(d).(password := None)
  }

  /** `updateUser(id, data, requestUser)`; bcrypt's `compare` and `hash` are parameters. */
  method UpdateUser(id: string, d: UserUpdate, requester: PublicUser, users: seq<User>,
                    compare: (string, string) -> bool, hash: string -> string)
    returns (res: Result<UpdateOutcome, UpdateError>, users': seq<User>)
    ensures res.Failure? ==> users' == users
    ensures ChecksApply(requester, id) && Truthy(TrimmedNew(d)) && !Truthy(TrimmedCurrent(d))
            ==> res == Failure(CurrentPasswordMissing)
    ensures ChecksApply(requester, id) && Truthy(TrimmedCurrent(d)) && FindById(users, id).None?
            ==> res == Failure(UserNotFound)
    ensures ChecksApply(requester, id) && Truthy(TrimmedCurrent(d)) && FindById(users, id).Some?
            && !compare(TrimmedCurrent(d).value, FindById(users, id).value.password)
            ==> res == Failure(CurrentPasswordWrong)
    ensures !ChecksApply(requester, id) && res.Failure? ==> res.error == PasswordTooShort || res.error == RecordNotFound
    ensures res == Failure(PasswordTooShort)
            <==> ChecksPass(id, d, requester, users, compare) && Truthy(TrimmedNew(d)) && |TrimmedNew(d).value| < 6
    ensures res.Success?
            <==> ChecksPass(id, d, requester, users, compare)
                 && (Truthy(TrimmedNew(d)) ==> |TrimmedNew(d).value| >= 6)
                 && FindById(users, id).Some?
    ensures res.Success? ==>
      (res.value.hasPasswordChanged == Truthy(TrimmedNew(d))
       && users' == UpdateById(users, id, WrittenPatch(d, hash))
       && FindById(users', id).Some?
       && res.value.user == WithoutPassword(FindById(users', id).value))
  {
    var updateData := Payload(d);
    var newPassword := MapOption(d.password, Text.Trim);
    var currentPassword := MapOption(d.currentPassword, Text.Trim);
    if requester.role != Admin || requester.id == id {
      if Truthy(newPassword) && !Truthy(currentPassword) {
        return Failure(CurrentPasswordMissing), users;
      }
      if Truthy(currentPassword) {
        var user := FindById(users, id);
        if user.None? {
          return Failure(UserNotFound), users;
        }
        if !compare(currentPassword.value, user.value.password) {
          return Failure(CurrentPasswordWrong), users;
        }
      }
    }
    var hasPasswordChanged := false;
    if Truthy(newPassword) {
      if |newPassword.value| < 6 {
        return Failure(PasswordTooShort), users;
      }
      updateData := updateData.(password := Some(hash(newPassword.value)), hasPasswordChanged := Some(true));
      hasPasswordChanged := true;
    }
    var target := FindById(users, id);
    if target.None? {
      return Failure(RecordNotFound), users;
    }
    users' := UpdateById(users, id, updateData);
    FindAfterUpdate(users, id, updateData);
    res := Success(UpdateOutcome(WithoutPassword(ApplyPatch(target.value, updateData)), hasPasswordChanged));
  }

  /** A truthy trimmed new password is stored hashed and raises the flag; `currentPassword` is never stored. */
  lemma NewPasswordIsHashed(u: User, d: UserUpdate, hash: string -> string)
    requires Truthy(TrimmedNew(d))
    ensures ApplyPatch(u, WrittenPatch(d, hash)).password == hash(Text.Trim(d.password.value))
    ensures ApplyPatch(u, WrittenPatch(d, hash)).hasPasswordChanged
  {
  }

  /** Without a new password the stored password and the flag are whatever the payload says. */
  lemma AbsentPasswordKeepsStored(u: User, d: UserUpdate, hash: string -> string)
    requires d.password.None?
    ensures ApplyPatch(u, WrittenPatch(d, hash)).password == u.password
    ensures ApplyPatch(u, WrittenPatch(d, hash)).hasPasswordChanged == d.hasPasswordChanged.GetOr(u.hasPasswordChanged)
  {
  }

  /** As written: a blank `password` such as "" is written to the store verbatim. */
  lemma BlankPasswordOverwritesStored(u: User, d: UserUpdate, hash: string -> string)
    requires d.password == Some("")
    ensures ApplyPatch(u, WrittenPatch(d, hash)).password == ""
  {
    assert Text.Trim("") == "";
  }

  /** Corrected: the stored password changes exactly when a truthy trimmed new password is given, and then to its hash. */
  lemma IntendedPatchRotatesOnlyOnNewPassword(u: User, d: UserUpdate, hash: string -> string)
    ensures ApplyPatch(u, IntendedPatch(d, hash)).password
         == if Truthy(TrimmedNew(d)) then hash(TrimmedNew(d).value) else u.password
    ensures ApplyPatch(u, IntendedPatch(d, hash)).hasPasswordChanged
         == if Truthy(TrimmedNew(d)) then true else d.hasPasswordChanged.GetOr(u.hasPasswordChanged)
  {
  }
}
