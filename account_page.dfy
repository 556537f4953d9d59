/**
 * `AccountPage`: the signed-in user's own profile form, with an optional
 * password-change section whose rules are a zod `superRefine`, the payload the
 * page sends to the user-update endpoint, and what happens after a save.
 */
module AccountPage {
  import opened Wrappers
  import Text
  import opened Domain
  import UserService

  /** The form values: optional fields are `None` when the form holds `undefined`. */
  datatype AccountForm = AccountForm(
    id: Option<string>, name: string,
    email: Option<Option<string>>, phone: Option<Option<string>>,
    currentPassword: Option<string>, password: Option<string>, confirmPassword: Option<string>)

  /** The six password checks, in the order the refinement runs them. */
  datatype PasswordCheck =
    | CurrentRequired    // the current password is blank
    | NewRequired        // the new password is blank
    | ConfirmRequired    // the confirmation is blank
    | NewTooShort        // the trimmed new password has fewer than 6 characters
    | ConfirmMismatch    // the trimmed new password and the trimmed confirmation differ
    | SameAsCurrent      // the trimmed new password repeats the trimmed current one

  /** The form field each check reports on. */
  function CheckPath(c: PasswordCheck): string {
    match c
    case CurrentRequired => "currentPassword"
    case NewRequired | NewTooShort | SameAsCurrent => "password"
    case ConfirmRequired | ConfirmMismatch => "confirmPassword"
  }

  function CheckMessage(c: PasswordCheck): string {
    match c
    case CurrentRequired => "Vui lòng nhập mật khẩu hiện tại."
    case NewRequired => "Vui lòng nhập mật khẩu mới."
    case ConfirmRequired => "Vui lòng xác nhận mật khẩu mới."
    case NewTooShort => "Mật khẩu mới phải có ít nhất 6 ký tự."
    case ConfirmMismatch => "Mật khẩu xác nhận không khớp."
    case SameAsCurrent => "Mật khẩu mới và mật khẩu hiện tại không được trùng nhau."
  }

  /** `value?.trim()`. */
  function Trimmed(o: Option<string>): Option<string> {
    MapOption(o, Text.Trim)
  }

  /** `value?.trim()` is truthy: present and not all white space. */
  predicate Filled(o: Option<string>) {
    o.Some? && Text.Trim(o.value) != []
  }

  /** `value` itself is truthy: present and non-empty, before any trimming. */
  predicate Present(o: Option<string>) {
    o.Some? && o.value != []
  }

  /** The issues the `superRefine` adds, in order; none at all unless the password is being edited. */
  function RefineIssues(editing: bool, d: AccountForm): (r: seq<PasswordCheck>)
    ensures !editing ==> r == []
    ensures |r| <= 6
  {
    if !editing then []
    else
      (if !Filled(d.currentPassword) then [CurrentRequired] else [])
      + (if !Filled(d.password) then [NewRequired] else [])
      + (if !Filled(d.confirmPassword) then [ConfirmRequired] else [])
      + (if Present(d.password) && |Text.Trim(d.password.value)| < 6 then [NewTooShort] else [])
      + (if Trimmed(d.password) != Trimmed(d.confirmPassword) then [ConfirmMismatch] else [])
      + (if Present(d.password) && Present(d.currentPassword)
            && Text.Trim(d.password.value) == Text.Trim(d.currentPassword.value)
         then [SameAsCurrent] else [])
  }

  /**
   * While editing, the password section is accepted exactly when all three
   * fields are non-blank after trimming, the trimmed new password has at least 6
   * characters, equals the trimmed confirmation and differs from the trimmed
   * current password.
   */
  lemma {:induction false} RefineAcceptsExactly(d: AccountForm)
    ensures RefineIssues(true, d) == [] <==>
      Filled(d.currentPassword) && Filled(d.password) && Filled(d.confirmPassword)
      && |Text.Trim(d.password.value)| >= 6
      && Text.Trim(d.password.value) == Text.Trim(d.confirmPassword.value)
      && Text.Trim(d.password.value) != Text.Trim(d.currentPassword.value)
  {
    if Filled(d.password) {
      assert Present(d.password);
    }
    if Filled(d.currentPassword) {
      assert Present(d.currentPassword);
    }
  }

  /** A new password of white space only is reported twice on the same field: as missing and as too short. */
  lemma BlankNewPasswordReportedTwice(d: AccountForm)
    requires d.password.Some? && d.password.value != [] && Text.IsBlank(d.password.value)
    ensures NewRequired in RefineIssues(true, d) && NewTooShort in RefineIssues(true, d)
    ensures CheckPath(NewRequired) == CheckPath(NewTooShort)
  {
    var rest := (if Trimmed(d.password) != Trimmed(d.confirmPassword) then [ConfirmMismatch] else [])
      + (if Present(d.password) && Present(d.currentPassword)
            && Text.Trim(d.password.value) == Text.Trim(d.currentPassword.value)
         then [SameAsCurrent] else []);
    var head := (if !Filled(d.currentPassword) then [CurrentRequired] else []) + [NewRequired];
    var blanks := head + (if !Filled(d.confirmPassword) then [ConfirmRequired] else []);
    assert RefineIssues(true, d) == blanks + [NewTooShort] + rest;
    assert NewRequired == head[|head| - 1];
  }

  /** The body `onSubmit` sends to the user-update endpoint. */
  datatype AccountUpdate = AccountUpdate(
    id: Option<string>, name: string,
    email: Option<Option<string>>, phone: Option<Option<string>>,
    username: string, role: Role, department: Department,
    currentPassword: string, password: string, isActive: bool)

  /** `value?.trim() || ""`. */
  function TrimmedOrEmpty(o: Option<string>): (r: string)
    ensures r == [] <==> !Filled(o)
    ensures Filled(o) ==> r == Text.Trim(o.value)
  {
    if Filled(o) then Text.Trim(o.value) else ""
  }

  /** The payload: profile fields from the form, account fields from the loaded user, passwords trimmed. */
  function Payload(d: AccountForm, user: PublicUser): (p: AccountUpdate)
    ensures p.username == user.username && p.role == user.role
    ensures p.department == user.department && p.isActive == user.isActive
    ensures p.id == d.id && p.name == d.name && p.email == d.email && p.phone == d.phone
    ensures p.password == TrimmedOrEmpty(d.password)
    ensures p.currentPassword == TrimmedOrEmpty(d.currentPassword)
  {
    AccountUpdate(d.id, d.name, d.email, d.phone, user.username, user.role, user.department,
                  TrimmedOrEmpty(d.currentPassword), TrimmedOrEmpty(d.password), user.isActive)
  }

  /** The fields of the payload the update service reads (it has no `username` field). */
  function AsServiceUpdate(p: AccountUpdate): (u: UserService.UserUpdate)
    ensures u.password == Some(p.password) && u.currentPassword == Some(p.currentPassword)
    ensures u.role == Some(p.role) && u.department == Some(p.department) && u.isActive == Some(p.isActive)
    ensures u.hasPasswordChanged.None?
  {
    UserService.UserUpdate(Some(p.name), Some(p.password), p.email, p.phone,
                           Some(p.role), Some(p.department), Some(p.isActive), None,
                           Some(p.currentPassword))
  }

  /**
   * A form the refinement accepts while editing meets the service's own password
   * rules: it sees a truthy current password and a truthy new password of at least
   * 6 characters, so neither its "current password missing" nor its "too short"
   * error can occur, and the stored password is rotated.
   */
  lemma AcceptedChangeMeetsServiceRules(d: AccountForm, user: PublicUser)
    requires RefineIssues(true, d) == []
    ensures var u := AsServiceUpdate(Payload(d, user));
      UserService.Truthy(UserService.TrimmedCurrent(u))
      && UserService.Truthy(UserService.TrimmedNew(u))
      && |UserService.TrimmedNew(u).value| >= 6
  {
    RefineAcceptsExactly(d);
    Text.TrimIdempotent(d.password.value);
    Text.TrimIdempotent(d.currentPassword.value);
  }

  /**
   * A save without a new password sends `password: ""`, which the update service,
   * as written, stores over the password hash.
   */
  lemma ProfileSaveBlanksStoredPassword(d: AccountForm, user: PublicUser, stored: User, hash: string -> string)
    requires !Filled(d.password)
    ensures Payload(d, user).password == ""
    ensures UserService.ApplyPatch(stored, UserService.WrittenPatch(AsServiceUpdate(Payload(d, user)), hash)).password == ""
  {
    UserService.BlankPasswordOverwritesStored(stored, AsServiceUpdate(Payload(d, user)), hash);
  }

  /** The toast a save ends with. */
  datatype Notice = ProfileSaved | PasswordChangedSignInAgain | LoadFailed

  /** `getDepartmentLabel`: the label of a known department, "Không xác định" for anything else. */
  function DepartmentLabel(dept: string): (r: string)
    ensures r == UnknownDepartment <==> ParseDepartment(dept).None?
    ensures ParseDepartment(dept).Some? ==> r == KnownDepartmentLabel(ParseDepartment(dept).value)
  {
    match ParseDepartment(dept)
    case Some(d) => KnownDepartmentLabel(d)
    case None => UnknownDepartment
  }

  const UnknownDepartment := "Không xác định"

  function KnownDepartmentLabel(d: Department): (r: string)
    ensures |r| != |UnknownDepartment|
  {
    match d
    case Electrical => "Điện"
    case Electronic => "Điện tử"
    case Communication => "Kỹ thuật truyền thông"
    case Automation => "Tự động hóa"
    case SchoolOffice => "Văn phòng trường"
  }

  /** Different departments get different labels. */
  lemma DepartmentLabelsDistinct(a: Department, b: Department)
    requires a != b
    ensures KnownDepartmentLabel(a) != KnownDepartmentLabel(b)
  {
    assert |KnownDepartmentLabel(a)| != |KnownDepartmentLabel(b)|;
  }

  const AdminLabel := "Quản trị viên"
  const UserLabel := "Người dùng"

  /** `getRoleLabel`: the administrator label exactly for ADMIN. */
  function RoleLabel(role: Role): (r: string)
    ensures r == AdminLabel <==> role == Admin
  {
    assert |AdminLabel| != |UserLabel|;
    if role == Admin then AdminLabel else UserLabel
  }

  /** `onResetForm(user)`: the profile fields of the user, every password field empty. */
  function ResetValues(user: PublicUser): (d: AccountForm)
    ensures d.id == Some(user.id) && d.name == user.name
    ensures d.email == Some(Some(user.email.GetOr(""))) && d.phone == Some(Some(user.phone.GetOr("")))
    ensures d.currentPassword == Some("") && d.password == Some("") && d.confirmPassword == Some("")
  {
    AccountForm(Some(user.id), user.name,
                Some(Some(user.email.GetOr(""))), Some(Some(user.phone.GetOr(""))),
                Some(""), Some(""), Some(""))
  }

  /**
   * Saving a freshly reset form sends the loaded user straight back: its own
   * id, name and account fields, a missing email or phone as "", and empty
   * passwords, which the refinement accepts while the section is closed.
   */
  lemma SaveAfterResetEchoesUser(user: PublicUser)
    ensures var p := Payload(ResetValues(user), user);
      p.id == Some(user.id) && p.name == user.name
      && p.email == Some(Some(user.email.GetOr(""))) && p.phone == Some(Some(user.phone.GetOr("")))
      && p.username == user.username && p.role == user.role
      && p.department == user.department && p.isActive == user.isActive
      && p.currentPassword == "" && p.password == ""
    ensures RefineIssues(false, ResetValues(user)) == []
  {
  }

  /** The form's `defaultValues`. */
  const DefaultValues := AccountForm(None, "", Some(Some("")), Some(Some("")), Some(""), Some(""), Some(""))

  /** The password fields are all empty. */
  predicate PasswordsCleared(d: AccountForm) {
    d.currentPassword == Some("") && d.password == Some("") && d.confirmPassword == Some("")
  }

  class AccountPageState {
    var isEditingPassword: bool
    /** `userData`: the account as loaded, or `None` before it loads. */
    var userData: Option<PublicUser>
    /** The values held by the form. */
    var form: AccountForm
    /** Whether the auth store still holds a user (`logout` clears it). */
    var signedIn: bool

    /** The password fields can only be typed into while the password section is shown. */
    predicate Valid()
      reads this
    {
      !isEditingPassword ==> PasswordsCleared(form)
    }

    constructor ()
      ensures Valid()
      ensures !isEditingPassword && userData.None? && form == DefaultValues && signedIn
    {
      isEditingPassword := false;
      userData := None;
      form := DefaultValues;
      signedIn := true;
    }

    /** `fetchUserData` with the answer of `apiAuthMe`: `None` when it did not succeed. */
    method FetchUserData(response: Option<PublicUser>) returns (notice: Option<Notice>)
      requires Valid()
      modifies this
      ensures Valid()
      ensures response.Some? ==> userData == response && form == ResetValues(response.value) && notice.None?
      ensures response.None? ==> userData == old(userData) && form == old(form) && notice == Some(LoadFailed)
      ensures isEditingPassword == old(isEditingPassword) && signedIn == old(signedIn)
    {
      if response.Some? {
        userData := response;
        form := ResetValues(response.value);
        notice := None;
      } else {
        notice := Some(LoadFailed);
      }
    }

    /** The "Đổi mật khẩu" button. */
    method StartPasswordChange()
      requires Valid()
      modifies this
      ensures Valid()
      ensures isEditingPassword
      ensures userData == old(userData) && form == old(form) && signedIn == old(signedIn)
    {
      isEditingPassword := true;
    }

    /** The "Hủy đổi mật khẩu" button: leaves the section and empties its three fields. */
    method CancelPasswordChange()
      requires Valid()
      modifies this
      ensures Valid()
      ensures !isEditingPassword
      ensures form == old(form).(currentPassword := Some(""), password := Some(""), confirmPassword := Some(""))
      ensures userData == old(userData) && signedIn == old(signedIn)
    {
      isEditingPassword := false;
      form := form.(currentPassword := Some(""), password := Some(""), confirmPassword := Some(""));
    }

    /** The "Hủy Thay Đổi" button, shown once the account is loaded. */
    method DiscardChanges()
      requires Valid() && userData.Some?
      modifies this
      ensures Valid()
      ensures userData == old(userData) && signedIn == old(signedIn)
      ensures !isEditingPassword && form == ResetValues(userData.value)
    {
      form := ResetValues(userData.value);
      isEditingPassword := false;
    }

    /** Typing into the profile fields. */
    method EditProfile(name: string, email: Option<Option<string>>, phone: Option<Option<string>>)
      requires Valid()
      modifies this
      ensures Valid()
      ensures form == old(form).(name := name, email := email, phone := phone)
      ensures isEditingPassword == old(isEditingPassword) && userData == old(userData) && signedIn == old(signedIn)
    {
      form := form.(name := name, email := email, phone := phone);
    }

    /** Typing into the password fields, which are only rendered while the section is open. */
    method EditPasswords(current: Option<string>, password: Option<string>, confirm: Option<string>)
      requires Valid() && isEditingPassword
      modifies this
      ensures Valid()
      ensures form == old(form).(currentPassword := current, password := password, confirmPassword := confirm)
      ensures isEditingPassword && userData == old(userData) && signedIn == old(signedIn)
    {
      form := form.(currentPassword := current, password := password, confirmPassword := confirm);
    }

    /**
     * `onSubmit` with the form's values, once the resolver accepted them;
     * `accepted` is whether the update endpoint answered with `success`.
     * Returns the payload sent, if any, and the toast shown.
     */
    method OnSubmit(accepted: AccountUpdate -> bool) returns (sent: Option<AccountUpdate>, notice: Option<Notice>)
      requires Valid()
      modifies this
      ensures Valid()
      ensures old(userData).None? ==> sent.None? && notice.None?
      ensures old(userData).Some? ==> sent == Some(Payload(old(form), old(userData).value))
      ensures sent.Some? && accepted(sent.value) ==>
        notice == Some(if old(isEditingPassword) then PasswordChangedSignInAgain else ProfileSaved)
      ensures sent.Some? && !accepted(sent.value) ==> notice.None?
      ensures signedIn == (old(signedIn) && !(sent.Some? && accepted(sent.value) && old(isEditingPassword)))
      ensures isEditingPassword == old(isEditingPassword) && userData == old(userData) && form == old(form)
    {
      sent := None;
      notice := None;
      if userData.None? {
        return;
      }
      var body := Payload(form, userData.value);
      sent := Some(body);
      if accepted(body) {
        if !isEditingPassword {
          notice := Some(ProfileSaved);
        } else {
          notice := Some(PasswordChangedSignInAgain);
          signedIn := false;
        }
      }
    }
  }

  /**
   * On a page in its invariant, a save made without opening the password section
   * sends an empty `password`.
   */
  lemma ProfileSaveSendsEmptyPassword(form: AccountForm, user: PublicUser)
    requires PasswordsCleared(form)
    ensures Payload(form, user).password == "" && Payload(form, user).currentPassword == ""
  {
    assert Text.Trim("") == "";
  }
}
