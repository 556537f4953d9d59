/** `UserListPage`: labels, the current-user guard, the edit form's values and the status-change confirmation. */
module UserListPage {
  import opened Wrappers
  import opened Domain
  import Forms
  import UserPanel
  import GlobalModal
  import AuthMiddleware
  import Http

  /** `getDepartmentLabel`'s table; a value outside it is shown as it is. */
  function KnownDepartmentLabel(d: Department): string {
    match d
    case Electrical => "Điện"
    case Electronic => "Điện tử"
    case Communication => "KT truyền thông"
    case Automation => "Tự động hóa"
    case SchoolOffice => "Văn phòng trường"
  }

  function DepartmentLabel(dept: string): (r: string)
    ensures ParseDepartment(dept).Some? ==> r == KnownDepartmentLabel(ParseDepartment(dept).value)
    ensures ParseDepartment(dept).None? ==> r == dept
  {
    match ParseDepartment(dept)
    case Some(d) => KnownDepartmentLabel(d)
    case None => dept
  }

  /** Every department gets its own label. */
  lemma DepartmentLabelsDistinct(a: Department, b: Department)
    requires a != b
    ensures DepartmentLabel(DepartmentName(a)) != DepartmentLabel(DepartmentName(b))
  {
    assert ParseDepartment(DepartmentName(a)) == Some(a);
    assert ParseDepartment(DepartmentName(b)) == Some(b);
    assert |KnownDepartmentLabel(Electrical)| == 4;
    assert |KnownDepartmentLabel(Electronic)| == 7;
    assert |KnownDepartmentLabel(Communication)| == 15;
    assert |KnownDepartmentLabel(Automation)| == 11;
    assert |KnownDepartmentLabel(SchoolOffice)| == 16;
  }

  /** `getRoleLabel`: administrators are "Quản trị viên", everyone else "Người dùng". */
  function RoleLabel(role: Role): (r: string)
    ensures r == (if role == Admin then "Quản trị viên" else "Người dùng")
    ensures (r == "Quản trị viên") <==> role == Admin
  {
    if role == Admin then "Quản trị viên" else "Người dùng"
  }

  /** The row controls a user may use. */
  datatype RowControls = RowControls(switchEnabled: bool, editEnabled: bool, deleteEnabled: bool)

  /** The status switch and the edit and delete buttons are disabled on the signed-in user's own row. */
  function Controls(row: PublicUser, currentUserId: Option<string>): (r: RowControls)
    ensures r.switchEnabled == r.editEnabled == r.deleteEnabled
    ensures !r.switchEnabled <==> currentUserId == Some(row.id)
  {
    var isCurrentUser := currentUserId == Some(row.id);
    RowControls(!isCurrentUser, !isCurrentUser, !isCurrentUser)
  }

  const ActiveLabel := "Hoạt động"
  const SuspendedLabel := "Tạm ngưng"

  /** The status label beside the switch: "Hoạt động" exactly for an active account, "Tạm ngưng" otherwise. */
  function StatusLabel(isActive: bool): (r: string)
    ensures r == ActiveLabel || r == SuspendedLabel
    ensures r == ActiveLabel <==> isActive
    ensures |r| > 0 && r[0] == (if isActive then 'H' else 'T')
  {
    assert ActiveLabel[0] != SuspendedLabel[0];
    if isActive then ActiveLabel else SuspendedLabel
  }

  /** The create button is shown only to administrators. */
  predicate CreateButtonShown(viewer: Option<PublicUser>) {
    viewer.Some? && viewer.value.role == Admin
  }

  /** The page's gate agrees with the server's `protectRoles([ADMIN])`: the button is shown exactly to those it admits. */
  lemma CreateButtonMatchesAdminGate(viewer: Option<PublicUser>)
    ensures CreateButtonShown(viewer) <==> AuthMiddleware.ProtectRoles([Admin], viewer) == Http.Passed
  {
  }

  function OptionalText(v: Option<string>): (r: Forms.Input)
    ensures v.None? ==> r == Forms.Null
    ensures v.Some? ==> r == Forms.Str(v.value)
  {
    if v.Some? then Forms.Str(v.value) else Forms.Null
  }

  /** `onEditClick`'s `form.reset({ ...data, password: "" })`. */
  function EditValues(row: PublicUser): (r: UserPanel.UserInput)
    ensures r.id == Forms.Str(row.id) && r.password == Forms.Str("")
    ensures r.name == Forms.Str(row.name) && r.username == Forms.Str(row.username)
    ensures r.email == OptionalText(row.email) && r.phone == OptionalText(row.phone)
    ensures r.role == Forms.Str(RoleName(row.role)) && r.department == Forms.Str(DepartmentName(row.department))
    ensures r.isActive == Forms.Flag(row.isActive)
  {
    UserPanel.UserInput(
      Forms.Str(row.name), Forms.Str(row.username), OptionalText(row.email), OptionalText(row.phone),
      Forms.Str(RoleName(row.role)), Forms.Str(DepartmentName(row.department)),
      Forms.Flag(row.isActive), Forms.Str(row.id), Forms.Str(""))
  }

  /**
   * A user opened for editing can be saved without choosing a new password
   * exactly when the stored name, username and e-mail meet the form's rules
   * and the row has a non-empty id.
   */
  lemma EditedRowAccepted(row: PublicUser, isEmail: string -> bool)
    ensures Forms.Clean(UserPanel.Validate(EditValues(row), isEmail)) <==>
      |row.name| >= 1 && |row.username| >= 3 && row.id != ""
      && (row.email.None? || row.email == Some("") || isEmail(row.email.value))
  {
    var f := EditValues(row);
    UserPanel.AcceptsExactly(f, isEmail, UserPanel.WrittenPasswordMin);
    assert ParseRole(RoleName(row.role)) == Some(row.role);
    assert ParseDepartment(DepartmentName(row.department)) == Some(row.department);
  }

  // ---------------------------------------------------------------------
  // The status switch

  const ConfirmText := "Xác nhận"
  const CancelText := "Hủy"
  const StatusChangedText := "Thay đổi trạng thái thành công"

  function ActionWord(isActive: bool): string {
    if isActive then "kích hoạt" else "tạm ngưng"
  }

  /** `onActiveStateChange`: the texts handed to `openConfirmModal`. */
  function StatusChangePatch(row: PublicUser, isActive: bool): (r: GlobalModal.MetaPatch)
    ensures r.title == Some(if isActive then "Kích hoạt tài khoản" else "Tạm ngưng tài khoản")
    ensures r.content == Some("Bạn có chắc chắn muốn " + ActionWord(isActive) + " tài khoản \"" + row.name + "\" (" + row.username + ")?")
    ensures r.confirmText == Some(ConfirmText) && r.cancelText == Some(CancelText)
    ensures r.confirmType == Some(if isActive then GlobalModal.Normal else GlobalModal.Warning)
  {
    GlobalModal.MetaPatch(
      Some(if isActive then "Kích hoạt tài khoản" else "Tạm ngưng tài khoản"),
      Some("Bạn có chắc chắn muốn " + ActionWord(isActive) + " tài khoản \"" + row.name + "\" (" + row.username + ")?"),
      Some(CancelText), Some(ConfirmText),
      Some(if isActive then GlobalModal.Normal else GlobalModal.Warning))
  }

  /** Every text of the modal is supplied, so none of the store's defaults shows through. */
  lemma StatusChangeReplacesAllTexts(row: PublicUser, isActive: bool, current: GlobalModal.Meta)
    ensures GlobalModal.Overlay(current, StatusChangePatch(row, isActive))
         == GlobalModal.Overlay(GlobalModal.DefaultMeta, StatusChangePatch(row, isActive))
  {
  }

  /** Activating and suspending ask with different titles and different confirm styles. */
  lemma StatusChangeDirectionsDiffer(row: PublicUser)
    ensures StatusChangePatch(row, true).title != StatusChangePatch(row, false).title
    ensures StatusChangePatch(row, true).confirmType != StatusChangePatch(row, false).confirmType
  {
    assert StatusChangePatch(row, true).title.value[0] == 'K';
    assert StatusChangePatch(row, false).title.value[0] == 'T';
  }

  /** The status request the confirm button sends, and what follows its response. */
  datatype StatusOutcome = StatusOutcome(
    request: (string, bool), toast: Option<string>, refetch: bool, closes: bool)

  /** `onConfirm`: send `(row.id, isActive)`; only a successful response toasts, refetches and closes the modal. */
  function ConfirmStatusChange(row: PublicUser, isActive: bool, success: bool): (r: StatusOutcome)
    ensures r.request == (row.id, isActive)
    ensures r.toast.Some? <==> success
    ensures r.toast.Some? ==> r.toast.value == StatusChangedText
    ensures r.refetch == success && r.closes == success
  {
    StatusOutcome((row.id, isActive), if success then Some(StatusChangedText) else None, success, success)
  }
}
