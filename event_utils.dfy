/** `event.utils`: the badge shown for an event's status and the status option list. */
module EventLabels {
  import opened Wrappers
  import opened Domain

  datatype Variant = Outline | Secondary | DefaultVariant | HalfDestructive | Destructive

  datatype Badge = Badge(variant: Variant, text: string)

  /** The badge of each known status. */
  function KnownBadge(s: EventStatus): Badge {
    match s
    case Prospect => Badge(Outline, "Đang triển khai")
    case Pending => Badge(Secondary, "Chờ duyệt")
    case Active => Badge(DefaultVariant, "Đang hoạt động")
    case Closed => Badge(HalfDestructive, "Đã đóng")
    case Terminated => Badge(Destructive, "Đã hủy")
  }

  /** `getEventStatusBadge`: a known status gets its badge; anything else an outline badge showing the value. */
  function StatusBadge(status: string): (r: Badge)
    ensures ParseEventStatus(status).Some? ==> r == KnownBadge(ParseEventStatus(status).value)
    ensures ParseEventStatus(status).None? ==> r == Badge(Outline, status)
  {
    match ParseEventStatus(status)
    case Some(s) => KnownBadge(s)
    case None => Badge(Outline, status)
  }

  /** The five statuses show five different texts. */
  lemma StatusTextsDistinct(a: EventStatus, b: EventStatus)
    requires a != b
    ensures StatusBadge(EventStatusName(a)).text != StatusBadge(EventStatusName(b)).text
  {
    assert |KnownBadge(a).text| != |KnownBadge(b).text|;
  }

  /** `eventStatusOptions`: one per status, in declaration order, with an empty label. */
  function StatusOptions(): (r: seq<Choice>)
    ensures |r| == |EventStatuses|
    ensures forall i :: 0 <= i < |r| ==> r[i] == Choice(EventStatusName(EventStatuses[i]), "")
  {
    seq(|EventStatuses|, i requires 0 <= i < |EventStatuses| => Choice(EventStatusName(EventStatuses[i]), ""))
  }

  /** Every status has an option, and its value parses back to that status. */
  lemma StatusOptionsCoverEnum(s: EventStatus)
    ensures exists i :: 0 <= i < |StatusOptions()| && ParseEventStatus(StatusOptions()[i].value) == Some(s)
  {
    var i := match s
      case Prospect => 0
      case Pending => 1
      case Active => 2
      case Closed => 3
      case Terminated => 4;
    assert EventStatuses[i] == s;
    assert ParseEventStatus(StatusOptions()[i].value) == Some(s);
  }
}
