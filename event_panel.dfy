/** `EventPanel`: the create/edit form for an event (a project) and its zod schema. */
module EventPanel {
  import opened Forms
  import opened Domain

  datatype EventInput = EventInput(
    id: Input, title: Input, description: Input, status: Input, documents: Input,
    startDate: Input, endDate: Input, feedback: Input, fundingAmount: Input, fundingCurrency: Input,
    rating: Input, studentReachActual: Input, studentReachPlanned: Input, userId: Input,
    contactIds: Input, partnerIds: Input)

  const TitleRequired := "Tên dự án là bắt buộc."

  function OptionalText(v: Input, path: string): (r: Verdict)
    ensures Sound(r) && (Clean(r) <==> v == Undefined || v.Str?)
  {
    Optional(v, StringMin(v, path, 0, ""))
  }

  function OptionalNumber(v: Input, path: string): (r: Verdict)
    ensures Sound(r) && (Clean(r) <==> v == Undefined || v.Num?)
  {
    Optional(v, Number(v, path))
  }

  /** `z.date().nullable()`. */
  function NullableDate(v: Input, path: string): (r: Verdict)
    ensures Sound(r) && (Clean(r) <==> v == Null || v.Date?)
  {
    Nullable(v, DateValue(v, path))
  }

  /** `z.array(z.string()).default([])`. */
  function IdList(v: Input, path: string): (r: Verdict)
    ensures Sound(r)
    ensures Clean(r) <==> v == Undefined || (v.List? && forall i :: 0 <= i < |v.items| ==> v.items[i].Str?)
  {
    Strings(Defaulted(v, List([])), path)
  }

  /** `schema`. */
  function Validate(f: EventInput): (r: Verdict)
    ensures Sound(r)
  {
    Both(OptionalText(f.id, "id"),
    Both(StringMin(f.title, "title", 1, TitleRequired),
    Both(OptionalText(f.description, "description"),
    Both(StringMin(f.status, "status", 0, ""),
    Both(IdList(f.documents, "documents"),
    Both(NullableDate(f.startDate, "startDate"),
    Both(NullableDate(f.endDate, "endDate"),
    Both(OptionalText(f.feedback, "feedback"),
    Both(OptionalNumber(f.fundingAmount, "funding_amount"),
    Both(OptionalText(f.fundingCurrency, "funding_currency"),
    Both(OptionalNumber(f.rating, "rating"),
    Both(OptionalNumber(f.studentReachActual, "student_reach_actual"),
    Both(OptionalNumber(f.studentReachPlanned, "student_reach_planned"),
    Both(OptionalText(f.userId, "userId"),
    Both(IdList(f.contactIds, "contactIds"),
         IdList(f.partnerIds, "partnerIds"))))))))))))))))
  }

  predicate IdsAcceptable(v: Input) {
    v == Undefined || (v.List? && forall i :: 0 <= i < |v.items| ==> v.items[i].Str?)
  }

  /**
   * An event is accepted exactly when it has a title; a status that is any
   * string (not necessarily a known status); dates that are dates or `null`
   * (a missing date is refused); id lists that are missing or lists of strings;
   * and every other field absent or of its declared type.
   */
  lemma AcceptsExactly(f: EventInput)
    ensures Clean(Validate(f)) <==>
      (f.id == Undefined || f.id.Str?)
      && f.title.Str? && |f.title.s| >= 1
      && (f.description == Undefined || f.description.Str?)
      && f.status.Str?
      && IdsAcceptable(f.documents)
      && (f.startDate == Null || f.startDate.Date?)
      && (f.endDate == Null || f.endDate.Date?)
      && (f.feedback == Undefined || f.feedback.Str?)
      && (f.fundingAmount == Undefined || f.fundingAmount.Num?)
      && (f.fundingCurrency == Undefined || f.fundingCurrency.Str?)
      && (f.rating == Undefined || f.rating.Num?)
      && (f.studentReachActual == Undefined || f.studentReachActual.Num?)
      && (f.studentReachPlanned == Undefined || f.studentReachPlanned.Num?)
      && (f.userId == Undefined || f.userId.Str?)
      && IdsAcceptable(f.contactIds) && IdsAcceptable(f.partnerIds)
  {
  }

  /** The id lists the parsed form holds: `[]` for a missing one. */
  function ParsedIds(v: Input): (r: Input)
    ensures v == Undefined ==> r == List([])
    ensures v != Undefined ==> r == v
  {
    Defaulted(v, List([]))
  }

  /** A list whose every element is a string. */
  predicate StringList(v: Input) {
    v.List? && forall i :: 0 <= i < |v.items| ==> v.items[i].Str?
  }

  /** An accepted form yields lists of strings for `documents`, `contactIds` and `partnerIds`. */
  lemma AcceptedListsAreStrings(f: EventInput)
    requires Clean(Validate(f))
    ensures StringList(ParsedIds(f.documents)) && StringList(ParsedIds(f.contactIds)) && StringList(ParsedIds(f.partnerIds))
  {
    AcceptsExactly(f);
  }

  /** `initFormValues`: a PROSPECT event with no dates, empty lists, rating 0 and a planned reach of 1. */
  const InitFormValues := EventInput(
    Undefined, Str(""), Str(""), Str(EventStatusName(Prospect)), List([]), Null, Null, Str(""),
    Num(0), Str(""), Num(0), Num(0), Num(1), Str(""), List([]), List([]))

  /** Only the title rule refuses the initial values. */
  lemma InitFormValuesIssues()
    ensures Validate(InitFormValues) == Verdict([Issue("title", TitleRequired)], false)
  {
  }
}
