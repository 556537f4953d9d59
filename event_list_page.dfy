/** `EventListPage`: how an event row becomes the edit form's values. */
module EventListPage {
  import opened Wrappers

  /** The join rows the API nests in an event, each holding the joined record. */
  datatype ContactRef = ContactRef(id: string)
  datatype PartnerRef = PartnerRef(id: string)
  datatype EventContact = EventContact(id: string, contact: ContactRef)
  datatype PartnerEvent = PartnerEvent(id: string, partner: PartnerRef)

  /** The fields of an event row the edit click rewrites; dates arrive as text. */
  datatype EventRow = EventRow(
    startDate: Option<string>, endDate: Option<string>,
    eventContacts: Option<seq<EventContact>>, partnerEvents: Option<seq<PartnerEvent>>)

  /** The same fields as the form holds them; a date is a time value, `null` being `None`. */
  datatype EditValues = EditValues(
    startDate: Option<int>, endDate: Option<int>, contactIds: seq<string>, partnerIds: seq<string>)

  /** `row.date ? new Date(row.date) : null`; how text becomes a time value is the parameter `parse`. */
  function DateOf(d: Option<string>, parse: string -> int): (r: Option<int>)
    ensures r.Some? <==> d.Some? && d.value != ""
    ensures r.Some? ==> r.value == parse(d.value)
  {
    if d.Some? && d.value != "" then Some(parse(d.value)) else None
  }

  function ContactIds(ecs: Option<seq<EventContact>>): (r: seq<string>)
    ensures |r| == |ecs.GetOr([])|
    ensures forall i :: 0 <= i < |r| ==> r[i] == ecs.GetOr([])[i].contact.id
  {
    var xs := ecs.GetOr([]);
    seq(|xs|, i requires 0 <= i < |xs| => xs[i].contact.id)
  }

  function PartnerIds(pes: Option<seq<PartnerEvent>>): (r: seq<string>)
    ensures |r| == |pes.GetOr([])|
    ensures forall i :: 0 <= i < |r| ==> r[i] == pes.GetOr([])[i].partner.id
  {
    var xs := pes.GetOr([]);
    seq(|xs|, i requires 0 <= i < |xs| => xs[i].partner.id)
  }

  /** `onEditClick`'s `form.reset`. */
  function EditValuesOf(row: EventRow, parse: string -> int): (r: EditValues)
    ensures r.startDate == DateOf(row.startDate, parse) && r.endDate == DateOf(row.endDate, parse)
    ensures r.contactIds == ContactIds(row.eventContacts) && r.partnerIds == PartnerIds(row.partnerEvents)
  {
    EditValues(DateOf(row.startDate, parse), DateOf(row.endDate, parse),
               ContactIds(row.eventContacts), PartnerIds(row.partnerEvents))
  }

  /** An event without dates or associations opens with nulls and empty lists, which the event form accepts. */
  lemma BareEventResets(row: EventRow, parse: string -> int)
    requires row.startDate.None? && row.endDate.None? && row.eventContacts.None? && row.partnerEvents.None?
    ensures EditValuesOf(row, parse) == EditValues(None, None, [], [])
  {
  }

  /** Each id list follows its join rows one for one. */
  lemma IdsFollowJoinRows(row: EventRow, parse: string -> int, i: int, j: int)
    requires row.eventContacts.Some? && 0 <= i < |row.eventContacts.value|
    requires row.partnerEvents.Some? && 0 <= j < |row.partnerEvents.value|
    ensures EditValuesOf(row, parse).contactIds[i] == row.eventContacts.value[i].contact.id
    ensures EditValuesOf(row, parse).partnerIds[j] == row.partnerEvents.value[j].partner.id
  {
  }

  const CreatedText := "Thêm sự kiện thành công"
  const UpdatedText := "Cập nhật sự kiện thành công"
}
