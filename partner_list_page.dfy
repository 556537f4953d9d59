/** `PartnerListPage`: the contacts column, the contact-list modal, and the edit form's contact ids. */
module PartnerListPage {
  import opened Wrappers

  /** The parts of a contact the page shows. */
  datatype Contact = Contact(id: string, name: string)

  /** A partner–contact join row, as the API nests it. */
  datatype PartnerContact = PartnerContact(id: string, contact: Contact)

  /** `(partnerContacts ?? []).map((p) => p.contact)`. */
  function Contacts(partnerContacts: Option<seq<PartnerContact>>): (r: seq<Contact>)
    ensures |r| == |partnerContacts.GetOr([])|
    ensures forall i :: 0 <= i < |r| ==> r[i] == partnerContacts.GetOr([])[i].contact
  {
    var pcs := partnerContacts.GetOr([]);
    seq(|pcs|, i requires 0 <= i < |pcs| => pcs[i].contact)
  }

  /** `onEditClick`'s `contactIds`: the joined contacts' ids, in order; none without join rows. */
  function ContactIds(partnerContacts: Option<seq<PartnerContact>>): (r: seq<string>)
    ensures partnerContacts.None? ==> r == []
    ensures |r| == |partnerContacts.GetOr([])|
    ensures forall i :: 0 <= i < |r| ==> r[i] == partnerContacts.GetOr([])[i].contact.id
  {
    var cs := Contacts(partnerContacts);
    seq(|cs|, i requires 0 <= i < |cs| => cs[i].id)
  }

  /** The contacts cell: nothing, or the first contact's name with a "+n" badge for the others. */
  datatype ContactsCell = NoContacts | FirstContact(name: string, more: Option<nat>)

  function Cell(partnerContacts: Option<seq<PartnerContact>>): (r: ContactsCell)
    ensures r == NoContacts <==> |partnerContacts.GetOr([])| == 0
    ensures r.FirstContact? ==> r.name == partnerContacts.value[0].contact.name
    ensures r.FirstContact? ==> (r.more.Some? <==> |partnerContacts.value| > 1)
    ensures r.FirstContact? && r.more.Some? ==> r.more.value + 1 == |partnerContacts.value|
  {
    var contacts := Contacts(partnerContacts);
    if |contacts| == 0 then NoContacts
    else FirstContact(contacts[0].name, if |contacts| > 1 then Some(|contacts| - 1) else None)
  }

  /** The cell accounts for every contact: the named one plus the badge's count. */
  lemma CellCountsEveryContact(partnerContacts: Option<seq<PartnerContact>>)
    requires Cell(partnerContacts).FirstContact?
    ensures 1 + Cell(partnerContacts).more.GetOr(0) == |Contacts(partnerContacts)|
  {
  }

  /** The body of the contact-list modal. */
  datatype ModalBody = EmptyNotice | Cards(contacts: seq<Contact>)

  const EmptyNoticeText := "Không có liên hệ nào"

  /** `onViewContactlist`: the modal's title and body. */
  function ContactListModal(partnerName: string, partnerContacts: Option<seq<PartnerContact>>): (r: (string, ModalBody))
    ensures r.0 == "Danh sách liên hệ - " + partnerName
    ensures r.1 == EmptyNotice <==> |partnerContacts.GetOr([])| == 0
    ensures r.1.Cards? ==> r.1.contacts == Contacts(partnerContacts)
  {
    var contacts := Contacts(partnerContacts);
    ("Danh sách liên hệ - " + partnerName, if |contacts| == 0 then EmptyNotice else Cards(contacts))
  }

  /** The modal lists exactly the contacts the cell summarises. */
  lemma ModalMatchesCell(partnerName: string, partnerContacts: Option<seq<PartnerContact>>)
    ensures ContactListModal(partnerName, partnerContacts).1 == EmptyNotice <==> Cell(partnerContacts) == NoContacts
  {
  }

  const CreatedText := "Thêm đối tác mới thành công"
  const UpdatedText := "Chỉnh sửa thành công"
}
