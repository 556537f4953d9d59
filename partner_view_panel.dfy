/** `PartnerViewPanel`: how a partner's type, rank and sectors are displayed, "other" values included. */
module PartnerView {
  import opened Wrappers
  import opened Domain
  import opened PartnerLabels

  /** The fields of a partner the panel reads; `null` and absent are both `None`. */
  datatype ViewedPartner = ViewedPartner(
    sector: Option<seq<string>>, partnerType: Option<string>, rank: Option<string>,
    otherSectorName: Option<string>, otherTypeName: Option<string>, otherRank: Option<string>)

  /** JavaScript truthiness of an optional text. */
  predicate Filled(v: Option<string>) {
    v.Some? && v.value != ""
  }

  /** One displayed sector: OTHERS shows the free text, anything else its label. */
  function SectorShown(p: ViewedPartner, s: string): Option<string> {
    if s == PartnerSectorName(Others) then p.otherSectorName else Some(SectorLabel(s))
  }

  /** `sectors`: same length and order as the partner's sectors, a missing list being empty. */
  function Sectors(p: ViewedPartner): (r: seq<Option<string>>)
    ensures |r| == |p.sector.GetOr([])|
    ensures forall i :: 0 <= i < |r| ==> r[i] == SectorShown(p, p.sector.GetOr([])[i])
  {
    var ss := p.sector.GetOr([]);
    seq(|ss|, i requires 0 <= i < |ss| => SectorShown(p, ss[i]))
  }

  /** `type`: OTHER shows the free text, another non-empty type its label, and no type "". */
  function TypeShown(p: ViewedPartner): (r: Option<string>)
    ensures p.partnerType == Some(PartnerTypeName(OtherType)) ==> r == p.otherTypeName
    ensures p.partnerType != Some(PartnerTypeName(OtherType)) && Filled(p.partnerType) ==> r == Some(TypeLabel(p.partnerType.value))
    ensures !Filled(p.partnerType) ==> r == Some("")
  {
    if p.partnerType == Some(PartnerTypeName(OtherType)) then p.otherTypeName
    else if Filled(p.partnerType) then Some(TypeLabel(p.partnerType.value))
    else Some("")
  }

  /** `rank`, by the same rule with `otherRank`. */
  function RankShown(p: ViewedPartner): (r: Option<string>)
    ensures p.rank == Some(PartnerRankName(OtherRank)) ==> r == p.otherRank
    ensures p.rank != Some(PartnerRankName(OtherRank)) && Filled(p.rank) ==> r == Some(RankLabel(p.rank.value))
    ensures !Filled(p.rank) ==> r == Some("")
  {
    if p.rank == Some(PartnerRankName(OtherRank)) then p.otherRank
    else if Filled(p.rank) then Some(RankLabel(p.rank.value))
    else Some("")
  }

  /** The info rows shown: each is absent when its value is empty. */
  datatype InfoRows = InfoRows(
    typeRow: Option<string>, rankRow: Option<(Option<RankIcon>, string)>, sectorRow: Option<seq<Option<string>>>)

  /** The panel's info rows; a `null` partner renders nothing. */
  function Render(partner: Option<ViewedPartner>): (r: Option<InfoRows>)
    ensures r.Some? <==> partner.Some?
    ensures r.Some? ==> (r.value.typeRow.Some? <==> Filled(TypeShown(partner.value)))
    ensures r.Some? ==> (r.value.rankRow.Some? <==> Filled(RankShown(partner.value)))
    ensures r.Some? ==> (r.value.sectorRow.Some? <==> |partner.value.sector.GetOr([])| > 0)
  {
    match partner
    case None => None
    case Some(p) =>
      var t := TypeShown(p);
      var k := RankShown(p);
      var s := Sectors(p);
      Some(InfoRows(
        if Filled(t) then Some(t.value) else None,
        if Filled(k) then Some((RankIconOf(p.rank.GetOr("")), k.value)) else None,
        if |s| > 0 then Some(s) else None))
  }

  /** A partner of type OTHER shows its free text as its type, and the row exactly when that text is non-empty. */
  lemma OtherTypeShowsFreeText(p: ViewedPartner)
    requires p.partnerType == Some(PartnerTypeName(OtherType))
    ensures Render(Some(p)).value.typeRow.Some? <==> Filled(p.otherTypeName)
    ensures Filled(p.otherTypeName) ==> Render(Some(p)).value.typeRow == p.otherTypeName
  {
  }

  /** A known, non-"other" type shows its label, which is never empty, so its row is always there. */
  lemma KnownTypeShowsLabel(p: ViewedPartner, t: PartnerType)
    requires t != OtherType && p.partnerType == Some(PartnerTypeName(t))
    ensures Render(Some(p)).value.typeRow == Some(KnownTypeLabel(t))
  {
    assert ParsePartnerType(PartnerTypeName(t)) == Some(t);
    assert KnownTypeLabel(t) != "";
  }

  /** A sector list holding OTHERS shows the free text in that place, and labels everywhere else. */
  lemma SectorsInPlace(p: ViewedPartner, i: int)
    requires p.sector.Some? && 0 <= i < |p.sector.value|
    ensures p.sector.value[i] == PartnerSectorName(Others) ==> Sectors(p)[i] == p.otherSectorName
    ensures p.sector.value[i] != PartnerSectorName(Others) ==> Sectors(p)[i] == Some(SectorLabel(p.sector.value[i]))
  {
  }
}
