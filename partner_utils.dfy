/** `partner.utils`: the labels of the partner enums, the rank icons, and the option lists built from them. */
module PartnerLabels {
  import opened Wrappers
  import opened Domain

  const Other := "Khác"

  function KnownTypeLabel(t: PartnerType): string {
    match t
    case Individual => "Cá nhân"
    case Organization => "Tổ chức"
    case OtherType => Other
  }

  function KnownSectorLabel(s: PartnerSector): string {
    match s
    case Academic => "Học thuật"
    case Industry => "Công nghiệp"
    case Ngo => "Phi chính phủ"
    case Government => "Chính phủ"
    case Others => Other
  }

  function KnownRankLabel(r: PartnerRank): string {
    match r
    case Diamond => "Kim cương"
    case Gold => "Vàng"
    case Silver => "Bạc"
    case NotYet => "Chưa xếp hạng"
    case OtherRank => Other
  }

  /** `getPartnerTypeLabel`: the label of a known type, the value itself otherwise. */
  function TypeLabel(t: string): (r: string)
    ensures ParsePartnerType(t).Some? ==> r == KnownTypeLabel(ParsePartnerType(t).value)
    ensures ParsePartnerType(t).None? ==> r == t
  {
    match ParsePartnerType(t)
    case Some(x) => KnownTypeLabel(x)
    case None => t
  }

  /** `getPartnerSectorLabel`. */
  function SectorLabel(s: string): (r: string)
    ensures ParsePartnerSector(s).Some? ==> r == KnownSectorLabel(ParsePartnerSector(s).value)
    ensures ParsePartnerSector(s).None? ==> r == s
  {
    match ParsePartnerSector(s)
    case Some(x) => KnownSectorLabel(x)
    case None => s
  }

  /** `getPartnerRankLabel`. */
  function RankLabel(r: string): (l: string)
    ensures ParsePartnerRank(r).Some? ==> l == KnownRankLabel(ParsePartnerRank(r).value)
    ensures ParsePartnerRank(r).None? ==> l == r
  {
    match ParsePartnerRank(r)
    case Some(x) => KnownRankLabel(x)
    case None => r
  }

  /** Every "other" member of the three enums is labelled "Khác". */
  lemma OthersLabelledOther()
    ensures TypeLabel(PartnerTypeName(OtherType)) == Other
    ensures SectorLabel(PartnerSectorName(Others)) == Other
    ensures RankLabel(PartnerRankName(OtherRank)) == Other
  {
  }

  /** Labelling a known value never gives back its enum name. */
  lemma KnownLabelsDifferFromNames(t: PartnerType, s: PartnerSector, r: PartnerRank)
    ensures TypeLabel(PartnerTypeName(t)) != PartnerTypeName(t)
    ensures SectorLabel(PartnerSectorName(s)) != PartnerSectorName(s)
    ensures RankLabel(PartnerRankName(r)) != PartnerRankName(r)
  {
    assert KnownTypeLabel(t)[0] != PartnerTypeName(t)[0];
    assert KnownSectorLabel(s)[0] != PartnerSectorName(s)[0];
    assert KnownRankLabel(r)[0] != PartnerRankName(r)[0];
  }

  /** The icon drawn before a rank. */
  datatype RankIcon = Gem(color: string) | Medal(color: string) | MinusCircle(color: string) | HelpCircle

  /** `getPartnerRankIcon`: one icon per rank, none for anything else. */
  function RankIconOf(rank: string): (r: Option<RankIcon>)
    ensures r.None? <==> ParsePartnerRank(rank).None?
    ensures r == Some(HelpCircle) <==> ParsePartnerRank(rank) == Some(OtherRank)
  {
    match ParsePartnerRank(rank)
    case Some(Diamond) => Some(Gem("#38bdf8"))
    case Some(Gold) => Some(Medal("#eab308"))
    case Some(Silver) => Some(Medal("#a3a3a3"))
    case Some(NotYet) => Some(MinusCircle("#a3a3a3"))
    case Some(OtherRank) => Some(HelpCircle)
    case None => None
  }

  /** Gold and silver share the medal but not its colour: no two ranks get the same icon. */
  lemma RankIconsDistinct(a: PartnerRank, b: PartnerRank)
    requires a != b
    ensures RankIconOf(PartnerRankName(a)) != RankIconOf(PartnerRankName(b))
  {
    assert "#eab308"[1] != "#a3a3a3"[1];
  }

  /** `Object.values(E).map((v) => ({ value: v, label: labelOf(v) }))`; `text` is the option's `label`. */
  function Choices(names: seq<string>, labelOf: string -> string): (r: seq<Choice>)
    ensures |r| == |names|
    ensures forall i :: 0 <= i < |r| ==> r[i].value == names[i] && r[i].text == labelOf(names[i])
  {
    if names == [] then [] else [Choice(names[0], labelOf(names[0]))] + Choices(names[1..], labelOf)
  }

  function PartnerTypeNames(): (r: seq<string>)
    ensures |r| == |PartnerTypes| && forall i :: 0 <= i < |r| ==> r[i] == PartnerTypeName(PartnerTypes[i])
  {
    seq(|PartnerTypes|, i requires 0 <= i < |PartnerTypes| => PartnerTypeName(PartnerTypes[i]))
  }

  function PartnerSectorNames(): (r: seq<string>)
    ensures |r| == |PartnerSectors| && forall i :: 0 <= i < |r| ==> r[i] == PartnerSectorName(PartnerSectors[i])
  {
    seq(|PartnerSectors|, i requires 0 <= i < |PartnerSectors| => PartnerSectorName(PartnerSectors[i]))
  }

  function PartnerRankNames(): (r: seq<string>)
    ensures |r| == |PartnerRanks| && forall i :: 0 <= i < |r| ==> r[i] == PartnerRankName(PartnerRanks[i])
  {
    seq(|PartnerRanks|, i requires 0 <= i < |PartnerRanks| => PartnerRankName(PartnerRanks[i]))
  }

  function TypeOptions(): seq<Choice> { Choices(PartnerTypeNames(), TypeLabel) }
  function SectorOptions(): seq<Choice> { Choices(PartnerSectorNames(), SectorLabel) }
  function RankOptions(): seq<Choice> { Choices(PartnerRankNames(), RankLabel) }

  /** The type options: one per type, in declaration order, labelled by the type table. */
  lemma TypeOptionsCoverEnum()
    ensures |TypeOptions()| == |PartnerTypes|
    ensures forall i :: 0 <= i < |PartnerTypes| ==>
      TypeOptions()[i] == Choice(PartnerTypeName(PartnerTypes[i]), KnownTypeLabel(PartnerTypes[i]))
  {
    forall i | 0 <= i < |PartnerTypes|
      ensures TypeOptions()[i] == Choice(PartnerTypeName(PartnerTypes[i]), KnownTypeLabel(PartnerTypes[i]))
    {
      assert ParsePartnerType(PartnerTypeName(PartnerTypes[i])) == Some(PartnerTypes[i]);
    }
  }

  /** The sector options, likewise. */
  lemma SectorOptionsCoverEnum()
    ensures |SectorOptions()| == |PartnerSectors|
    ensures forall i :: 0 <= i < |PartnerSectors| ==>
      SectorOptions()[i] == Choice(PartnerSectorName(PartnerSectors[i]), KnownSectorLabel(PartnerSectors[i]))
  {
    forall i | 0 <= i < |PartnerSectors|
      ensures SectorOptions()[i] == Choice(PartnerSectorName(PartnerSectors[i]), KnownSectorLabel(PartnerSectors[i]))
    {
      assert ParsePartnerSector(PartnerSectorName(PartnerSectors[i])) == Some(PartnerSectors[i]);
    }
  }

  /** The rank options, likewise. */
  lemma RankOptionsCoverEnum()
    ensures |RankOptions()| == |PartnerRanks|
    ensures forall i :: 0 <= i < |PartnerRanks| ==>
      RankOptions()[i] == Choice(PartnerRankName(PartnerRanks[i]), KnownRankLabel(PartnerRanks[i]))
  {
    forall i | 0 <= i < |PartnerRanks|
      ensures RankOptions()[i] == Choice(PartnerRankName(PartnerRanks[i]), KnownRankLabel(PartnerRanks[i]))
    {
      assert ParsePartnerRank(PartnerRankName(PartnerRanks[i])) == Some(PartnerRanks[i]);
    }
  }
}
