/**
 * `PartnerPanel`: the create/edit form for a partner, its zod schema, the
 * sector checkboxes, and the free-text inputs that appear for "other" choices.
 */
module PartnerPanel {
  import opened Wrappers
  import opened Forms
  import opened Domain
  import Seqs

  datatype PartnerInput = PartnerInput(
    name: Input, address: Input, description: Input, id: Input, isActive: Input,
    contactIds: Input, otherRank: Input, otherTypeName: Input, otherSectorName: Input,
    rank: Input, partnerType: Input, sector: Input, tags: Input)

  const NameRequired := "Tên đối tác là bắt buộc."
  const RankRequired := "Xếp hạng là bắt buộc"
  const TypeRequired := "Loại đối tác là bắt buộc"
  const SectorRequired := "Cần chọn ít nhất 1 lĩnh vực"

  predicate IsRank(s: string) { ParsePartnerRank(s).Some? }
  predicate IsType(s: string) { ParsePartnerType(s).Some? }
  predicate IsSector(s: string) { ParsePartnerSector(s).Some? }

  /** `z.string().optional().nullable()`. */
  function OptionalText(v: Input, path: string): (r: Verdict)
    ensures Sound(r)
    ensures Clean(r) <==> v == Undefined || v == Null || v.Str?
  {
    Nullable(v, Optional(v, StringMin(v, path, 0, "")))
  }

  /** `z.array(z.string()).default([])`. */
  function IdList(v: Input, path: string): (r: Verdict)
    ensures Sound(r)
    ensures Clean(r) <==> v == Undefined || (v.List? && forall i :: 0 <= i < |v.items| ==> v.items[i].Str?)
  {
    Strings(Defaulted(v, List([])), path)
  }

  /** `schema`. */
  function Validate(f: PartnerInput): (r: Verdict)
    ensures Sound(r)
  {
    Both(StringMin(f.name, "name", 1, NameRequired),
    Both(Optional(f.address, StringMin(f.address, "address", 0, "")),
    Both(Optional(f.description, StringMin(f.description, "description", 0, "")),
    Both(Optional(f.id, StringMin(f.id, "id", 0, "")),
    Both(Boolean(f.isActive, "isActive"),
    Both(IdList(f.contactIds, "contactIds"),
    Both(OptionalText(f.otherRank, "otherRank"),
    Both(OptionalText(f.otherTypeName, "otherTypeName"),
    Both(OptionalText(f.otherSectorName, "otherSectorName"),
    Both(Enum(f.rank, "rank", RankRequired, IsRank),
    Both(Enum(f.partnerType, "type", TypeRequired, IsType),
    Both(EnumList(f.sector, "sector", 1, SectorRequired, IsSector),
         Optional(f.tags, Strings(f.tags, "tags"))))))))))))))
  }

  /** At least one sector, each a known sector. */
  predicate SectorsAcceptable(v: Input) {
    v.List? && |v.items| >= 1 && forall i :: 0 <= i < |v.items| ==> v.items[i].Str? && IsSector(v.items[i].s)
  }

  /**
   * A partner is accepted exactly when it has a name, a known rank and type
   * (so `null` is refused for both), at least one known sector, and every other
   * field is absent or of its declared type.
   */
  lemma AcceptsExactly(f: PartnerInput)
    ensures Clean(Validate(f)) <==>
      f.name.Str? && |f.name.s| >= 1
      && (f.address == Undefined || f.address.Str?)
      && (f.description == Undefined || f.description.Str?)
      && (f.id == Undefined || f.id.Str?)
      && f.isActive.Flag?
      && (f.contactIds == Undefined || (f.contactIds.List? && forall i :: 0 <= i < |f.contactIds.items| ==> f.contactIds.items[i].Str?))
      && (f.otherRank == Undefined || f.otherRank == Null || f.otherRank.Str?)
      && (f.otherTypeName == Undefined || f.otherTypeName == Null || f.otherTypeName.Str?)
      && (f.otherSectorName == Undefined || f.otherSectorName == Null || f.otherSectorName.Str?)
      && f.rank.Str? && ParsePartnerRank(f.rank.s).Some?
      && f.partnerType.Str? && ParsePartnerType(f.partnerType.s).Some?
      && SectorsAcceptable(f.sector)
      && (f.tags == Undefined || (f.tags.List? && forall i :: 0 <= i < |f.tags.items| ==> f.tags.items[i].Str?))
  {
  }

  /** The `contactIds` the parsed form holds: `[]` when the field is missing. */
  function ParsedContactIds(f: PartnerInput): (r: Input)
    ensures f.contactIds == Undefined ==> r == List([])
    ensures f.contactIds != Undefined ==> r == f.contactIds
  {
    Defaulted(f.contactIds, List([]))
  }

  /** An accepted form always yields a list of contact ids. */
  lemma AcceptedContactIdsAreStrings(f: PartnerInput)
    requires Clean(Validate(f))
    ensures ParsedContactIds(f).List?
    ensures forall i :: 0 <= i < |ParsedContactIds(f).items| ==> ParsedContactIds(f).items[i].Str?
  {
    AcceptsExactly(f);
  }

  /** `initFormValues`: empty texts, no sector, rank NOTYET, no type yet. */
  const InitFormValues := PartnerInput(
    Str(""), Str(""), Str(""), Undefined, Flag(true), List([]), Str(""), Str(""), Str(""),
    Str("NOTYET"), Null, List([]), List([]))

  /** The initial values are refused for the name, the missing type (which stops the parse) and the empty sector list. */
  lemma InitFormValuesIssues()
    ensures Validate(InitFormValues)
         == Verdict([Issue("name", NameRequired), Issue("type", TypeRequired), Issue("sector", SectorRequired)], true)
  {
    assert IsRank("NOTYET");
  }

  // ---------------------------------------------------------------------
  // The sector checkboxes

  /** `Array.isArray(value) ? [...value] : []`. */
  function SectorList(current: Input): seq<Input> {
    if current.List? then current.items else []
  }

  function IsNot(x: Input): Input -> bool {
    (v: Input) => v != x
  }

  /** The sectors after the box for `x` is set to `checked`: appended when absent, or every copy removed. */
  function Toggled(values: seq<Input>, x: Input, checked: bool): seq<Input> {
    if checked then (if x in values then values else values + [x])
    else Seqs.Filter(values, IsNot(x))
  }

  /** `onCheckedChange` of the box for `option`: the value handed to `field.onChange`. */
  method ToggleSector(current: Input, option: PartnerSector, checked: bool) returns (next: seq<Input>)
    ensures next == Toggled(SectorList(current), Str(PartnerSectorName(option)), checked)
  {
    var value := Str(PartnerSectorName(option));
    var newValue := if current.List? then current.items else [];
    if checked {
      if value !in newValue {
        newValue := newValue + [value];
      }
    } else {
      newValue := Seqs.Filter(newValue, IsNot(value));
    }
    next := newValue;
  }

  /** After a toggle the box's sector is present exactly when the box is checked; every other sector is as before. */
  lemma {:induction false} ToggledMembers(values: seq<Input>, x: Input, checked: bool, y: Input)
    ensures y in Toggled(values, x, checked) <==> (if y == x then checked else y in values)
  {
    if !checked && y != x && y in values {
      var i :| 0 <= i < |values| && values[i] == y;
      Seqs.FilterKeeps(values, IsNot(x), i);
    }
  }

  /** Toggling never introduces a duplicate. */
  lemma ToggledKeepsDistinct(values: seq<Input>, x: Input, checked: bool)
    requires Seqs.Distinct(values)
    ensures Seqs.Distinct(Toggled(values, x, checked))
  {
    if checked {
      if x !in values {
        Seqs.AppendDistinct(values, x);
      }
    } else {
      Seqs.FilterDistinct(values, IsNot(x));
    }
  }

  /** Unchecking a sector that is present once takes out exactly that entry; the others keep their order. */
  lemma {:induction false} UncheckRemovesEntry(values: seq<Input>, k: int)
    requires Seqs.Distinct(values) && 0 <= k < |values|
    ensures Toggled(values, values[k], false) == values[..k] + values[k + 1..]
  {
    var x := values[k];
    assert values == values[..k] + [x] + values[k + 1..];
    Seqs.FilterAppend(values[..k] + [x], values[k + 1..], IsNot(x));
    Seqs.FilterSnoc(values[..k], x, IsNot(x));
    forall i | 0 <= i < |values[..k]| ensures IsNot(x)(values[..k][i]) {
      assert values[..k][i] == values[i];
    }
    var tail := values[k + 1..];
    forall i | 0 <= i < |tail| ensures IsNot(x)(tail[i]) {
      assert tail[i] == values[k + 1 + i];
    }
    Seqs.FilterAll(values[..k], IsNot(x));
    Seqs.FilterAll(tail, IsNot(x));
  }

  /** Checking an absent sector and unchecking it again restores the list. */
  lemma CheckThenUncheck(values: seq<Input>, x: Input)
    requires x !in values
    ensures Toggled(Toggled(values, x, true), x, false) == values
  {
    Seqs.FilterSnoc(values, x, IsNot(x));
    forall i | 0 <= i < |values| ensures IsNot(x)(values[i]) {
    }
    Seqs.FilterAll(values, IsNot(x));
  }

  /** A value that is not an array is treated as no sector at all. */
  lemma NonArrayStartsEmpty(current: Input, x: Input, checked: bool)
    requires !current.List?
    ensures Toggled(SectorList(current), x, checked) == (if checked then [x] else [])
  {
  }

  // ---------------------------------------------------------------------
  // The "other" free-text inputs

  /** The "Nhập loại khác" input is shown when the watched type is OTHER. */
  predicate ShowsOtherType(partnerType: Input) {
    partnerType == Str(PartnerTypeName(OtherType))
  }

  /** The "Nhập hạng khác" input is shown when the watched rank is OTHER. */
  predicate ShowsOtherRank(rank: Input) {
    rank == Str(PartnerRankName(OtherRank))
  }

  /** `form.watch("sector") ?? []`: the sectors the form currently holds. */
  function WatchedSectors(sector: Input): seq<Input> {
    if sector.List? then sector.items else []
  }

  /** The "Nhập lĩnh vực khác" input is shown when the watched sectors include OTHERS. */
  predicate ShowsOtherSector(sector: Input) {
    Str(PartnerSectorName(Others)) in WatchedSectors(sector)
  }

  /** Each free-text input appears exactly when its field holds the enum's "other" member. */
  lemma OtherInputsShownExactly(f: PartnerInput)
    ensures ShowsOtherType(f.partnerType) <==> f.partnerType.Str? && ParsePartnerType(f.partnerType.s) == Some(OtherType)
    ensures ShowsOtherRank(f.rank) <==> f.rank.Str? && ParsePartnerRank(f.rank.s) == Some(OtherRank)
    ensures ShowsOtherSector(f.sector) <==>
      f.sector.List? && exists i :: 0 <= i < |f.sector.items| && f.sector.items[i].Str?
                                   && ParsePartnerSector(f.sector.items[i].s) == Some(Others)
  {
    if ShowsOtherSector(f.sector) {
      var i :| 0 <= i < |f.sector.items| && f.sector.items[i] == Str(PartnerSectorName(Others));
      assert f.sector.items[i].Str? && ParsePartnerSector(f.sector.items[i].s) == Some(Others);
    }
  }

  /** Checking the OTHERS box shows the "other sector" input; unchecking it hides it. */
  lemma CheckingOthersShowsInput(current: Input, checked: bool)
    ensures ShowsOtherSector(List(Toggled(SectorList(current), Str(PartnerSectorName(Others)), checked))) == checked
  {
    ToggledMembers(SectorList(current), Str(PartnerSectorName(Others)), checked, Str(PartnerSectorName(Others)));
  }
}
