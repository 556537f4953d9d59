/**
 * The `TagsInput` component: a text box that turns what is typed or pasted
 * into a list of lower-case tags. The list itself is the `tags` prop, owned by
 * the parent and replaced by whatever the component hands to `onChange`; the
 * text typed so far is the component's own `input` state.
 */
module Tagging {
  import opened Wrappers
  import Text
  import Seqs

  /** A candidate tag as `addTag` normalises it: trimmed, then lower-cased. */
  function Normalize(raw: string): string {
    Text.Lower(Text.Trim(raw))
  }

  /** The normalised tag is empty exactly when the text is all white space. */
  lemma NormalizeEmptyIffBlank(raw: string)
    ensures Normalize(raw) == [] <==> Text.IsBlank(raw)
  {
  }

  /** What a normalised tag looks like: non-empty, no white space at either end, no upper-case letter. */
  predicate IsNormal(t: string) {
    t != [] && !Text.IsSpace(t[0]) && !Text.IsSpace(t[|t| - 1])
    && forall i :: 0 <= i < |t| ==> !('A' <= t[i] <= 'Z')
  }

  /** Normalising a non-blank text gives a normal tag. */
  lemma NormalizeIsNormal(raw: string)
    requires !Text.IsBlank(raw)
    ensures IsNormal(Normalize(raw))
  {
  }

  /** Normal tags are exactly the fixed points of normalisation. */
  lemma {:induction false} NormalFixedPoint(t: string)
    ensures IsNormal(t) <==> t != [] && Normalize(t) == t
  {
    if IsNormal(t) {
      assert Text.TrimStart(t) == t;
      assert Text.TrimEnd(t) == t;
      assert Text.Lower(t) == t;
    }
    if t != [] && Normalize(t) == t {
      NormalizeEmptyIffBlank(t);
      NormalizeIsNormal(t);
    }
  }

  /** `maxTags && tags.length >= maxTags`: an absent or zero bound never stops an add. */
  predicate AtLimit(tags: seq<string>, maxTags: Option<int>) {
    maxTags.Some? && maxTags.value != 0 && |tags| >= maxTags.value
  }

  /**
   * The list `addTag` hands to `onChange` for the normalised candidate `t` when
   * the tags prop is `tags`, or `None` when it returns early.
   */
  function Offer(tags: seq<string>, maxTags: Option<int>, t: string): Option<seq<string>> {
    if t == [] || t in tags || AtLimit(tags, maxTags) then None else Some(tags + [t])
  }

  /** The list invariant: no duplicates, every tag non-empty and normalised, no more than a positive bound. */
  predicate WellFormed(tags: seq<string>, maxTags: Option<int>) {
    Seqs.Distinct(tags)
    && (forall i :: 0 <= i < |tags| ==> IsNormal(tags[i]))
    && (maxTags.Some? && maxTags.value > 0 ==> |tags| <= maxTags.value)
  }

  /** `addTag(raw)` proposes nothing exactly when the text is blank, its tag is already present, or the bound is reached. */
  lemma OfferRefusals(tags: seq<string>, maxTags: Option<int>, raw: string)
    ensures Offer(tags, maxTags, Normalize(raw)).None?
      <==> (Text.IsBlank(raw) || Normalize(raw) in tags || AtLimit(tags, maxTags))
  {
    NormalizeEmptyIffBlank(raw);
  }

  /** Once the bound is reached the input is disabled, and `addTag` refuses whatever text it is given. */
  lemma DisabledRefusesEveryText(tags: seq<string>, maxTags: Option<int>, raw: string)
    requires AtLimit(tags, maxTags)
    ensures Offer(tags, maxTags, Normalize(raw)).None?
  {
  }

  /** A proposal is the old list with exactly one new tag, the candidate, at the end. */
  lemma OfferAppendsOne(tags: seq<string>, maxTags: Option<int>, t: string)
    requires Offer(tags, maxTags, t).Some?
    ensures var next := Offer(tags, maxTags, t).value;
      |next| == |tags| + 1 && next[..|tags|] == tags && next[|tags|] == t
  {
  }

  /** Accepting a normal candidate keeps the list free of duplicates, normalised and within the bound. */
  lemma {:induction false} OfferKeepsWellFormed(tags: seq<string>, maxTags: Option<int>, t: string)
    requires WellFormed(tags, maxTags) && (t != [] ==> IsNormal(t))
    ensures WellFormed(Offer(tags, maxTags, t).GetOr(tags), maxTags)
  {
    if Offer(tags, maxTags, t).Some? {
      var next := tags + [t];
      Seqs.AppendDistinct(tags, t);
      forall i | 0 <= i < |next| ensures IsNormal(next[i]) {
        if i < |tags| {
          assert next[i] == tags[i];
        }
      }
    }
  }

  /** `addTag` keeps the list invariant, whatever text it is given. */
  lemma ProposalKeepsWellFormed(tags: seq<string>, maxTags: Option<int>, raw: string)
    requires WellFormed(tags, maxTags)
    ensures WellFormed(Offer(tags, maxTags, Normalize(raw)).GetOr(tags), maxTags)
  {
    NormalizeEmptyIffBlank(raw);
    if !Text.IsBlank(raw) {
      NormalizeIsNormal(raw);
    }
    OfferKeepsWellFormed(tags, maxTags, Normalize(raw));
  }

  /** `removeTag(t)`: `tags.filter(tag => tag !== t)`. */
  function Without(tags: seq<string>, t: string): (r: seq<string>)
    ensures forall i :: 0 <= i < |r| ==> r[i] != t && r[i] in tags
  {
    Seqs.Filter(tags, (x: string) => x != t)
  }

  /** Removing a tag takes away every copy of it and nothing else. */
  lemma {:induction false} WithoutExactly(tags: seq<string>, t: string, x: string)
    ensures x in Without(tags, t) <==> x in tags && x != t
  {
    if x in tags && x != t {
      var i :| 0 <= i < |tags| && tags[i] == x;
      Seqs.FilterKeeps(tags, (y: string) => y != t, i);
    }
  }

  /** Removing a tag keeps the list invariant. */
  lemma {:induction false} WithoutKeepsWellFormed(tags: seq<string>, maxTags: Option<int>, t: string)
    requires WellFormed(tags, maxTags)
    ensures WellFormed(Without(tags, t), maxTags)
  {
    Seqs.FilterDistinct(tags, (x: string) => x != t);
    var r := Without(tags, t);
    forall i | 0 <= i < |r| ensures IsNormal(r[i]) {
      var k :| 0 <= k < |tags| && tags[k] == r[i];
    }
  }

  /** On a list without duplicates, Backspace's `removeTag(tags[tags.length - 1])` drops just the last tag. */
  lemma {:induction false} RemoveLastDropsLast(tags: seq<string>, maxTags: Option<int>)
    requires WellFormed(tags, maxTags) && |tags| > 0
    ensures Without(tags, tags[|tags| - 1]) == tags[..|tags| - 1]
  {
    var last := tags[|tags| - 1];
    var init := tags[..|tags| - 1];
    assert tags == init + [last];
    var keep := (x: string) => x != last;
    forall i | 0 <= i < |init| ensures keep(init[i]) {
      assert init[i] == tags[i];
    }
    Seqs.FilterAll(init, keep);
    Seqs.FilterSnoc(init, last, keep);
    Seqs.FilterExt(tags, keep, (x: string) => x != last);
  }

  /** The separators of `split(/[,\s]+/)`. */
  predicate IsSeparator(c: char) {
    c == ',' || Text.IsSpace(c)
  }

  predicate IsWordChar(c: char) {
    !IsSeparator(c)
  }

  predicate NoSeparator(s: string) {
    forall i :: 0 <= i < |s| ==> !IsSeparator(s[i])
  }

  /** Drops the leading run of separators. */
  function DropSeparators(s: string): (r: string)
    ensures |r| <= |s|
    ensures |s| > 0 && IsSeparator(s[0]) ==> |r| < |s|
  {
    if |s| > 0 && IsSeparator(s[0]) then DropSeparators(s[1..]) else s
  }

  /** `s.split(/[,\s]+/)` with the field being read so far in `current`. */
  function SplitFrom(s: string, current: string): (r: seq<string>)
    ensures |r| > 0
    decreases |s|
  {
    if |s| == 0 then [current]
    else if IsSeparator(s[0]) then [current] + SplitFrom(DropSeparators(s), [])
    else SplitFrom(s[1..], current + [s[0]])
  }

  /** No field contains a separator. */
  lemma {:induction false} SplitFromWords(s: string, current: string)
    requires NoSeparator(current)
    ensures forall i :: 0 <= i < |SplitFrom(s, current)| ==> NoSeparator(SplitFrom(s, current)[i])
    decreases |s|
  {
    if |s| > 0 {
      if IsSeparator(s[0]) {
        SplitFromWords(DropSeparators(s), []);
      } else {
        SplitFromWords(s[1..], current + [s[0]]);
      }
    }
  }

  /** `text.split(/[,\s]+/)`: the fields between maximal runs of separators; a leading or trailing run gives an empty field. */
  function Split(text: string): seq<string> {
    SplitFrom(text, [])
  }

  function Concat(fields: seq<string>): string {
    if |fields| == 0 then [] else fields[0] + Concat(fields[1..])
  }

  /** The fields, laid end to end, are the text with its separators taken out. */
  lemma {:induction false} SplitFromLosesOnlySeparators(s: string, current: string)
    requires NoSeparator(current)
    ensures Concat(SplitFrom(s, current)) == current + Seqs.Filter(s, IsWordChar)
    decreases |s|
  {
    if |s| == 0 {
      assert SplitFrom(s, current) == [current];
      assert Concat([current]) == current + Concat([]);
    } else if IsSeparator(s[0]) {
      var rest := DropSeparators(s);
      DropSeparatorsLosesNoWordChar(s);
      SplitFromLosesOnlySeparators(rest, []);
      ConcatCons(current, SplitFrom(rest, []));
    } else {
      SplitFromLosesOnlySeparators(s[1..], current + [s[0]]);
    }
  }

  lemma ConcatCons(field: string, fields: seq<string>)
    ensures Concat([field] + fields) == field + Concat(fields)
  {
    assert ([field] + fields)[1..] == fields;
  }

  lemma {:induction false} DropSeparatorsLosesNoWordChar(s: string)
    ensures Seqs.Filter(DropSeparators(s), IsWordChar) == Seqs.Filter(s, IsWordChar)
    decreases |s|
  {
    if |s| > 0 && IsSeparator(s[0]) {
      DropSeparatorsLosesNoWordChar(s[1..]);
    }
  }

  /** The paste's filter `t => t.trim()`: true when the trimmed field is non-empty. */
  predicate HasText(t: string) {
    Text.Trim(t) != []
  }

  /** What `handlePaste` feeds to `addTag`: the fields whose `trim()` is truthy. */
  function Pieces(text: string): seq<string> {
    Seqs.Filter(Split(text), HasText)
  }

  /** Every pasted piece is a non-empty word without commas or white space. */
  lemma {:induction false} PiecesAreWords(text: string)
    ensures forall i :: 0 <= i < |Pieces(text)| ==> Pieces(text)[i] != [] && NoSeparator(Pieces(text)[i])
  {
    SplitFromWords(text, []);
    var fields := Split(text);
    forall i | 0 <= i < |Pieces(text)| ensures Pieces(text)[i] != [] && NoSeparator(Pieces(text)[i]) {
      var k :| 0 <= k < |fields| && fields[k] == Pieces(text)[i];
    }
  }

  /** The tags `addTag` computes for the pieces of a paste, in order. */
  function Candidates(text: string): (c: seq<string>)
    ensures |c| == |Pieces(text)|
    ensures forall i :: 0 <= i < |c| ==> c[i] == Normalize(Pieces(text)[i])
  {
    var pieces := Pieces(text);
    seq(|pieces|, i requires 0 <= i < |pieces| => Normalize(pieces[i]))
  }

  /** Every candidate of a paste is a normal tag. */
  lemma {:induction false} CandidatesAreNormal(text: string)
    ensures forall i :: 0 <= i < |Candidates(text)| ==> IsNormal(Candidates(text)[i])
  {
    PiecesAreWords(text);
    var pieces := Pieces(text);
    forall i | 0 <= i < |pieces| ensures IsNormal(Candidates(text)[i]) {
      assert !Text.IsSpace(pieces[i][0]);
      NormalizeIsNormal(pieces[i]);
    }
  }

  /**
   * As written, every `addTag` call inside the paste reads the `tags` prop of the
   * render the paste happened in, so each accepted candidate proposes
   * `[...tags, candidate]` and the parent ends up with the last such proposal.
   */
  function LastOffer(tags: seq<string>, maxTags: Option<int>, candidates: seq<string>): Option<seq<string>>
    decreases |candidates|
  {
    if |candidates| == 0 then None
    else match Offer(tags, maxTags, candidates[|candidates| - 1])
      case Some(next) => Some(next)
      case None => LastOffer(tags, maxTags, candidates[..|candidates| - 1])
  }

  /** The tags after a paste, as the component is written. */
  function PastedAsWritten(tags: seq<string>, maxTags: Option<int>, text: string): seq<string> {
    LastOffer(tags, maxTags, Candidates(text)).GetOr(tags)
  }

  /** As written, whatever is pasted grows the list by at most one tag. */
  lemma {:induction false} LastOfferAddsAtMostOne(tags: seq<string>, maxTags: Option<int>, candidates: seq<string>)
    ensures var r := LastOffer(tags, maxTags, candidates);
      r.Some? ==> |r.value| == |tags| + 1 && r.value[..|tags|] == tags
    decreases |candidates|
  {
    if |candidates| > 0 && Offer(tags, maxTags, candidates[|candidates| - 1]).None? {
      LastOfferAddsAtMostOne(tags, maxTags, candidates[..|candidates| - 1]);
    }
  }

  /** Two letters with a comma between them split into the two one-letter fields. */
  lemma SplitTwoLetters(a: char, b: char)
    requires 'a' <= a <= 'z' && 'a' <= b <= 'z'
    ensures Split([a, ',', b]) == [[a], [b]]
  {
    var text := [a, ',', b];
    var rest := text[2..];
    assert rest == [b] && IsWordChar(rest[0]) && rest[1..] == [];
    assert SplitFrom(rest, []) == SplitFrom(rest[1..], [] + [rest[0]]);
    assert [] + [rest[0]] == [b];
    assert SplitFrom([], [b]) == [[b]];
    assert DropSeparators(rest) == rest;
    var tail := text[1..];
    assert tail[0] == ',' && tail[1..] == rest;
    assert DropSeparators(tail) == DropSeparators(rest);
    assert SplitFrom(tail, [a]) == [[a]] + SplitFrom(rest, []);
    assert IsWordChar(text[0]);
    assert SplitFrom(text, []) == SplitFrom(tail, [] + [a]);
    assert [] + [a] == [a];
  }

  lemma FilterLetters(a: char, b: char)
    requires 'a' <= a <= 'z' && 'a' <= b <= 'z'
    ensures Seqs.Filter([[a], [b]], HasText) == [[a], [b]]
  {
    TrimLetter(a);
    TrimLetter(b);
    var fields: seq<string> := [[a], [b]];
    assert HasText(fields[0]) && HasText(fields[1]);
    Seqs.FilterAll(fields, HasText);
  }

  /** Two letters with a comma between them are pasted as two pieces. */
  lemma PiecesOfTwoLetters(a: char, b: char)
    requires 'a' <= a <= 'z' && 'a' <= b <= 'z'
    ensures Pieces([a, ',', b]) == [[a], [b]]
  {
    SplitTwoLetters(a, b);
    FilterLetters(a, b);
  }

  /** Two letters with a comma between them are pasted as two one-letter candidates. */
  lemma CandidatesOfTwoLetters(a: char, b: char)
    requires 'a' <= a <= 'z' && 'a' <= b <= 'z'
    ensures Candidates([a, ',', b]) == [[a], [b]]
  {
    PiecesOfTwoLetters(a, b);
    NormalizeLetter(a);
    NormalizeLetter(b);
    var c := Candidates([a, ',', b]);
    assert c[0] == [a] && c[1] == [b];
  }

  lemma TrimLetter(c: char)
    requires 'a' <= c <= 'z'
    ensures Text.Trim([c]) == [c]
  {
    assert !Text.IsSpace(c);
    assert Text.TrimStart([c]) == [c];
    assert Text.TrimEnd([c]) == [c];
  }

  lemma LowerLetter(c: char)
    requires 'a' <= c <= 'z'
    ensures Text.Lower([c]) == [c]
  {
    var lower := Text.Lower([c]);
    assert |lower| == 1 && lower[0] == c;
  }

  /** A single lower-case letter is its own normal form. */
  lemma NormalizeLetter(c: char)
    requires 'a' <= c <= 'z'
    ensures Normalize([c]) == [c]
  {
    LowerLetter(c);
    TrimLetter(c);
  }

  /** Pasting two distinct letters such as "a,b" into an empty, unbounded list keeps only the second. */
  lemma PasteKeepsOnlyLastPiece(a: char, b: char)
    requires 'a' <= a <= 'z' && 'a' <= b <= 'z' && a != b
    ensures PastedAsWritten([], None, [a, ',', b]) == [[b]]
  {
    CandidatesOfTwoLetters(a, b);
    var candidates: seq<string> := [[a], [b]];
    assert candidates[|candidates| - 1] == [b];
  }

  /** The evident intent: each candidate is offered to the list the previous one produced. */
  function AddAll(tags: seq<string>, maxTags: Option<int>, candidates: seq<string>): seq<string>
    decreases |candidates|
  {
    if |candidates| == 0 then tags
    else AddAll(Offer(tags, maxTags, candidates[0]).GetOr(tags), maxTags, candidates[1..])
  }

  function PastedIntended(tags: seq<string>, maxTags: Option<int>, text: string): seq<string> {
    AddAll(tags, maxTags, Candidates(text))
  }

  /** Adding tags one after another only ever extends the list. */
  lemma {:induction false} AddAllExtends(tags: seq<string>, maxTags: Option<int>, candidates: seq<string>)
    ensures var r := AddAll(tags, maxTags, candidates);
      |tags| <= |r| && r[..|tags|] == tags
    decreases |candidates|
  {
    if |candidates| > 0 {
      var next := Offer(tags, maxTags, candidates[0]).GetOr(tags);
      AddAllExtends(next, maxTags, candidates[1..]);
      var r := AddAll(next, maxTags, candidates[1..]);
      assert r[..|tags|] == r[..|next|][..|tags|];
    }
  }

  /** Adding normal tags one after another keeps the list invariant. */
  lemma {:induction false} AddAllKeepsWellFormed(tags: seq<string>, maxTags: Option<int>, candidates: seq<string>)
    requires WellFormed(tags, maxTags)
    requires forall i :: 0 <= i < |candidates| ==> IsNormal(candidates[i])
    ensures WellFormed(AddAll(tags, maxTags, candidates), maxTags)
    decreases |candidates|
  {
    if |candidates| > 0 {
      OfferKeepsWellFormed(tags, maxTags, candidates[0]);
      AddAllKeepsWellFormed(Offer(tags, maxTags, candidates[0]).GetOr(tags), maxTags, candidates[1..]);
    }
  }

  /** One offer of a non-empty tag leaves it in the list, unless the bound was reached. */
  lemma OfferLandsOrLimit(tags: seq<string>, maxTags: Option<int>, t: string)
    requires t != []
    ensures var next := Offer(tags, maxTags, t).GetOr(tags);
      t in next || (next == tags && AtLimit(tags, maxTags))
  {
    var next := Offer(tags, maxTags, t).GetOr(tags);
    if Offer(tags, maxTags, t).Some? {
      assert next[|tags|] == t;
    }
  }

  /** Adding one after another, every non-empty candidate ends up in the list unless the bound is reached. */
  lemma {:induction false} AddAllKeepsEveryCandidate(tags: seq<string>, maxTags: Option<int>, candidates: seq<string>, k: int)
    requires 0 <= k < |candidates| && candidates[k] != []
    ensures var r := AddAll(tags, maxTags, candidates);
      candidates[k] in r || AtLimit(r, maxTags)
    decreases |candidates|
  {
    var next := Offer(tags, maxTags, candidates[0]).GetOr(tags);
    if k > 0 {
      AddAllKeepsEveryCandidate(next, maxTags, candidates[1..], k - 1);
    } else {
      AddAllExtends(next, maxTags, candidates[1..]);
      OfferLandsOrLimit(tags, maxTags, candidates[0]);
      var r := AddAll(next, maxTags, candidates[1..]);
      if candidates[0] in next {
        var i :| 0 <= i < |next| && next[i] == candidates[0];
        assert r[i] == r[..|next|][i];
      }
    }
  }

  /** With the intended paste, the tag of every pasted piece ends up in the list unless the bound is reached. */
  lemma IntendedPasteKeepsEveryPiece(tags: seq<string>, maxTags: Option<int>, text: string, k: int)
    requires 0 <= k < |Pieces(text)|
    ensures var r := PastedIntended(tags, maxTags, text);
      Normalize(Pieces(text)[k]) in r || AtLimit(r, maxTags)
  {
    CandidatesAreNormal(text);
    AddAllKeepsEveryCandidate(tags, maxTags, Candidates(text), k);
  }

  /** The intended paste keeps the list invariant. */
  lemma IntendedPasteKeepsWellFormed(tags: seq<string>, maxTags: Option<int>, text: string)
    requires WellFormed(tags, maxTags)
    ensures WellFormed(PastedIntended(tags, maxTags, text), maxTags)
  {
    CandidatesAreNormal(text);
    AddAllKeepsWellFormed(tags, maxTags, Candidates(text));
  }

  /** The intended paste of two distinct letters such as "a,b" into an empty, unbounded list keeps both. */
  lemma IntendedPasteKeepsBoth(a: char, b: char)
    requires 'a' <= a <= 'z' && 'a' <= b <= 'z' && a != b
    ensures PastedIntended([], None, [a, ',', b]) == [[a], [b]]
  {
    CandidatesOfTwoLetters(a, b);
    var candidates: seq<string> := [[a], [b]];
    assert [b] != [a] by {
      assert [b][0] != [a][0];
    }
    assert candidates[1..] == [[b]] by {
      assert |candidates[1..]| == 1 && candidates[1..][0] == [b];
    }
    assert [[b]][1..] == [];
    var empty: seq<string> := [];
    assert empty + [[a]] == [[a]];
    assert Offer(empty, None, [a]) == Some([[a]]);
    assert [[a]] + [[b]] == [[a], [b]];
    assert AddAll([], None, candidates) == AddAll([[a]], None, [[b]]);
    assert AddAll([[a]], None, [[b]]) == AddAll([[a], [b]], None, []);
  }

  class TagsInput {
    /** The `tags` prop: the value the parent stores from the latest `onChange` call. */
    var tags: seq<string>
    /** The `input` state: what has been typed since the last accepted tag. */
    var input: string
    const maxTags: Option<int>

    constructor (tags: seq<string>, maxTags: Option<int>)
      ensures this.tags == tags && input == [] && this.maxTags == maxTags
    {
      this.tags := tags;
      input := [];
      this.maxTags := maxTags;
    }

    /** `disabled={maxTags ? tags.length >= maxTags : false}`. */
    predicate Disabled()
      reads this
    {
      AtLimit(tags, maxTags)
    }

    /** `addTag(raw)`: when a tag is proposed the parent stores the proposal and the input is cleared. */
    method AddTag(raw: string)
      modifies this
      ensures Offer(old(tags), maxTags, Normalize(raw)).Some? ==>
        tags == Offer(old(tags), maxTags, Normalize(raw)).value && input == []
      ensures Offer(old(tags), maxTags, Normalize(raw)).None? ==> tags == old(tags) && input == old(input)
      ensures old(WellFormed(tags, maxTags)) ==> WellFormed(tags, maxTags)
      ensures old(Disabled()) ==> tags == old(tags)
    {
      if WellFormed(tags, maxTags) {
        ProposalKeepsWellFormed(tags, maxTags, raw);
      }
      var next := Offer(tags, maxTags, Normalize(raw));
      if next.Some? {
        tags := next.value;
        input := [];
      }
    }

    /** The input's `onChange`: `setInput(e.target.value)`. */
    method SetInput(v: string)
      modifies this
      ensures input == v && tags == old(tags)
    {
      input := v;
    }

    /** `removeTag(t)`. */
    method RemoveTag(t: string)
      modifies this
      ensures tags == Without(old(tags), t) && input == old(input)
      ensures old(WellFormed(tags, maxTags)) ==> WellFormed(tags, maxTags)
    {
      if WellFormed(tags, maxTags) {
        WithoutKeepsWellFormed(tags, maxTags, t);
      }
      tags := Without(tags, t);
    }

    /** `handleKeyDown`: Enter or a comma submits the input; Backspace on an empty input removes the last tag. */
    method HandleKeyDown(key: string)
      modifies this
      ensures key == "Enter" || key == "," ==>
        (Offer(old(tags), maxTags, Normalize(old(input))).Some? ==>
          tags == Offer(old(tags), maxTags, Normalize(old(input))).value && input == [])
        && (Offer(old(tags), maxTags, Normalize(old(input))).None? ==> tags == old(tags) && input == old(input))
      ensures (key == "Backspace" && old(input) == [] && |old(tags)| > 0) ==>
        tags == Without(old(tags), old(tags)[|old(tags)| - 1]) && input == old(input)
      ensures (key == "Backspace" && old(input) == [] && |old(tags)| > 0 && old(WellFormed(tags, maxTags))) ==>
        tags == old(tags)[..|old(tags)| - 1]
      ensures !(key == "Enter" || key == ",") && !(key == "Backspace" && old(input) == [] && |old(tags)| > 0) ==>
        tags == old(tags) && input == old(input)
      ensures old(WellFormed(tags, maxTags)) ==> WellFormed(tags, maxTags)
    {
      if key == "Enter" || key == "," {
        AddTag(input);
      } else if key == "Backspace" && input == [] && |tags| > 0 {
        if WellFormed(tags, maxTags) {
          RemoveLastDropsLast(tags, maxTags);
        }
        RemoveTag(tags[|tags| - 1]);
      }
    }

    /** `handlePaste`, as written: every piece is checked against the prop the paste started from. */
    method HandlePaste(text: string)
      modifies this
      ensures tags == PastedAsWritten(old(tags), maxTags, text)
      ensures input == (if LastOffer(old(tags), maxTags, Candidates(text)).Some? then [] else old(input))
    {
      var pieces := Pieces(text);
      ghost var candidates := Candidates(text);
      var last: Option<seq<string>> := None;
      var i := 0;
      while i < |pieces|
        invariant 0 <= i <= |pieces|
        invariant last == LastOffer(tags, maxTags, candidates[..i])
      {
        assert candidates[..i + 1][..i] == candidates[..i];
        var t := Normalize(pieces[i]);
        assert t == candidates[i];
        var next := Offer(tags, maxTags, t);
        if next.Some? {
          last := next;
        }
        i := i + 1;
      }
      assert candidates[..|pieces|] == candidates;
      if last.Some? {
        tags := last.value;
        input := [];
      }
    }
  }
}
