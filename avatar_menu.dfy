/** `AvatarMenu`: the initials shown in the avatar fallback. */
module AvatarMenu {
  import opened Wrappers

  /** `s.split(" ")`: the pieces between single spaces; empty pieces are kept. */
  function SplitSpaces(s: string): (r: seq<string>)
    ensures |r| >= 1
  {
    if s == [] then [[]]
    else
      var rest := SplitSpaces(s[1..]);
      if s[0] == ' ' then [[]] + rest else [[s[0]] + rest[0]] + rest[1..]
  }

  /** `pieces.join(" ")`. */
  function JoinSpaces(pieces: seq<string>): string
    requires |pieces| >= 1
  {
    if |pieces| == 1 then pieces[0] else pieces[0] + " " + JoinSpaces(pieces[1..])
  }

  /** Joining the pieces again gives back the name: the split loses nothing but the separators. */
  lemma {:induction false} JoinSplit(s: string)
    ensures JoinSpaces(SplitSpaces(s)) == s
  {
    if s != [] {
      JoinSplit(s[1..]);
      var rest := SplitSpaces(s[1..]);
      if s[0] == ' ' {
        assert s == [' '] + s[1..];
      } else if |rest| == 1 {
        assert s == [s[0]] + s[1..];
      } else {
        calc {
          JoinSpaces([[s[0]] + rest[0]] + rest[1..]);
          ([s[0]] + rest[0]) + " " + JoinSpaces(rest[1..]);
          [s[0]] + (rest[0] + " " + JoinSpaces(rest[1..]));
          [s[0]] + JoinSpaces(rest);
          [s[0]] + s[1..];
        }
        assert [s[0]] + s[1..] == s;
      }
    }
  }

  predicate NoSpace(s: string) {
    forall j :: 0 <= j < |s| ==> s[j] != ' '
  }

  /** No piece contains a space. */
  lemma {:induction false} PiecesHaveNoSpace(s: string)
    ensures forall i, j :: 0 <= i < |SplitSpaces(s)| && 0 <= j < |SplitSpaces(s)[i]| ==> SplitSpaces(s)[i][j] != ' '
  {
    if s != [] {
      PiecesHaveNoSpace(s[1..]);
    }
  }

  /** A name without a space is a single piece. */
  lemma {:induction false} NoSpaceOnePiece(s: string)
    requires NoSpace(s)
    ensures SplitSpaces(s) == [s]
  {
    if s != [] {
      NoSpaceOnePiece(s[1..]);
      assert [s[0]] + s[1..] == s;
    }
  }

  /** `.slice(-2)`: the last two pieces, or all of them when there are fewer. */
  function LastTwo<T>(xs: seq<T>): (r: seq<T>)
    ensures |r| <= 2 && (|xs| >= 2 ==> |r| == 2) && (|xs| < 2 ==> r == xs)
    ensures r == xs[|xs| - |r|..]
  {
    if |xs| >= 2 then xs[|xs| - 2..] else xs
  }

  /** `.map((n) => n[0]).join("")`: each piece's first character; an empty piece gives `undefined`, which joins as nothing. */
  function FirstChars(pieces: seq<string>): (r: string)
    ensures |r| <= |pieces|
  {
    if pieces == [] then []
    else (if pieces[0] == [] then [] else [pieces[0][0]]) + FirstChars(pieces[1..])
  }

  /** The initials, or none when the user has no name. */
  function Initials(name: Option<string>): (r: Option<string>)
    ensures r.Some? <==> name.Some?
    ensures r.Some? ==> |r.value| <= 2
  {
    match name
    case None => None
    case Some(n) => Some(FirstChars(LastTwo(SplitSpaces(n))))
  }

  /** The first characters of two non-empty pieces. */
  lemma FirstCharsOfTwo(a: string, b: string)
    requires a != [] && b != []
    ensures FirstChars([a, b]) == [a[0], b[0]]
  {
    var none: seq<string> := [];
    assert [a, b][1..] == [b] && [b][1..] == none;
    assert FirstChars([b]) == [b[0]] + FirstChars(none) == [b[0]];
  }

  /** A two-word name gives the first letters of both words, in order. */
  lemma TwoWords(a: string, b: string)
    requires a != [] && b != [] && NoSpace(a) && NoSpace(b)
    ensures Initials(Some(a + " " + b)) == Some([a[0], b[0]])
  {
    SplitAtSpace(a, b);
    NoSpaceOnePiece(b);
    FirstCharsOfTwo(a, b);
    assert [a] + [b] == [a, b];
  }

  lemma {:induction false} SplitAtSpace(a: string, b: string)
    requires NoSpace(a)
    ensures SplitSpaces(a + " " + b) == [a] + SplitSpaces(b)
  {
    if a == [] {
      assert a + " " + b == [' '] + b;
      assert (a + " " + b)[1..] == b;
    } else {
      assert (a + " " + b)[1..] == a[1..] + " " + b;
      SplitAtSpace(a[1..], b);
      assert [a[0]] + a[1..] == a;
    }
  }

  /** A name that is one word gives exactly its first character. */
  lemma OneWord(n: string)
    requires n != [] && NoSpace(n)
    ensures Initials(Some(n)) == Some([n[0]])
  {
    NoSpaceOnePiece(n);
    var none: seq<string> := [];
    assert [n][1..] == none;
    assert FirstChars([n]) == [n[0]] + FirstChars(none) == [n[0]];
    assert LastTwo([n]) == [n];
  }

  /** Only the last two words count: a leading word changes nothing once two words follow. */
  lemma {:induction false} OnlyLastTwoWordsCount(a: string, rest: string)
    requires NoSpace(a)
    requires |SplitSpaces(rest)| >= 2
    ensures Initials(Some(a + " " + rest)) == Initials(Some(rest))
  {
    SplitAtSpace(a, rest);
    var p := SplitSpaces(rest);
    assert ([a] + p)[|[a] + p| - 2..] == p[|p| - 2..];
  }
}
