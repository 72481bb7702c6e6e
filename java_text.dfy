/**
  The three java.lang.String operations the converter relies on, as they
  behave on a string of UTF-16 characters: indexOf(char), trim() and
  split(regex) with the default limit 0 and a one-character literal
  separator.
 */
module JavaText {

  /** Index of the first occurrence of `c` in `s`, or -1 when there is none. */
  function IndexOf(s: string, c: char): (r: int)
    ensures -1 <= r < |s|
    ensures r == -1 <==> c !in s
    ensures 0 <= r ==> s[r] == c && c !in s[..r]
  {
    if |s| == 0 then -1
    else if s[0] == c then 0
    else
      var k := IndexOf(s[1..], c);
      assert s[1..][..k + 1] == s[1..k + 2] by { }
      if k < 0 then -1 else k + 1
  }

  /** The characters trim() removes: every code unit up to and including the space. */
  predicate IsBlank(ch: char) {
    ch <= ' '
  }

  /** Every character of `s` from `lo` up to `hi` is blank. */
  predicate BlankBetween(s: string, lo: int, hi: int)
    requires 0 <= lo && hi <= |s|
  {
    forall k :: lo <= k < hi ==> IsBlank(s[k])
  }

  /** Neither end of `s` is a character trim() would remove. */
  predicate Trimmed(s: string) {
    s == [] || (!IsBlank(s[0]) && !IsBlank(s[|s| - 1]))
  }

  function TrimStart(s: string): (r: string)
    ensures |r| <= |s| && r == s[|s| - |r|..]
    ensures BlankBetween(s, 0, |s| - |r|)
    ensures r == [] || !IsBlank(r[0])
    decreases |s|
  {
    if |s| > 0 && IsBlank(s[0]) then
      var r := TrimStart(s[1..]);
      assert BlankBetween(s[1..], 0, |s| - 1 - |r|);
      r
    else
      s
  }

  function TrimEnd(s: string): (r: string)
    ensures |r| <= |s| && r == s[..|r|]
    ensures BlankBetween(s, |r|, |s|)
    ensures r == [] || !IsBlank(r[|r| - 1])
    decreases |s|
  {
    if |s| > 0 && IsBlank(s[|s| - 1]) then
      var r := TrimEnd(s[..|s| - 1]);
      assert BlankBetween(s[..|s| - 1], |r|, |s| - 1);
      r
    else
      s
  }

  /**
    String.trim(): `s` without its leading and trailing blanks (empty when
    `s` is all blanks). TrimSlice states which part of `s` it keeps.
   */
  function Trim(s: string): (r: string)
    ensures Trimmed(r)
    ensures Trimmed(s) ==> r == s
  {
    TrimEnd(TrimStart(s))
  }

  /** `pieces` glued together with `sep` between neighbours. */
  function Join(pieces: seq<string>, sep: char): string
    requires |pieces| >= 1
    decreases |pieces|
  {
    if |pieces| == 1 then pieces[0] else pieces[0] + [sep] + Join(pieces[1..], sep)
  }

  /**
    Every piece of `s` between separators, the empty ones included: the
    list the regular-expression split builds before trailing empty
    pieces are removed.
   */
  function SplitAll(s: string, sep: char): (r: seq<string>)
    ensures |r| >= 1
    ensures forall k :: 0 <= k < |r| ==> sep !in r[k]
    ensures Join(r, sep) == s
    decreases |s|
  {
    var i := IndexOf(s, sep);
    if i < 0 then [s]
    else
      var rest := SplitAll(s[i + 1..], sep);
      assert s == s[..i] + [sep] + s[i + 1..];
      [s[..i]] + rest
  }

  /** `r` without the run of empty strings at its end. */
  function DropTrailingEmpty(r: seq<string>): (t: seq<string>)
    ensures |t| <= |r| && t == r[..|t|]
    ensures forall k :: |t| <= k < |r| ==> r[k] == ""
    ensures t == [] || t[|t| - 1] != ""
    decreases |r|
  {
    if |r| > 0 && r[|r| - 1] == "" then DropTrailingEmpty(r[..|r| - 1]) else r
  }

  /**
    String.split with a one-character literal separator and limit 0: a
    string without the separator comes back whole (so "" gives [""]);
    otherwise the pieces between separators, with the trailing empty ones
    removed (so "," gives []). SplitDropsOnlyTrailingEmpty relates it to
    SplitAll.
   */
  function Split(s: string, sep: char): (r: seq<string>)
    ensures forall k :: 0 <= k < |r| ==> sep !in r[k]
    ensures sep !in s ==> r == [s]
    ensures r == [] || r[|r| - 1] != "" || r == [""]
  {
    if sep !in s then [s] else DropTrailingEmpty(SplitAll(s, sep))
  }

  // ---------------------------------------------------------------------
  // Lemmas

  /**
    Trim keeps one slice of `s`, and everything it removes before and
    after that slice is blank.
   */
  lemma TrimSlice(s: string)
    ensures exists i ::
              && 0 <= i <= |s| - |Trim(s)|
              && Trim(s) == s[i..i + |Trim(s)|]
              && BlankBetween(s, 0, i)
              && BlankBetween(s, i + |Trim(s)|, |s|)
  {
    var t := TrimStart(s);
    var r := TrimEnd(t);
    var i := |s| - |t|;
    assert r == s[i..i + |r|];
    assert BlankBetween(t, |r|, |t|);
    assert BlankBetween(s, i + |r|, |s|);
  }

  /**
    Split keeps a prefix of the pieces between separators and drops only
    empty pieces after it.
   */
  lemma SplitDropsOnlyTrailingEmpty(s: string, sep: char)
    ensures |Split(s, sep)| <= |SplitAll(s, sep)|
    ensures Split(s, sep) == SplitAll(s, sep)[..|Split(s, sep)|]
    ensures forall k :: |Split(s, sep)| <= k < |SplitAll(s, sep)| ==> SplitAll(s, sep)[k] == ""
  {
    if sep !in s {
      assert IndexOf(s, sep) == -1;
    }
  }

  /** The first `c` in `a + b`, when `a` holds none, is the first one in `b`. */
  lemma {:induction false} IndexOfAppend(a: string, b: string, c: char)
    requires c !in a
    ensures IndexOf(a + b, c) == if c in b then |a| + IndexOf(b, c) else -1
    decreases |a|
  {
    if |a| == 0 {
      assert a + b == b;
    } else {
      assert (a + b)[1..] == a[1..] + b;
      IndexOfAppend(a[1..], b, c);
    }
  }

  /** A character that is neither the separator nor in any piece is not in the joined string. */
  lemma {:induction false} JoinAvoids(pieces: seq<string>, sep: char, c: char)
    requires |pieces| >= 1
    requires c != sep
    requires forall k :: 0 <= k < |pieces| ==> c !in pieces[k]
    ensures c !in Join(pieces, sep)
    decreases |pieces|
  {
    if |pieces| > 1 {
      JoinAvoids(pieces[1..], sep, c);
      assert pieces[0] + [sep] + Join(pieces[1..], sep) == Join(pieces, sep);
    }
  }

  /**
    A join starts with its first piece and ends with its last piece, or
    with the separator when the last of several pieces is empty.
   */
  lemma {:induction false} JoinBounds(pieces: seq<string>, sep: char)
    requires |pieces| >= 1
    ensures pieces[0] != "" ==> |Join(pieces, sep)| > 0 && Join(pieces, sep)[0] == pieces[0][0]
    ensures var j, last := Join(pieces, sep), pieces[|pieces| - 1];
      last != "" ==> |j| > 0 && j[|j| - 1] == last[|last| - 1]
    ensures var j := Join(pieces, sep);
      |pieces| > 1 && pieces[|pieces| - 1] == "" ==> |j| > 0 && j[|j| - 1] == sep
    decreases |pieces|
  {
    if |pieces| > 1 {
      var rest := pieces[1..];
      JoinBounds(rest, sep);
      assert Join(pieces, sep) == pieces[0] + [sep] + Join(rest, sep);
    }
  }

  /** Splitting a join of separator-free pieces gives the pieces back. */
  lemma {:induction false} SplitAllJoin(pieces: seq<string>, sep: char)
    requires |pieces| >= 1
    requires forall k :: 0 <= k < |pieces| ==> sep !in pieces[k]
    ensures SplitAll(Join(pieces, sep), sep) == pieces
    decreases |pieces|
  {
    var s := Join(pieces, sep);
    if |pieces| == 1 {
      assert IndexOf(s, sep) == -1;
    } else {
      var rest := Join(pieces[1..], sep);
      assert s == pieces[0] + ([sep] + rest);
      IndexOfAppend(pieces[0], [sep] + rest, sep);
      assert IndexOf(s, sep) == |pieces[0]|;
      assert s[..|pieces[0]|] == pieces[0];
      assert s[|pieces[0]| + 1..] == rest;
      SplitAllJoin(pieces[1..], sep);
      assert [pieces[0]] + pieces[1..] == pieces;
    }
  }

  /**
    Split inverts Join when no piece holds the separator and the last
    piece is not empty: nothing at the end is dropped.
   */
  lemma SplitJoin(pieces: seq<string>, sep: char)
    requires |pieces| >= 1
    requires forall k :: 0 <= k < |pieces| ==> sep !in pieces[k]
    requires pieces[|pieces| - 1] != ""
    ensures Split(Join(pieces, sep), sep) == pieces
  {
    SplitAllJoin(pieces, sep);
    var s := Join(pieces, sep);
    if sep in s {
      assert DropTrailingEmpty(pieces) == pieces;
    }
  }

  /**
    The first token of a split is the text before the first separator
    (the whole string when there is none), empty when the string starts
    with the separator, whenever the split yields any token at all.
   */
  lemma SplitFirst(s: string, sep: char)
    requires Split(s, sep) != []
    ensures Split(s, sep)[0] == if sep in s then s[..IndexOf(s, sep)] else s
  {
    if sep in s {
      SplitDropsOnlyTrailingEmpty(s, sep);
    }
  }

  /** A string of separators only splits into pieces that are all empty. */
  lemma {:induction false} SplitAllOfSeparators(s: string, sep: char)
    requires forall k :: 0 <= k < |s| ==> s[k] == sep
    ensures forall k :: 0 <= k < |SplitAll(s, sep)| ==> SplitAll(s, sep)[k] == ""
    decreases |s|
  {
    if |s| > 0 {
      assert IndexOf(s, sep) == 0;
      SplitAllOfSeparators(s[1..], sep);
    }
  }

  /**
    A non-empty string of separators only splits into no token at all:
    every piece is empty, and trailing empty pieces are dropped.
   */
  lemma SplitOfSeparators(s: string, sep: char)
    requires |s| > 0 && forall k :: 0 <= k < |s| ==> s[k] == sep
    ensures Split(s, sep) == []
  {
    assert s[0] == sep;
    SplitAllOfSeparators(s, sep);
  }
}
