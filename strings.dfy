/**
 * The two java.lang.String operations the core relies on: split around a
 * separator character and trim().
 */
module Strings {

  /** The characters String.trim() removes: every char whose code is at most U+0020. */
  predicate IsTrimmable(c: char) {
    c <= ' '
  }

  predicate AllTrimmable(s: string) {
    forall i :: 0 <= i < |s| ==> IsTrimmable(s[i])
  }

  /** All pieces of `s` between occurrences of `sep`, empty pieces included. */
  function SplitAll(s: string, sep: char): (pieces: seq<string>)
    ensures |pieces| >= 1
  {
    if s == [] then [""]
    else
      var rest := SplitAll(s[1..], sep);
      if s[0] == sep then [""] + rest else [[s[0]] + rest[0]] + rest[1..]
  }

  /** The inverse of SplitAll: the pieces with `sep` between neighbours. */
  function Join(pieces: seq<string>, sep: char): string
    requires |pieces| >= 1
  {
    if |pieces| == 1 then pieces[0] else pieces[0] + [sep] + Join(pieces[1..], sep)
  }

  function DropTrailingEmpty(pieces: seq<string>): seq<string> {
    if pieces != [] && pieces[|pieces| - 1] == "" then DropTrailingEmpty(pieces[..|pieces| - 1])
    else pieces
  }

  /**
   * String.split with a one-character regular expression: the input itself
   * when the separator does not occur, otherwise all pieces with the
   * trailing empty ones removed.
   */
  function JavaSplit(s: string, sep: char): seq<string> {
    if sep !in s then [s] else DropTrailingEmpty(SplitAll(s, sep))
  }

  function TrimStart(s: string): string {
    if s != [] && IsTrimmable(s[0]) then TrimStart(s[1..]) else s
  }

  function TrimEnd(s: string): string {
    if s != [] && IsTrimmable(s[|s| - 1]) then TrimEnd(s[..|s| - 1]) else s
  }

  /** String.trim(). */
  function Trim(s: string): string {
    TrimEnd(TrimStart(s))
  }

  /** A string String.trim() leaves as it is, and that is not empty. */
  predicate IsTrimmedNonEmpty(s: string) {
    s != [] && !IsTrimmable(s[0]) && !IsTrimmable(s[|s| - 1])
  }

  lemma {:induction false} SplitPiecesAvoidSeparator(s: string, sep: char)
    ensures forall k :: 0 <= k < |SplitAll(s, sep)| ==> sep !in SplitAll(s, sep)[k]
  {
    if s != [] {
      SplitPiecesAvoidSeparator(s[1..], sep);
    }
  }

  /** Joining the pieces gives back the string. */
  lemma {:induction false} JoinSplit(s: string, sep: char)
    ensures Join(SplitAll(s, sep), sep) == s
  {
    if s != [] {
      var rest := SplitAll(s[1..], sep);
      JoinSplit(s[1..], sep);
      if s[0] == sep {
        assert SplitAll(s, sep) == [""] + rest;
        assert ([""] + rest)[1..] == rest;
      } else {
        var ps := [[s[0]] + rest[0]] + rest[1..];
        if |rest| > 1 {
          assert ps[1..] == rest[1..];
          assert Join(rest, sep) == rest[0] + [sep] + Join(rest[1..], sep);
        }
      }
    }
  }

  /** Splitting a join of separator-free pieces gives back the pieces. */
  lemma {:induction false} SplitJoin(pieces: seq<string>, sep: char)
    requires |pieces| >= 1
    requires forall k :: 0 <= k < |pieces| ==> sep !in pieces[k]
    ensures SplitAll(Join(pieces, sep), sep) == pieces
  {
    if |pieces| == 1 {
      SplitOfSeparatorFree(pieces[0], sep);
    } else {
      SplitJoin(pieces[1..], sep);
      SplitConcat(pieces[0], Join(pieces[1..], sep), sep);
      SplitOfSeparatorFree(pieces[0], sep);
      assert [pieces[0]] + pieces[1..] == pieces;
    }
  }

  lemma {:induction false} SplitOfSeparatorFree(s: string, sep: char)
    requires sep !in s
    ensures SplitAll(s, sep) == [s]
  {
    if s != [] {
      SplitOfSeparatorFree(s[1..], sep);
      assert [s[0]] + s[1..] == s;
    }
  }

  /** One unfolding of SplitAll, on a string written as its first character and the rest. */
  lemma SplitAllCons(c: char, s: string, sep: char)
    ensures SplitAll([c] + s, sep)
            == if c == sep then [""] + SplitAll(s, sep)
               else [[c] + SplitAll(s, sep)[0]] + SplitAll(s, sep)[1..]
  {
    assert ([c] + s)[1..] == s;
  }

  /** Splitting around a separator splits each side independently. */
  lemma {:induction false} SplitConcat(a: string, b: string, sep: char)
    ensures SplitAll(a + [sep] + b, sep) == SplitAll(a, sep) + SplitAll(b, sep)
  {
    if a == [] {
      assert a + [sep] + b == [sep] + b;
      SplitAllCons(sep, b, sep);
    } else {
      var x, t := a[0], a[1..];
      assert a == [x] + t;
      SplitConcat(t, b, sep);
      SplitConcatStep(x, t, b, sep);
    }
  }

  lemma SplitConcatStep(x: char, t: string, b: string, sep: char)
    requires SplitAll(t + [sep] + b, sep) == SplitAll(t, sep) + SplitAll(b, sep)
    ensures SplitAll([x] + t + [sep] + b, sep) == SplitAll([x] + t, sep) + SplitAll(b, sep)
  {
    var u := t + [sep] + b;
    assert [x] + t + [sep] + b == [x] + u;
    SplitAllCons(x, u, sep);
    SplitAllCons(x, t, sep);
    PrependPieceAppend(x, sep, SplitAll(t, sep), SplitAll(b, sep));
  }

  /** Putting a character in front of split pieces commutes with appending more pieces. */
  lemma PrependPieceAppend(x: char, sep: char, rt: seq<string>, rb: seq<string>)
    requires |rt| >= 1
    ensures (if x == sep then [""] + (rt + rb) else [[x] + (rt + rb)[0]] + (rt + rb)[1..])
            == (if x == sep then [""] + rt else [[x] + rt[0]] + rt[1..]) + rb
  {
    if x != sep {
      assert (rt + rb)[0] == rt[0];
      assert (rt + rb)[1..] == rt[1..] + rb;
    }
  }

  lemma {:induction false} TrimStartShape(s: string)
    ensures exists i :: 0 <= i <= |s| && TrimStart(s) == s[i..] && AllTrimmable(s[..i])
    ensures TrimStart(s) == [] || !IsTrimmable(TrimStart(s)[0])
  {
    var i := TrimStartIndex(s);
    assert 0 <= i <= |s| && TrimStart(s) == s[i..] && AllTrimmable(s[..i]);
  }

  /** The number of characters TrimStart cuts off. */
  lemma {:induction false} TrimStartIndex(s: string) returns (i: nat)
    ensures i <= |s| && TrimStart(s) == s[i..] && AllTrimmable(s[..i])
    ensures TrimStart(s) == [] || !IsTrimmable(TrimStart(s)[0])
  {
    if s != [] && IsTrimmable(s[0]) {
      var k := TrimStartIndex(s[1..]);
      i := k + 1;
      assert s[1..][k..] == s[i..];
      assert s[..i] == [s[0]] + s[1..][..k];
      AllTrimmableCons(s[0], s[1..][..k]);
    } else {
      i := 0;
      assert s[0..] == s;
    }
  }

  lemma AllTrimmableCons(c: char, t: string)
    ensures AllTrimmable([c] + t) <==> IsTrimmable(c) && AllTrimmable(t)
  {
    if IsTrimmable(c) && AllTrimmable(t) {
      forall i | 0 <= i < |[c] + t| ensures IsTrimmable(([c] + t)[i]) {
        if i > 0 { assert ([c] + t)[i] == t[i - 1]; }
      }
    }
    if AllTrimmable([c] + t) {
      assert ([c] + t)[0] == c;
      forall i | 0 <= i < |t| ensures IsTrimmable(t[i]) { assert ([c] + t)[i + 1] == t[i]; }
    }
  }

  lemma AllTrimmableSnoc(s: string, c: char)
    requires IsTrimmable(c) && AllTrimmable(s)
    ensures AllTrimmable(s + [c])
  {
    assert forall k :: 0 <= k < |s| ==> (s + [c])[k] == s[k];
  }

  lemma {:induction false} TrimEndShape(s: string)
    ensures exists j :: 0 <= j <= |s| && TrimEnd(s) == s[..j] && AllTrimmable(s[j..])
    ensures TrimEnd(s) == [] || !IsTrimmable(TrimEnd(s)[|TrimEnd(s)| - 1])
  {
    var j := TrimEndIndex(s);
    assert 0 <= j <= |s| && TrimEnd(s) == s[..j] && AllTrimmable(s[j..]);
  }

  /** The length TrimEnd keeps. */
  lemma {:induction false} TrimEndIndex(s: string) returns (j: nat)
    ensures j <= |s| && TrimEnd(s) == s[..j] && AllTrimmable(s[j..])
    ensures TrimEnd(s) == [] || !IsTrimmable(TrimEnd(s)[|TrimEnd(s)| - 1])
  {
    if s != [] && IsTrimmable(s[|s| - 1]) {
      var t := s[..|s| - 1];
      j := TrimEndIndex(t);
      assert t[..j] == s[..j];
      assert s[j..] == t[j..] + [s[|s| - 1]];
      AllTrimmableSnoc(t[j..], s[|s| - 1]);
    } else {
      j := |s|;
      assert s[..|s|] == s;
    }
  }

  /**
   * trim() removes a run of trimmable characters from each end and nothing
   * else: the result is a slice of the input, is empty or starts and ends
   * with a non-trimmable character, and everything cut off is trimmable.
   */
  lemma TrimShape(s: string)
    ensures exists i, j :: 0 <= i <= j <= |s| && Trim(s) == s[i..j]
                           && AllTrimmable(s[..i]) && AllTrimmable(s[j..])
    ensures Trim(s) == [] || IsTrimmedNonEmpty(Trim(s))
  {
    TrimStartShape(s);
    var i :| 0 <= i <= |s| && TrimStart(s) == s[i..] && AllTrimmable(s[..i]);
    var u := TrimStart(s);
    TrimEndShape(u);
    var j :| 0 <= j <= |u| && TrimEnd(u) == u[..j] && AllTrimmable(u[j..]);
    SliceOfSlice(s, i, j);
    assert Trim(s) == s[i..i + j];
    if Trim(s) != [] {
      assert Trim(s)[0] == u[0];
    }
  }

  lemma SliceOfSlice(s: string, i: nat, j: nat)
    requires i <= |s| && j <= |s| - i
    ensures s[i..][..j] == s[i..i + j] && s[i..][j..] == s[i + j..]
  {
  }

  /** trim() gives the empty string exactly on strings made of trimmable characters. */
  lemma TrimEmptyIff(s: string)
    ensures Trim(s) == [] <==> AllTrimmable(s)
  {
    TrimShape(s);
    var i, j :| 0 <= i <= j <= |s| && Trim(s) == s[i..j] && AllTrimmable(s[..i]) && AllTrimmable(s[j..]);
    if Trim(s) == [] {
      assert i == j;
      forall k | 0 <= k < |s| ensures IsTrimmable(s[k]) {
        if k < i { assert s[..i][k] == s[k]; } else { assert s[j..][k - j] == s[k]; }
      }
    }
  }

  /** trim() leaves a trimmed non-empty string unchanged. */
  lemma TrimOfTrimmed(s: string)
    requires IsTrimmedNonEmpty(s)
    ensures Trim(s) == s
  {
  }
}
