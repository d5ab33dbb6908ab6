/** The string built-ins the views and forms rely on, restricted to ASCII:
    `toLowerCase`, `includes`, `trim` and `split`. */
module Text {

  /** The ASCII characters that both `String.prototype.trim` and the regular
      expression class `\s` treat as white space: space, tab, line feed,
      vertical tab, form feed and carriage return. */
  predicate IsSpace(c: char) {
    c == ' ' || c == '\t' || c == '\n' || c == '\U{000B}' || c == '\U{000C}' || c == '\r'
  }

  predicate IsUpper(c: char) {
    'A' <= c <= 'Z'
  }

  /** Every character of `s` is white space (in particular, "" is blank). */
  predicate IsBlank(s: string) {
    forall i :: 0 <= i < |s| ==> IsSpace(s[i])
  }

  // ---------------------------------------------------------------------
  // toLowerCase

  function LowerChar(c: char): (d: char)
    ensures !IsUpper(d)
    ensures IsUpper(c) || d == c
  {
    if IsUpper(c) then (c as int + 32) as char else c
  }

  /** `s.toLowerCase()` on ASCII: upper-case letters become lower-case,
      every other character stays. */
  function Lower(s: string): (r: string)
    ensures |r| == |s|
    ensures forall i :: 0 <= i < |s| ==> !IsUpper(r[i]) && (IsUpper(s[i]) || r[i] == s[i])
  {
    seq(|s|, i requires 0 <= i < |s| => LowerChar(s[i]))
  }

  /** Lower-casing twice is lower-casing once. */
  lemma LowerIdempotent(s: string)
    ensures Lower(Lower(s)) == Lower(s)
  {
  }

  // ---------------------------------------------------------------------
  // includes

  /** `needle` occurs in `hay` starting at index `i`. */
  predicate OccursAt(hay: string, needle: string, i: int) {
    0 <= i && i + |needle| <= |hay| && hay[i..i + |needle|] == needle
  }

  /** `hay.includes(needle)`: `needle` occurs in `hay` as a contiguous block. */
  function Contains(hay: string, needle: string): bool
    decreases |hay|
  {
    needle <= hay || (hay != [] && Contains(hay[1..], needle))
  }

  lemma {:induction false} OccursAtContains(hay: string, needle: string, i: int)
    requires OccursAt(hay, needle, i)
    ensures Contains(hay, needle)
    decreases i
  {
    if i == 0 {
      assert needle == hay[..|needle|];
    } else {
      assert hay[1..][i - 1..i - 1 + |needle|] == hay[i..i + |needle|];
      OccursAtContains(hay[1..], needle, i - 1);
    }
  }

  lemma {:induction false} ContainsOccursAt(hay: string, needle: string)
    requires Contains(hay, needle)
    ensures exists i :: OccursAt(hay, needle, i)
    decreases |hay|
  {
    if needle <= hay {
      assert OccursAt(hay, needle, 0);
    } else {
      ContainsOccursAt(hay[1..], needle);
      var i :| OccursAt(hay[1..], needle, i);
      assert hay[i + 1..i + 1 + |needle|] == hay[1..][i..i + |needle|];
      assert OccursAt(hay, needle, i + 1);
    }
  }

  /** `Contains` finds exactly the positions at which `needle` occurs. */
  lemma ContainsIff(hay: string, needle: string)
    ensures Contains(hay, needle) <==> exists i :: OccursAt(hay, needle, i)
  {
    if Contains(hay, needle) {
      ContainsOccursAt(hay, needle);
    }
    if exists i :: OccursAt(hay, needle, i) {
      var i :| OccursAt(hay, needle, i);
      OccursAtContains(hay, needle, i);
    }
  }

  /** Every string includes the empty string. */
  lemma ContainsEmpty(hay: string)
    ensures Contains(hay, "")
  {
  }

  /** The case-insensitive search of the list views: the lower-cased term
      occurs in the lower-cased field. */
  predicate MatchesTerm(field: string, term: string) {
    Contains(Lower(field), Lower(term))
  }

  // ---------------------------------------------------------------------
  // trim

  /** `s` without its leading white space. */
  function TrimStart(s: string): (r: string)
    ensures |r| <= |s|
  {
    if s != [] && IsSpace(s[0]) then TrimStart(s[1..]) else s
  }

  /** `s` without its trailing white space. */
  function TrimEnd(s: string): (r: string)
    ensures |r| <= |s|
  {
    if s != [] && IsSpace(s[|s| - 1]) then TrimEnd(s[..|s| - 1]) else s
  }

  /** TrimStart drops a blank prefix and stops at the first other character. */
  lemma {:induction false} TrimStartSpec(s: string)
    ensures TrimStart(s) == s[|s| - |TrimStart(s)|..]
    ensures IsBlank(s[..|s| - |TrimStart(s)|])
    ensures TrimStart(s) == [] || !IsSpace(TrimStart(s)[0])
  {
    if s != [] && IsSpace(s[0]) {
      TrimStartSpec(s[1..]);
      var r := TrimStart(s[1..]);
      assert s[..|s| - |r|] == [s[0]] + s[1..][..|s| - 1 - |r|];
    }
  }

  /** TrimEnd drops a blank suffix and stops at the last other character. */
  lemma {:induction false} TrimEndSpec(s: string)
    ensures TrimEnd(s) == s[..|TrimEnd(s)|]
    ensures IsBlank(s[|TrimEnd(s)|..])
    ensures TrimEnd(s) == [] || !IsSpace(TrimEnd(s)[|TrimEnd(s)| - 1])
  {
    if s != [] && IsSpace(s[|s| - 1]) {
      TrimEndSpec(s[..|s| - 1]);
      var r := TrimEnd(s[..|s| - 1]);
      assert s[|r|..] == s[..|s| - 1][|r|..] + [s[|s| - 1]];
    }
  }

  /** `r` sits at index `i` of `s`, with only white space around it. */
  predicate PaddedAt(r: string, s: string, i: int) {
    0 <= i && i + |r| <= |s| && r == s[i..i + |r|] && IsBlank(s[..i]) && IsBlank(s[i + |r|..])
  }

  /** `s.trim()`: `s` without its leading and trailing white space. */
  function Trim(s: string): (r: string)
    ensures |r| <= |s|
  {
    TrimEnd(TrimStart(s))
  }

  /** The trimmed string neither starts nor ends with white space, and it
      sits inside `s` with only white space around it. */
  lemma TrimSpec(s: string)
    ensures Trim(s) == [] || (!IsSpace(Trim(s)[0]) && !IsSpace(Trim(s)[|Trim(s)| - 1]))
    ensures exists i :: PaddedAt(Trim(s), s, i)
  {
    var t := TrimStart(s);
    var r := TrimEnd(t);
    TrimStartSpec(s);
    TrimEndSpec(t);
    assert r == Trim(s);
    var i := |s| - |t|;
    assert r == s[i..i + |r|];
    assert s[i + |r|..] == t[|r|..];
    assert PaddedAt(r, s, i);
  }

  /** `r` is what `s.trim()` promises: `r` neither starts nor ends with
      white space, and it sits inside `s` with only white space around it. */
  ghost predicate TrimmedFrom(r: string, s: string) {
    (r == [] || (!IsSpace(r[0]) && !IsSpace(r[|r| - 1]))) && exists i :: PaddedAt(r, s, i)
  }

  /** Nothing sits in `s` with only white space around it only when `s`
      is all white space. */
  lemma PaddedEmptyBlank(s: string, k: int)
    requires PaddedAt([], s, k)
    ensures IsBlank(s)
  {
    forall m | 0 <= m < |s| ensures IsSpace(s[m]) {
      if m < k { assert s[m] == s[..k][m]; } else { assert s[m] == s[k..][m - k]; }
    }
  }

  /** Only one string is trimmed from `s`: `Trim(s)` is the sole string
      with no white space at either end and only white space around it. */
  lemma TrimmedFromUnique(r: string, s: string)
    ensures TrimmedFrom(r, s) <==> r == Trim(s)
  {
    TrimSpec(s);
    if TrimmedFrom(r, s) {
      var t := Trim(s);
      var i :| PaddedAt(r, s, i);
      var j :| PaddedAt(t, s, j);
      if r == [] || t == [] {
        if r == [] { PaddedEmptyBlank(s, i); } else { PaddedEmptyBlank(s, j); }
        TrimEmptyIffBlank(s);
      } else {
        // both start at the first non-blank character of `s`
        assert forall k :: 0 <= k < j ==> s[k] == s[..j][k];
        assert forall k :: 0 <= k < i ==> s[k] == s[..i][k];
        assert s[i] == r[0] && s[j] == t[0];
        assert i == j;
        // and both end after the last one
        var a, b := i + |r|, j + |t|;
        assert forall k :: b <= k < |s| ==> s[k] == s[b..][k - b];
        assert forall k :: a <= k < |s| ==> s[k] == s[a..][k - a];
        assert s[a - 1] == r[|r| - 1] && s[b - 1] == t[|t| - 1];
        assert a == b;
      }
    }
  }

  /** `!s.trim()` holds exactly when `s` is blank. */
  lemma TrimEmptyIffBlank(s: string)
    ensures |Trim(s)| == 0 <==> IsBlank(s)
  {
    TrimSpec(s);
    var r := Trim(s);
    var i :| PaddedAt(r, s, i);
    if r == "" {
      assert s == s[..i] + s[i..];
      forall k | 0 <= k < |s| ensures IsSpace(s[k]) {
        if k < i { assert s[k] == s[..i][k]; } else { assert s[k] == s[i..][k - i]; }
      }
    } else {
      assert s[i] == r[0];
    }
  }

  /** A string without surrounding white space is its own trim. */
  lemma TrimIdempotent(s: string)
    ensures Trim(Trim(s)) == Trim(s)
  {
    TrimSpec(s);
    var r := Trim(s);
    if r != [] {
      assert TrimStart(r) == r;
      assert TrimEnd(r) == r;
    }
  }

  // ---------------------------------------------------------------------
  // split

  /** `s.split(sep)` for a one-character separator: the pieces between
      separators, always at least one (`"".split(",")` is `[""]`). */
  function Split(s: string, sep: char): (r: seq<string>)
    ensures |r| >= 1
  {
    if s == [] then [""]
    else
      var rest := Split(s[1..], sep);
      if s[0] == sep then [""] + rest else [[s[0]] + rest[0]] + rest[1..]
  }

  /** `pieces.join(sep)`. */
  function Join(pieces: seq<string>, sep: char): string
    requires |pieces| >= 1
  {
    if |pieces| == 1 then pieces[0] else pieces[0] + [sep] + Join(pieces[1..], sep)
  }

  lemma {:induction false} JoinConsHead(c: char, pieces: seq<string>, sep: char)
    requires |pieces| >= 1
    ensures Join([[c] + pieces[0]] + pieces[1..], sep) == [c] + Join(pieces, sep)
  {
    var q := [[c] + pieces[0]] + pieces[1..];
    if |pieces| > 1 {
      assert q[1..] == pieces[1..];
    }
  }

  /** Splitting loses nothing: joining the pieces with the separator gives
      the string back, and no piece holds the separator. */
  lemma {:induction false} SplitJoin(s: string, sep: char)
    ensures Join(Split(s, sep), sep) == s
    ensures forall k :: 0 <= k < |Split(s, sep)| ==> sep !in Split(s, sep)[k]
  {
    if s != [] {
      var rest := Split(s[1..], sep);
      SplitJoin(s[1..], sep);
      if s[0] == sep {
        assert ([""] + rest)[1..] == rest;
        assert [s[0]] + s[1..] == s;
      } else {
        JoinConsHead(s[0], rest, sep);
        assert [s[0]] + s[1..] == s;
        var r := Split(s, sep);
        forall k | 0 <= k < |r| ensures sep !in r[k] {
          if k > 0 { assert r[k] == rest[k]; }
        }
      }
    }
  }

  /** A string without the separator is one piece. */
  lemma {:induction false} SplitNoSep(a: string, sep: char)
    requires sep !in a
    ensures Split(a, sep) == [a]
  {
    if a != [] {
      SplitNoSep(a[1..], sep);
      assert [a[0]] + a[1..] == a;
    }
  }

  /** Splitting at the first separator: what precedes it is the first piece. */
  lemma {:induction false} SplitAtSep(a: string, rest: string, sep: char)
    requires sep !in a
    ensures Split(a + [sep] + rest, sep) == [a] + Split(rest, sep)
  {
    if a == [] {
      assert a + [sep] + rest == [sep] + rest;
      assert ([sep] + rest)[1..] == rest;
    } else {
      SplitAtSep(a[1..], rest, sep);
      assert (a + [sep] + rest)[1..] == a[1..] + [sep] + rest;
      assert [a[0]] + a[1..] == a;
    }
  }

  /** Joining pieces that hold no separator and splitting again gives the
      pieces back. */
  lemma {:induction false} JoinSplit(pieces: seq<string>, sep: char)
    requires |pieces| >= 1
    requires forall k :: 0 <= k < |pieces| ==> sep !in pieces[k]
    ensures Split(Join(pieces, sep), sep) == pieces
  {
    if |pieces| == 1 {
      SplitNoSep(pieces[0], sep);
    } else {
      JoinSplit(pieces[1..], sep);
      SplitAtSep(pieces[0], Join(pieces[1..], sep), sep);
      assert [pieces[0]] + pieces[1..] == pieces;
    }
  }
}
