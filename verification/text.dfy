/**
 The string operations the storefront calls: `toLowerCase`, `trim`,
 `includes`, `slice(0, n)`, and the regular-expression classes `\s`, `\S`
 and `[0-9]`.

 Whitespace is JavaScript's exact set (the WhiteSpace and LineTerminator
 code points, which `\s` and `trim` share). Lower-casing maps only the
 ASCII letters A-Z; other characters are left as they are.
 */
module Text {

  /** JavaScript's `\s`: WhiteSpace and LineTerminator code points. */
  predicate IsSpace(c: char) {
    || c == '\t' || c == '\n' || c == '\U{0B}' || c == '\U{0C}' || c == '\r'
    || c == ' ' || c == '\U{A0}' || c == '\U{1680}'
    || ('\U{2000}' <= c <= '\U{200A}')
    || c == '\U{2028}' || c == '\U{2029}' || c == '\U{202F}'
    || c == '\U{205F}' || c == '\U{3000}' || c == '\U{FEFF}'
  }

  /** The regular-expression class `[0-9]`. */
  predicate IsDigit(c: char) {
    '0' <= c <= '9'
  }

  predicate IsUpper(c: char) {
    'A' <= c <= 'Z'
  }

  /** `toLowerCase` on one character (ASCII letters only). */
  function LowerChar(c: char): (d: char)
    ensures !IsUpper(d)
    ensures IsSpace(d) <==> IsSpace(c)
    ensures !IsUpper(c) ==> d == c
  {
    if IsUpper(c) then (c as int + 32) as char else c
  }

  /** `s.toLowerCase()`. */
  function Lower(s: string): (r: string)
    ensures |r| == |s|
    ensures forall i :: 0 <= i < |s| ==> r[i] == LowerChar(s[i])
  {
    seq(|s|, i requires 0 <= i < |s| => LowerChar(s[i]))
  }

  /** A string without upper-case letters is its own lower-case form. */
  lemma LowerFixes(s: string)
    requires forall i :: 0 <= i < |s| ==> !IsUpper(s[i])
    ensures Lower(s) == s
  {
  }

  /** A lower-cased string has no upper-case letter, so lower-casing it again
      changes nothing. */
  lemma LowerIdempotent(s: string)
    ensures Lower(Lower(s)) == Lower(s)
  {
  }

  /** A string without surrounding whitespace. */
  predicate IsTrimmed(s: string) {
    s == [] || (!IsSpace(s[0]) && !IsSpace(s[|s| - 1]))
  }

  /** Drops the leading whitespace: the result is the suffix of `s` that
      starts at its first non-space character. */
  function TrimStart(s: string): (r: string)
    ensures |r| <= |s| && r == s[|s| - |r|..]
    ensures forall i :: 0 <= i < |s| - |r| ==> IsSpace(s[i])
    ensures r != [] ==> !IsSpace(r[0])
    decreases |s|
  {
    if |s| > 0 && IsSpace(s[0]) then TrimStart(s[1..]) else s
  }

  /** Drops the trailing whitespace: the result is the prefix of `s` that
      ends at its last non-space character. */
  function TrimEnd(s: string): (r: string)
    ensures |r| <= |s| && r == s[..|r|]
    ensures forall i :: |r| <= i < |s| ==> IsSpace(s[i])
    ensures r != [] ==> !IsSpace(r[|r| - 1])
    decreases |s|
  {
    if |s| > 0 && IsSpace(s[|s| - 1]) then TrimEnd(s[..|s| - 1]) else s
  }

  /** A string made only of whitespace (the empty string is one). */
  predicate AllSpace(s: string) {
    forall i :: 0 <= i < |s| ==> IsSpace(s[i])
  }

  /** The `len` characters of `s` from index `k` on have only whitespace
      before and after them in `s`. */
  predicate PaddedAt(s: string, k: int, len: int) {
    0 <= k && 0 <= len && k + len <= |s| && AllSpace(s[..k]) && AllSpace(s[k + len..])
  }

  /** `s` is `r` with only whitespace added before and after it. */
  predicate Padded(s: string, r: string) {
    exists k :: 0 <= k <= |s| && PaddedAt(s, k, |r|) && s[k..k + |r|] == r
  }

  /** `s.trim()`: the result is the stretch of `s` left once the whitespace
      before and after it is cut off, and it neither starts nor ends with
      whitespace itself; it is empty exactly when `s` is all whitespace. */
  function Trim(s: string): (r: string)
    ensures IsTrimmed(r)
    ensures Padded(s, r)
    ensures r == [] <==> AllSpace(s)
    ensures forall i :: 0 <= i < |s| && !IsSpace(s[i]) ==> s[i] in r
  {
    TrimKeepsNonSpace(s);
    TrimIsPadded(s);
    TrimEnd(TrimStart(s))
  }

  /** The stretch `TrimEnd(TrimStart(s))` sits in `s` where `TrimStart`
      cut, with only whitespace around it. */
  lemma TrimIsPadded(s: string)
    ensures Padded(s, TrimEnd(TrimStart(s)))
    ensures TrimEnd(TrimStart(s)) == [] <==> AllSpace(s)
  {
    PaddedOfPieces(s, TrimStart(s), TrimEnd(TrimStart(s)));
  }

  /** A suffix `t` of `s` after whitespace, cut down to a prefix `r` followed
      by whitespace, is a padded stretch of `s`. */
  lemma PaddedOfPieces(s: string, t: string, r: string)
    requires |t| <= |s| && t == s[|s| - |t|..] && |r| <= |t| && r == t[..|r|]
    requires forall i :: 0 <= i < |s| - |t| ==> IsSpace(s[i])
    requires forall i :: |r| <= i < |t| ==> IsSpace(t[i])
    requires r != [] ==> !IsSpace(r[0])
    ensures Padded(s, r)
    ensures r == [] <==> AllSpace(s)
  {
    var k := |s| - |t|;
    var tail := s[k + |r|..];
    forall i | 0 <= i < |tail|
      ensures IsSpace(tail[i])
    {
      assert tail[i] == t[|r| + i];
    }
    assert s[k..k + |r|] == r;
    assert PaddedAt(s, k, |r|);
    EmptyStretch(s, k, r);
  }

  /** A padded stretch is empty exactly when the whole string is
      whitespace, provided it does not start with whitespace. */
  lemma EmptyStretch(s: string, k: int, r: string)
    requires PaddedAt(s, k, |r|) && s[k..k + |r|] == r
    requires r != [] ==> !IsSpace(r[0])
    ensures r == [] <==> AllSpace(s)
  {
    if r == [] {
      AllSpaceAround(s, k);
    } else {
      assert s[k] == r[0];
    }
  }

  /** The contract of `Trim` leaves one result only: a string without
      surrounding whitespace that sits in `s` with only whitespace around it
      is `s.trim()`. */
  lemma TrimDetermined(s: string, r: string)
    requires IsTrimmed(r) && Padded(s, r)
    ensures r == Trim(s)
  {
    var t := Trim(s);
    var k1 := PaddedStartOf(s, r);
    var k2 := PaddedStartOf(s, t);
    TrimmedPaddingUnique(s, r, k1, t, k2);
  }

  /** Where the stretch of a padded string starts. */
  lemma PaddedStartOf(s: string, r: string) returns (k: int)
    requires Padded(s, r)
    ensures PaddedAt(s, k, |r|) && s[k..k + |r|] == r
  {
    k :| 0 <= k <= |s| && PaddedAt(s, k, |r|) && s[k..k + |r|] == r;
  }

  /** Two trimmed strings that each sit in `s` with only whitespace around
      them are equal. */
  lemma TrimmedPaddingUnique(s: string, r1: string, k1: int, r2: string, k2: int)
    requires IsTrimmed(r1) && PaddedAt(s, k1, |r1|) && s[k1..k1 + |r1|] == r1
    requires IsTrimmed(r2) && PaddedAt(s, k2, |r2|) && s[k2..k2 + |r2|] == r2
    ensures r1 == r2
  {
    if r1 != [] && r2 != [] {
      PaddedStart(s, r1, k1, r2, k2);
      PaddedStart(s, r2, k2, r1, k1);
      PaddedEnd(s, r1, k1, r2, k2);
      PaddedEnd(s, r2, k2, r1, k1);
    } else if r1 != [] {
      AllSpaceAround(s, k2);
    } else if r2 != [] {
      AllSpaceAround(s, k1);
    }
  }

  /** A trimmed, non-empty stretch cannot start after the start of another
      padded stretch. */
  lemma PaddedStart(s: string, r1: string, k1: int, r2: string, k2: int)
    requires IsTrimmed(r1) && PaddedAt(s, k1, |r1|) && s[k1..k1 + |r1|] == r1 && r1 != []
    requires PaddedAt(s, k2, |r2|)
    ensures k2 <= k1
  {
    assert s[k1] == r1[0];
  }

  /** A trimmed, non-empty stretch cannot end before the end of another
      padded stretch. */
  lemma PaddedEnd(s: string, r1: string, k1: int, r2: string, k2: int)
    requires IsTrimmed(r1) && PaddedAt(s, k1, |r1|) && s[k1..k1 + |r1|] == r1 && r1 != []
    requires PaddedAt(s, k2, |r2|)
    ensures k1 + |r1| <= k2 + |r2|
  {
    var j := k1 + |r1| - 1;
    assert s[j] == r1[|r1| - 1];
  }

  /** With an empty stretch at `k`, the whole string is whitespace. */
  lemma AllSpaceAround(s: string, k: int)
    requires PaddedAt(s, k, 0)
    ensures AllSpace(s)
  {
    forall i | 0 <= i < |s|
      ensures IsSpace(s[i])
    {
      if i < k {
        assert s[..k][i] == s[i];
      } else {
        assert s[k..][i - k] == s[i];
      }
    }
  }

  /** A non-space character of `s` sits in `TrimStart(s)` at the same
      position less the dropped prefix. */
  lemma TrimStartKeeps(s: string, i: int)
    requires 0 <= i < |s| && !IsSpace(s[i])
    ensures |s| - |TrimStart(s)| <= i
    ensures TrimStart(s)[i - (|s| - |TrimStart(s)|)] == s[i]
  {
    var t := TrimStart(s);
    var off := |s| - |t|;
    assert t == s[off..];
  }

  /** A non-space character of `t` sits at the same position in
      `TrimEnd(t)`. */
  lemma TrimEndKeeps(t: string, j: int)
    requires 0 <= j < |t| && !IsSpace(t[j])
    ensures j < |TrimEnd(t)| && TrimEnd(t)[j] == t[j]
  {
    var r := TrimEnd(t);
    assert r == t[..|r|];
  }

  lemma TrimKeepsAt(s: string, i: int)
    requires 0 <= i < |s| && !IsSpace(s[i])
    ensures s[i] in TrimEnd(TrimStart(s))
  {
    var t := TrimStart(s);
    TrimStartKeeps(s, i);
    var j := i - (|s| - |t|);
    TrimEndKeeps(t, j);
    assert TrimEnd(t)[j] == s[i];
  }

  lemma TrimKeepsNonSpace(s: string)
    ensures forall i :: 0 <= i < |s| && !IsSpace(s[i]) ==> s[i] in TrimEnd(TrimStart(s))
  {
    forall i | 0 <= i < |s| && !IsSpace(s[i])
      ensures s[i] in TrimEnd(TrimStart(s))
    {
      TrimKeepsAt(s, i);
    }
  }

  /** Trimming a string that has no surrounding whitespace returns it. */
  lemma TrimOfTrimmed(s: string)
    requires IsTrimmed(s)
    ensures Trim(s) == s
  {
    var t := TrimStart(s);
    assert t == s;
  }

  /** Lower-casing keeps a trimmed string trimmed. */
  lemma LowerKeepsTrimmed(s: string)
    requires IsTrimmed(s)
    ensures IsTrimmed(Lower(s))
  {
  }

  /** `needle` occurs in `hay` starting at index `i`. */
  predicate OccursAt(hay: string, needle: string, i: int) {
    0 <= i && i + |needle| <= |hay| && hay[i..i + |needle|] == needle
  }

  lemma OccursShift(hay: string, needle: string, i: int)
    requires |hay| > 0 && 0 <= i
    ensures OccursAt(hay[1..], needle, i) <==> OccursAt(hay, needle, i + 1)
  {
    if 0 <= i && i + |needle| <= |hay| - 1 {
      assert hay[1..][i..i + |needle|] == hay[i + 1..i + 1 + |needle|];
    }
  }

  /** `hay.includes(needle)`: true exactly when `needle` occurs somewhere in
      `hay` (the empty needle occurs everywhere). */
  function Includes(hay: string, needle: string): (b: bool)
    ensures b <==> exists i :: OccursAt(hay, needle, i)
    decreases |hay|
  {
    if |needle| > |hay| then
      assert forall i :: !OccursAt(hay, needle, i);
      false
    else if hay[..|needle|] == needle then
      assert OccursAt(hay, needle, 0);
      true
    else
      var rest := Includes(hay[1..], needle);
      assert rest ==> exists i :: OccursAt(hay, needle, i) by {
        if rest {
          var i :| OccursAt(hay[1..], needle, i);
          OccursShift(hay, needle, i);
        }
      }
      assert (exists i :: OccursAt(hay, needle, i)) ==> rest by {
        if exists i :: OccursAt(hay, needle, i) {
          var i :| OccursAt(hay, needle, i);
          assert i != 0;
          OccursShift(hay, needle, i - 1);
        }
      }
      rest
  }

  /** `s.slice(0, n)`: the first `n` characters, or all of `s` if it is
      shorter. */
  function Prefix(s: string, n: nat): (r: string)
    ensures r <= s
    ensures |r| == if |s| < n then |s| else n
  {
    if |s| < n then s else s[..n]
  }
}
