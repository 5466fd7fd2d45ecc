/** The three string operations the bot relies on: `str.strip()` on the
    completion's reply, `str.lower()` on the incoming text, and the substring
    test `k in s` used to spot a request for a human. */
module Text {

  /** Python's `str.isspace()` for one character: the ASCII whitespace and
      separator controls, NEL, NO-BREAK SPACE and the Unicode space and
      line/paragraph separators. */
  predicate IsSpace(c: char) {
    || ('\t' <= c <= '\r')
    || ('\U{1C}' <= c <= ' ')
    || c == '\U{85}' || c == '\U{A0}' || c == '\U{1680}'
    || ('\U{2000}' <= c <= '\U{200A}')
    || c == '\U{2028}' || c == '\U{2029}' || c == '\U{202F}'
    || c == '\U{205F}' || c == '\U{3000}'
  }

  predicate AllSpace(s: string) {
    forall i :: 0 <= i < |s| ==> IsSpace(s[i])
  }

  /** Drops the leading whitespace of `s`. */
  function TrimStart(s: string): (r: string)
    ensures |r| <= |s| && r == s[|s| - |r|..]
    ensures forall i :: 0 <= i < |s| - |r| ==> IsSpace(s[i])
    ensures r == [] || !IsSpace(r[0])
  {
    if |s| > 0 && IsSpace(s[0]) then TrimStart(s[1..]) else s
  }

  /** Drops the trailing whitespace of `s`. */
  function TrimEnd(s: string): (r: string)
    ensures |r| <= |s| && r == s[..|r|]
    ensures forall i :: |r| <= i < |s| ==> IsSpace(s[i])
    ensures r == [] || !IsSpace(r[|r| - 1])
  {
    if |s| > 0 && IsSpace(s[|s| - 1]) then TrimEnd(s[..|s| - 1]) else s
  }

  /** `r` sits in `s` at offset `lo` with nothing but whitespace around it. */
  predicate StrippedAt(r: string, s: string, lo: int) {
    0 <= lo <= |s| - |r| && s[lo..lo + |r|] == r
      && AllSpace(s[..lo]) && AllSpace(s[lo + |r|..])
  }

  /** `r` is `s` with some whitespace removed at either end only. */
  predicate StrippedFrom(r: string, s: string) {
    exists lo :: 0 <= lo <= |s| && StrippedAt(r, s, lo)
  }

  /** Neither end of `r` is whitespace. */
  predicate Tight(r: string) {
    r == [] || (!IsSpace(r[0]) && !IsSpace(r[|r| - 1]))
  }

  /** Python's `str.strip()` with no argument. The result is the unique
      infix of `s` that is bordered by whitespace only and that neither
      starts nor ends with whitespace (see `StripUnique`). */
  function Strip(s: string): (r: string)
    ensures StrippedFrom(r, s)
    ensures Tight(r)
  {
    var t := TrimStart(s);
    var r := TrimEnd(t);
    var lo := |s| - |t|;
    assert s[lo..lo + |r|] == r;
    assert s[lo + |r|..] == t[|r|..];
    assert StrippedAt(r, s, lo);
    r
  }

  /** Outside the kept infix every character is whitespace. */
  lemma SpaceOutside(r: string, s: string, lo: int, i: int)
    requires StrippedAt(r, s, lo)
    requires 0 <= i < lo || lo + |r| <= i < |s|
    ensures IsSpace(s[i])
  {
  }

  /** Where two stripped infixes of the same string start and end. */
  lemma StrippedAtSame(r: string, t: string, s: string, lo: int, lo': int)
    requires StrippedAt(r, s, lo) && Tight(r) && r != []
    requires StrippedAt(t, s, lo') && Tight(t) && t != []
    ensures lo == lo' && |r| == |t|
  {
  }

  /** When nothing is kept, the whole string was whitespace. */
  lemma StrippedEmpty(t: string, s: string, lo: int)
    requires StrippedAt(t, s, lo) && t == []
    ensures AllSpace(s)
  {
  }

  /** Any candidate satisfying the strip conditions is the one `Strip` returns. */
  lemma StripUnique(s: string, r: string)
    requires StrippedFrom(r, s) && Tight(r)
    ensures r == Strip(s)
  {
    var t := Strip(s);
    var lo :| 0 <= lo <= |s| && StrippedAt(r, s, lo);
    var lo' :| 0 <= lo' <= |s| && StrippedAt(t, s, lo');
    if r != [] && t != [] {
      StrippedAtSame(r, t, s, lo, lo');
    } else if r != [] {
      StrippedEmpty(t, s, lo');
      assert false;
    } else if t != [] {
      StrippedEmpty(r, s, lo);
      assert false;
    }
  }

  /** Stripping twice changes nothing more than stripping once. */
  lemma StripIdempotent(s: string)
    ensures Strip(Strip(s)) == Strip(s)
  {
  }

  /** `str.lower()` restricted to ASCII: capital Latin letters become small,
      every other character is left as it is. */
  function LowerChar(c: char): char {
    if 'A' <= c <= 'Z' then (c as int - 'A' as int + 'a' as int) as char else c
  }

  function Lower(s: string): (r: string)
    ensures |r| == |s|
    ensures forall i :: 0 <= i < |s| ==> r[i] == LowerChar(s[i])
  {
    seq(|s|, i requires 0 <= i < |s| => LowerChar(s[i]))
  }

  predicate IsLatinLetter(c: char) {
    ('A' <= c <= 'Z') || ('a' <= c <= 'z')
  }

  predicate NoLatinLetters(k: string) {
    forall j :: 0 <= j < |k| ==> !IsLatinLetter(k[j])
  }

  /** `needle` occurs in `haystack` starting at offset `i`. */
  predicate OccursAt(haystack: string, needle: string, i: int) {
    0 <= i <= |haystack| - |needle| && haystack[i..i + |needle|] == needle
  }

  /** Python's `needle in haystack` on strings. */
  predicate Contains(haystack: string, needle: string) {
    exists i :: 0 <= i <= |haystack| && OccursAt(haystack, needle, i)
  }

  /** For a needle without Latin letters, lowering the haystack first does not
      change whether the needle occurs. */
  lemma LowerKeepsContains(s: string, k: string)
    requires NoLatinLetters(k)
    ensures Contains(Lower(s), k) <==> Contains(s, k)
  {
    var l := Lower(s);
    if Contains(l, k) {
      var i :| 0 <= i <= |l| && OccursAt(l, k, i);
      forall j | 0 <= j < |k|
        ensures s[i + j] == k[j]
      {
        assert l[i..i + |k|][j] == l[i + j] == LowerChar(s[i + j]);
        assert !IsLatinLetter(k[j]);
      }
      assert OccursAt(s, k, i);
    }
    if Contains(s, k) {
      var i :| 0 <= i <= |s| && OccursAt(s, k, i);
      forall j | 0 <= j < |k|
        ensures l[i + j] == k[j]
      {
        assert s[i..i + |k|][j] == s[i + j];
        assert !IsLatinLetter(k[j]);
      }
      assert OccursAt(l, k, i);
    }
  }

  /** The left-to-right scan that decides `needle in haystack`. */
  method Find(haystack: string, needle: string) returns (found: bool)
    ensures found <==> Contains(haystack, needle)
  {
    var i := 0;
    while i <= |haystack| - |needle|
      invariant 0 <= i
      invariant forall j :: 0 <= j < i ==> !OccursAt(haystack, needle, j)
      decreases |haystack| - i
    {
      if haystack[i..i + |needle|] == needle {
        assert OccursAt(haystack, needle, i);
        return true;
      }
      i := i + 1;
    }
    return false;
  }
}
