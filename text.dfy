/**
 * The few Python `str` operations the core relies on: `isspace` (used by
 * `strip()` and by the regular-expression class `\s`), ASCII case mapping,
 * `strip()` and `split(sep)`.
 */
module Text {

  /** Python's `str.isspace` for a single character. */
  predicate IsSpace(c: char)
  {
    || c == ' '
    || ('\t' <= c <= '\r')
    || ('\U{1C}' <= c <= '\U{1F}')
    || c == '\U{85}' || c == '\U{A0}' || c == '\U{1680}'
    || ('\U{2000}' <= c <= '\U{200A}')
    || c == '\U{2028}' || c == '\U{2029}' || c == '\U{202F}' || c == '\U{205F}' || c == '\U{3000}'
  }

  predicate IsUpper(c: char) { 'A' <= c <= 'Z' }

  predicate IsLower(c: char) { 'a' <= c <= 'z' }

  function LowerChar(c: char): (r: char)
    ensures !IsUpper(r)
    ensures IsUpper(c) ==> IsLower(r) && r as int == c as int + 32
    ensures !IsUpper(c) ==> r == c
  {
    if IsUpper(c) then (c as int + 32) as char else c
  }

  function UpperChar(c: char): (r: char)
    ensures !IsLower(r)
    ensures IsLower(c) ==> IsUpper(r) && r as int == c as int - 32
    ensures !IsLower(c) ==> r == c
  {
    if IsLower(c) then (c as int - 32) as char else c
  }

  /** `s.lower()` restricted to ASCII letters. */
  function Lower(s: string): (r: string)
    ensures |r| == |s|
    ensures forall i :: 0 <= i < |s| ==> r[i] == LowerChar(s[i])
  {
    seq(|s|, i requires 0 <= i < |s| => LowerChar(s[i]))
  }

  /** `s.upper()` restricted to ASCII letters. */
  function Upper(s: string): (r: string)
    ensures |r| == |s|
    ensures forall i :: 0 <= i < |s| ==> r[i] == UpperChar(s[i])
  {
    seq(|s|, i requires 0 <= i < |s| => UpperChar(s[i]))
  }

  /** The first index at or after `i` that is not whitespace, or `|s|`. */
  function SkipSpaces(s: string, i: nat): (k: nat)
    requires i <= |s|
    ensures i <= k <= |s|
    ensures forall m :: i <= m < k ==> IsSpace(s[m])
    ensures k == |s| || !IsSpace(s[k])
    decreases |s| - i
  {
    if i < |s| && IsSpace(s[i]) then SkipSpaces(s, i + 1) else i
  }

  /** Where `s[lo..j]` ends once its trailing whitespace is dropped. */
  function DropTrailing(s: string, lo: nat, j: nat): (k: nat)
    requires lo <= j <= |s|
    ensures lo <= k <= j
    ensures forall m :: k <= m < j ==> IsSpace(s[m])
    ensures k == lo || !IsSpace(s[k - 1])
    decreases j
  {
    if j > lo && IsSpace(s[j - 1]) then DropTrailing(s, lo, j - 1) else j
  }

  /**
   * `s.strip()`: the slice of `s` that starts at its first non-whitespace
   * character, with only whitespace outside it and none at either of its ends.
   */
  function Strip(s: string): (r: string)
    ensures SkipSpaces(s, 0) + |r| <= |s| && r == s[SkipSpaces(s, 0)..SkipSpaces(s, 0) + |r|]
    ensures forall k :: 0 <= k < SkipSpaces(s, 0) ==> IsSpace(s[k])
    ensures forall k :: SkipSpaces(s, 0) + |r| <= k < |s| ==> IsSpace(s[k])
    ensures r == [] || (!IsSpace(r[0]) && !IsSpace(r[|r| - 1]))
  {
    var i := SkipSpaces(s, 0);
    s[i..DropTrailing(s, i, |s|)]
  }

  /** Stripping twice is stripping once. */
  lemma StripIdempotent(s: string)
    ensures Strip(Strip(s)) == Strip(s)
  {
    var r := Strip(s);
    if r != [] {
      assert SkipSpaces(r, 0) == 0;
      assert DropTrailing(r, 0, |r|) == |r|;
    }
    assert r[0..|r|] == r;
  }

  /** The index of the last `sep` in `s[..j]`, or -1 when there is none. */
  function LastSep(s: string, sep: char, j: nat): (k: int)
    requires j <= |s|
    ensures -1 <= k < j
    ensures k >= 0 ==> s[k] == sep
    ensures forall m :: k < m < j ==> s[m] != sep
    decreases j
  {
    if j == 0 then -1
    else if s[j - 1] == sep then j - 1
    else LastSep(s, sep, j - 1)
  }

  /** A separator with none after it, before `j`, is the last one. */
  lemma {:induction false} LastSepAt(s: string, sep: char, p: nat, j: nat)
    requires p < j <= |s| && s[p] == sep
    requires forall m :: p < m < j ==> s[m] != sep
    ensures LastSep(s, sep, j) == p
    decreases j
  {
    if j - 1 != p {
      LastSepAt(s, sep, p, j - 1);
    }
  }

  /** Appending a separator and a separator-free run adds that run as the last part. */
  lemma SplitAppendLast(a: string, sep: char, b: string)
    requires sep !in b
    ensures Split(a + [sep] + b, sep) == Split(a, sep) + [b]
  {
    var s := a + [sep] + b;
    var p := |a|;
    forall m | p < m < |s|
      ensures s[m] != sep
    {
      assert s[m] == b[m - p - 1];
    }
    LastSepAt(s, sep, p, |s|);
    assert s[..p] == a && s[p + 1..] == b;
  }

  /** A separator-free run between the last two separators is the second-to-last part. */
  lemma SplitQuoted(head: string, x: string, tail: string, sep: char)
    requires sep !in x && sep !in tail
    ensures |Split(head + [sep] + x + [sep] + tail, sep)| >= 2
    ensures Split(head + [sep] + x + [sep] + tail, sep)[|Split(head + [sep] + x + [sep] + tail, sep)| - 2] == x
  {
    SplitAppendLast(head + [sep] + x, sep, tail);
    SplitAppendLast(head, sep, x);
  }

  /**
   * `s.split(sep)`: the runs between occurrences of `sep`, in order; one part
   * exactly when `sep` does not occur, and the last part is what follows the
   * last `sep`.
   */
  function Split(s: string, sep: char): (parts: seq<string>)
    ensures |parts| >= 1
    ensures |parts| == 1 <==> sep !in s
    ensures parts[|parts| - 1] == s[LastSep(s, sep, |s|) + 1..]
    decreases |s|
  {
    var k := LastSep(s, sep, |s|);
    if k < 0 then [s] else Split(s[..k], sep) + [s[k + 1..]]
  }

  /** `sep.join(parts)`. */
  function Join(parts: seq<string>, sep: char): string
    requires |parts| >= 1
  {
    if |parts| == 1 then parts[0]
    else Join(parts[..|parts| - 1], sep) + [sep] + parts[|parts| - 1]
  }

  /** No part contains the separator. */
  lemma {:induction false} SplitPartsFree(s: string, sep: char)
    ensures forall i :: 0 <= i < |Split(s, sep)| ==> sep !in Split(s, sep)[i]
    decreases |s|
  {
    var k := LastSep(s, sep, |s|);
    if k >= 0 {
      SplitPartsFree(s[..k], sep);
      var front := Split(s[..k], sep);
      assert Split(s, sep) == front + [s[k + 1..]];
      forall i | 0 <= i < |Split(s, sep)|
        ensures sep !in Split(s, sep)[i]
      {
        if i < |front| {
          assert Split(s, sep)[i] == front[i];
        }
      }
    }
  }

  /** A string is the text before index `k`, the character at `k`, and the text after it. */
  lemma CutAt(s: string, k: nat)
    requires k < |s|
    ensures s[..k] + [s[k]] + s[k + 1..] == s
  {
    assert s == s[..k] + s[k..];
    assert s[k..] == [s[k]] + s[k + 1..];
  }

  /** Joining the parts with the separator gives back the string. */
  lemma {:induction false} SplitJoin(s: string, sep: char)
    ensures Join(Split(s, sep), sep) == s
    decreases |s|
  {
    var k := LastSep(s, sep, |s|);
    if k >= 0 {
      var front := Split(s[..k], sep);
      var parts := front + [s[k + 1..]];
      calc {
        Join(Split(s, sep), sep);
        Join(parts, sep);
        { assert |parts| >= 2 && parts[..|parts| - 1] == front; }
        Join(front, sep) + [sep] + s[k + 1..];
        { SplitJoin(s[..k], sep); }
        s[..k] + [sep] + s[k + 1..];
        { CutAt(s, k); }
        s;
      }
    }
  }
}
