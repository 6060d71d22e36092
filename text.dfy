// String helpers shared by the QA engine, the section parser and the analyzer.
// They model the handful of Python `str` operations the source relies on:
// `strip`, `lower`/`upper`, `in`, `startswith`/`endswith`, slicing,
// `split('\n')`, `'\n'.join(...)` and decimal formatting of integers.
module Text {

  /** Python's `str.isspace()`, which is also what `\s` and `strip()` use. */
  predicate IsSpace(c: char) {
    ('\t' <= c <= '\r') || ('\U{001C}' <= c <= '\U{001F}') || c == ' ' ||
    c == '\U{0085}' || c == '\U{00A0}' || c == '\U{1680}' ||
    ('\U{2000}' <= c <= '\U{200A}') || c == '\U{2028}' || c == '\U{2029}' ||
    c == '\U{202F}' || c == '\U{205F}' || c == '\U{3000}'
  }

  /** `\d`, restricted to the ASCII digits. */
  predicate IsDigit(c: char) {
    '0' <= c <= '9'
  }

  predicate IsUpperAscii(c: char) {
    'A' <= c <= 'Z'
  }

  predicate IsLowerAscii(c: char) {
    'a' <= c <= 'z'
  }

  function LowerChar(c: char): char {
    if IsUpperAscii(c) then (c as int + 32) as char else c
  }

  function UpperChar(c: char): char {
    if IsLowerAscii(c) then (c as int - 32) as char else c
  }

  /** `s.lower()` on the ASCII letters; every other character is kept. */
  function ToLower(s: string): (r: string)
    ensures |r| == |s|
  {
    seq(|s|, i requires 0 <= i < |s| => LowerChar(s[i]))
  }

  /** `s.upper()` on the ASCII letters; every other character is kept. */
  function ToUpper(s: string): (r: string)
    ensures |r| == |s|
  {
    seq(|s|, i requires 0 <= i < |s| => UpperChar(s[i]))
  }

  lemma ToLowerHasNoUpper(s: string, i: int)
    requires 0 <= i < |s|
    ensures !IsUpperAscii(ToLower(s)[i])
  {
  }

  lemma ToUpperHasNoLower(s: string, i: int)
    requires 0 <= i < |s|
    ensures !IsLowerAscii(ToUpper(s)[i])
  {
  }

  predicate AllSpace(s: string) {
    forall k :: 0 <= k < |s| ==> IsSpace(s[k])
  }

  /** `s.lstrip()`: the text after the run of whitespace at its start. */
  function TrimLeft(s: string): string {
    s[SpaceRunEnd(s, 0)..]
  }

  /** `s.rstrip()`: the text before the run of whitespace at its end. */
  function TrimRight(s: string): string {
    s[..SpaceRunStart(s, |s|)]
  }

  /** `s.strip()` */
  function Strip(s: string): string {
    TrimRight(TrimLeft(s))
  }

  /** Strip removes whitespace at both ends and nothing else. */
  lemma StripIsSlice(s: string)
    ensures exists i, j :: 0 <= i <= j <= |s| && Strip(s) == s[i..j] &&
                           AllSpace(s[..i]) && AllSpace(s[j..])
    ensures Strip(s) == [] || (!IsSpace(Strip(s)[0]) && !IsSpace(Strip(s)[|Strip(s)| - 1]))
  {
    var i := SpaceRunEnd(s, 0);
    var l := s[i..];
    var j := i + SpaceRunStart(l, |l|);
    SpaceRunEndSpaces(s, 0);
    SpaceRunStartSpaces(l, |l|);
    assert Strip(s) == s[i..j];
    assert AllSpace(s[j..]) by {
      forall k | 0 <= k < |s| - j ensures IsSpace(s[j..][k]) {
        assert s[j..][k] == l[j - i + k];
      }
    }
  }

  lemma TrimLeftAllSpace(s: string)
    requires AllSpace(s)
    ensures TrimLeft(s) == []
  {
  }

  /** lstrip stops at the first non-whitespace character. */
  lemma TrimLeftKeeps(s: string, k: int)
    requires 0 <= k < |s| && !IsSpace(s[k])
    ensures |s| - |TrimLeft(s)| <= k
  {
    SpaceRunEndSpaces(s, 0);
  }

  /** rstrip stops at the last non-whitespace character. */
  lemma TrimRightKeeps(s: string, k: int)
    requires 0 <= k < |s| && !IsSpace(s[k])
    ensures k < |TrimRight(s)|
  {
    SpaceRunStartSpaces(s, |s|);
  }

  /** A string with a non-whitespace character does not strip to the empty string. */
  lemma StripKeeps(s: string, k: int)
    requires 0 <= k < |s| && !IsSpace(s[k])
    ensures Strip(s) != []
  {
    var l := TrimLeft(s);
    TrimLeftKeeps(s, k);
    assert l[k - (|s| - |l|)] == s[k];
    TrimRightKeeps(l, k - (|s| - |l|));
  }

  /** A string strips to the empty string exactly when it is all whitespace. */
  lemma StripEmptyIff(s: string)
    ensures Strip(s) == [] <==> AllSpace(s)
  {
    if AllSpace(s) {
      TrimLeftAllSpace(s);
    } else {
      var k :| 0 <= k < |s| && !IsSpace(s[k]);
      StripKeeps(s, k);
    }
  }

  predicate StartsWith(s: string, p: string) {
    |p| <= |s| && s[..|p|] == p
  }

  predicate EndsWith(s: string, p: string) {
    |p| <= |s| && s[|s| - |p|..] == p
  }

  /** `t` occurs in `s` starting at index `i`. */
  predicate OccursAt(s: string, t: string, i: int) {
    0 <= i && i + |t| <= |s| && s[i..i + |t|] == t
  }

  /** Python's `t in s`. */
  predicate Contains(s: string, t: string) {
    exists i | 0 <= i <= |s| - |t| :: OccursAt(s, t, i)
  }

  lemma ContainsWitness(s: string, t: string, i: int)
    requires OccursAt(s, t, i)
    ensures Contains(s, t)
  {
  }

  /** A string that contains `t` contains every substring of `t`. */
  lemma ContainsInner(s: string, t: string, w: string, d: int)
    requires Contains(s, t) && OccursAt(t, w, d)
    ensures Contains(s, w)
  {
    var i :| 0 <= i <= |s| - |t| && OccursAt(s, t, i);
    forall k | 0 <= k < |w| ensures s[i + d + k] == w[k] {
      assert s[i + d + k] == s[i..i + |t|][d + k];
      assert w[k] == t[d..d + |w|][k];
    }
    assert OccursAt(s, w, i + d);
  }

  /** If a character never appears in `s`, no string containing it is a substring of `s`. */
  lemma NotContainsByChar(s: string, t: string, k: int)
    requires 0 <= k < |t|
    requires forall j :: 0 <= j < |s| ==> s[j] != t[k]
    ensures !Contains(s, t)
  {
    forall i | 0 <= i <= |s| - |t| ensures !OccursAt(s, t, i) {
      assert s[i + k] == s[i..i + |t|][k];
    }
  }

  /** A lower-cased string never contains a string with an upper-case ASCII letter. */
  lemma LowerNeverContainsUpper(s: string, t: string, k: int)
    requires 0 <= k < |t| && IsUpperAscii(t[k])
    ensures !Contains(ToLower(s), t)
  {
    var l := ToLower(s);
    forall j | 0 <= j < |l| ensures l[j] != t[k] {
      ToLowerHasNoUpper(s, j);
    }
    NotContainsByChar(l, t, k);
  }

  /** The end of the run of digits that starts at `p`. */
  function DigitRunEnd(s: string, p: int): (e: int)
    requires 0 <= p <= |s|
    ensures p <= e <= |s|
    ensures forall k :: p <= k < e ==> IsDigit(s[k])
    ensures e == |s| || !IsDigit(s[e])
    decreases |s| - p
  {
    if p < |s| && IsDigit(s[p]) then DigitRunEnd(s, p + 1) else p
  }

  /** The end of the run of whitespace that starts at `p`. */
  function SpaceRunEnd(s: string, p: int): (e: int)
    requires 0 <= p <= |s|
    ensures p <= e <= |s|
    ensures e == |s| || !IsSpace(s[e])
    decreases |s| - p
  {
    if p < |s| && IsSpace(s[p]) then SpaceRunEnd(s, p + 1) else p
  }

  lemma {:induction false} SpaceRunEndSpaces(s: string, p: int)
    requires 0 <= p <= |s|
    ensures forall k :: p <= k < SpaceRunEnd(s, p) ==> IsSpace(s[k])
    decreases |s| - p
  {
    if p < |s| && IsSpace(s[p]) {
      SpaceRunEndSpaces(s, p + 1);
    }
  }

  /** The start of the run of whitespace that ends at `e`. */
  function SpaceRunStart(s: string, e: int): (b: int)
    requires 0 <= e <= |s|
    ensures 0 <= b <= e
    ensures b == 0 || !IsSpace(s[b - 1])
  {
    if e > 0 && IsSpace(s[e - 1]) then SpaceRunStart(s, e - 1) else e
  }

  lemma {:induction false} SpaceRunStartSpaces(s: string, e: int)
    requires 0 <= e <= |s|
    ensures forall k :: SpaceRunStart(s, e) <= k < e ==> IsSpace(s[k])
  {
    if e > 0 && IsSpace(s[e - 1]) {
      SpaceRunStartSpaces(s, e - 1);
    }
  }

  /** `s[:n]` for n >= 0. */
  function Min(a: int, b: int): int {
    if a <= b then a else b
  }

  /** Python's `s[:n]`, a negative n counting from the end. */
  function PyPrefix<T>(s: seq<T>, n: int): (r: seq<T>)
    ensures n >= 0 ==> |r| == Min(n, |s|)
    ensures n < 0 ==> |r| == if |s| + n < 0 then 0 else |s| + n
    ensures r == s[..|r|]
  {
    if n >= 0 then s[..Min(n, |s|)]
    else if |s| + n < 0 then []
    else s[..|s| + n]
  }

  function Take(s: string, n: nat): (r: string)
    ensures |r| == if n <= |s| then n else |s|
    ensures StartsWith(s, r)
  {
    if n <= |s| then s[..n] else s
  }

  /** `s[-n:]` for n > 0. */
  function Last(s: string, n: nat): (r: string)
    ensures |r| == if n <= |s| then n else |s|
    ensures EndsWith(s, r)
  {
    if n <= |s| then s[|s| - n..] else s
  }

  /** `s.replace(a, b)` for single characters. */
  function ReplaceChar(s: string, a: char, b: char): (r: string)
    ensures |r| == |s|
    ensures forall k :: 0 <= k < |s| ==> r[k] == (if s[k] == a then b else s[k])
  {
    seq(|s|, i requires 0 <= i < |s| => if s[i] == a then b else s[i])
  }

  /** `sep.join(parts)` */
  function Join(parts: seq<string>, sep: string): string
    decreases |parts|
  {
    if |parts| == 0 then ""
    else if |parts| == 1 then parts[0]
    else parts[0] + sep + Join(parts[1..], sep)
  }

  /** A part with a non-whitespace character keeps the joined text from being all whitespace. */
  lemma {:induction false} JoinNotAllSpace(parts: seq<string>, sep: string, k: nat)
    requires k < |parts| && !AllSpace(parts[k])
    ensures !AllSpace(Join(parts, sep))
    decreases |parts|
  {
    var joined := Join(parts, sep);
    if |parts| > 1 {
      if k == 0 {
        var c :| 0 <= c < |parts[0]| && !IsSpace(parts[0][c]);
        assert joined[c] == parts[0][c];
      } else {
        var rest := Join(parts[1..], sep);
        JoinNotAllSpace(parts[1..], sep, k - 1);
        var c :| 0 <= c < |rest| && !IsSpace(rest[c]);
        assert joined[|parts[0]| + |sep| + c] == rest[c];
      }
    }
  }

  /** `s.split(c)` for a single separator character. */
  function Split(s: string, c: char): (r: seq<string>)
    ensures |r| >= 1
    ensures forall k :: 0 <= k < |r| ==> c !in r[k]
    decreases |s|
  {
    if s == [] then [""]
    else
      var rest := Split(s[1..], c);
      if s[0] == c then [""] + rest
      else [[s[0]] + rest[0]] + rest[1..]
  }

  /** Joining the pieces of a split with the separator gives back the original text. */
  lemma {:induction false} JoinSplit(s: string, c: char)
    ensures Join(Split(s, c), [c]) == s
    decreases |s|
  {
    if s != [] {
      var rest := Split(s[1..], c);
      JoinSplit(s[1..], c);
      if s[0] == c {
        assert Split(s, c) == [""] + rest;
        assert Join([""] + rest, [c]) == "" + [c] + Join(rest, [c]);
      } else {
        var r := [[s[0]] + rest[0]] + rest[1..];
        assert Split(s, c) == r;
        if |rest| == 1 {
          assert Join(r, [c]) == [s[0]] + rest[0];
          assert Join(rest, [c]) == rest[0];
        } else {
          assert r[1..] == rest[1..];
          assert Join(r, [c]) == [s[0]] + rest[0] + [c] + Join(rest[1..], [c]);
          assert Join(rest, [c]) == rest[0] + [c] + Join(rest[1..], [c]);
        }
      }
    }
  }

  function DigitChar(d: int): (c: char)
    requires 0 <= d < 10
    ensures IsDigit(c)
  {
    ('0' as int + d) as char
  }

  /** Python's `str(n)` / `f"{n}"` for a non-negative integer. */
  function NatToString(n: nat): (r: string)
    ensures |r| >= 1
    ensures forall k :: 0 <= k < |r| ==> IsDigit(r[k])
  {
    if n < 10 then [DigitChar(n)] else NatToString(n / 10) + [DigitChar(n % 10)]
  }

  /** The value of a string of ASCII digits (the inverse of NatToString). */
  function DigitsValue(ds: string): nat
    requires forall k :: 0 <= k < |ds| ==> IsDigit(ds[k])
  {
    if ds == [] then 0
    else
      assert IsDigit(ds[|ds| - 1]);
      DigitsValue(ds[..|ds| - 1]) * 10 + (ds[|ds| - 1] as int - '0' as int)
  }

  lemma {:induction false} NatToStringRoundTrip(n: nat)
    ensures DigitsValue(NatToString(n)) == n
  {
    if n >= 10 {
      var r := NatToString(n);
      assert r[..|r| - 1] == NatToString(n / 10);
      NatToStringRoundTrip(n / 10);
    }
  }

  /** `"=" * n` */
  function Repeat(c: char, n: nat): (r: string)
    ensures |r| == n
    ensures forall k :: 0 <= k < n ==> r[k] == c
  {
    seq(n, i => c)
  }
}
