/** Python `str` and `list` helpers that several source files rely on:
    `str.isspace`, `str.strip`, `str.lower`, `str.join`, `str.startswith`,
    `str(n)` for integers and the slice forms `xs[:k]` and `xs[k:]`. */
module Text {

  /** Exactly the characters for which Python's `str.isspace()` is true. */
  predicate IsSpace(c: char) {
    ('\t' <= c <= '\r') || ('\U{1c}' <= c <= ' ')
    || c == '\U{85}' || c == '\U{a0}' || c == '\U{1680}'
    || ('\U{2000}' <= c <= '\U{200a}') || c == '\U{2028}' || c == '\U{2029}'
    || c == '\U{202f}' || c == '\U{205f}' || c == '\U{3000}'
  }

  /** The end of the run of whitespace that starts at `from`. */
  function SpaceEnd(s: string, from: nat): (r: nat)
    requires from <= |s|
    ensures from <= r <= |s| && (r < |s| ==> !IsSpace(s[r]))
    decreases |s| - from
  {
    if from < |s| && IsSpace(s[from]) then SpaceEnd(s, from + 1) else from
  }

  /** Everything `SpaceEnd` skips is whitespace. */
  lemma {:induction false} SpaceEndSpec(s: string, from: nat)
    requires from <= |s|
    ensures forall k :: from <= k < SpaceEnd(s, from) ==> IsSpace(s[k])
    decreases |s| - from
  {
    if from < |s| && IsSpace(s[from]) {
      SpaceEndSpec(s, from + 1);
    }
  }

  /** A whitespace run from `from` to `e` that cannot be extended is the
      one `SpaceEnd` measures. */
  lemma {:induction false} SpaceEndAt(s: string, from: nat, e: nat)
    requires from <= e <= |s| && (e < |s| ==> !IsSpace(s[e]))
    requires forall k :: from <= k < e ==> IsSpace(s[k])
    ensures SpaceEnd(s, from) == e
    decreases e - from
  {
    if from < e {
      SpaceEndAt(s, from + 1, e);
    }
  }

  /** The start of the run of whitespace that ends at `to`. */
  function SpaceStart(s: string, to: nat): (r: nat)
    requires to <= |s|
    ensures r <= to && (r > 0 ==> !IsSpace(s[r - 1]))
  {
    if to > 0 && IsSpace(s[to - 1]) then SpaceStart(s, to - 1) else to
  }

  /** Everything `SpaceStart` skips is whitespace. */
  lemma {:induction false} SpaceStartSpec(s: string, to: nat)
    requires to <= |s|
    ensures forall k :: SpaceStart(s, to) <= k < to ==> IsSpace(s[k])
  {
    if to > 0 && IsSpace(s[to - 1]) {
      SpaceStartSpec(s, to - 1);
    }
  }

  /** `SpaceStart` does not skip a character that is not whitespace. */
  lemma {:induction false} SpaceStartAbove(s: string, to: nat, p: nat)
    requires p < to <= |s| && !IsSpace(s[p])
    ensures p < SpaceStart(s, to)
  {
    if p < to - 1 {
      SpaceStartAbove(s, to - 1, p);
    }
  }

  predicate IsStripped(s: string) {
    s == [] || (!IsSpace(s[0]) && !IsSpace(s[|s| - 1]))
  }

  /** Python's `s.strip()`: what is left between the leading and the
      trailing whitespace. */
  function Strip(s: string): (r: string)
    ensures IsStripped(r)
  {
    var a := SpaceEnd(s, 0);
    if a == |s| then []
    else
      SpaceStartAbove(s, |s|, a);
      s[a..SpaceStart(s, |s|)]
  }

  /** `strip` removes whitespace at both ends and nothing else: its result is
      an infix of the input, and what it cuts away on either side is
      whitespace. */
  lemma StripSpec(s: string)
    ensures var a := SpaceEnd(s, 0);
      a + |Strip(s)| <= |s| && Strip(s) == s[a..a + |Strip(s)|]
      && (forall i :: 0 <= i < a ==> IsSpace(s[i]))
      && (forall i :: a + |Strip(s)| <= i < |s| ==> IsSpace(s[i]))
  {
    var a := SpaceEnd(s, 0);
    SpaceEndSpec(s, 0);
    if a < |s| {
      SpaceStartAbove(s, |s|, a);
      SpaceStartSpec(s, |s|);
    }
  }

  /** A string that is already stripped is left unchanged. */
  lemma StripOfStripped(s: string)
    requires IsStripped(s)
    ensures Strip(s) == s
  {
  }

  lemma StripIdempotent(s: string)
    ensures Strip(Strip(s)) == Strip(s)
  {
    StripOfStripped(Strip(s));
  }

  /** Python's `c.lower()` on the ASCII letters; every other character is
      kept. */
  function LowerChar(c: char): char {
    if 'A' <= c <= 'Z' then (c as int + 32) as char else c
  }

  function Lower(s: string): (r: string)
    ensures |r| == |s|
    ensures forall i :: 0 <= i < |s| ==> r[i] == LowerChar(s[i])
  {
    if s == [] then [] else [LowerChar(s[0])] + Lower(s[1..])
  }

  lemma {:induction false} LowerIdempotent(s: string)
    ensures Lower(Lower(s)) == Lower(s)
  {
    if s != [] {
      LowerIdempotent(s[1..]);
    }
  }

  /** Lowering neither creates nor removes whitespace. */
  lemma LowerKeepsSpace(c: char)
    ensures IsSpace(LowerChar(c)) == IsSpace(c)
  {
  }

  /** Python's `c.upper()` on the ASCII letters only; every other character
      is kept, so letters of other alphabets are not mapped. */
  function UpperChar(c: char): char {
    if 'a' <= c <= 'z' then (c as int - 32) as char else c
  }

  function Upper(s: string): (r: string)
    ensures |r| == |s|
    ensures forall i :: 0 <= i < |s| ==> r[i] == UpperChar(s[i])
  {
    if s == [] then [] else [UpperChar(s[0])] + Upper(s[1..])
  }

  /** Python's `sep.join(parts)`. */
  function Join(sep: string, parts: seq<string>): (r: string)
    ensures parts == [] ==> r == []
    ensures |parts| == 1 ==> r == parts[0]
  {
    if parts == [] then []
    else if |parts| == 1 then parts[0]
    else parts[0] + sep + Join(sep, parts[1..])
  }

  predicate StartsWith(s: string, prefix: string) {
    |prefix| <= |s| && s[..|prefix|] == prefix
  }

  function DigitChar(d: nat): char
    requires d < 10
  {
    ('0' as int + d) as char
  }

  /** Python's `str(n)` for a non-negative integer. */
  function NatToString(n: nat): (r: string)
    ensures |r| >= 1
    ensures forall i :: 0 <= i < |r| ==> '0' <= r[i] <= '9'
    ensures n >= 10 ==> r[0] != '0'
    decreases n
  {
    if n < 10 then [DigitChar(n)] else NatToString(n / 10) + [DigitChar(n % 10)]
  }

  /** Different numbers print differently. */
  lemma {:induction false} NatToStringInjective(n: nat, m: nat)
    requires NatToString(n) == NatToString(m)
    ensures n == m
    decreases n
  {
    var r := NatToString(n);
    if n >= 10 && m >= 10 {
      assert NatToString(n / 10) == r[..|r| - 1] == NatToString(m / 10);
      NatToStringInjective(n / 10, m / 10);
      assert DigitChar(n % 10) == r[|r| - 1] == DigitChar(m % 10);
    }
  }

  /** Python's `str(n)` for any integer. */
  function IntToString(n: int): string {
    if n < 0 then "-" + NatToString(-n) else NatToString(n)
  }

  /** Python's slice bound normalisation: a negative index counts from the
      end, and the result is clamped to `0..n`. */
  function SliceIndex(k: int, n: nat): (r: nat)
    ensures r <= n
    ensures 0 <= k <= n ==> r == k
    ensures -(n as int) <= k < 0 ==> r == n + k
  {
    if k < 0 then (if n + k < 0 then 0 else n + k) else if k > n then n else k
  }

  /** Python's `xs[:k]`: the first `k` elements for `k >= 0`, all but the
      last `-k` for a negative `k`, and never more than there are. */
  function Take<T>(xs: seq<T>, k: int): (r: seq<T>)
    ensures r <= xs
    ensures |r| == if k >= 0 then (if k < |xs| then k else |xs|) else (if |xs| + k < 0 then 0 else |xs| + k)
  {
    xs[..SliceIndex(k, |xs|)]
  }

  /** Python's `xs[k:]`: a suffix of `xs`, without its first `k` elements
      for `k >= 0` and holding the last `-k` for a negative `k`. */
  function Drop<T>(xs: seq<T>, k: int): (r: seq<T>)
    ensures |r| <= |xs| && r == xs[|xs| - |r|..]
    ensures |r| == if k >= 0 then (if k < |xs| then |xs| - k else 0) else (if -k < |xs| then -k else |xs|)
  {
    xs[SliceIndex(k, |xs|)..]
  }

  /** `xs[:k] + xs[k:] == xs` for every `k`. */
  lemma TakeDrop<T>(xs: seq<T>, k: int)
    ensures Take(xs, k) + Drop(xs, k) == xs
  {
    assert xs[..SliceIndex(k, |xs|)] + xs[SliceIndex(k, |xs|)..] == xs;
  }

  /** `xs[-k:]` keeps the last `k` entries, or all of them when there are
      fewer. */
  lemma DropNegativeKeepsLast<T>(xs: seq<T>, k: nat)
    requires k > 0
    ensures |Drop(xs, -(k as int))| == if |xs| < k then |xs| else k
    ensures Drop(xs, -(k as int)) == xs[|xs| - |Drop(xs, -(k as int))|..]
  {
  }
}
