/** src/hurag_webui/models/citation.py: the `Citation` record, its `brief`
    and `text` views, and `sanitize_markdown`, the chain of regular
    expression rewrites that prepares a knowledge segment for display. Each
    `re.sub` is modelled as a left-to-right scan that tries the pattern at
    each position, takes the match the regular expression engine would take
    there (greedy quantifiers, backtracking, a lazy body) and resumes after
    it. */
module CitationModel {
  import opened Wrappers
  import opened Text

  // ---------------------------------------------------------------------
  // Character classes

  /** `_CJK`: the ranges U+4E00-U+9FFF, U+3040-U+30FF and U+AC00-U+D7AF. */
  predicate IsCjk(c: char) {
    ('\U{4e00}' <= c <= '\U{9fff}') || ('\U{3040}' <= c <= '\U{30ff}') || ('\U{ac00}' <= c <= '\U{d7af}')
  }

  predicate IsAsciiAlnum(c: char) {
    ('A' <= c <= 'Z') || ('a' <= c <= 'z') || ('0' <= c <= '9')
  }

  /** `[{_CJK}A-Za-z0-9]`, the characters that get a space next to a `$…$`
      span. */
  predicate IsLatexNeighbour(c: char) {
    IsCjk(c) || IsAsciiAlnum(c)
  }

  /** `\w`: ASCII letters and digits, `_`, and the CJK ranges. */
  predicate IsWord(c: char) {
    IsAsciiAlnum(c) || c == '_' || IsCjk(c)
  }

  // ---------------------------------------------------------------------
  // Searching

  /** The first `c` in `s` at or after `from`. */
  function IndexFrom(s: string, c: char, from: nat): (r: Option<nat>)
    ensures r.Some? ==> from <= r.value < |s| && s[r.value] == c
    decreases |s| - from
  {
    if from >= |s| then None
    else if s[from] == c then Some(from)
    else IndexFrom(s, c, from + 1)
  }

  /** `IndexFrom` finds exactly the first `c`: none is skipped, and `None`
      means there is none. */
  lemma {:induction false} IndexFromSpec(s: string, c: char, from: nat)
    ensures IndexFrom(s, c, from).Some? ==> forall k :: from <= k < IndexFrom(s, c, from).value ==> s[k] != c
    ensures IndexFrom(s, c, from).None? ==> forall k :: from <= k < |s| ==> s[k] != c
    decreases |s| - from
  {
    if from < |s| && s[from] != c {
      IndexFromSpec(s, c, from + 1);
    }
  }

  /** A `c` at `n` with none between `from` and `n` is what `IndexFrom`
      finds. */
  lemma {:induction false} IndexFromAt(s: string, c: char, from: nat, n: nat)
    requires from <= n < |s| && s[n] == c
    requires forall k :: from <= k < n ==> s[k] != c
    ensures IndexFrom(s, c, from) == Some(n)
    decreases n - from
  {
    if from < n {
      IndexFromAt(s, c, from + 1, n);
    }
  }

  /** With no `c` after `from`, `IndexFrom` finds nothing. */
  lemma {:induction false} IndexFromAbsent(s: string, c: char, from: nat)
    requires forall k :: from <= k < |s| ==> s[k] != c
    ensures IndexFrom(s, c, from) == None
    decreases |s| - from
  {
    if from < |s| {
      IndexFromAbsent(s, c, from + 1);
    }
  }

  predicate IsAt(s: string, p: string, k: nat) {
    k + |p| <= |s| && s[k..k + |p|] == p
  }

  /** The first occurrence of `p` in `s` at or after `from`. */
  function Find(s: string, p: string, from: nat): (r: Option<nat>)
    ensures r.Some? ==> from <= r.value && IsAt(s, p, r.value)
    decreases |s| - from
  {
    if from + |p| > |s| then None
    else if s[from..from + |p|] == p then Some(from)
    else Find(s, p, from + 1)
  }

  /** An occurrence of `p` at `n` with none between `from` and `n` is what
      `Find` finds. */
  lemma {:induction false} FindAt(s: string, p: string, from: nat, n: nat)
    requires from <= n && IsAt(s, p, n)
    requires forall k :: from <= k < n ==> !IsAt(s, p, k)
    ensures Find(s, p, from) == Some(n)
    decreases n - from
  {
    if from < n {
      assert !IsAt(s, p, from);
      FindAt(s, p, from + 1, n);
    }
  }

  /** The end of the run of word characters that starts at `from`. */
  function WordEnd(s: string, from: nat): (r: nat)
    requires from <= |s|
    ensures from <= r <= |s| && (r < |s| ==> !IsWord(s[r]))
    decreases |s| - from
  {
    if from < |s| && IsWord(s[from]) then WordEnd(s, from + 1) else from
  }

  /** A run of word characters from `from` to `e` that cannot be extended
      is the one `WordEnd` measures. */
  lemma {:induction false} WordEndAt(s: string, from: nat, e: nat)
    requires from <= e <= |s| && (e < |s| ==> !IsWord(s[e]))
    requires forall k :: from <= k < e ==> IsWord(s[k])
    ensures WordEnd(s, from) == e
    decreases e - from
  {
    if from < e {
      WordEndAt(s, from + 1, e);
    }
  }

  /** The end of the run of `#` that starts at `from`. */
  function HashEnd(s: string, from: nat): (r: nat)
    requires from <= |s|
    ensures from <= r <= |s| && (r < |s| ==> s[r] != '#')
    ensures from < r ==> s[r - 1] == '#'
    decreases |s| - from
  {
    if from < |s| && s[from] == '#' then HashEnd(s, from + 1) else from
  }

  lemma {:induction false} HashEndAt(s: string, from: nat, e: nat)
    requires from <= e <= |s| && (e < |s| ==> s[e] != '#')
    requires forall k :: from <= k < e ==> s[k] == '#'
    ensures HashEnd(s, from) == e
    decreases e - from
  {
    if from < e {
      HashEndAt(s, from + 1, e);
    }
  }

  /** Where `.+` starting at `from` stops: the next newline, or the end. */
  function LineEnd(s: string, from: nat): (r: nat)
    requires from <= |s|
    ensures from <= r <= |s| && (r < |s| ==> s[r] == '\n')
  {
    var e := IndexFrom(s, '\n', from);
    if e.Some? then e.value else |s|
  }

  /** `.+` never crosses a newline. */
  lemma LineEndSpec(s: string, from: nat)
    requires from <= |s|
    ensures forall k :: from <= k < LineEnd(s, from) ==> s[k] != '\n'
  {
    IndexFromSpec(s, '\n', from);
  }

  /** A line from `from` to `e` that ends at a newline or at the end of the
      text is the one `LineEnd` measures. */
  lemma LineEndAt(s: string, from: nat, e: nat)
    requires from <= e <= |s| && (e < |s| ==> s[e] == '\n')
    requires forall k :: from <= k < e ==> s[k] != '\n'
    ensures LineEnd(s, from) == e
  {
    if e < |s| {
      IndexFromAt(s, '\n', from, e);
    } else {
      IndexFromAbsent(s, '\n', from);
    }
  }

  // ---------------------------------------------------------------------
  // Step 1: `re.sub(r"\n{3,}", "\n\n", content)`

  predicate EndsWithBlankLine(o: string) {
    |o| >= 2 && o[|o| - 1] == '\n' && o[|o| - 2] == '\n'
  }

  /** Every run of three or more newlines becomes exactly two; shorter runs
      stay as they are. Scanning left to right, a newline is dropped exactly
      when the output already ends in two newlines of the same run. */
  function CollapseNewlines(s: string): (r: string)
    ensures |r| <= |s|
  {
    if s == [] then []
    else
      var o := CollapseNewlines(s[..|s| - 1]);
      if s[|s| - 1] == '\n' && EndsWithBlankLine(o) then o else o + [s[|s| - 1]]
  }

  /** Three newlines start at `i`. */
  predicate TripleAt(s: string, i: nat)
    requires i + 2 < |s|
  {
    s[i] == '\n' && s[i + 1] == '\n' && s[i + 2] == '\n'
  }

  predicate NoTripleNewline(s: string) {
    forall i: nat :: i + 2 < |s| ==> !TripleAt(s, i)
  }

  /** `s` with its newlines removed. */
  function WithoutNewlines(s: string): string {
    if s == [] then []
    else WithoutNewlines(s[..|s| - 1]) + (if s[|s| - 1] == '\n' then [] else [s[|s| - 1]])
  }

  /** After step 1 no three newlines follow each other, and everything
      except newlines is kept, in order. */
  lemma {:induction false} CollapseNewlinesSpec(s: string)
    ensures NoTripleNewline(CollapseNewlines(s))
    ensures WithoutNewlines(CollapseNewlines(s)) == WithoutNewlines(s)
  {
    if s != [] {
      var front := s[..|s| - 1];
      CollapseNewlinesSpec(front);
      var o := CollapseNewlines(front);
      var c := s[|s| - 1];
      if !(c == '\n' && EndsWithBlankLine(o)) {
        var r := o + [c];
        assert r[..|r| - 1] == o;
        assert NoTripleNewline(r) by {
          forall i: nat | i + 2 < |r|
            ensures !TripleAt(r, i)
          {
            if i + 2 < |o| {
              assert !TripleAt(o, i);
              assert r[i] == o[i] && r[i + 1] == o[i + 1] && r[i + 2] == o[i + 2];
            }
          }
        }
      }
    }
  }

  /** Text without a run of three newlines passes step 1 unchanged; in
      particular step 1 is idempotent. */
  lemma {:induction false} CollapseNewlinesKeeps(s: string)
    requires NoTripleNewline(s)
    ensures CollapseNewlines(s) == s
  {
    if s != [] {
      var front := s[..|s| - 1];
      var c := s[|s| - 1];
      NoTripleNewlineFront(s);
      CollapseNewlinesKeeps(front);
      var kept := !(c == '\n' && EndsWithBlankLine(front));
      NoTripleNewlineLast(s);
      CollapseNewlinesLast(s, kept);
      assert front + [c] == s;
    }
  }

  /** One step of step 1: the last character is kept when it does not
      make a third newline. */
  lemma CollapseNewlinesLast(s: string, kept: bool)
    requires s != [] && kept == !(s[|s| - 1] == '\n' && EndsWithBlankLine(CollapseNewlines(s[..|s| - 1])))
    ensures kept ==> CollapseNewlines(s) == CollapseNewlines(s[..|s| - 1]) + [s[|s| - 1]]
  {
  }

  lemma NoTripleNewlineLast(s: string)
    requires s != [] && NoTripleNewline(s)
    ensures !(s[|s| - 1] == '\n' && EndsWithBlankLine(s[..|s| - 1]))
  {
    if |s| >= 3 {
      assert !TripleAt(s, |s| - 3);
    }
  }

  lemma NoTripleNewlineFront(s: string)
    requires s != [] && NoTripleNewline(s)
    ensures NoTripleNewline(s[..|s| - 1])
  {
    var front := s[..|s| - 1];
    forall i: nat | i + 2 < |front|
      ensures !TripleAt(front, i)
    {
      assert !TripleAt(s, i);
    }
  }

  lemma CollapseNewlinesIdempotent(s: string)
    ensures CollapseNewlines(CollapseNewlines(s)) == CollapseNewlines(s)
  {
    CollapseNewlinesSpec(s);
    CollapseNewlinesKeeps(CollapseNewlines(s));
  }

  /** A run of `k` newlines. */
  function Newlines(k: nat): (r: string)
    ensures |r| == k && forall i :: 0 <= i < k ==> r[i] == '\n'
  {
    if k == 0 then [] else Newlines(k - 1) + "\n"
  }

  /** Text that is empty or does not end in a newline. */
  predicate EndsOutsideRun(s: string) {
    s == [] || s[|s| - 1] != '\n'
  }

  /** A run collapses to two newlines when it is three or more long, and is
      kept when it is shorter. */
  lemma {:induction false} CollapseRun(k: nat)
    ensures CollapseNewlines(Newlines(k)) == Newlines(if k < 2 then k else 2)
  {
    if k > 0 {
      CollapseRun(k - 1);
      var m := if k - 1 < 2 then k - 1 else 2;
      assert Newlines(k)[..k - 1] == Newlines(k - 1) && Newlines(k)[k - 1] == '\n';
      assert EndsWithBlankLine(Newlines(m)) <==> m == 2;
    }
  }

  /** A character other than a newline is always kept, so the output ends
      outside a run exactly when the input does. */
  lemma CollapseEndsOutsideRun(s: string)
    requires EndsOutsideRun(s)
    ensures EndsOutsideRun(CollapseNewlines(s))
  {
  }

  /** Step 1 works on the two sides of a point outside a run independently. */
  lemma {:induction false} CollapseAppend(s: string, t: string)
    requires EndsOutsideRun(s)
    ensures CollapseNewlines(s + t) == CollapseNewlines(s) + CollapseNewlines(t)
  {
    if t != [] {
      var t' := t[..|t| - 1];
      var c := t[|t| - 1];
      assert (s + t)[..|s + t| - 1] == s + t';
      CollapseAppend(s, t');
      var x := CollapseNewlines(t');
      var o := CollapseNewlines(s) + x;
      CollapseEndsOutsideRun(s);
      BlankLineAfterRun(CollapseNewlines(s), x);
      assert t[..|t| - 1] == t';
      assert CollapseNewlines(s + t) == if c == '\n' && EndsWithBlankLine(o) then o else o + [c];
      assert o + [c] == CollapseNewlines(s) + (x + [c]);
    } else {
      assert s + t == s;
    }
  }

  /** Whether text ends in a blank line does not depend on what precedes
      it outside a run. */
  lemma BlankLineAfterRun(p: string, x: string)
    requires EndsOutsideRun(p)
    ensures EndsWithBlankLine(p + x) == EndsWithBlankLine(x)
  {
    if |x| >= 2 {
      assert (p + x)[|p + x| - 1] == x[|x| - 1] && (p + x)[|p + x| - 2] == x[|x| - 2];
    }
  }

  /** Each maximal run of `k` newlines becomes `min(k, 2)` newlines, and
      the text on either side of it is collapsed on its own. */
  lemma CollapseNewlinesRun(a: string, k: nat, b: string)
    requires EndsOutsideRun(a)
    requires b == [] || b[0] != '\n'
    ensures CollapseNewlines(a + Newlines(k) + b)
         == CollapseNewlines(a) + Newlines(if k < 2 then k else 2) + CollapseNewlines(b)
  {
    assert a + Newlines(k) + b == a + (Newlines(k) + b);
    CollapseAppend(a, Newlines(k) + b);
    CollapseRunBefore(k, b);
  }

  /** A run followed by text that does not start with a newline. */
  lemma CollapseRunBefore(k: nat, b: string)
    requires b == [] || b[0] != '\n'
    ensures CollapseNewlines(Newlines(k) + b) == Newlines(if k < 2 then k else 2) + CollapseNewlines(b)
  {
    CollapseRun(k);
    if b == [] {
      assert Newlines(k) + b == Newlines(k);
    } else {
      CollapseAppendBefore(Newlines(k), b);
    }
  }

  /** A character other than a newline that starts the text starts its
      collapsed form too. */
  lemma {:induction false} CollapseFirst(t: string)
    requires t != [] && t[0] != '\n'
    ensures CollapseNewlines(t) != [] && CollapseNewlines(t)[0] == t[0]
  {
    if |t| > 1 {
      var t' := t[..|t| - 1];
      CollapseFirst(t');
    } else {
      assert t[..0] == [];
    }
  }

  lemma BlankLineAfterChar(p: string, x: string)
    requires x != [] && x[0] != '\n'
    ensures EndsWithBlankLine(p + x) == EndsWithBlankLine(x)
  {
    if |x| >= 2 {
      assert (p + x)[|p + x| - 1] == x[|x| - 1] && (p + x)[|p + x| - 2] == x[|x| - 2];
    }
  }

  /** Step 1 works on the two sides of a point before a character other
      than a newline independently. */
  lemma {:induction false} CollapseAppendBefore(s: string, t: string)
    requires t != [] && t[0] != '\n'
    ensures CollapseNewlines(s + t) == CollapseNewlines(s) + CollapseNewlines(t)
  {
    var c := t[|t| - 1];
    assert (s + t)[..|s + t| - 1] == s + t[..|t| - 1];
    if |t| == 1 {
      assert t[..0] == [] && s + [] == s;
    } else {
      var t' := t[..|t| - 1];
      CollapseAppendBefore(s, t');
      var x := CollapseNewlines(t');
      CollapseFirst(t');
      BlankLineAfterChar(CollapseNewlines(s), x);
      assert (CollapseNewlines(s) + x) + [c] == CollapseNewlines(s) + (x + [c]);
    }
  }

  // ---------------------------------------------------------------------
  // Step 2: `_replace_tag_brackets`

  /** A match of `<(\w+)([^>]*)/>` at the start of `s`: the index of its
      `>`. `[^>]*` runs to the first `>`, which must follow a `/`. */
  function SelfClosingEnd(s: string): (r: Option<nat>)
    ensures r.Some? ==> 3 <= r.value < |s| && s[r.value] == '>' && s[r.value - 1] == '/'
  {
    if |s| >= 2 && s[0] == '<' && IsWord(s[1]) then
      var j := IndexFrom(s, '>', 1);
      if j.Some? && j.value >= 3 && s[j.value - 1] == '/' then j else None
    else None
  }

  /** `re.sub(r"<(\w+)([^>]*)/>", r"[\1\2/]", text)`. */
  function SelfClosingTags(s: string): (r: string)
    ensures |r| == |s|
    decreases |s|
  {
    if s == [] then []
    else match SelfClosingEnd(s)
      case Some(j) => "[" + s[1..j] + "]" + SelfClosingTags(s[j + 1..])
      case None => [s[0]] + SelfClosingTags(s[1..])
  }

  function Closing(name: string): string {
    "</" + name + ">"
  }

  /** Tries `</\1>` for the names `s[1..1 + n]`, longest first, as the
      engine backtracks `\w+`; the body `(.*?)` is lazy, so the first
      closing tag after the opening tag's `>` at `j` ends the match. */
  function TryNames(s: string, j: nat, n: nat): (r: Option<(nat, nat, nat)>)
    requires 1 + n <= j < |s|
    ensures r.Some? ==> var (m, j', k) := r.value;
      1 <= m <= n && j' == j && j < k && k + m + 3 <= |s|
    decreases n
  {
    if n == 0 then None
    else match Find(s, Closing(s[1..1 + n]), j + 1)
      case Some(k) => Some((n, j, k))
      case None => TryNames(s, j, n - 1)
  }

  /** A match of `<(\w+)([^>]*)>(.*?)</\1>` at the start of `s`: the name
      length, the index of the opening tag's `>` and the index where the
      closing tag starts. */
  function PairedMatch(s: string): (r: Option<(nat, nat, nat)>)
    ensures r.Some? ==> var (n, j, k) := r.value;
      1 <= n && 1 + n <= j < k && k + n + 3 <= |s|
  {
    if |s| >= 2 && s[0] == '<' && IsWord(s[1]) then
      var w := WordEnd(s, 1);
      var j := IndexFrom(s, '>', w);
      if j.Some? then TryNames(s, j.value, w - 1) else None
    else None
  }

  /** `_replace_tag_brackets(text)`: the self-closing pass, then the paired
      pass, which processes each tag body recursively. */
  function TagBrackets(s: string): string
    decreases |s|, 3
  {
    PairedTags(SelfClosingTags(s))
  }

  /** `[\1\2]` + the processed body + `[/\1]`. */
  function PairedReplacement(s: string, n: nat, j: nat, k: nat): string
    requires 1 + n <= j < k <= |s|
    decreases |s|, 0
  {
    "[" + s[1..j] + "]" + TagBrackets(s[j + 1..k]) + "[/" + s[1..1 + n] + "]"
  }

  /** The paired-tag `re.sub`. */
  function PairedTags(s: string): string
    decreases |s|, 2
  {
    if s == [] then [] else PairedTagsAt(s, PairedMatch(s))
  }

  /** The paired-tag `re.sub` at a position where the pattern matches as
      `m` says: the replacement and a scan of what follows the match, or one
      character kept when it does not match. */
  function PairedTagsAt(s: string, m: Option<(nat, nat, nat)>): string
    requires s != []
    requires m.Some? ==> 1 + m.value.0 <= m.value.1 < m.value.2 && m.value.2 + m.value.0 + 3 <= |s|
    decreases |s|, 1
  {
    if m.Some? then
      PairedReplacement(s, m.value.0, m.value.1, m.value.2) + PairedTags(s[m.value.2 + m.value.0 + 3..])
    else [s[0]] + PairedTags(s[1..])
  }

  predicate AllWord(s: string) {
    forall i :: 0 <= i < |s| ==> IsWord(s[i])
  }

  /** `<name attrs/>` becomes `[name attrs/]`. */
  lemma SelfClosingTag(name: string, attrs: string, rest: string)
    requires |name| >= 1 && AllWord(name) && '>' !in attrs
    ensures SelfClosingTags("<" + name + attrs + "/>" + rest) == "[" + name + attrs + "/]" + SelfClosingTags(rest)
  {
    var s := "<" + name + attrs + "/>" + rest;
    var j := |name| + |attrs| + 2;
    assert s[j] == '>' && s[j - 1] == '/' && s[1] == name[0];
    forall k | 1 <= k < j
      ensures s[k] != '>'
    {
      if k <= |name| {
        assert s[k] == name[k - 1];
      } else if k < j - 1 {
        assert s[k] == attrs[k - 1 - |name|];
      }
    }
    IndexFromAt(s, '>', 1, j);
    assert s[1..j] == name + attrs + "/";
    assert s[j + 1..] == rest;
  }

  /** No `</t>` starts inside the body `x`. */
  predicate NoClosingIn(x: string, t: string) {
    forall i :: 0 <= i < |x| ==> !IsAt(x + Closing(t), Closing(t), i)
  }

  /** `<t a>x</t>` becomes `[t a]x'[/t]`, with `x'` the body processed by
      the same two passes, when `a` does not extend the name, holds no `>`,
      and the body holds no `</t>`. */
  lemma PairedTag(t: string, a: string, x: string, rest: string)
    requires |t| >= 1 && AllWord(t) && '>' !in a && (a == [] || !IsWord(a[0]))
    requires NoClosingIn(x, t)
    ensures PairedTags("<" + t + a + ">" + x + Closing(t) + rest)
         == "[" + t + a + "]" + TagBrackets(x) + "[/" + t + "]" + PairedTags(rest)
  {
    var s := "<" + t + a + ">" + x + Closing(t) + rest;
    var j := 1 + |t| + |a|;
    var k := j + 1 + |x|;
    PairedSlices(t, a, x, rest, s, j, k);
    PairedMatchAt(t, a, x, rest, s, j, k);
    MatchFromFacts(s, t, j, k);
    PairedTagAt(t, a, x, rest, s, j, k);
  }

  lemma PairedMatchAt(t: string, a: string, x: string, rest: string, s: string, j: nat, k: nat)
    requires |t| >= 1 && AllWord(t) && '>' !in a && (a == [] || !IsWord(a[0]))
    requires NoClosingIn(x, t)
    requires PairedLayout(t, a, x, rest, s, j, k)
    ensures |s| >= 2 && s[0] == '<' && IsWord(s[1])
    ensures WordEnd(s, 1) == 1 + |t| && IndexFrom(s, '>', 1 + |t|) == Some(j)
    ensures s[1..1 + |t|] == t
    ensures Find(s, Closing(t), j + 1) == Some(k)
  {
    OpeningTag(t, a, s, j);
    ClosingTag(t, x, s, j, k);
  }

  /** The facts `PairedMatch` reads, put together. */
  lemma MatchFromFacts(s: string, t: string, j: nat, k: nat)
    requires |s| >= 2 && s[0] == '<' && IsWord(s[1]) && 1 <= |t| && 1 + |t| <= j < |s|
    requires WordEnd(s, 1) == 1 + |t| && IndexFrom(s, '>', 1 + |t|) == Some(j)
    requires s[1..1 + |t|] == t && Find(s, Closing(t), j + 1) == Some(k)
    ensures PairedMatch(s) == Some((|t|, j, k))
  {
    ClosingOfName(s, t);
    TryFirstName(s, j, |t|, k);
    PairedMatchFrom(s, |t|, j, k);
  }

  lemma ClosingOfName(s: string, t: string)
    requires 1 + |t| <= |s| && s[1..1 + |t|] == t
    ensures Closing(s[1..1 + |t|]) == Closing(t)
  {
  }

  /** Where the parts of `<t a>x</t>rest` sit. */
  predicate PairedLayout(t: string, a: string, x: string, rest: string, s: string, j: nat, k: nat) {
    && j == 1 + |t| + |a| && k == j + 1 + |x| && k + |t| + 3 <= |s| && s[0] == '<' && s[j] == '>'
    && s[1..1 + |t|] == t && s[1 + |t|..j] == a && s[1..j] == t + a
    && s[j + 1..k] == x && s[k..k + |t| + 3] == Closing(t) && s[k + |t| + 3..] == rest
  }

  lemma PairedSlices(t: string, a: string, x: string, rest: string, s: string, j: nat, k: nat)
    requires s == "<" + t + a + ">" + x + Closing(t) + rest
    requires j == 1 + |t| + |a| && k == j + 1 + |x|
    ensures PairedLayout(t, a, x, rest, s, j, k)
  {
  }

  lemma PairedTagAt(t: string, a: string, x: string, rest: string, s: string, j: nat, k: nat)
    requires 1 + |t| <= j < k && k + |t| + 3 <= |s|
    requires s[1..j] == t + a && s[j + 1..k] == x && s[1..1 + |t|] == t && s[k + |t| + 3..] == rest
    requires PairedMatch(s) == Some((|t|, j, k))
    ensures PairedTags(s) == "[" + t + a + "]" + TagBrackets(x) + "[/" + t + "]" + PairedTags(rest)
  {
    UnfoldPaired(s, |t|, j, k);
    ReplacementAt(t, a, x, s, j, k);
  }

  lemma ReplacementAt(t: string, a: string, x: string, s: string, j: nat, k: nat)
    requires 1 + |t| <= j < k <= |s|
    requires s[1..j] == t + a && s[j + 1..k] == x && s[1..1 + |t|] == t
    ensures PairedReplacement(s, |t|, j, k) == "[" + t + a + "]" + TagBrackets(x) + "[/" + t + "]"
  {
    assert "[" + (t + a) + "]" == "[" + t + a + "]";
  }

  lemma UnfoldPaired(s: string, n: nat, j: nat, k: nat)
    requires PairedMatch(s) == Some((n, j, k))
    ensures 1 + n <= j < k && k + n + 3 <= |s|
    ensures PairedTags(s) == PairedReplacement(s, n, j, k) + PairedTags(s[k + n + 3..])
  {
    assert PairedTags(s) == PairedTagsAt(s, Some((n, j, k)));
  }

  /** In `<t a>…`, the name runs to the end of `t` and the opening tag ends
      at the first `>`. */
  lemma OpeningTag(t: string, a: string, s: string, j: nat)
    requires |t| >= 1 && AllWord(t) && '>' !in a && (a == [] || !IsWord(a[0]))
    requires j == 1 + |t| + |a| && j < |s| && s[0] == '<' && s[j] == '>'
    requires s[1..1 + |t|] == t && s[1 + |t|..j] == a
    ensures |s| >= 2 && IsWord(s[1])
    ensures WordEnd(s, 1) == 1 + |t|
    ensures IndexFrom(s, '>', 1 + |t|) == Some(j)
  {
    assert forall i :: 1 <= i < 1 + |t| ==> s[i] == t[i - 1];
    assert forall i :: 1 + |t| <= i < 1 + |t| + |a| ==> s[i] == a[i - 1 - |t|];
    assert s[1] == t[0];
    assert !IsWord(s[1 + |t|]) by {
      if a != [] {
        assert s[1 + |t|] == a[0];
      }
    }
    forall i | 1 + |t| <= i < 1 + |t| + |a|
      ensures s[i] != '>'
    {
      assert a[i - 1 - |t|] in a;
    }
    WordEndAt(s, 1, 1 + |t|);
    IndexFromAt(s, '>', 1 + |t|, j);
  }

  /** After the opening tag, the lazy body stops at the first `</t>`. */
  lemma ClosingTag(t: string, x: string, s: string, j: nat, k: nat)
    requires NoClosingIn(x, t)
    requires k == j + 1 + |x| && k + |t| + 3 <= |s|
    requires s[j + 1..k] == x && s[k..k + |t| + 3] == Closing(t)
    ensures Find(s, Closing(t), j + 1) == Some(k)
  {
    var c := Closing(t);
    assert |c| == |t| + 3;
    var u := s[j + 1..k + |c|];
    assert u == s[j + 1..k] + s[k..k + |c|];
    assert u == x + c;
    assert IsAt(s, c, k);
    forall i | j + 1 <= i < k ensures !IsAt(s, c, i) {
      var i' := i - j - 1;
      assert !IsAt(x + c, c, i');
      ShiftedIsAt(s, u, j + 1, c, i');
    }
    FindAt(s, c, j + 1, k);
  }

  /** A match inside a slice of `s` is a match in `s`, shifted by the
      slice's start, and the other way round. */
  lemma ShiftedIsAt(s: string, u: string, off: nat, p: string, i: nat)
    requires off + |u| <= |s| && s[off..off + |u|] == u
    requires i + |p| <= |u|
    ensures IsAt(s, p, off + i) <==> IsAt(u, p, i)
  {
    forall m | i <= m < i + |p| ensures s[off + m] == u[m] {
      assert u[m] == s[off..off + |u|][m];
    }
    assert s[off + i..off + i + |p|] == u[i..i + |p|];
  }

  lemma TryFirstName(s: string, j: nat, n: nat, k: nat)
    requires 1 <= n && 1 + n <= j < |s|
    requires Find(s, Closing(s[1..1 + n]), j + 1) == Some(k)
    ensures TryNames(s, j, n) == Some((n, j, k))
  {
  }

  lemma PairedMatchFrom(s: string, n: nat, j: nat, k: nat)
    requires |s| >= 2 && s[0] == '<' && IsWord(s[1])
    requires WordEnd(s, 1) == n + 1 && IndexFrom(s, '>', n + 1) == Some(j) && 1 + n <= j < |s|
    requires TryNames(s, j, n) == Some((n, j, k))
    ensures PairedMatch(s) == Some((n, j, k))
  {
  }

  /** Text without `<` passes step 2 unchanged. */
  lemma {:induction false} NoTagsUnchanged(s: string)
    requires '<' !in s
    ensures SelfClosingTags(s) == s && PairedTags(s) == s && TagBrackets(s) == s
  {
    if s != [] {
      assert s[0] != '<';
      assert s[1..] == s[1..];
      NoTagsUnchanged(s[1..]);
      assert [s[0]] + s[1..] == s;
    }
  }

  // ---------------------------------------------------------------------
  // Step 3: `re.sub(r"^(#{1,})\s*(.+)$", r"<u>\2</u>", content, flags=re.MULTILINE)`

  /** The largest `p` with `lo <= p < hi` and `s[p]` not a newline. */
  function LastNonNewline(s: string, lo: nat, hi: nat): (r: Option<nat>)
    requires lo <= hi <= |s|
    ensures r.Some? ==> lo <= r.value < hi && s[r.value] != '\n'
    decreases hi - lo
  {
    if hi == lo then None
    else if s[hi - 1] != '\n' then Some(hi - 1)
    else LastNonNewline(s, lo, hi - 1)
  }

  /** A match at the start `s` of a line: the bounds of group 2. `#{1,}` and
      `\s*` are greedy and `\s` also matches newlines; when nothing is left
      for `.+`, the engine gives back whitespace, and then a `#`. */
  function HeadingMatch(s: string): (r: Option<(nat, nat)>)
    ensures r.Some? ==> r.value.0 < r.value.1 <= |s|
    ensures r.Some? ==> r.value.1 == |s| || s[r.value.1] == '\n'
  {
    if s != [] && s[0] == '#' then
      var h := HashEnd(s, 0);
      var w := SpaceEnd(s, h);
      if w < |s| then
        assert s[w] != '\n';
        Some((w, LineEnd(s, w)))
      else
        match LastNonNewline(s, h, w)
        case Some(p) => Some((p, LineEnd(s, p)))
        case None => if h >= 2 then Some((h - 1, LineEnd(s, h - 1))) else None
    else None
  }

  /** The heading text of a match is the rest of its line: it holds no
      newline and runs up to the next newline or the end. */
  lemma HeadingMatchSpec(s: string)
    requires HeadingMatch(s).Some?
    ensures forall k :: HeadingMatch(s).value.0 <= k < HeadingMatch(s).value.1 ==> s[k] != '\n'
  {
    LineEndSpec(s, HeadingMatch(s).value.0);
  }

  /** The heading `re.sub`: `atLineStart` says whether `^` matches at the
      start of `s`. */
  function Headings(s: string, atLineStart: bool): string
    decreases |s|
  {
    if s == [] then []
    else if atLineStart && HeadingMatch(s).Some? then
      var (g, e) := HeadingMatch(s).value;
      "<u>" + s[g..e] + "</u>" + Headings(s[e..], false)
    else [s[0]] + Headings(s[1..], s[0] == '\n')
  }

  function Hashes(n: nat): (r: string)
    ensures |r| == n && forall i :: 0 <= i < n ==> r[i] == '#'
  {
    seq(n, _ => '#')
  }

  predicate AllSpace(s: string) {
    forall i :: 0 <= i < |s| ==> IsSpace(s[i])
  }

  /** A line of one or more `#`, whitespace, and a heading text becomes the
      text between `<u>` and `</u>`. */
  lemma HeadingLine(n: nat, ws: string, text: string, rest: string)
    requires n >= 1 && AllSpace(ws)
    requires text != [] && !IsSpace(text[0]) && text[0] != '#' && '\n' !in text
    requires rest == [] || rest[0] == '\n'
    ensures Headings(Hashes(n) + ws + text + rest, true) == "<u>" + text + "</u>" + Headings(rest, false)
  {
    HeadingLineMatch(n, ws, text, rest);
  }

  /** The heading pattern matches such a line from its hashes to the end
      of its text. */
  lemma HeadingLineMatch(n: nat, ws: string, text: string, rest: string)
    requires n >= 1 && AllSpace(ws)
    requires text != [] && !IsSpace(text[0]) && text[0] != '#' && '\n' !in text
    requires rest == [] || rest[0] == '\n'
    ensures var s := Hashes(n) + ws + text + rest;
      var w := n + |ws|;
      var e := w + |text|;
      && e <= |s| && HeadingMatch(s) == Some((w, e)) && s[w..e] == text && s[e..] == rest
  {
    var s := Hashes(n) + ws + text + rest;
    var w := n + |ws|;
    var e := w + |text|;
    assert forall k :: 0 <= k < n ==> s[k] == '#';
    assert forall k :: n <= k < w ==> s[k] == ws[k - n];
    assert forall k :: w <= k < e ==> s[k] == text[k - w];
    assert s[n] != '#' by {
      if ws == [] {
        assert s[n] == text[0];
      } else {
        assert s[n] == ws[0] && IsSpace(ws[0]);
      }
    }
    HashEndAt(s, 0, n);
    assert s[w] == text[0];
    SpaceEndAt(s, n, w);
    assert e < |s| ==> s[e] == rest[0];
    LineEndAt(s, w, e);
    assert s[w..e] == text;
    assert s[e..] == rest;
  }

  /** Text without `#` passes step 3 unchanged. */
  lemma {:induction false} NoHeadingsUnchanged(s: string, atLineStart: bool)
    requires '#' !in s
    ensures Headings(s, atLineStart) == s
  {
    if s != [] {
      assert s[0] != '#';
      NoHeadingsUnchanged(s[1..], s[0] == '\n');
      assert [s[0]] + s[1..] == s;
    }
  }

  // ---------------------------------------------------------------------
  // Step 4: spaces around inline LaTeX

  /** A match of `\$[^$]+\$` at `from`: the index of its closing `$`. */
  function MathEnd(s: string, from: nat): (r: Option<nat>)
    ensures r.Some? ==> from + 2 <= r.value < |s| && s[from] == '$' && s[r.value] == '$'
  {
    if from < |s| && s[from] == '$' then
      var k := IndexFrom(s, '$', from + 1);
      if k.Some? && k.value >= from + 2 then k else None
    else None
  }

  /** `[^$]+`: no `$` between the two that delimit a span. */
  lemma MathEndSpec(s: string, from: nat)
    requires MathEnd(s, from).Some?
    ensures forall k :: from < k < MathEnd(s, from).value ==> s[k] != '$'
  {
    IndexFromSpec(s, '$', from + 1);
  }

  /** `re.sub(rf"([{_CJK}A-Za-z0-9])(\$[^$]+\$)", r"\1 \2", content)`. */
  function SpaceBeforeMath(s: string): string
    decreases |s|
  {
    if s == [] then []
    else if IsLatexNeighbour(s[0]) && MathEnd(s, 1).Some? then
      var k := MathEnd(s, 1).value;
      [s[0]] + " " + s[1..k + 1] + SpaceBeforeMath(s[k + 1..])
    else [s[0]] + SpaceBeforeMath(s[1..])
  }

  /** `re.sub(rf"(\$[^$]+\$)([{_CJK}A-Za-z0-9])", r"\1 \2", content)`. */
  function SpaceAfterMath(s: string): string
    decreases |s|
  {
    if s == [] then []
    else if MathEnd(s, 0).Some? && MathEnd(s, 0).value + 1 < |s| && IsLatexNeighbour(s[MathEnd(s, 0).value + 1]) then
      var k := MathEnd(s, 0).value;
      s[..k + 1] + " " + [s[k + 1]] + SpaceAfterMath(s[k + 2..])
    else [s[0]] + SpaceAfterMath(s[1..])
  }

  predicate IsMathBody(m: string) {
    m != [] && '$' !in m
  }

  lemma MathSpan(m: string, rest: string, from: nat, s: string)
    requires from <= |s| && IsMathBody(m) && s[from..] == "$" + m + "$" + rest
    ensures MathEnd(s, from) == Some(from + |m| + 1)
  {
    var k := from + |m| + 1;
    assert s[from] == '$' && s[k] == '$';
    forall i | from < i < k ensures s[i] != '$' {
      assert s[i] == m[i - from - 1];
    }
    IndexFromAt(s, '$', from + 1, k);
  }

  /** A letter, digit or CJK character right before `$m$` gets a space
      after it. */
  lemma SpaceBeforeMathSpan(c: char, m: string, rest: string)
    requires IsLatexNeighbour(c) && IsMathBody(m)
    ensures SpaceBeforeMath([c] + "$" + m + "$" + rest) == [c] + " $" + m + "$" + SpaceBeforeMath(rest)
  {
    var s := [c] + "$" + m + "$" + rest;
    assert s[1..] == "$" + m + "$" + rest;
    MathSpan(m, rest, 1, s);
    var k := |m| + 2;
    assert s[1..k + 1] == "$" + m + "$";
    assert s[k + 1..] == rest;
  }

  /** `$m$` right before a letter, digit or CJK character gets a space
      before that character. */
  lemma SpaceAfterMathSpan(m: string, c: char, rest: string)
    requires IsLatexNeighbour(c) && IsMathBody(m)
    ensures SpaceAfterMath("$" + m + "$" + [c] + rest) == "$" + m + "$ " + [c] + SpaceAfterMath(rest)
  {
    var s := "$" + m + "$" + [c] + rest;
    assert s[0..] == "$" + m + "$" + ([c] + rest);
    MathSpan(m, [c] + rest, 0, s);
    var k := |m| + 1;
    assert s[k + 1] == c;
    assert s[..k + 1] == "$" + m + "$";
    assert s[k + 2..] == rest;
  }

  // ---------------------------------------------------------------------
  // sanitize_markdown

  /** The five steps in order, ending with `strip()`. */
  function SanitizeMarkdown(content: string): (r: string)
    ensures IsStripped(r)
  {
    var s := CollapseNewlines(content);
    var s := TagBrackets(s);
    var s := Headings(s, true);
    var s := SpaceAfterMath(SpaceBeforeMath(s));
    Strip(s)
  }

  /** Plain text (no newline runs, tags, headings or `$`) is only
      stripped. */
  lemma PlainTextOnlyStripped(content: string)
    requires NoTripleNewline(content) && '<' !in content && '#' !in content && '$' !in content
    ensures SanitizeMarkdown(content) == Strip(content)
  {
    CollapseNewlinesKeeps(content);
    NoTagsUnchanged(content);
    NoHeadingsUnchanged(content, true);
    NoMathUnchanged(content);
  }

  lemma {:induction false} NoMathUnchanged(s: string)
    requires '$' !in s
    ensures SpaceBeforeMath(s) == s && SpaceAfterMath(s) == s
  {
    if s != [] {
      assert s[0] != '$';
      assert forall k :: 1 < k < |s| ==> s[k] in s;
      IndexFromAbsent(s, '$', 2);
      assert MathEnd(s, 1).None?;
      assert MathEnd(s, 0).None?;
      NoMathUnchanged(s[1..]);
      assert [s[0]] + s[1..] == s;
    }
  }

  // ---------------------------------------------------------------------
  // Citation

  /** What a knowledge search returns for one segment. */
  datatype Knowledge = Knowledge(segmentId: Option<string>, metadata: Metadata, content: Option<string>)
  /** The document metadata of a segment. A date is kept as its
      `%Y-%m-%d` text. */
  datatype Metadata = Metadata(id: Option<string>, title: Option<string>, sn: Option<string>,
                               date: Option<Date>, validFrom: Option<Date>, validTo: Option<Date>,
                               supersedes: Option<string>, localizes: Option<string>,
                               pubPath: Option<string>)
  datatype Date = Date(ymd: string)

  datatype CitationData = CitationData(id: Option<string>, docId: Option<string>, doc: Option<string>,
                                       content: Option<string>)

  /** A 1-tuple: what `text` returns. */
  datatype Single<T> = Single(item: T)

  /** `re.sub` on `None` content. */
  const NotAString := TypeError("expected string or bytes-like object, got 'NoneType'")

  /** `Citation.text`: the sanitised content, wrapped in a 1-tuple. */
  function TextOf(c: CitationData): (r: Result<Single<string>>)
    ensures c.content.None? <==> r.Err?
    ensures r.Ok? ==> IsStripped(r.value.item)
  {
    if c.content.None? then Err(NotAString) else Ok(Single(SanitizeMarkdown(c.content.value)))
  }

  /** `Citation.brief`: the sanitised first 100 characters, marked with
      `...` when the content was longer. */
  function Brief(c: CitationData): (r: Result<string>)
    ensures c.content.None? <==> r.Err?
    ensures r.Ok? ==> IsStripped(r.value)
  {
    if c.content.None? then Err(TypeError("object of type 'NoneType' has no len()"))
    else if |c.content.value| > 100 then Ok(SanitizeMarkdown(c.content.value[..100] + "..."))
    else Ok(SanitizeMarkdown(c.content.value))
  }

  /** A short content has the same brief as its full text. */
  lemma BriefOfShortIsText(c: CitationData)
    requires c.content.Some? && |c.content.value| <= 100
    ensures Brief(c) == Ok(TextOf(c).value.item)
  {
  }

  /** The brief of a long content depends on its first 100 characters
      only. */
  lemma BriefSeesPrefixOnly(c: CitationData, d: CitationData)
    requires c.content.Some? && d.content.Some?
    requires |c.content.value| > 100 && |d.content.value| > 100
    requires c.content.value[..100] == d.content.value[..100]
    ensures Brief(c) == Brief(d)
  {
  }

  /** A `Citation` instance. */
  class Citation {
    var id: Option<string>
    var docId: Option<string>
    var doc: Option<string>
    var content: Option<string>

    function Data(): CitationData
      reads this
    {
      CitationData(id, docId, doc, content)
    }

    /** `Citation()`: every field `None`. */
    constructor ()
      ensures Data() == CitationData(None, None, None, None)
    {
      id, docId, doc, content := None, None, None, None;
    }

    /** `from_knowledge`: copies the segment id, the document id and title
        and the content, and returns the object itself. */
    method FromKnowledge(k: Knowledge) returns (r: Citation)
      modifies this
      ensures r == this
      ensures Data() == CitationData(k.segmentId, k.metadata.id, k.metadata.title, k.content)
    {
      id := k.segmentId;
      docId := k.metadata.id;
      doc := k.metadata.title;
      content := k.content;
      r := this;
    }
  }

  /** The record `from_knowledge` leaves behind. */
  function FromKnowledge(k: Knowledge): CitationData {
    CitationData(k.segmentId, k.metadata.id, k.metadata.title, k.content)
  }
}
