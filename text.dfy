/**
 * Python string primitives used by the pipeline: the whitespace class shared
 * by `str.strip`, `str.split()` and the regular-expression class `\s`,
 * prefix and suffix tests, splitting on and joining with newlines, and the
 * decimal rendering of a natural number.
 */
module Text {

  /** Python's `str.isspace()` characters, which are also what `\s` matches in a
      `str` pattern and what `strip()` and `split()` remove. */
  predicate IsSpace(c: char) {
    ('\t' <= c <= '\r') || ('\U{1C}' <= c <= ' ') || c == '\U{85}' || c == '\U{A0}'
    || c == '\U{1680}' || ('\U{2000}' <= c <= '\U{200A}') || c == '\U{2028}' || c == '\U{2029}'
    || c == '\U{202F}' || c == '\U{205F}' || c == '\U{3000}'
  }

  predicate HasNonSpace(s: string) {
    exists k :: 0 <= k < |s| && !IsSpace(s[k])
  }

  predicate StartsWith(s: string, prefix: string) {
    |prefix| <= |s| && s[..|prefix|] == prefix
  }

  predicate EndsWith(s: string, suffix: string) {
    |suffix| <= |s| && s[|s| - |suffix|..] == suffix
  }

  /** `s.lstrip()`: the suffix of `s` left after dropping leading whitespace. */
  function LStrip(s: string): (r: string)
    ensures |r| <= |s|
    ensures forall k :: 0 <= k < |s| - |r| ==> IsSpace(s[k])
  {
    if |s| > 0 && IsSpace(s[0]) then LStrip(s[1..]) else s
  }

  /** What `lstrip()` leaves is a suffix of `s` that does not start with whitespace. */
  lemma {:induction false} LStripIsSuffix(s: string)
    ensures LStrip(s) == s[|s| - |LStrip(s)|..]
    ensures LStrip(s) == [] || !IsSpace(LStrip(s)[0])
    decreases |s|
  {
    if |s| > 0 && IsSpace(s[0]) {
      LStripIsSuffix(s[1..]);
      assert s[1..][|s| - 1 - |LStrip(s)|..] == s[|s| - |LStrip(s)|..];
    }
  }

  /** `s.rstrip()`: the prefix of `s` left after dropping trailing whitespace. */
  function RStrip(s: string): (r: string)
    ensures |r| <= |s|
    ensures forall k :: |r| <= k < |s| ==> IsSpace(s[k])
  {
    if |s| > 0 && IsSpace(s[|s| - 1]) then RStrip(s[..|s| - 1]) else s
  }

  /** What `rstrip()` leaves is a prefix of `s` that does not end with whitespace. */
  lemma {:induction false} RStripIsPrefix(s: string)
    ensures RStrip(s) == s[..|RStrip(s)|]
    ensures RStrip(s) == [] || !IsSpace(RStrip(s)[|RStrip(s)| - 1])
    decreases |s|
  {
    if |s| > 0 && IsSpace(s[|s| - 1]) {
      RStripIsPrefix(s[..|s| - 1]);
      assert s[..|s| - 1][..|RStrip(s)|] == s[..|RStrip(s)|];
    }
  }

  /** `s.strip()`. */
  function Strip(s: string): string {
    RStrip(LStrip(s))
  }

  /** `strip()` removes exactly the maximal whitespace border: what is left is the
      piece of `s` after its leading whitespace, it neither starts nor ends with
      whitespace, and everything cut away is whitespace. */
  lemma StripShape(s: string)
    ensures var i, r := |s| - |LStrip(s)|, Strip(s);
      i + |r| <= |s| && r == s[i..i + |r|]
      && (forall k :: 0 <= k < i ==> IsSpace(s[k]))
      && (forall k :: i + |r| <= k < |s| ==> IsSpace(s[k]))
    ensures Strip(s) == [] || (!IsSpace(Strip(s)[0]) && !IsSpace(Strip(s)[|Strip(s)| - 1]))
    ensures Strip(s) == [] <==> !HasNonSpace(s)
  {
    StripSlice(s);
    StripEnds(s);
    StripEmptyIff(s);
  }

  lemma StripEnds(s: string)
    ensures Strip(s) == [] || (!IsSpace(Strip(s)[0]) && !IsSpace(Strip(s)[|Strip(s)| - 1]))
  {
    var l := LStrip(s);
    var r := RStrip(l);
    LStripIsSuffix(s);
    RStripIsPrefix(l);
    if r != [] {
      assert r[0] == l[0];
    }
  }

  lemma StripEmptyIff(s: string)
    ensures Strip(s) == [] <==> !HasNonSpace(s)
  {
    var l := LStrip(s);
    var r := RStrip(l);
    var i := |s| - |l|;
    StripIsSlice(s);
    if r != [] {
      StripEnds(s);
      assert s[i] == r[0];
    }
    if HasNonSpace(s) {
      var k :| 0 <= k < |s| && !IsSpace(s[k]);
      assert k >= i;
      LStripIsSuffix(s);
      assert l[k - i] == s[k];
    }
  }

  lemma StripSlice(s: string)
    ensures var i, r := |s| - |LStrip(s)|, Strip(s);
      i + |r| <= |s| && r == s[i..i + |r|]
      && (forall k :: i + |r| <= k < |s| ==> IsSpace(s[k]))
  {
    StripIsSlice(s);
    StripTailIsSpace(s);
  }

  lemma StripIsSlice(s: string)
    ensures |s| - |LStrip(s)| + |Strip(s)| <= |s|
    ensures Strip(s) == s[|s| - |LStrip(s)|..|s| - |LStrip(s)| + |Strip(s)|]
  {
    var l := LStrip(s);
    var i := |s| - |l|;
    LStripIsSuffix(s);
    RStripIsPrefix(l);
    assert s[i..][..|RStrip(l)|] == s[i..i + |RStrip(l)|];
  }

  lemma StripTailIsSpace(s: string)
    ensures forall k :: |s| - |LStrip(s)| + |Strip(s)| <= k < |s| ==> IsSpace(s[k])
  {
    var l := LStrip(s);
    var i := |s| - |l|;
    var r := RStrip(l);
    LStripIsSuffix(s);
    forall k | i + |r| <= k < |s| ensures IsSpace(s[k]) { assert s[k] == l[k - i]; }
  }

  lemma StripOfUnpadded(s: string)
    requires s == [] || (!IsSpace(s[0]) && !IsSpace(s[|s| - 1]))
    ensures Strip(s) == s
  {
  }

  /** `strip()` is idempotent. */
  lemma StripIdempotent(s: string)
    ensures Strip(Strip(s)) == Strip(s)
  {
    StripShape(s);
    StripOfUnpadded(Strip(s));
  }

  /** A string holding a non-whitespace character does not strip to "". */
  lemma StripNonEmpty(s: string)
    requires HasNonSpace(s)
    ensures Strip(s) != []
  {
    StripShape(s);
  }

  /** No character of `s` is `c`. */
  predicate Lacks(s: string, c: char) {
    forall k :: 0 <= k < |s| ==> s[k] != c
  }

  /** Stripping adds no character; in particular it adds no newline. */
  lemma StripKeepsLacks(s: string, c: char)
    requires Lacks(s, c)
    ensures Lacks(Strip(s), c)
  {
    StripSlice(s);
    var i := |s| - |LStrip(s)|;
    var r := Strip(s);
    forall k | 0 <= k < |r| ensures r[k] != c { assert r[k] == s[i + k]; }
  }

  lemma {:induction false} LStripSpacePrefix(pre: string, x: string)
    requires !HasNonSpace(pre)
    ensures LStrip(pre + x) == LStrip(x)
    decreases |pre|
  {
    if pre != [] {
      assert IsSpace(pre[0]) && (pre + x)[0] == pre[0];
      assert (pre + x)[1..] == pre[1..] + x;
      assert !HasNonSpace(pre[1..]) by {
        forall k | 0 <= k < |pre[1..]| ensures IsSpace(pre[1..][k]) { assert pre[1..][k] == pre[k + 1]; }
      }
      LStripSpacePrefix(pre[1..], x);
      assert LStrip(pre + x) == LStrip((pre + x)[1..]);
    } else {
      assert pre + x == x;
    }
  }

  lemma {:induction false} LStripAppend(s: string, post: string)
    requires HasNonSpace(s)
    ensures LStrip(s + post) == LStrip(s) + post
    decreases |s|
  {
    if IsSpace(s[0]) {
      var k :| 0 <= k < |s| && !IsSpace(s[k]);
      assert k > 0 && s[1..][k - 1] == s[k];
      assert (s + post)[1..] == s[1..] + post;
      LStripAppend(s[1..], post);
    }
  }

  lemma {:induction false} RStripSpaceSuffix(x: string, post: string)
    requires !HasNonSpace(post)
    ensures RStrip(x + post) == RStrip(x)
    decreases |post|
  {
    if post != [] {
      var n := |post| - 1;
      assert IsSpace(post[n]) && (x + post)[|x + post| - 1] == post[n];
      assert (x + post)[..|x + post| - 1] == x + post[..n];
      assert !HasNonSpace(post[..n]) by {
        forall k | 0 <= k < n ensures IsSpace(post[..n][k]) { assert post[..n][k] == post[k]; }
      }
      RStripSpaceSuffix(x, post[..n]);
      assert RStrip(x + post) == RStrip((x + post)[..|x + post| - 1]);
    } else {
      assert x + post == x;
    }
  }

  lemma {:induction false} AllSpaceStrip(s: string)
    requires !HasNonSpace(s)
    decreases |s|
    ensures LStrip(s) == [] && Strip(s) == []
  {
    if s != [] {
      assert IsSpace(s[0]);
      AllSpaceStrip(s[1..]);
    }
  }

  /** Stripping ignores extra whitespace added at either end. */
  lemma StripPadded(pre: string, s: string, post: string)
    requires !HasNonSpace(pre) && !HasNonSpace(post)
    ensures Strip(pre + s + post) == Strip(s)
  {
    assert pre + s + post == pre + (s + post);
    LStripSpacePrefix(pre, s + post);
    if HasNonSpace(s) {
      LStripAppend(s, post);
      RStripSpaceSuffix(LStrip(s), post);
    } else {
      AllSpaceStrip(s);
      assert !HasNonSpace(s + post) by {
        forall k | 0 <= k < |s + post| ensures IsSpace((s + post)[k]) {
          if k < |s| { assert (s + post)[k] == s[k]; } else { assert (s + post)[k] == post[k - |s|]; }
        }
      }
      AllSpaceStrip(s + post);
    }
  }

  /** Index of the first `c` in `s` at or after `i`, or `|s|` when there is none. */
  function FirstIndexOf(s: string, c: char, i: nat): (r: nat)
    requires i <= |s|
    ensures i <= r <= |s|
    ensures forall k :: i <= k < r ==> s[k] != c
    ensures r < |s| ==> s[r] == c
    decreases |s| - i
  {
    if i == |s| || s[i] == c then i else FirstIndexOf(s, c, i + 1)
  }

  /** `s.split('\n')`: the pieces between newlines; always at least one. */
  function SplitLines(s: string): (r: seq<string>)
    ensures |r| >= 1
    ensures forall k :: 0 <= k < |r| ==> Lacks(r[k], '\n')
    decreases |s|
  {
    var n := FirstIndexOf(s, '\n', 0);
    if n == |s| then [s] else [s[..n]] + SplitLines(s[n + 1..])
  }

  /** `'\n'.join(xs)`. */
  function JoinLines(xs: seq<string>): string
  {
    if |xs| == 0 then "" else if |xs| == 1 then xs[0] else xs[0] + "\n" + JoinLines(xs[1..])
  }

  /** Splitting a join of newline-free pieces gives the pieces back. */
  lemma {:induction false} SplitJoinLines(xs: seq<string>)
    requires |xs| >= 1
    requires forall k :: 0 <= k < |xs| ==> Lacks(xs[k], '\n')
    ensures SplitLines(JoinLines(xs)) == xs
  {
    var s := JoinLines(xs);
    var n := FirstIndexOf(s, '\n', 0);
    if |xs| == 1 {
      assert n == |s|;
    } else {
      var rest := JoinLines(xs[1..]);
      assert s == xs[0] + "\n" + rest;
      assert s[|xs[0]|] == '\n';
      assert forall k :: 0 <= k < |xs[0]| ==> s[k] == xs[0][k];
      assert n == |xs[0]|;
      assert s[..n] == xs[0];
      assert s[n + 1..] == rest;
      SplitJoinLines(xs[1..]);
    }
  }

  /** The maximal run of non-whitespace characters of `s` starting at `i`. */
  function SpanNonSpace(s: string, i: nat): (r: nat)
    requires i <= |s|
    ensures i <= r <= |s|
    ensures forall k :: i <= k < r ==> !IsSpace(s[k])
    ensures r < |s| ==> IsSpace(s[r])
    decreases |s| - i
  {
    if i == |s| || IsSpace(s[i]) then i else SpanNonSpace(s, i + 1)
  }

  /** `s.split()` with no separator: the maximal runs of non-whitespace. */
  function Words(s: string): (r: seq<string>)
    ensures forall k :: 0 <= k < |r| ==> r[k] != [] && NoSpace(r[k])
    decreases |s|
  {
    var t := LStrip(s);
    if t == [] then []
    else
      var n := SpanNonSpace(t, 0);
      assert n > 0 by { LStripIsSuffix(s); }
      var w := t[..n];
      assert NoSpace(w) by {
        forall j | 0 <= j < n ensures !IsSpace(w[j]) { assert w[j] == t[j]; }
      }
      var rest := Words(t[n..]);
      assert forall k :: 0 <= k < |rest| ==> ([w] + rest)[k + 1] == rest[k];
      [w] + rest
  }

  /** `s` contains no whitespace character. */
  predicate NoSpace(s: string) {
    forall k :: 0 <= k < |s| ==> !IsSpace(s[k])
  }

  /** The characters of `s` that are not whitespace, in order. */
  function NonSpaceChars(s: string): string {
    if s == [] then [] else (if IsSpace(s[0]) then [] else [s[0]]) + NonSpaceChars(s[1..])
  }

  function Concat(ws: seq<string>): string {
    if ws == [] then [] else ws[0] + Concat(ws[1..])
  }

  /** The number of positions of `s` where a word starts: a non-whitespace
      character that is first or follows whitespace. `afterSpace` says whether
      what precedes `s` counts as whitespace. */
  function WordStarts(s: string, afterSpace: bool): nat {
    if s == [] then 0
    else (if afterSpace && !IsSpace(s[0]) then 1 else 0) + WordStarts(s[1..], IsSpace(s[0]))
  }

  /** `w` occurs in `s` at `p` with whitespace (or an end of `s`) on both sides. */
  predicate IsRunAt(s: string, w: string, p: nat) {
    p + |w| <= |s| && s[p..p + |w|] == w
    && (p == 0 || IsSpace(s[p - 1])) && (p + |w| == |s| || IsSpace(s[p + |w|]))
  }

  lemma {:induction false} NonSpaceCharsAppend(a: string, b: string)
    ensures NonSpaceChars(a + b) == NonSpaceChars(a) + NonSpaceChars(b)
    decreases |a|
  {
    if a != [] {
      assert (a + b)[0] == a[0] && (a + b)[1..] == a[1..] + b;
      NonSpaceCharsAppend(a[1..], b);
      assert NonSpaceChars(a + b) == (if IsSpace(a[0]) then [] else [a[0]]) + NonSpaceChars(a[1..] + b);
    } else {
      assert a + b == b;
    }
  }

  lemma {:induction false} NonSpaceCharsOfWord(w: string)
    requires NoSpace(w)
    ensures NonSpaceChars(w) == w
    decreases |w|
  {
    if w != [] {
      NonSpaceCharsOfWord(w[1..]);
      assert w == [w[0]] + w[1..];
    }
  }

  lemma {:induction false} LStripLosesOnlySpace(s: string)
    ensures NonSpaceChars(LStrip(s)) == NonSpaceChars(s)
    ensures WordStarts(LStrip(s), true) == WordStarts(s, true)
    decreases |s|
  {
    if |s| > 0 && IsSpace(s[0]) {
      LStripLosesOnlySpace(s[1..]);
    }
  }

  /** A nonempty whitespace-free prefix is one word start, wherever it begins. */
  lemma {:induction false} WordStartsOfWord(w: string, rest: string, afterSpace: bool)
    requires w != [] && NoSpace(w)
    ensures WordStarts(w + rest, afterSpace) == (if afterSpace then 1 else 0) + WordStarts(rest, false)
    decreases |w|
  {
    assert (w + rest)[1..] == w[1..] + rest;
    if |w| > 1 {
      WordStartsOfWord(w[1..], rest, false);
    }
  }

  /** The words of `s.split()` are runs of `s` bounded by whitespace, found
      at strictly increasing, non-overlapping positions `ps`. */
  lemma {:induction false} WordsAreRuns(s: string) returns (ps: seq<nat>)
    ensures |ps| == |Words(s)|
    ensures forall k :: 0 <= k < |ps| ==> IsRunAt(s, Words(s)[k], ps[k])
    ensures forall k :: 0 <= k < |ps| - 1 ==> ps[k] + |Words(s)[k]| < ps[k + 1]
    decreases |s|
  {
    if LStrip(s) != [] {
      var q, n := WordsStep(s);
      var rest := s[q + n..];
      var ps' := WordsAreRuns(rest);
      var qs := RunsShift(s, q + n, Words(rest), ps');
      ps := RunsCons(s, s[q..q + n], q, Words(rest), qs);
    } else {
      ps := [];
    }
  }

  /** A run followed by later runs gives the runs of the longer list. */
  lemma RunsCons(s: string, w: string, q: nat, ws: seq<string>, qs: seq<nat>) returns (ps: seq<nat>)
    requires IsRunAt(s, w, q) && |qs| == |ws|
    requires forall k :: 0 <= k < |ws| ==> q + |w| < qs[k] && IsRunAt(s, ws[k], qs[k])
    requires forall k :: 0 <= k < |ws| - 1 ==> qs[k] + |ws[k]| < qs[k + 1]
    ensures ps == [q] + qs
    ensures forall k :: 0 <= k < |ps| ==> IsRunAt(s, ([w] + ws)[k], ps[k])
    ensures forall k :: 0 <= k < |ps| - 1 ==> ps[k] + |([w] + ws)[k]| < ps[k + 1]
  {
    ps := [q] + qs;
    assert forall k :: 0 < k < |ps| ==> ([w] + ws)[k] == ws[k - 1] && ps[k] == qs[k - 1];
  }

  /** The first word of `s.split()` is the run at the first non-whitespace
      position `q`, of length `n`; the rest are the words after it. */
  lemma WordsStep(s: string) returns (q: nat, n: nat)
    requires LStrip(s) != []
    ensures n > 0 && q + n <= |s| && (q + n == |s| || IsSpace(s[q + n]))
    ensures IsRunAt(s, s[q..q + n], q)
    ensures Words(s) == [s[q..q + n]] + Words(s[q + n..])
  {
    var t := LStrip(s);
    LStripIsSuffix(s);
    n := SpanNonSpace(t, 0);
    q := |s| - |t|;
    assert s[q..q + n] == t[..n];
    assert t[n..] == s[q + n..];
  }

  /** Runs of the suffix `s[m..]`, which starts with whitespace, are runs of
      `s` found `m` positions further on. */
  lemma RunsShift(s: string, m: nat, ws: seq<string>, ps: seq<nat>) returns (qs: seq<nat>)
    requires m <= |s| && (m == |s| || IsSpace(s[m]))
    requires forall k :: 0 <= k < |ws| ==> ws[k] != [] && NoSpace(ws[k])
    requires |ps| == |ws| && forall k :: 0 <= k < |ws| ==> IsRunAt(s[m..], ws[k], ps[k])
    requires forall k :: 0 <= k < |ws| - 1 ==> ps[k] + |ws[k]| < ps[k + 1]
    ensures |qs| == |ws|
    ensures forall k :: 0 <= k < |ws| ==> qs[k] == m + ps[k] && qs[k] > m && IsRunAt(s, ws[k], qs[k])
    ensures forall k :: 0 <= k < |ws| - 1 ==> qs[k] + |ws[k]| < qs[k + 1]
  {
    qs := seq(|ps|, k requires 0 <= k < |ps| => m + ps[k]);
    forall k | 0 <= k < |ws|
      ensures qs[k] > m && IsRunAt(s, ws[k], qs[k])
    {
      RunShift(s, m, ws[k], ps[k]);
    }
  }

  /** A run of a suffix that starts with whitespace is a run of the whole string. */
  lemma RunShift(s: string, m: nat, v: string, p: nat)
    requires m <= |s| && (m == |s| || IsSpace(s[m]))
    requires v != [] && !IsSpace(v[0])
    requires IsRunAt(s[m..], v, p)
    ensures p > 0 && IsRunAt(s, v, m + p)
  {
    assert s[m..][p] == v[0];
    assert s[m + p - 1] == s[m..][p - 1];
    assert s[m + p..m + p + |v|] == s[m..][p..p + |v|];
    if m + p + |v| < |s| {
      assert s[m + p + |v|] == s[m..][p + |v|];
    }
  }

  /** Joined together the words of `s.split()` are the non-whitespace
      characters of `s`, in order; hence no character is lost or reordered. */
  lemma {:induction false} WordsConcat(s: string)
    ensures Concat(Words(s)) == NonSpaceChars(s)
    decreases |s|
  {
    var t := LStrip(s);
    LStripIsSuffix(s);
    LStripLosesOnlySpace(s);
    if t != [] {
      var n := SpanNonSpace(t, 0);
      var w := t[..n];
      var rest := t[n..];
      assert Words(s) == [w] + Words(rest);
      assert ([w] + Words(rest))[1..] == Words(rest);
      WordsConcat(rest);
      assert t == w + rest;
      NonSpaceCharsAppend(w, rest);
      NonSpaceCharsOfWord(w);
    }
  }

  /** `len(s.split())` is the number of word starts of `s`. */
  lemma {:induction false} WordsCount(s: string)
    ensures |Words(s)| == WordStarts(s, true)
    decreases |s|
  {
    var t := LStrip(s);
    LStripIsSuffix(s);
    LStripLosesOnlySpace(s);
    if t != [] {
      var n := SpanNonSpace(t, 0);
      var w := t[..n];
      var rest := t[n..];
      assert Words(s) == [w] + Words(rest);
      WordsCount(rest);
      assert t == w + rest;
      WordStartsOfWord(w, rest, true);
      assert rest == [] || IsSpace(rest[0]);
    }
  }

  function DigitChar(d: nat): (c: char)
    requires d < 10
    ensures c as int - '0' as int == d
  {
    ('0' as int + d) as char
  }

  /** The number a string of decimal digits denotes. */
  function DigitsValue(s: string): int {
    if s == [] then 0 else 10 * DigitsValue(s[..|s| - 1]) + (s[|s| - 1] as int - '0' as int)
  }

  /** Python's `str(n)` for a natural number: decimal digits denoting `n`,
      with no leading zero. */
  function NatToString(n: nat): (r: string)
    ensures |r| >= 1
    ensures forall k :: 0 <= k < |r| ==> '0' <= r[k] <= '9'
    ensures DigitsValue(r) == n
    ensures r[0] == '0' ==> n == 0
  {
    if n < 10 then [DigitChar(n)]
    else
      var r := NatToString(n / 10) + [DigitChar(n % 10)];
      assert r[..|r| - 1] == NatToString(n / 10);
      r
  }
}
