/**
 * The regular expressions of the fact extractor and of the Markdown writer,
 * each written as a scanner with Python `re` semantics: `findall` and `sub`
 * scan left to right and resume after each non-overlapping match; `search`
 * returns the first position at which the whole pattern matches, with greedy
 * and lazy quantifiers and their backtracking spelled out.
 */
module Patterns {
  import opened Wrappers
  import opened Text

  /** One match: up to two captured groups and the index just past the match. */
  datatype Match = Match(group1: string, group2: string, end: nat)

  /** The patterns used with `findall` and `sub`. */
  datatype Pattern =
    | ImageLink   // \[!\[([^\]]+)\]\([^\)]+\)\]\(([^\)]+)\)
    | TextLink    // (?<!!)\[([^\]]+)\]\(([^\)]+)\)
    | ImageRef    // !\[([^\]]+)\]\(([^\)]+)\)
    | Link        // \[([^\]]+)\]\([^\)]+\)
    | BoldLink    // \*\*\[([^\]]+)\]\([^\)]+\)\*\*
    | AnyImage    // !\[[^\]]*\]\([^\)]+\)
    | Bold        // \*\*([^\*]+)\*\*
    | Heading     // #+\s*
    | Divider     // ---+

  /** `t` occurs in `s` at index `k`. */
  predicate At(s: string, t: string, k: nat) {
    k + |t| <= |s| && s[k..k + |t|] == t
  }

  /** The maximal run of `c` in `s` starting at `i`. */
  function RunOf(s: string, i: nat, c: char): (r: nat)
    requires i <= |s|
    ensures i <= r <= |s|
    ensures forall k :: i <= k < r ==> s[k] == c
    ensures r < |s| ==> s[r] != c
    decreases |s| - i
  {
    if i == |s| || s[i] != c then i else RunOf(s, i + 1, c)
  }

  /** The maximal run of whitespace in `s` starting at `i` (greedy `\s*`). */
  function RunSpace(s: string, i: nat): (r: nat)
    requires i <= |s|
    ensures i <= r <= |s|
    ensures forall k :: i <= k < r ==> IsSpace(s[k])
    ensures r < |s| ==> !IsSpace(s[r])
    decreases |s| - i
  {
    if i == |s| || !IsSpace(s[i]) then i else RunSpace(s, i + 1)
  }

  /** `open([^close]+)close` at `j` (`*` instead of `+` when `allowEmpty`): the
      text between the delimiters and the index after the closing one. Because
      the class excludes the closing delimiter, the greedy run has only one way
      to succeed: it stops at the first closing delimiter. */
  function Delimited(s: string, j: nat, open: char, close: char, allowEmpty: bool): (r: Option<(string, nat)>)
    requires j <= |s|
    ensures r.Some? ==>
      && j + 2 <= r.value.1 <= |s| && s[j] == open && s[r.value.1 - 1] == close
      && r.value.0 == s[j + 1..r.value.1 - 1] && Lacks(r.value.0, close)
      && (allowEmpty || r.value.0 != [])
  {
    if j < |s| && s[j] == open then
      var e := FirstIndexOf(s, close, j + 1);
      if e < |s| && (allowEmpty || e > j + 1) then Some((s[j + 1..e], e + 1)) else None
    else None
  }

  /** The delimited match fails exactly when `j` holds no opening delimiter,
      no closing one follows, or (for `+`) the closing one comes at once. */
  lemma DelimitedFails(s: string, j: nat, open: char, close: char, allowEmpty: bool)
    requires j <= |s|
    ensures Delimited(s, j, open, close, allowEmpty).None? <==>
      || j == |s| || s[j] != open
      || (forall k :: j + 1 <= k < |s| ==> s[k] != close)
      || (!allowEmpty && j + 1 < |s| && s[j + 1] == close)
  {
    if j < |s| && s[j] == open {
      var e := FirstIndexOf(s, close, j + 1);
      if e == |s| {
        assert forall k :: j + 1 <= k < |s| ==> s[k] != close;
      }
    }
  }

  /** `\[([^\]]+)\]\(([^\)]+)\)` at `j`: link text and target. */
  function LinkAt(s: string, j: nat): (r: Option<Match>)
    requires j <= |s|
    ensures r.Some? ==> j < r.value.end <= |s| && s[j] == '['
  {
    match Delimited(s, j, '[', ']', false)
    case None => None
    case Some((text, e1)) =>
      match Delimited(s, e1, '(', ')', false)
      case None => None
      case Some((target, e2)) => Some(Match(text, target, e2))
  }

  /** The match of `p` starting exactly at index `i`, if any. */
  function MatchAt(p: Pattern, s: string, i: nat): (r: Option<Match>)
    requires i <= |s|
    ensures r.Some? ==> i < r.value.end <= |s|
  {
    match p
    case Link => LinkAt(s, i)
    case TextLink => if i > 0 && s[i - 1] == '!' then None else LinkAt(s, i)
    case ImageRef => if i < |s| && s[i] == '!' then LinkAt(s, i + 1) else None
    case ImageLink =>
      if i + 1 < |s| && s[i] == '[' && s[i + 1] == '!' then
        match LinkAt(s, i + 2)
        case None => None
        case Some(inner) =>
          if inner.end < |s| && s[inner.end] == ']' then
            match Delimited(s, inner.end + 1, '(', ')', false)
            case None => None
            case Some((url, e)) => Some(Match(inner.group1, url, e))
          else None
      else None
    case BoldLink =>
      if At(s, "**", i) then
        match LinkAt(s, i + 2)
        case None => None
        case Some(inner) => if At(s, "**", inner.end) then Some(Match(inner.group1, "", inner.end + 2)) else None
      else None
    case AnyImage =>
      if i < |s| && s[i] == '!' then
        match Delimited(s, i + 1, '[', ']', true)
        case None => None
        case Some((_, e1)) =>
          match Delimited(s, e1, '(', ')', false)
          case None => None
          case Some((_, e2)) => Some(Match("", "", e2))
      else None
    case Bold =>
      if At(s, "**", i) then
        var e := FirstIndexOf(s, '*', i + 2);
        if e > i + 2 && At(s, "**", e) then Some(Match(s[i + 2..e], "", e + 2)) else None
      else None
    case Heading =>
      if i < |s| && s[i] == '#' then Some(Match("", "", RunSpace(s, RunOf(s, i, '#')))) else None
    case Divider =>
      if At(s, "---", i) then Some(Match("", "", RunOf(s, i, '-'))) else None
  }

  /** Every hit of the table starts where it is found and ends within it. */
  predicate Advancing(t: seq<Option<Match>>) {
    forall q :: 0 <= q < |t| && t[q].Some? ==> q < t[q].value.end <= |t|
  }

  /** What `findall` and `sub` try at each index of `s`: the match of `p` there. */
  function Hits(p: Pattern, s: string): (t: seq<Option<Match>>)
    ensures |t| == |s| && Advancing(t)
  {
    seq(|s|, q requires 0 <= q < |s| => MatchAt(p, s, q))
  }

  lemma HitIs(p: Pattern, s: string, q: nat)
    requires q < |s|
    ensures Hits(p, s)[q] == MatchAt(p, s, q)
  {
  }

  /** The left-to-right scan of `re`: take the hit at the current index and
      resume just after it, or move one index on. */
  function Scan(t: seq<Option<Match>>, i: nat): (r: seq<Match>)
    requires Advancing(t) && i <= |t|
    ensures forall k :: 0 <= k < |r| ==> i < r[k].end <= |t|
    decreases |t| - i
  {
    if i == |t| then []
    else if t[i].Some? then [t[i].value] + Scan(t, t[i].value.end)
    else Scan(t, i + 1)
  }

  /** The indices at which `Scan` takes its matches. */
  function ScanStarts(t: seq<Option<Match>>, i: nat): seq<nat>
    requires Advancing(t) && i <= |t|
    decreases |t| - i
  {
    if i == |t| then []
    else if t[i].Some? then [i] + ScanStarts(t, t[i].value.end)
    else ScanStarts(t, i + 1)
  }

  /** `re.findall(p, s[i..])`, as the list of matches. */
  function FindAll(p: Pattern, s: string, i: nat): (r: seq<Match>)
    requires i <= |s|
    ensures forall k :: 0 <= k < |r| ==> i < r[k].end <= |s|
  {
    Scan(Hits(p, s), i)
  }

  /** The indices at which `FindAll` takes its matches. */
  function MatchStarts(p: Pattern, s: string, i: nat): seq<nat>
    requires i <= |s|
  {
    ScanStarts(Hits(p, s), i)
  }

  /** One start per match. */
  lemma {:induction false} ScanLength(t: seq<Option<Match>>, i: nat)
    requires Advancing(t) && i <= |t|
    ensures |ScanStarts(t, i)| == |Scan(t, i)|
    decreases |t| - i
  {
    if i < |t| {
      if t[i].Some? {
        ScanLength(t, t[i].value.end);
      } else {
        ScanLength(t, i + 1);
      }
    }
  }

  /** The k-th match of a scan is the hit at its k-th start. */
  lemma {:induction false} ScanAt(t: seq<Option<Match>>, i: nat, k: nat)
    requires Advancing(t) && i <= |t| && k < |Scan(t, i)|
    ensures |ScanStarts(t, i)| == |Scan(t, i)|
    ensures i <= ScanStarts(t, i)[k] < |t|
    ensures t[ScanStarts(t, i)[k]] == Some(Scan(t, i)[k])
    decreases |t| - i
  {
    ScanLength(t, i);
    if t[i].Some? {
      if k > 0 {
        ScanAt(t, t[i].value.end, k - 1);
      }
    } else {
      ScanAt(t, i + 1, k);
    }
  }

  /** Before the first start (or the end, with no match) there is no hit. */
  lemma {:induction false} ScanLeftmost(t: seq<Option<Match>>, i: nat, q: nat)
    requires Advancing(t) && i <= q < |t|
    requires |ScanStarts(t, i)| == 0 || q < ScanStarts(t, i)[0]
    ensures t[q].None?
    decreases |t| - i
  {
    if t[i].None? && i < q {
      ScanLeftmost(t, i + 1, q);
    }
  }

  /** A scan's matches do not overlap: the next start is no earlier than
      the end of the match before it. */
  lemma {:induction false} ScanNoOverlap(t: seq<Option<Match>>, i: nat, k: nat)
    requires Advancing(t) && i <= |t| && k + 1 < |Scan(t, i)|
    ensures |ScanStarts(t, i)| == |Scan(t, i)|
    ensures Scan(t, i)[k].end <= ScanStarts(t, i)[k + 1]
    decreases |t| - i
  {
    ScanLength(t, i);
    if t[i].Some? {
      var e := t[i].value.end;
      if k == 0 {
        ScanAt(t, e, 0);
      } else {
        ScanNoOverlap(t, e, k - 1);
      }
    } else {
      ScanNoOverlap(t, i + 1, k);
    }
  }

  /** After the k-th match a scan resumes at its end: there is no hit before
      the next start (or the end). */
  lemma {:induction false} ScanResumes(t: seq<Option<Match>>, i: nat, k: nat, q: nat)
    requires Advancing(t) && i <= |t| && k < |Scan(t, i)| && |ScanStarts(t, i)| == |Scan(t, i)|
    requires Scan(t, i)[k].end <= q < |t|
    requires k + 1 == |ScanStarts(t, i)| || q < ScanStarts(t, i)[k + 1]
    ensures t[q].None?
    decreases |t| - i
  {
    if t[i].Some? {
      var e := t[i].value.end;
      ScanLength(t, e);
      if k == 0 {
        ScanLeftmost(t, e, q);
      } else {
        ScanResumes(t, e, k - 1, q);
      }
    } else {
      ScanResumes(t, i + 1, k, q);
    }
  }

  /** No match of `p` starts at an index in `[a, b)`. */
  predicate NoMatchIn(p: Pattern, s: string, a: nat, b: nat) {
    forall q :: a <= q < b && q <= |s| ==> MatchAt(p, s, q).None?
  }

  /** `findall` takes its k-th match at its k-th start. */
  lemma FindAllAt(p: Pattern, s: string, i: nat)
    requires i <= |s|
    ensures |MatchStarts(p, s, i)| == |FindAll(p, s, i)|
    ensures forall k :: 0 <= k < |FindAll(p, s, i)| ==>
      i <= MatchStarts(p, s, i)[k] < |s| && MatchAt(p, s, MatchStarts(p, s, i)[k]) == Some(FindAll(p, s, i)[k])
  {
    var t := Hits(p, s);
    ScanLength(t, i);
    forall k | 0 <= k < |Scan(t, i)|
      ensures i <= ScanStarts(t, i)[k] < |s| && MatchAt(p, s, ScanStarts(t, i)[k]) == Some(Scan(t, i)[k])
    {
      ScanAt(t, i, k);
      HitIs(p, s, ScanStarts(t, i)[k]);
    }
  }

  /** The first match of `findall` is the leftmost one at or after `i`. */
  lemma FindAllLeftmost(p: Pattern, s: string, i: nat)
    requires i <= |s|
    ensures NoMatchIn(p, s, i, if |MatchStarts(p, s, i)| == 0 then |s| else MatchStarts(p, s, i)[0])
  {
    var t := Hits(p, s);
    ScanLength(t, i);
    if |Scan(t, i)| > 0 {
      ScanAt(t, i, 0);
    }
    forall q | i <= q < (if |ScanStarts(t, i)| == 0 then |s| else ScanStarts(t, i)[0]) && q <= |s|
      ensures MatchAt(p, s, q).None?
    {
      ScanLeftmost(t, i, q);
      HitIs(p, s, q);
    }
  }

  /** `findall`'s matches do not overlap. */
  lemma FindAllNoOverlap(p: Pattern, s: string, i: nat)
    requires i <= |s|
    ensures |MatchStarts(p, s, i)| == |FindAll(p, s, i)|
    ensures forall k :: 0 <= k < |FindAll(p, s, i)| - 1 ==> FindAll(p, s, i)[k].end <= MatchStarts(p, s, i)[k + 1]
  {
    var t := Hits(p, s);
    ScanLength(t, i);
    forall k | 0 <= k < |Scan(t, i)| - 1
      ensures Scan(t, i)[k].end <= ScanStarts(t, i)[k + 1]
    {
      ScanNoOverlap(t, i, k);
    }
  }

  /** After each match `findall` resumes at its end: no match starts between
      the end of one match and the start of the next (or the end of the text). */
  lemma FindAllResumes(p: Pattern, s: string, i: nat)
    requires i <= |s|
    ensures |MatchStarts(p, s, i)| == |FindAll(p, s, i)|
    ensures forall k :: 0 <= k < |FindAll(p, s, i)| ==>
      NoMatchIn(p, s, FindAll(p, s, i)[k].end, if k + 1 < |FindAll(p, s, i)| then MatchStarts(p, s, i)[k + 1] else |s|)
  {
    ScanLength(Hits(p, s), i);
    forall k | 0 <= k < |FindAll(p, s, i)|
      ensures NoMatchIn(p, s, FindAll(p, s, i)[k].end, if k + 1 < |FindAll(p, s, i)| then MatchStarts(p, s, i)[k + 1] else |s|)
    {
      FindAllGap(p, s, i, k);
    }
  }

  lemma FindAllGap(p: Pattern, s: string, i: nat, k: nat)
    requires i <= |s| && k < |FindAll(p, s, i)|
    ensures |MatchStarts(p, s, i)| == |FindAll(p, s, i)|
    ensures NoMatchIn(p, s, FindAll(p, s, i)[k].end, if k + 1 < |FindAll(p, s, i)| then MatchStarts(p, s, i)[k + 1] else |s|)
  {
    var t := Hits(p, s);
    var ms, st := Scan(t, i), ScanStarts(t, i);
    ScanLength(t, i);
    if k + 1 < |ms| {
      ScanAt(t, i, k + 1);
    }
    forall q | ms[k].end <= q < (if k + 1 < |ms| then st[k + 1] else |s|) && q <= |s|
      ensures MatchAt(p, s, q).None?
    {
      ScanResumes(t, i, k, q);
      HitIs(p, s, q);
    }
  }

  /** What `re.sub` puts in place of a match: `\1` or nothing. */
  function Replacement(p: Pattern, m: Match): string {
    if p == Link || p == Bold then m.group1 else ""
  }

  /** Every hit of the table is longer than what `re.sub` puts in its place. */
  predicate Shrinking(p: Pattern, t: seq<Option<Match>>) {
    forall q :: 0 <= q < |t| && t[q].Some? ==> |Replacement(p, t[q].value)| < t[q].value.end - q
  }

  /** `re.sub` on the hit table: replace each match the scan takes and copy
      every other character. */
  function Rewrite(p: Pattern, s: string, t: seq<Option<Match>>, i: nat): (r: string)
    requires |t| == |s| && Advancing(t) && i <= |s|
    ensures Shrinking(p, t) ==> |r| <= |s| - i
    decreases |s| - i
  {
    if i == |s| then ""
    else if t[i].Some? then Replacement(p, t[i].value) + Rewrite(p, s, t, t[i].value.end)
    else [s[i]] + Rewrite(p, s, t, i + 1)
  }

  /** The text `\[([^\]]+)\]` of a link is four characters shorter than the link. */
  lemma LinkAtLength(s: string, j: nat)
    requires j <= |s| && LinkAt(s, j).Some?
    ensures |LinkAt(s, j).value.group1| + 4 <= LinkAt(s, j).value.end - j
  {
  }

  /** No pattern's replacement is as long as its match. */
  lemma HitsShrink(p: Pattern, s: string)
    ensures Shrinking(p, Hits(p, s))
  {
    forall q | 0 <= q < |s| && Hits(p, s)[q].Some?
      ensures |Replacement(p, Hits(p, s)[q].value)| < Hits(p, s)[q].value.end - q
    {
      HitIs(p, s, q);
      if p == Link {
        LinkAtLength(s, q);
      }
    }
  }

  /** `re.sub(p, replacement, s[i..])`; it never lengthens the text. */
  function Sub(p: Pattern, s: string, i: nat): (r: string)
    requires i <= |s|
    ensures |r| <= |s| - i
  {
    HitsShrink(p, s);
    Rewrite(p, s, Hits(p, s), i)
  }

  /** A rewrite copies the text before the leftmost hit unchanged. */
  lemma {:induction false} RewriteSkips(p: Pattern, s: string, t: seq<Option<Match>>, i: nat, q: nat)
    requires |t| == |s| && Advancing(t) && i <= q <= |s|
    requires forall x :: i <= x < q ==> t[x].None?
    ensures Rewrite(p, s, t, i) == s[i..q] + Rewrite(p, s, t, q)
    decreases q - i
  {
    if i < q {
      RewriteCopies(p, s, t, i);
      RewriteSkips(p, s, t, i + 1, q);
      assert s[i..q] == [s[i]] + s[i + 1..q];
    }
  }

  /** Where there is no hit, a rewrite copies one character. */
  lemma RewriteCopies(p: Pattern, s: string, t: seq<Option<Match>>, i: nat)
    requires |t| == |s| && Advancing(t) && i < |s| && t[i].None?
    ensures Rewrite(p, s, t, i) == [s[i]] + Rewrite(p, s, t, i + 1)
  {
  }

  /** `re.sub` copies the text before the leftmost match unchanged; with no
      match at all (`q == |s|`) it returns the text as it is. */
  lemma SubSkips(p: Pattern, s: string, i: nat, q: nat)
    requires i <= q <= |s|
    requires NoMatchIn(p, s, i, q)
    ensures Sub(p, s, i) == s[i..q] + Sub(p, s, q)
  {
    forall x | i <= x < q
      ensures Hits(p, s)[x].None?
    {
      HitIs(p, s, x);
    }
    RewriteSkips(p, s, Hits(p, s), i, q);
  }

  /** The `(.+)` of `\s*(.+)` after the greedy `\s*` has backtracked to `k`:
      the first `k` (from the longest run down) whose character is not a
      newline starts the group, which runs to the end of its line. */
  function BacktrackLine(s: string, j: nat, k: nat): (r: Option<string>)
    requires j <= k <= |s|
    ensures r.Some? ==> r.value != [] && Lacks(r.value, '\n')
    ensures r.None? <==> forall x :: j <= x <= k && x < |s| ==> s[x] == '\n'
    decreases k
  {
    if k < |s| && s[k] != '\n' then Some(s[k..FirstIndexOf(s, '\n', k)])
    else if k == j then None
    else BacktrackLine(s, j, k - 1)
  }

  /** The group of `\s*(.+)` matched at `j` (`.` does not match a newline). It
      fails only when nothing but newlines follows `j`. */
  function SpaceThenLine(s: string, j: nat): (r: Option<string>)
    requires j <= |s|
    ensures r.Some? ==> r.value != [] && Lacks(r.value, '\n')
    ensures r.None? <==> forall x :: j <= x < |s| ==> s[x] == '\n'
  {
    var e := RunSpace(s, j);
    assert forall x :: e < x < |s| && s[x] != '\n' ==> e < |s| && s[e] != '\n' by {
      if e < |s| { assert !IsSpace(s[e]); }
    }
    BacktrackLine(s, j, e)
  }

  /** A `#` that begins a line and is followed by something other than newlines. */
  predicate HeadingHit(s: string, p: nat)
    requires p <= |s|
  {
    p < |s| && (p == 0 || s[p - 1] == '\n') && s[p] == '#' && SpaceThenLine(s, p + 1).Some?
  }

  /** `re.search(r'^#\s*(.+)', s[i..], re.MULTILINE)`: the group. */
  function SearchHeading(s: string, i: nat): (r: Option<string>)
    requires i <= |s|
    ensures r.Some? ==> r.value != [] && Lacks(r.value, '\n')
    decreases |s| - i
  {
    if i == |s| then None
    else if HeadingHit(s, i) then SpaceThenLine(s, i + 1)
    else SearchHeading(s, i + 1)
  }

  /** The search fails exactly when no line from `i` on is a heading with text. */
  lemma {:induction false} SearchHeadingFails(s: string, i: nat)
    requires i <= |s|
    ensures SearchHeading(s, i).None? <==> forall p :: i <= p < |s| ==> !HeadingHit(s, p)
    decreases |s| - i
  {
    if i < |s| && !HeadingHit(s, i) {
      SearchHeadingFails(s, i + 1);
    }
  }

  /** `search` passes over positions that hold no heading. */
  lemma SearchHeadingSkips(s: string, i: nat, p: nat)
    requires i <= p <= |s|
    requires forall q :: i <= q < p ==> !HeadingHit(s, q)
    ensures SearchHeading(s, i) == SearchHeading(s, p)
  {
    var k := i;
    while k < p
      invariant i <= k <= p
      invariant SearchHeading(s, i) == SearchHeading(s, k)
    {
      SearchHeadingPasses(s, k);
      k := k + 1;
    }
  }

  /** A position that holds no heading is passed over. */
  lemma SearchHeadingPasses(s: string, i: nat)
    requires i < |s| && !HeadingHit(s, i)
    ensures SearchHeading(s, i) == SearchHeading(s, i + 1)
  {
  }

  /** `search` reports the first heading: the group is the line of the
      heading at `p` when no heading comes before it. */
  lemma SearchHeadingFirst(s: string, i: nat, p: nat)
    requires i <= p < |s| && HeadingHit(s, p)
    requires forall q :: i <= q < p ==> !HeadingHit(s, q)
    ensures SearchHeading(s, i) == SpaceThenLine(s, p + 1)
  {
    SearchHeadingSkips(s, i, p);
  }

  /** `marker` occurs at `p` and is followed by something other than newlines. */
  predicate LabelHit(s: string, marker: string, p: nat) {
    At(s, marker, p) && SpaceThenLine(s, p + |marker|).Some?
  }

  /** `re.search(re.escape(marker) + r'\s*(.+)', s[i..])`: the group. */
  function SearchLabel(s: string, marker: string, i: nat): (r: Option<string>)
    requires i <= |s|
    ensures r.None? <==> forall p :: i <= p < |s| ==> !LabelHit(s, marker, p)
    ensures r.Some? ==> r.value != [] && Lacks(r.value, '\n')
    decreases |s| - i
  {
    if i == |s| then None
    else if LabelHit(s, marker, i) then SpaceThenLine(s, i + |marker|)
    else SearchLabel(s, marker, i + 1)
  }

  /** The first index at or after `k` at which one of `terms` occurs. */
  function FindAny(s: string, terms: seq<string>, k: nat): (r: Option<nat>)
    requires k <= |s|
    ensures r.Some? ==> k <= r.value < |s| && exists t :: t in terms && At(s, t, r.value)
    ensures forall x, t :: k <= x < (if r.Some? then r.value else |s|) && t in terms ==> !At(s, t, x)
    decreases |s| - k
  {
    if k == |s| then None
    else if exists t :: t in terms && At(s, t, k) then Some(k)
    else FindAny(s, terms, k + 1)
  }

  /** The anchor occurs at `p` with at least one character and then a
      terminator after it. */
  predicate SectionHit(s: string, anchor: string, terms: seq<string>, p: nat) {
    At(s, anchor, p) && p + |anchor| < |s| && FindAny(s, terms, p + |anchor| + 1).Some?
  }

  /** The lazy group of a section hit: from the end of the anchor up to the
      nearest terminator that leaves at least one character. */
  function SectionText(s: string, anchor: string, terms: seq<string>, p: nat): (r: string)
    requires SectionHit(s, anchor, terms, p)
    ensures r != []
  {
    s[p + |anchor|..FindAny(s, terms, p + |anchor| + 1).value]
  }

  /** `re.search(anchor + r'(.+?)' + terminator, s[i..], re.DOTALL)`, the
      terminator being one of `terms` (as a look-ahead or consumed, which gives
      the same group). `SearchSectionFails` says when it fails. */
  function SearchSection(s: string, anchor: string, terms: seq<string>, i: nat): (r: Option<string>)
    requires i <= |s|
    ensures r.Some? ==> r.value != []
    decreases |s| - i
  {
    if i == |s| then None
    else if SectionHit(s, anchor, terms, i) then Some(SectionText(s, anchor, terms, i))
    else SearchSection(s, anchor, terms, i + 1)
  }

  /** The search fails exactly when no position from `i` on is a section hit. */
  lemma {:induction false} SearchSectionFails(s: string, anchor: string, terms: seq<string>, i: nat)
    requires i <= |s|
    ensures SearchSection(s, anchor, terms, i).None? <==> forall p :: i <= p < |s| ==> !SectionHit(s, anchor, terms, p)
    decreases |s| - i
  {
    if i < |s| && !SectionHit(s, anchor, terms, i) {
      SearchSectionFails(s, anchor, terms, i + 1);
    }
  }

  /** A text without the anchor has no such section. */
  lemma SectionNeedsAnchor(s: string, anchor: string, terms: seq<string>, i: nat)
    requires i <= |s| && forall p :: i <= p < |s| ==> !At(s, anchor, p)
    ensures SearchSection(s, anchor, terms, i).None?
  {
    SearchSectionFails(s, anchor, terms, i);
  }

  /** `search` passes over positions that are no section hit. */
  lemma SearchSectionSkips(s: string, anchor: string, terms: seq<string>, i: nat, p: nat)
    requires i <= p <= |s|
    requires forall q :: i <= q < p ==> !SectionHit(s, anchor, terms, q)
    ensures SearchSection(s, anchor, terms, i) == SearchSection(s, anchor, terms, p)
  {
    var k := i;
    while k < p
      invariant i <= k <= p
      invariant SearchSection(s, anchor, terms, i) == SearchSection(s, anchor, terms, k)
    {
      assert SearchSection(s, anchor, terms, k) == SearchSection(s, anchor, terms, k + 1);
      k := k + 1;
    }
  }

  /** `search` reports the first hit: the group is the section text of the
      hit at `p` when no hit comes before it. */
  lemma SearchSectionFirst(s: string, anchor: string, terms: seq<string>, i: nat, p: nat)
    requires i <= p < |s| && SectionHit(s, anchor, terms, p)
    requires forall q :: i <= q < p ==> !SectionHit(s, anchor, terms, q)
    ensures SearchSection(s, anchor, terms, i) == Some(SectionText(s, anchor, terms, p))
  {
    SearchSectionSkips(s, anchor, terms, i, p);
  }
}
