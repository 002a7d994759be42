/**
 * The writer and the extractor agree: the header `save_email_as_markdown`
 * writes is read back by the extractor's subject, sender and date searches,
 * up to surrounding whitespace, as long as the fields are single lines that
 * are not blank and the subject and sender hold no `*`.
 */
module RoundTrip {
  import opened Wrappers
  import opened Text
  import opened Patterns
  import opened Markdown
  import Extractor

  /** `RunSpace` ends at the first non-whitespace character. */
  lemma RunSpaceAt(s: string, j: nat, m: nat)
    requires j <= m < |s| && !IsSpace(s[m])
    requires forall k :: j <= k < m ==> IsSpace(s[k])
    ensures RunSpace(s, j) == m
  {
  }

  /** `FirstIndexOf` ends at the first occurrence. */
  lemma FirstIndexAt(s: string, c: char, i: nat, m: nat)
    requires i <= m < |s| && s[m] == c
    requires forall k :: i <= k < m ==> s[k] != c
    ensures FirstIndexOf(s, c, i) == m
  {
  }

  /** The backtracking `(.+)` takes the rest of the line when it starts on a
      character other than a newline. */
  lemma BacktrackStops(s: string, j: nat, e: nat, m: nat)
    requires j <= e < |s| && s[e] != '\n' && RunSpace(s, j) == e
    requires e <= m <= |s| && FirstIndexOf(s, '\n', e) == m
    ensures SpaceThenLine(s, j) == Some(s[e..m])
  {
  }

  /** `\s*(.+)` at `j`, where the line from `j` to the newline at `m` is not
      blank, reads that line up to whitespace. */
  lemma LineGroup(s: string, j: nat, m: nat)
    requires j < m < |s| && s[m] == '\n'
    requires forall k :: j <= k < m ==> s[k] != '\n'
    requires exists w :: j <= w < m && !IsSpace(s[w])
    ensures SpaceThenLine(s, j).Some? && Strip(SpaceThenLine(s, j).value) == Strip(s[j..m])
  {
    LineStart(s, j, m);
    LeadingSpaceIsStripped(s, j, RunSpace(s, j), m);
  }

  /** The group of `\s*(.+)` on such a line starts after the leading whitespace
      and runs to the newline. */
  lemma LineStart(s: string, j: nat, m: nat)
    requires j < m < |s| && s[m] == '\n'
    requires forall k :: j <= k < m ==> s[k] != '\n'
    requires exists w :: j <= w < m && !IsSpace(s[w])
    ensures RunSpace(s, j) < m && SpaceThenLine(s, j) == Some(s[RunSpace(s, j)..m])
  {
    var w :| j <= w < m && !IsSpace(s[w]);
    var e := RunSpace(s, j);
    assert e <= w;
    assert s[e] != '\n' by { assert !IsSpace(s[e]) && IsSpace('\n'); }
    FirstIndexAt(s, '\n', e, m);
    BacktrackStops(s, j, e, m);
  }

  /** Dropping whitespace from the front of a piece does not change its strip. */
  lemma LeadingSpaceIsStripped(s: string, j: nat, e: nat, m: nat)
    requires j <= e <= m <= |s|
    requires forall k :: j <= k < e ==> IsSpace(s[k])
    ensures Strip(s[j..m]) == Strip(s[e..m])
  {
    var pre := s[j..e];
    assert s[j..m] == pre + s[e..m] + [];
    assert !HasNonSpace(pre) by {
      forall k | 0 <= k < |pre| ensures IsSpace(pre[k]) { assert pre[k] == s[j + k]; }
    }
    assert !HasNonSpace([]);
    StripPadded(pre, s[e..m], []);
  }

  /** A search for `marker` that cannot hit before `p` returns what the search from `p` returns. */
  lemma {:induction false} SearchLabelSkips(s: string, marker: string, i: nat, p: nat)
    requires i <= p <= |s|
    requires forall q :: i <= q < p ==> !At(s, marker, q)
    ensures SearchLabel(s, marker, i) == SearchLabel(s, marker, p)
    decreases p - i
  {
    if i < p {
      assert !LabelHit(s, marker, i);
      SearchLabelSkips(s, marker, i + 1, p);
    }
  }

  /** The subject line of the header, from 1 up to the blank line after it
      (the three part lemmas say where each piece of the header sits). */
  lemma SubjectPart(subject: string, from: string, date: string, rest: string)
    ensures var s, a := Header(subject, from, date) + rest, |subject| + 4;
      && |s| > a
      && s[0] == '#' && s[1..2 + |subject|] == " " + subject + "" && s[2 + |subject|] == '\n'
      && (forall k :: 0 <= k < |subject| ==> s[2 + k] == subject[k]) && s[a - 2] == '\n' && s[a - 1] == '\n'
  {
  }

  /** The sender line of the header, from its marker at `a` to its newline. */
  lemma SenderPart(subject: string, from: string, date: string, rest: string)
    ensures var s, a := Header(subject, from, date) + rest, |subject| + 4;
      var d := a + |from| + 13;
      && |s| > d
      && s[a..a + 9] == "**From:**" && s[a + 9..d - 1] == " " + from + "  " && s[d - 1] == '\n'
      && (forall k :: 0 <= k < |from| ==> s[a + 10 + k] == from[k]) && s[a + 9] == ' ' && s[d - 3] == ' ' && s[d - 2] == ' '
  {
  }

  /** The date line of the header, from its marker at `d` to its newline. */
  lemma DatePart(subject: string, from: string, date: string, rest: string)
    ensures var s, a := Header(subject, from, date) + rest, |subject| + 4;
      var d := a + |from| + 13;
      && |s| > d + 10 + |date|
      && s[d..d + 9] == "**Date:**" && s[d + 9..d + 10 + |date|] == " " + date + "" && s[d + 10 + |date|] == '\n'
  {
  }

  /** `\s*(.+)` at `j` over a line `pre` + `t` + `post` up to the newline at `m`,
      with blank `pre` and `post` and a `t` that is not blank, reads `t` up to
      whitespace. */
  lemma PaddedLine(s: string, j: nat, m: nat, pre: string, t: string, post: string)
    requires j <= m < |s| && s[m] == '\n' && s[j..m] == pre + t + post
    requires !HasNonSpace(pre) && !HasNonSpace(post)
    requires Lacks(pre, '\n') && Lacks(t, '\n') && Lacks(post, '\n') && HasNonSpace(t)
    ensures SpaceThenLine(s, j).Some? && Strip(SpaceThenLine(s, j).value) == Strip(t)
  {
    var line := pre + t + post;
    assert Lacks(line, '\n') by { LacksJoin(pre, t, post, '\n'); }
    forall k | j <= k < m ensures s[k] != '\n' { assert s[k] == line[k - j]; }
    assert exists w :: j <= w < m && !IsSpace(s[w]) by {
      var w :| 0 <= w < |t| && !IsSpace(t[w]);
      assert s[j + |pre| + w] == line[|pre| + w] == t[w];
    }
    LineGroup(s, j, m);
    StripPadded(pre, t, post);
  }

  lemma LacksJoin(x: string, y: string, z: string, c: char)
    requires Lacks(x, c) && Lacks(y, c) && Lacks(z, c)
    ensures Lacks(x + y + z, c)
  {
    forall k | 0 <= k < |x + y + z| ensures (x + y + z)[k] != c {
      if k < |x| { assert (x + y + z)[k] == x[k]; }
      else if k < |x| + |y| { assert (x + y + z)[k] == y[k - |x|]; }
      else { assert (x + y + z)[k] == z[k - |x| - |y|]; }
    }
  }

  lemma SpacesAreBlank(t: string)
    requires forall k :: 0 <= k < |t| ==> t[k] == ' '
    ensures !HasNonSpace(t) && Lacks(t, '\n')
  {
  }

  /** A line starting with `#` at the start of `s` gives the subject. */
  lemma SubjectOfLayout(s: string, subject: string)
    requires 2 + |subject| < |s| && s[0] == '#'
    requires s[1..2 + |subject|] == " " + subject + "" && s[2 + |subject|] == '\n'
    requires Lacks(subject, '\n') && HasNonSpace(subject)
    ensures Extractor.SubjectLine(s) == Strip(subject)
  {
    SpacesAreBlank(" ");
    SpacesAreBlank("");
    PaddedLine(s, 1, 2 + |subject|, " ", subject, "");
    assert HeadingHit(s, 0);
  }

  /** The first `marker` in `s`, at `a`, labels a line that reads `field`. */
  lemma LabelOfLayout(s: string, marker: string, a: nat, field: string)
    requires forall q :: 0 <= q < a ==> !At(s, marker, q)
    requires At(s, marker, a)
    requires SpaceThenLine(s, a + |marker|).Some? && Strip(SpaceThenLine(s, a + |marker|).value) == Strip(field)
    ensures SearchLabel(s, marker, 0).Some? && Strip(SearchLabel(s, marker, 0).value) == Strip(field)
  {
    FirstLabel(s, marker, a);
  }

  /** A search whose first hit is at `a` returns the group read after `a`. */
  lemma FirstLabel(s: string, marker: string, a: nat)
    requires forall q :: 0 <= q < a ==> !At(s, marker, q)
    requires At(s, marker, a) && SpaceThenLine(s, a + |marker|).Some?
    ensures SearchLabel(s, marker, 0) == SpaceThenLine(s, a + |marker|)
  {
    SearchLabelSkips(s, marker, 0, a);
    assert LabelHit(s, marker, a);
  }

  /** A marker starting with `*` does not occur where `s` has no `*`. */
  lemma NoMarkerWithoutStar(s: string, marker: string, lo: nat, hi: nat)
    requires marker != [] && marker[0] == '*'
    requires forall q :: lo <= q < hi && q < |s| ==> s[q] != '*'
    ensures forall q :: lo <= q < hi ==> !At(s, marker, q)
  {
  }

  /** The subject line of a written document is the stripped subject. */
  lemma SubjectReadBack(subject: string, from: string, date: string, rest: string)
    requires Lacks(subject, '\n') && HasNonSpace(subject)
    ensures Extractor.SubjectLine(Header(subject, from, date) + rest) == Strip(subject)
  {
    SubjectPart(subject, from, date, rest);
    SubjectOfLayout(Header(subject, from, date) + rest, subject);
  }

  /** The sender of a written document is the stripped sender. */
  lemma SenderReadBack(subject: string, from: string, date: string, rest: string)
    requires Lacks(subject, '*')
    requires Lacks(from, '\n') && HasNonSpace(from)
    ensures Extractor.Sender(Header(subject, from, date) + rest) == Strip(from)
  {
    var s := Header(subject, from, date) + rest;
    SenderPart(subject, from, date, rest);
    SubjectStars(subject, from, date, rest);
    var a := |subject| + 4;
    NoMarkerWithoutStar(s, Extractor.FromMarker, 0, a);
    SpacesAreBlank(" ");
    SpacesAreBlank("  ");
    PaddedLine(s, a + 9, a + |from| + 12, " ", from, "  ");
    LabelOfLayout(s, Extractor.FromMarker, a, from);
  }

  /** The date of a written document is the stripped date. */
  lemma DateReadBack(subject: string, from: string, date: string, rest: string)
    requires Lacks(subject, '*') && Lacks(from, '*')
    requires Lacks(date, '\n') && HasNonSpace(date)
    ensures Extractor.Date(Header(subject, from, date) + rest) == Strip(date)
  {
    HeaderDateLayout(subject, from, date, rest);
    DateOfLayout(Header(subject, from, date) + rest, |subject| + 4, |subject| + |from| + 17, date);
  }

  /** The shape of a document around its date line: the sender marker at `a`,
      no other `*` before the date marker at `d`, then " " + `date` and a newline. */
  predicate DateLayout(s: string, a: nat, d: nat, date: string) {
    && a + 10 <= d && d + 10 + |date| < |s|
    && s[a..a + 9] == "**From:**" && s[a + 9] == ' '
    && (forall q :: 0 <= q < a ==> s[q] != '*')
    && (forall q :: a + 9 <= q < d ==> s[q] != '*')
    && s[d..d + 9] == "**Date:**"
    && s[d + 9..d + 10 + |date|] == " " + date + "" && s[d + 10 + |date|] == '\n'
  }

  lemma HeaderDateLayout(subject: string, from: string, date: string, rest: string)
    requires Lacks(subject, '*') && Lacks(from, '*')
    ensures DateLayout(Header(subject, from, date) + rest, |subject| + 4, |subject| + |from| + 17, date)
  {
    SenderPart(subject, from, date, rest);
    DatePart(subject, from, date, rest);
    HeaderStars(subject, from, date, rest);
  }

  /** The line after the date marker at `d` reads the date. */
  lemma DateLine(s: string, d: nat, date: string)
    requires d + 10 + |date| < |s| && s[d + 9..d + 10 + |date|] == " " + date + "" && s[d + 10 + |date|] == '\n'
    requires Lacks(date, '\n') && HasNonSpace(date)
    ensures SpaceThenLine(s, d + 9).Some? && Strip(SpaceThenLine(s, d + 9).value) == Strip(date)
  {
    SpacesAreBlank(" ");
    SpacesAreBlank("");
    PaddedLine(s, d + 9, d + 10 + |date|, " ", date, "");
  }

  /** The date search stops at `d`, past the sender marker at `a`, and reads the date. */
  lemma DateOfLayout(s: string, a: nat, d: nat, date: string)
    requires DateLayout(s, a, d, date)
    requires Lacks(date, '\n') && HasNonSpace(date)
    ensures Extractor.Date(s) == Strip(date)
  {
    DateLine(s, d, date);
    NoDateBefore(s, a, d);
    DateSearch(s, d, date);
  }

  /** The date search whose first hit is at `d`. */
  lemma DateSearch(s: string, d: nat, date: string)
    requires d + 9 <= |s| && s[d..d + 9] == "**Date:**"
    requires forall q :: 0 <= q < d ==> !At(s, Extractor.DateMarker, q)
    requires SpaceThenLine(s, d + 9).Some? && Strip(SpaceThenLine(s, d + 9).value) == Strip(date)
    ensures Extractor.Date(s) == Strip(date)
  {
    LabelOfLayout(s, Extractor.DateMarker, d, date);
  }

  /** With no `*` in the subject and the sender, the header's only `*`s before
      the date are those of the sender marker. */
  lemma HeaderStars(subject: string, from: string, date: string, rest: string)
    requires Lacks(subject, '*') && Lacks(from, '*')
    ensures var s, a := Header(subject, from, date) + rest, |subject| + 4;
      var d := a + |from| + 13;
      && (forall q :: 0 <= q < a ==> s[q] != '*')
      && (forall q :: a + 9 <= q < d ==> s[q] != '*')
  {
    SubjectStars(subject, from, date, rest);
    SenderStars(subject, from, date, rest);
  }

  /** No `*` before the sender marker. */
  lemma SubjectStars(subject: string, from: string, date: string, rest: string)
    requires Lacks(subject, '*')
    ensures var s := Header(subject, from, date) + rest;
      forall q :: 0 <= q < |subject| + 4 ==> s[q] != '*'
  {
    var s := Header(subject, from, date) + rest;
    SubjectPart(subject, from, date, rest);
    forall q | 0 <= q < |subject| + 4 ensures s[q] != '*' {
      if 2 <= q < |subject| + 2 { assert s[2 + (q - 2)] == subject[q - 2]; }
    }
  }

  /** No `*` on the sender line after its marker. */
  lemma SenderStars(subject: string, from: string, date: string, rest: string)
    requires Lacks(from, '*')
    ensures var s, a := Header(subject, from, date) + rest, |subject| + 4;
      forall q :: a + 9 <= q < a + |from| + 13 ==> s[q] != '*'
  {
    var s := Header(subject, from, date) + rest;
    SenderPart(subject, from, date, rest);
    var a := |subject| + 4;
    var d := a + |from| + 13;
    forall q | a + 9 <= q < d ensures s[q] != '*' {
      if a + 10 <= q < d - 3 { assert s[a + 10 + (q - a - 10)] == from[q - a - 10]; }
    }
  }

  /** The date marker does not occur before `d` when the only `*`s there are
      those of the sender marker at `a`. */
  lemma NoDateBefore(s: string, a: nat, d: nat)
    requires a + 10 <= d <= |s| && s[a..a + 9] == "**From:**" && s[a + 9] == ' '
    requires forall q :: 0 <= q < a ==> s[q] != '*'
    requires forall q :: a + 9 <= q < d ==> s[q] != '*'
    ensures forall q :: 0 <= q < d ==> !At(s, Extractor.DateMarker, q)
  {
    NoMarkerWithoutStar(s, Extractor.DateMarker, 0, a);
    NoMarkerWithoutStar(s, Extractor.DateMarker, a + 9, d);
    MarkersApart(s, a);
  }

  /** `**Date:**` does not start inside `**From:** `. */
  lemma MarkersApart(s: string, a: nat)
    requires a + 10 <= |s| && s[a..a + 9] == "**From:**" && s[a + 9] == ' '
    ensures forall q :: a <= q < a + 9 ==> !At(s, "**Date:**", q)
  {
    assert s[a + 2] == 'F' && s[a + 6] == ':' && s[a + 7] == '*' && s[a + 8] == '*';
  }
  /** The document `save_email_as_markdown` writes for `email` gives the
      extractor back the email's subject, sender and date, up to surrounding
      whitespace, when each is one line that is not blank and the subject and
      sender hold no `*`. */
  lemma WrittenEmailReadBack(email: ParsedEmail, paths: seq<string>, convert: string -> string)
    requires Lacks(email.subject, '\n') && Lacks(email.subject, '*') && HasNonSpace(email.subject)
    requires Lacks(email.from, '\n') && Lacks(email.from, '*') && HasNonSpace(email.from)
    requires Lacks(email.date, '\n') && HasNonSpace(email.date)
    ensures var doc := Document(email, paths, convert);
      && Extractor.SubjectLine(doc) == Strip(email.subject)
      && Extractor.Sender(doc) == Strip(email.from)
      && Extractor.Date(doc) == Strip(email.date)
  {
    var rest := Body(email, convert) + ImageSection(paths);
    assert Document(email, paths, convert) == Header(email.subject, email.from, email.date) + rest;
    SubjectReadBack(email.subject, email.from, email.date, rest);
    SenderReadBack(email.subject, email.from, email.date, rest);
    DateReadBack(email.subject, email.from, email.date, rest);
  }
}
