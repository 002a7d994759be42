/**
 * The writer of the pipeline's input: `save_email_as_markdown` turns a parsed
 * email into a Markdown document (a header with subject, sender and date, the
 * body, an image section) and a file path built from a sanitised subject.
 * Disk writes are left out: the method returns the path and the text it
 * would write.
 */
module Markdown {
  import opened Wrappers
  import opened Text

  /** One attachment of a parsed email; only its file name matters here. */
  datatype EmailImage = EmailImage(filename: Option<string>)

  /** The parsed email; a missing body is `None`. */
  datatype ParsedEmail = ParsedEmail(
    subject: string, from: string, date: string,
    textBody: Option<string>, htmlBody: Option<string>, images: seq<EmailImage>)

  // ------------------------------------------------------------ safe filename

  /** `re.sub(r'[^\w\s-]', '', s)`: keep word characters, whitespace and `-`. */
  function KeepFilenameChars(s: string, isWord: char -> bool): (r: string)
    ensures forall k :: 0 <= k < |r| ==> isWord(r[k]) || IsSpace(r[k]) || r[k] == '-'
    ensures |r| <= |s|
  {
    if s == [] then []
    else
      var rest := KeepFilenameChars(s[1..], isWord);
      if isWord(s[0]) || IsSpace(s[0]) || s[0] == '-' then [s[0]] + rest else rest
  }

  /** `re.sub(r'[-\s]+', '-', s)`: every maximal run of `-` and whitespace becomes one `-`. */
  function CollapseDashes(s: string): (r: string)
    ensures forall k :: 0 <= k < |r| ==> !IsSpace(r[k])
    ensures forall k: nat :: !DashPair(r, k)
    ensures r != [] && s != [] ==> (r[0] == '-' <==> IsSpace(s[0]) || s[0] == '-')
    ensures r == [] <==> s == []
    decreases |s|
  {
    if s == [] then []
    else if IsSpace(s[0]) || s[0] == '-' then
      var e := DashRun(s, 0);
      var rest := CollapseDashes(s[e..]);
      assert rest != [] ==> rest[0] != '-' by {
        if rest != [] { assert !(IsSpace(s[e..][0]) || s[e..][0] == '-'); }
      }
      DashPairCons('-', rest);
      ['-'] + rest
    else
      var rest := CollapseDashes(s[1..]);
      DashPairCons(s[0], rest);
      [s[0]] + rest
  }

  /** `r` holds `--` at `k`. */
  predicate DashPair(r: string, k: nat) {
    k + 1 < |r| && r[k] == '-' && r[k + 1] == '-'
  }

  /** The `--` pairs of `[c] + rest`: the first two characters, or a pair of `rest`. */
  lemma DashPairCons(c: char, rest: string)
    ensures DashPair([c] + rest, 0) <==> c == '-' && rest != [] && rest[0] == '-'
    ensures forall k: nat :: 1 <= k ==> (DashPair([c] + rest, k) <==> DashPair(rest, k - 1))
  {
    forall k: nat | 1 <= k
      ensures DashPair([c] + rest, k) <==> DashPair(rest, k - 1)
    {
      if k + 1 < |[c] + rest| {
        assert ([c] + rest)[k] == rest[k - 1] && ([c] + rest)[k + 1] == rest[k];
      }
    }
  }

  /** Keeping characters works character by character: the kept characters of a
      concatenation are those of each part, in order. */
  lemma {:induction false} KeepFilenameCharsAppend(x: string, y: string, isWord: char -> bool)
    ensures KeepFilenameChars(x + y, isWord) == KeepFilenameChars(x, isWord) + KeepFilenameChars(y, isWord)
    decreases |x|
  {
    if x == [] {
      assert x + y == y;
    } else {
      assert (x + y)[0] == x[0] && (x + y)[1..] == x[1..] + y;
      KeepFilenameCharsAppend(x[1..], y, isWord);
      var head := if isWord(x[0]) || IsSpace(x[0]) || x[0] == '-' then [x[0]] else [];
      assert KeepFilenameChars(x + y, isWord) == head + KeepFilenameChars(x[1..] + y, isWord);
      assert KeepFilenameChars(x, isWord) == head + KeepFilenameChars(x[1..], isWord);
    }
  }

  /** A single character is kept exactly when it is a word character, whitespace or `-`. */
  lemma KeepFilenameCharsOne(c: char, isWord: char -> bool)
    ensures KeepFilenameChars([c], isWord) == (if isWord(c) || IsSpace(c) || c == '-' then [c] else [])
  {
    assert [c][1..] == [];
  }

  /** A character other than whitespace and `-`, which collapsing keeps as it is. */
  predicate Plain(c: char) {
    !IsSpace(c) && c != '-'
  }

  /** Collapsing a text that ends in a plain character (or is empty) and then
      another text is collapsing each part: runs never cross such a boundary. */
  lemma {:induction false} CollapseJoin(x: string, y: string)
    requires x == [] || Plain(x[|x| - 1])
    ensures CollapseDashes(x + y) == CollapseDashes(x) + CollapseDashes(y)
    decreases |x|
  {
    if x == [] {
      assert x + y == y;
    } else if Plain(x[0]) {
      CollapsePlainHead(x, y);
      CollapseJoin(x[1..], y);
      Regroup([x[0]], CollapseDashes(x[1..]), CollapseDashes(y));
    } else {
      var e := CollapseRunHead(x, y);
      CollapseJoin(x[e..], y);
      Regroup(['-'], CollapseDashes(x[e..]), CollapseDashes(y));
    }
  }

  lemma Regroup(h: string, u: string, v: string)
    ensures h + (u + v) == (h + u) + v
  {
  }

  /** A plain first character is copied. */
  lemma CollapsePlainHead(x: string, y: string)
    requires x != [] && Plain(x[0])
    ensures CollapseDashes(x + y) == [x[0]] + CollapseDashes(x[1..] + y)
    ensures CollapseDashes(x) == [x[0]] + CollapseDashes(x[1..])
  {
    assert (x + y)[0] == x[0] && (x + y)[1..] == x[1..] + y;
  }

  /** A leading run that ends inside `x` becomes one `-`, in `x` and in `x + y` alike. */
  lemma CollapseRunHead(x: string, y: string) returns (e: nat)
    requires x != [] && !Plain(x[0]) && Plain(x[|x| - 1])
    ensures 0 < e < |x| && Plain(x[e])
    ensures CollapseDashes(x + y) == ['-'] + CollapseDashes(x[e..] + y)
    ensures CollapseDashes(x) == ['-'] + CollapseDashes(x[e..])
  {
    e := DashRun(x, 0);
    DashRunPrefix(x, y, 0);
    assert (x + y)[0] == x[0];
    assert (x + y)[e..] == x[e..] + y;
  }

  /** Inside `x`, a run that starts before the last character of `x` ends there
      when that character is plain, whatever follows. */
  lemma {:induction false} DashRunPrefix(x: string, y: string, i: nat)
    requires i < |x| && Plain(x[|x| - 1])
    ensures DashRun(x + y, i) == DashRun(x, i)
    decreases |x| - i
  {
    assert (x + y)[i] == x[i];
    if !Plain(x[i]) {
      DashRunPrefix(x, y, i + 1);
    }
  }

  /** A run of whitespace and `-` followed by a plain character or the end
      becomes a single `-`. */
  lemma CollapseRun(d: string, t: string)
    requires d != [] && forall k :: 0 <= k < |d| ==> !Plain(d[k])
    requires t == [] || Plain(t[0])
    ensures CollapseDashes(d + t) == "-" + CollapseDashes(t)
  {
    DashRunOver(d, t, 0);
    assert (d + t)[0] == d[0];
    assert (d + t)[|d|..] == t;
  }

  lemma {:induction false} DashRunOver(d: string, t: string, i: nat)
    requires i <= |d| && forall k :: 0 <= k < |d| ==> !Plain(d[k])
    requires t == [] || Plain(t[0])
    ensures DashRun(d + t, i) == |d|
    decreases |d| - i
  {
    if i < |d| {
      assert (d + t)[i] == d[i];
      DashRunOver(d, t, i + 1);
    } else if t != [] {
      assert (d + t)[i] == t[0];
    }
  }

  /** The end of the run of `-` and whitespace starting at `i`. */
  function DashRun(s: string, i: nat): (r: nat)
    requires i <= |s|
    ensures i <= r <= |s|
    ensures forall k :: i <= k < r ==> IsSpace(s[k]) || s[k] == '-'
    ensures r < |s| ==> !(IsSpace(s[r]) || s[r] == '-')
    ensures i < |s| && (IsSpace(s[i]) || s[i] == '-') ==> r > i
    decreases |s| - i
  {
    if i < |s| && (IsSpace(s[i]) || s[i] == '-') then DashRun(s, i + 1) else i
  }

  /** The file-name stem made from the subject: no whitespace, no `--`, and only
      word characters and `-`. */
  function SafeFilename(subject: string, isWord: char -> bool): (r: string)
    ensures forall k :: 0 <= k < |r| ==> !IsSpace(r[k])
    ensures forall k: nat :: !DashPair(r, k)
    ensures forall k :: 0 <= k < |r| ==> isWord(r[k]) || r[k] == '-'
  {
    var kept := KeepFilenameChars(subject, isWord);
    var stripped := Strip(kept);
    StripSlice(kept);
    assert forall k :: 0 <= k < |stripped| ==> stripped[k] == kept[|kept| - |LStrip(kept)| + k];
    CollapseKeepsWords(stripped, isWord);
    CollapseDashes(stripped)
  }

  /** Collapsing keeps every character other than `-` and whitespace. */
  lemma {:induction false} CollapseKeepsWords(s: string, isWord: char -> bool)
    requires forall k :: 0 <= k < |s| ==> isWord(s[k]) || IsSpace(s[k]) || s[k] == '-'
    ensures forall k :: 0 <= k < |CollapseDashes(s)| ==> isWord(CollapseDashes(s)[k]) || CollapseDashes(s)[k] == '-'
    decreases |s|
  {
    if s != [] {
      if IsSpace(s[0]) || s[0] == '-' {
        var e := DashRun(s, 0);
        assert forall k :: 0 <= k < |s| - e ==> s[e..][k] == s[e + k];
        CollapseKeepsWords(s[e..], isWord);
      } else {
        assert forall k :: 0 <= k < |s| - 1 ==> s[1..][k] == s[k + 1];
        CollapseKeepsWords(s[1..], isWord);
      }
    }
  }

  /** A subject made only of word characters is its own file name. */
  lemma {:induction false} WordSubjectIsKept(subject: string, isWord: char -> bool)
    requires forall k :: 0 <= k < |subject| ==> isWord(subject[k]) && !IsSpace(subject[k]) && subject[k] != '-'
    ensures SafeFilename(subject, isWord) == subject
  {
    KeepsWords(subject, isWord);
    assert KeepFilenameChars(subject, isWord) == subject;
    if subject != [] {
      assert !IsSpace(subject[0]) && !IsSpace(subject[|subject| - 1]);
    }
    StripOfUnpadded(subject);
    assert Strip(subject) == subject;
    CollapseKeepsPlain(subject);
  }

  lemma {:induction false} KeepsWords(s: string, isWord: char -> bool)
    requires forall k :: 0 <= k < |s| ==> isWord(s[k])
    ensures KeepFilenameChars(s, isWord) == s
  {
    if s != [] {
      assert forall k :: 0 <= k < |s| - 1 ==> s[1..][k] == s[k + 1];
      KeepsWords(s[1..], isWord);
    }
  }

  lemma {:induction false} CollapseKeepsPlain(s: string)
    requires forall k :: 0 <= k < |s| ==> !IsSpace(s[k]) && s[k] != '-'
    ensures CollapseDashes(s) == s
  {
    if s != [] {
      assert forall k :: 0 <= k < |s| - 1 ==> s[1..][k] == s[k + 1];
      CollapseKeepsPlain(s[1..]);
    }
  }

  /** Sanitising a file name again changes nothing. */
  lemma SafeFilenameIdempotent(subject: string, isWord: char -> bool)
    ensures SafeFilename(SafeFilename(subject, isWord), isWord) == SafeFilename(subject, isWord)
  {
    var r := SafeFilename(subject, isWord);
    KeepsDashedWords(r, isWord);
    StripOfUnpadded(r);
    CollapseKeepsSingleDashes(r);
  }

  lemma {:induction false} KeepsDashedWords(s: string, isWord: char -> bool)
    requires forall k :: 0 <= k < |s| ==> isWord(s[k]) || s[k] == '-'
    ensures KeepFilenameChars(s, isWord) == s
  {
    if s != [] {
      assert forall k :: 0 <= k < |s| - 1 ==> s[1..][k] == s[k + 1];
      KeepsDashedWords(s[1..], isWord);
    }
  }

  lemma {:induction false} CollapseKeepsSingleDashes(s: string)
    requires forall k :: 0 <= k < |s| ==> !IsSpace(s[k])
    requires forall k: nat :: !DashPair(s, k)
    ensures CollapseDashes(s) == s
  {
    if s != [] {
      assert forall k :: 0 <= k < |s| - 1 ==> s[1..][k] == s[k + 1];
      if s[0] == '-' {
        var e := DashRun(s, 0);
        assert e == 1 by {
          if |s| > 1 { assert !DashPair(s, 0); assert !(IsSpace(s[1]) || s[1] == '-'); }
        }
      }
      forall k: nat
        ensures !DashPair(s[1..], k)
      {
        assert !DashPair(s, k + 1);
      }
      CollapseKeepsSingleDashes(s[1..]);
    }
  }

  // -------------------------------------------------------------------- paths

  /** `os.path.join(directory, name)` for a name that is not absolute. */
  function Join(directory: string, name: string): (r: string)
    ensures EndsWith(r, name)
    ensures directory != [] && directory[|directory| - 1] != '/' ==> r == directory + "/" + name
  {
    if directory == [] || directory[|directory| - 1] == '/' then
      assert (directory + name)[|directory + name| - |name|..] == name;
      directory + name
    else
      assert (directory + "/" + name)[|directory + "/" + name| - |name|..] == name;
      directory + "/" + name
  }

  /** `image['filename'] or f"image_{i}.jpg"` */
  function ImageFileName(image: EmailImage, i: nat): (r: string)
    ensures r != []
    ensures image.filename.Some? && image.filename.value != [] ==> r == image.filename.value
    ensures !(image.filename.Some? && image.filename.value != []) ==>
      |r| > 10 && r[..6] == "image_" && EndsWith(r, ".jpg") && DigitsValue(r[6..|r| - 4]) == i
  {
    if image.filename.Some? && image.filename.value != [] then image.filename.value
    else "image_" + NatToString(i) + ".jpg"
  }

  /** The relative path of the `i`th image as the document refers to it. */
  /** Images without a usable name get pairwise distinct fallback names. */
  lemma FallbackNamesDistinct(a: EmailImage, i: nat, b: EmailImage, j: nat)
    requires !(a.filename.Some? && a.filename.value != []) && !(b.filename.Some? && b.filename.value != [])
    requires i != j
    ensures ImageFileName(a, i) != ImageFileName(b, j)
  {
  }

  function ImagePath(image: EmailImage, i: nat): string {
    "images/" + ImageFileName(image, i)
  }

  // ----------------------------------------------------------------- document

  /** The header: a level-one heading with the subject, then the labelled sender
      and date lines (the sender line ends in a Markdown hard break), then a rule. */
  function Header(subject: string, from: string, date: string): (r: string)
    ensures |r| > |subject| + 2 && r[..|subject| + 2] == "# " + subject
    ensures EndsWith(r, "\n\n---\n\n")
  {
    "# " + subject + "\n\n" + "**From:**" + " " + from + "  \n" + "**Date:**" + " " + date + "\n\n---\n\n"
  }

  /** The truthiness of an optional string: present and nonempty. */
  predicate Filled(s: Option<string>) {
    s.Some? && s.value != []
  }

  /** `html_to_markdown`: the converter of nonempty HTML is a parameter. */
  function HtmlToMarkdown(html: string, convert: string -> string): (r: string)
    ensures html == [] ==> r == []
    ensures html != [] ==> r == convert(html)
  {
    if html == [] then "" else convert(html)
  }

  /** The body: the text body, else the converted HTML body, else nothing. */
  function Body(email: ParsedEmail, convert: string -> string): (r: string)
    ensures Filled(email.textBody) ==> r == email.textBody.value
    ensures !Filled(email.textBody) && Filled(email.htmlBody) ==> r == convert(email.htmlBody.value)
    ensures !Filled(email.textBody) && !Filled(email.htmlBody) ==> r == []
  {
    if Filled(email.textBody) then email.textBody.value
    else if Filled(email.htmlBody) then HtmlToMarkdown(email.htmlBody.value, convert)
    else ""
  }

  function ImageLine(path: string): string {
    "![Image](" + path + ")\n\n"
  }

  /** The image lines for `paths`, in order. */
  function ImageLines(paths: seq<string>): string {
    if paths == [] then "" else ImageLines(paths[..|paths| - 1]) + ImageLine(paths[|paths| - 1])
  }

  const ImagesHeading := "\n\n## Images\n\n"

  /** The image section: present exactly when there are images. */
  function ImageSection(paths: seq<string>): (r: string)
    ensures r == [] <==> paths == []
  {
    if paths == [] then "" else ImagesHeading + ImageLines(paths)
  }

  /** The document written for `email`. */
  function Document(email: ParsedEmail, paths: seq<string>, convert: string -> string): (r: string)
    ensures paths == [] ==> r == Header(email.subject, email.from, email.date) + Body(email, convert)
    ensures paths != [] ==> EndsWith(r, ImageLine(paths[|paths| - 1]))
  {
    Header(email.subject, email.from, email.date) + Body(email, convert) + ImageSection(paths)
  }

  /** `save_email_as_markdown`: the path of the file and the text written to it. */
  method SaveEmailAsMarkdown(email: ParsedEmail, outputDir: string, isWord: char -> bool, convert: string -> string)
    returns (filepath: string, imagePaths: seq<string>, content: string)
    ensures filepath == Join(outputDir, SafeFilename(email.subject, isWord) + ".md")
    ensures |imagePaths| == |email.images|
    ensures forall i :: 0 <= i < |imagePaths| ==> imagePaths[i] == ImagePath(email.images[i], i)
    ensures content == Document(email, imagePaths, convert)
  {
    var safe := SafeFilename(email.subject, isWord);
    filepath := Join(outputDir, safe + ".md");
    imagePaths := ImagePaths(email.images);
    var front := Header(email.subject, email.from, email.date) + Body(email, convert);
    var section := RenderImageSection(imagePaths);
    content := front + section;
  }

  /** The image loop: one relative path per attachment, in order. */
  method ImagePaths(images: seq<EmailImage>) returns (paths: seq<string>)
    ensures |paths| == |images|
    ensures forall i :: 0 <= i < |paths| ==> paths[i] == ImagePath(images[i], i)
  {
    paths := [];
    for i := 0 to |images|
      invariant |paths| == i
      invariant forall k :: 0 <= k < i ==> paths[k] == ImagePath(images[k], k)
    {
      var name := ImageFileName(images[i], i);
      paths := paths + ["images/" + name];
    }
  }

  /** The image section, appended line by line. */
  method RenderImageSection(paths: seq<string>) returns (section: string)
    ensures section == ImageSection(paths)
  {
    section := "";
    if paths != [] {
      section := ImagesHeading;
      for k := 0 to |paths|
        invariant section == ImagesHeading + ImageLines(paths[..k])
      {
        assert paths[..k + 1][..k] == paths[..k];
        section := section + ImageLine(paths[k]);
      }
      assert paths[..|paths|] == paths;
    }
  }
}
