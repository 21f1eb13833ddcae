/** The document processor: the section and document records the chunking
    engine consumes, the line-by-line heading parser `extract_sections`, and
    the small helpers `count_words`, `_describe_table` and the processor
    factory. */
module DocumentProcessor {
  import opened Wrappers
  import opened Text

  /** A section: its heading text, its body, its heading level, and (for
      sections found by the heading parser) the index of its heading line. */
  datatype DocumentSection = DocumentSection(
    title: string,
    content: string,
    level: int,
    startPosition: Option<nat>)

  /** The part of a processed document the chunking engine reads. */
  datatype ProcessedDocument = ProcessedDocument(
    fullText: string,
    sections: seq<DocumentSection>)

  // ---------------------------------------------------------------------
  // Heading recognisers.  Each is applied to a stripped, non-empty line;
  // `\s` and `\d` are their ASCII parts.

  /** A recognised heading: the text that becomes the section title, and
      its level. */
  datatype Heading = Heading(title: string, level: int)

  predicate IsStripped(s: string) {
    s == [] || (!IsSpace(s[0]) && !IsSpace(s[|s| - 1]))
  }

  predicate IsHash(c: char) {
    c == '#'
  }

  predicate IsRomanLetter(c: char) {
    c == 'I' || c == 'V' || c == 'X' || c == 'L' || c == 'C' || c == 'D' || c == 'M'
  }

  /** The end of the run of characters of class `inClass` that starts at `i`. */
  function Run(s: string, i: nat, inClass: char -> bool): (k: nat)
    requires i <= |s|
    ensures i <= k <= |s|
    ensures forall j :: i <= j < k ==> inClass(s[j])
    ensures k == |s| || !inClass(s[k])
    decreases |s| - i
  {
    if i == |s| || !inClass(s[i]) then i else Run(s, i + 1, inClass)
  }

  /** `^#{1,6}\s+(.+)$`: one to six '#', whitespace, then text.  The level is
      the number of '#', the title the rest of the line, trimmed. */
  function MarkdownHeading(s: string): (r: Option<Heading>)
    ensures r.Some? ==> && r.value.level == Run(s, 0, IsHash) && 1 <= r.value.level <= 6
                        && r.value.level < |s| && IsSpace(s[r.value.level])
                        && r.value.title == Strip(s[r.value.level..])
  {
    var n := Run(s, 0, IsHash);
    if 1 <= n <= 6 && n + 1 < |s| && IsSpace(s[n]) then Some(Heading(Strip(s[n..]), n)) else None
  }

  /** `^([A-Z][A-Z\s]{3,})\s*$`: an upper-case letter followed by at least
      three upper-case letters or spaces, and nothing else; level 2, the
      whole line is the title. */
  function AllCapsHeading(s: string): (r: Option<Heading>)
    ensures r.Some? ==> r.value == Heading(s, 2) && |s| >= 4 && IsUpper(s[0])
  {
    if |s| >= 4 && IsUpper(s[0]) && (forall j :: 1 <= j < |s| ==> IsUpper(s[j]) || IsSpace(s[j]))
    then Some(Heading(s, 2))
    else None
  }

  /** The units `\d+\.` that follow one another from `i`: how many, and
      where they end. */
  function NumberUnits(s: string, i: nat): (r: (nat, nat))
    requires i <= |s|
    ensures i <= r.1 <= |s|
    ensures r.0 == 0 <==> r.1 == i
    decreases |s| - i
  {
    var d := Run(s, i, IsDigit);
    if d > i && d < |s| && s[d] == '.' then
      var rest := NumberUnits(s, d + 1);
      (rest.0 + 1, rest.1)
    else (0, i)
  }

  /** `^(\d+\.(?:\d+\.)*)\s+(.+)$`: a number such as "1." or "2.3.", then
      whitespace, then the title.  The level is the number of parts of the
      number split at '.', the trailing empty one included: one more than
      the number of units. */
  function NumberedHeading(s: string): (r: Option<Heading>)
    requires IsStripped(s)
    ensures r.Some? ==> && s != [] && IsDigit(s[0])
                        && r.value.level == NumberUnits(s, 0).0 + 1
                        && r.value.title == s[SkipSpaces(s, NumberUnits(s, 0).1)..]
                        && NumberUnits(s, 0).1 < |s| && IsSpace(s[NumberUnits(s, 0).1])
  {
    var (units, k) := NumberUnits(s, 0);
    if units >= 1 && k + 1 < |s| && IsSpace(s[k]) then Some(Heading(s[SkipSpaces(s, k)..], units + 1))
    else None
  }

  /** `^([IVXLCDM]+\.\s+.+)$`: roman-numeral letters, '.', whitespace, then
      text; level 2, the whole line is the title. */
  function RomanHeading(s: string): (r: Option<Heading>)
    ensures r.Some? ==> r.value == Heading(s, 2) && s != [] && IsRomanLetter(s[0])
  {
    var r := Run(s, 0, IsRomanLetter);
    if r >= 1 && r + 2 < |s| && s[r] == '.' && IsSpace(s[r + 1]) then Some(Heading(s, 2)) else None
  }

  /** The recognisers in the source's order; the first that matches wins. */
  function Classify(s: string): (r: Option<Heading>)
    requires IsStripped(s)
    ensures r.Some? <==> || MarkdownHeading(s).Some? || AllCapsHeading(s).Some?
                         || NumberedHeading(s).Some? || RomanHeading(s).Some?
  {
    if MarkdownHeading(s).Some? then MarkdownHeading(s)
    else if AllCapsHeading(s).Some? then AllCapsHeading(s)
    else if NumberedHeading(s).Some? then NumberedHeading(s)
    else RomanHeading(s)
  }

  /** The four patterns never match the same line, so their order does not
      change which heading a line is. */
  lemma RecognisersExclusive(s: string)
    requires IsStripped(s)
    ensures MarkdownHeading(s).Some? ==> AllCapsHeading(s).None? && NumberedHeading(s).None? && RomanHeading(s).None?
    ensures AllCapsHeading(s).Some? ==> NumberedHeading(s).None? && RomanHeading(s).None?
    ensures NumberedHeading(s).Some? ==> RomanHeading(s).None?
  {
  }

  /** Every heading has a non-empty, trimmed title and a level of at least 1;
      a markdown level is at most 6, a numbered one at least 2. */
  lemma HeadingShape(s: string)
    requires IsStripped(s)
    ensures Classify(s).Some? ==>
              var h := Classify(s).value;
              && h.title != [] && IsStripped(h.title) && h.level >= 1
              && (s[0] == '#' ==> h.level <= 6)
              && (IsDigit(s[0]) ==> h.level >= 2)
  {
  }

  /** The dots of the number prefix: one per unit. */
  lemma {:induction false} NumberUnitsDots(s: string, i: nat)
    requires i <= |s|
    ensures multiset(s[i..NumberUnits(s, i).1])['.'] == NumberUnits(s, i).0
    decreases |s| - i
  {
    var d := Run(s, i, IsDigit);
    if d > i && d < |s| && s[d] == '.' {
      var rest := NumberUnits(s, d + 1);
      assert NumberUnits(s, i) == (rest.0 + 1, rest.1);
      NumberUnitsDots(s, d + 1);
      DigitsHaveNoDot(s, i);
      var tail := s[d + 1..rest.1];
      assert s[i..rest.1] == s[i..d] + ['.'] + tail;
      OneMoreDot(s[i..d], tail);
    } else {
      assert NumberUnits(s, i) == (0, i);
      assert s[i..i] == [];
    }
  }

  /** A run of digits holds no '.'. */
  lemma DigitsHaveNoDot(s: string, i: nat)
    requires i <= |s|
    ensures '.' !in s[i..Run(s, i, IsDigit)]
  {
    var d := Run(s, i, IsDigit);
    forall j | 0 <= j < d - i ensures s[i..d][j] != '.' {
      assert IsDigit(s[i + j]);
    }
  }

  /** A unit of digits and a dot adds one dot to the count of what follows. */
  lemma OneMoreDot(digits: string, rest: string)
    requires '.' !in digits
    ensures multiset(digits + ['.'] + rest)['.'] == multiset(rest)['.'] + 1
  {
    assert multiset(digits + ['.'] + rest) == multiset(digits) + multiset{'.'} + multiset(rest);
  }

  /** The exact heading a line is, by its first character: for '#', the
      number of leading '#' and the rest of the line stripped; for an
      upper-case letter (all-caps or roman), level 2 and the whole line; for
      a digit, as many levels as `split('.')` gives parts of the number
      prefix, and the text after the whitespace that follows it. */
  lemma HeadingLevels(s: string)
    requires IsStripped(s) && Classify(s).Some?
    ensures s[0] == '#' ==> Classify(s).value == Heading(Strip(s[Run(s, 0, IsHash)..]), Run(s, 0, IsHash))
    ensures IsUpper(s[0]) ==> Classify(s).value == Heading(s, 2)
    ensures IsDigit(s[0]) ==>
              var k := NumberUnits(s, 0).1;
              Classify(s).value == Heading(s[SkipSpaces(s, k)..], |Split(s[..k], '.')|)
    ensures s[0] == '#' || IsUpper(s[0]) || IsDigit(s[0])
  {
    if MarkdownHeading(s).Some? {
      assert Classify(s) == MarkdownHeading(s);
    } else if AllCapsHeading(s).Some? {
      assert Classify(s) == AllCapsHeading(s);
    } else if NumberedHeading(s).Some? {
      assert Classify(s) == NumberedHeading(s);
      var k := NumberUnits(s, 0).1;
      NumberUnitsDots(s, 0);
      SplitCount(s[..k], '.');
      assert s[0..k] == s[..k];
    } else {
      assert Classify(s) == RomanHeading(s);
    }
  }

  /** "1. X" is a first-level numbered heading: level 2 (two parts, "1" and
      ""), title "X". */
  lemma NumberedExample()
    ensures Classify("1. X") == Some(Heading("X", 2))
  {
    var s := "1. X";
    assert Run(s, 0, IsDigit) == 1;
    assert Run(s, 2, IsDigit) == 2;
    assert NumberUnits(s, 0) == (1, 2);
    assert SkipSpaces(s, 2) == 3;
  }

  // ---------------------------------------------------------------------
  // extract_sections

  /** What the parser makes of one line: whitespace only, a heading, or
      content. */
  datatype LineKind = Blank | Title(heading: Heading) | Content

  function KindOf(line: string): LineKind {
    var s := Strip(line);
    if s == [] then Blank
    else match Classify(s)
      case Some(h) => Title(h)
      case None => Content
  }

  function Kinds(lines: seq<string>): (ks: seq<LineKind>)
    ensures |ks| == |lines|
  {
    seq(|lines|, i requires 0 <= i < |lines| => KindOf(lines[i]))
  }

  /** The indices of the heading lines among the first `n` lines, in order. */
  function HeadingLines(ks: seq<LineKind>, n: nat): (r: seq<nat>)
    requires n <= |ks|
    ensures forall k :: 0 <= k < |r| ==> r[k] < n && ks[r[k]].Title?
    ensures forall k :: 0 <= k < |r| - 1 ==> r[k] < r[k + 1]
  {
    if n == 0 then []
    else HeadingLines(ks, n - 1) + (if ks[n - 1].Title? then [n - 1] else [])
  }

  /** The content lines among `lines[lo..hi]`, in order and unstripped. */
  function Body(ks: seq<LineKind>, lines: seq<string>, lo: nat, hi: nat): seq<string>
    requires |ks| == |lines| && lo <= hi <= |lines|
    decreases hi
  {
    if hi == lo then []
    else Body(ks, lines, lo, hi - 1) + (if ks[hi - 1].Content? then [lines[hi - 1]] else [])
  }

  /** Heading indices as `HeadingLines` returns them: increasing indices of
      heading lines below `n`. */
  predicate HeadingIndices(ks: seq<LineKind>, hs: seq<nat>, n: nat) {
    && n <= |ks|
    && (forall k :: 0 <= k < |hs| ==> hs[k] < n && ks[hs[k]].Title?)
    && (forall k :: 0 <= k < |hs| - 1 ==> hs[k] < hs[k + 1])
  }

  /** Where section k's content starts: after its heading line, except that
      the first section also takes the lines before its heading. */
  function ContentStart(hs: seq<nat>, k: nat): nat
    requires k < |hs|
  {
    if k == 0 then 0 else hs[k] + 1
  }

  /** Where section k's content ends: at the next heading line, or at line
      `n`. */
  function ContentEnd(hs: seq<nat>, k: nat, n: nat): nat
    requires k < |hs|
  {
    if k + 1 < |hs| then hs[k + 1] else n
  }

  /** Section k of the first `n` lines, whose heading lines are `hs`. */
  function SectionAt(ks: seq<LineKind>, lines: seq<string>, hs: seq<nat>, k: nat, n: nat): DocumentSection
    requires |ks| == |lines| && HeadingIndices(ks, hs, n) && k < |hs|
  {
    var h := ks[hs[k]].heading;
    var body := Body(ks, lines, ContentStart(hs, k), ContentEnd(hs, k, n));
    DocumentSection(h.title, Strip(Join("\n", body)), h.level, Some(hs[k]))
  }

  /** What `extract_sections(text)` returns: one section per heading line,
      titled and levelled by its heading, holding the content lines up to
      the next heading joined with newlines and stripped (the first section
      also holding the content lines before its heading); with no heading
      line at all, the single section "Document Content" of level 1 holding
      the whole text. */
  function Sections(text: string): seq<DocumentSection> {
    var lines := Split(text, '\n');
    var ks := Kinds(lines);
    var hs := HeadingLines(ks, |lines|);
    if hs == [] then [DocumentSection("Document Content", text, 1, None)]
    else seq(|hs|, k requires 0 <= k < |hs| => SectionAt(ks, lines, hs, k, |lines|))
  }

  /** The section a heading opens at line `i`, before its content is known. */
  function Opened(h: Heading, i: nat): DocumentSection {
    DocumentSection(h.title, "", h.level, Some(i))
  }

  /** The parser's state after the first `i` lines: the saved sections, the
      open one and the content buffer. */
  predicate Parsed(ks: seq<LineKind>, lines: seq<string>, i: nat, sections: seq<DocumentSection>,
                   current: Option<DocumentSection>, buffer: seq<string>)
    requires |ks| == |lines| && i <= |lines|
  {
    var hs := HeadingLines(ks, i);
    if hs == [] then
      sections == [] && current == None && buffer == Body(ks, lines, 0, i)
    else
      var last := |hs| - 1;
      && |sections| == last
      && (forall k :: 0 <= k < last ==> sections[k] == SectionAt(ks, lines, hs, k, i))
      && current == Some(Opened(ks[hs[last]].heading, hs[last]))
      && buffer == Body(ks, lines, ContentStart(hs, last), i)
  }

  /** `extract_sections(text)`: the text's lines are parsed, the open
      section is saved, and a text without headings becomes one default
      section. */
  method ExtractSections(text: string) returns (sections: seq<DocumentSection>)
    ensures sections == Sections(text)
  {
    var lines := Split(text, '\n');
    var current: Option<DocumentSection>;
    var buffer: seq<string>;
    sections, current, buffer := ParseLines(lines);
    ParsedDone(Kinds(lines), lines, sections, current, buffer);
    if current.Some? {
      sections := sections + [current.value.(content := Strip(Join("\n", buffer)))];
    }
    if sections == [] {
      sections := sections + [DocumentSection("Document Content", text, 1, None)];
    }
  }

  /** The line loop of `extract_sections`: whitespace-only lines are
      skipped, a heading saves the open section (its buffered lines joined
      and stripped) and opens a new one, any other line is buffered.  The
      buffer is only cleared when a section is saved, so the lines before
      the first heading stay in it. */
  method ParseLines(lines: seq<string>)
    returns (sections: seq<DocumentSection>, current: Option<DocumentSection>, buffer: seq<string>)
    ensures Parsed(Kinds(lines), lines, |lines|, sections, current, buffer)
  {
    ghost var ks := Kinds(lines);
    sections := [];
    current := None;
    buffer := [];
    for i := 0 to |lines|
      invariant Parsed(ks, lines, i, sections, current, buffer)
    {
      sections, current, buffer := ParseLine(ks, lines, i, sections, current, buffer);
    }
  }

  /** One turn of the line loop: line `i` is taken into the sections, the
      open section and the buffer parsed from the lines before it. */
  method ParseLine(ghost ks: seq<LineKind>, lines: seq<string>, i: nat,
                   sections: seq<DocumentSection>, current: Option<DocumentSection>, buffer: seq<string>)
    returns (sections': seq<DocumentSection>, current': Option<DocumentSection>, buffer': seq<string>)
    requires ks == Kinds(lines) && i < |lines|
    requires Parsed(ks, lines, i, sections, current, buffer)
    ensures Parsed(ks, lines, i + 1, sections', current', buffer')
  {
    assert ks[i] == KindOf(lines[i]);
    var line := lines[i];
    var lineStripped := Strip(line);
    sections', current', buffer' := sections, current, buffer;
    if lineStripped == [] {
      ParsedSkip(ks, lines, i, sections, current, buffer);
      return;
    }
    var heading := Classify(lineStripped);
    if heading.Some? {
      if current.Some? {
        ParsedNextHeading(ks, lines, i, sections, current.value, buffer);
        sections' := sections + [current.value.(content := Strip(Join("\n", buffer)))];
        buffer' := [];
      } else {
        ParsedFirstHeading(ks, lines, i, sections, buffer);
      }
      current' := Some(DocumentSection(heading.value.title, "", heading.value.level, Some(i)));
    } else {
      ParsedContent(ks, lines, i, sections, current, buffer);
      buffer' := buffer + [line];
    }
  }

  /** Sections saved before line `i` are not affected by it. */
  lemma SectionsStable(ks: seq<LineKind>, lines: seq<string>, i: nat, sections: seq<DocumentSection>)
    requires |ks| == |lines| && i < |lines|
    requires var hs := HeadingLines(ks, i);
             && hs != [] && |sections| == |hs| - 1
             && forall k :: 0 <= k < |hs| - 1 ==> sections[k] == SectionAt(ks, lines, hs, k, i)
    ensures var hs := HeadingLines(ks, i);
            forall k :: 0 <= k < |hs| - 1 ==> sections[k] == SectionAt(ks, lines, hs, k, i + 1)
  {
  }

  /** A whitespace-only line changes nothing. */
  lemma ParsedSkip(ks: seq<LineKind>, lines: seq<string>, i: nat, sections: seq<DocumentSection>,
                   current: Option<DocumentSection>, buffer: seq<string>)
    requires |ks| == |lines| && i < |lines| && ks[i] == Blank
    requires Parsed(ks, lines, i, sections, current, buffer)
    ensures Parsed(ks, lines, i + 1, sections, current, buffer)
  {
    assert HeadingLines(ks, i + 1) == HeadingLines(ks, i);
    if HeadingLines(ks, i) != [] {
      SectionsStable(ks, lines, i, sections);
    }
  }

  /** A content line is appended to the buffer. */
  lemma ParsedContent(ks: seq<LineKind>, lines: seq<string>, i: nat, sections: seq<DocumentSection>,
                      current: Option<DocumentSection>, buffer: seq<string>)
    requires |ks| == |lines| && i < |lines| && ks[i] == Content
    requires Parsed(ks, lines, i, sections, current, buffer)
    ensures Parsed(ks, lines, i + 1, sections, current, buffer + [lines[i]])
  {
    assert HeadingLines(ks, i + 1) == HeadingLines(ks, i);
    if HeadingLines(ks, i) != [] {
      SectionsStable(ks, lines, i, sections);
    }
  }

  /** The first heading line opens a section; the buffer is kept. */
  lemma ParsedFirstHeading(ks: seq<LineKind>, lines: seq<string>, i: nat, sections: seq<DocumentSection>,
                           buffer: seq<string>)
    requires |ks| == |lines| && i < |lines| && ks[i].Title?
    requires Parsed(ks, lines, i, sections, None, buffer)
    ensures Parsed(ks, lines, i + 1, sections, Some(Opened(ks[i].heading, i)), buffer)
  {
    assert HeadingLines(ks, i + 1) == [i];
  }

  /** A later heading line saves the open section with the buffered lines
      joined and stripped, opens its own, and clears the buffer. */
  lemma ParsedNextHeading(ks: seq<LineKind>, lines: seq<string>, i: nat, sections: seq<DocumentSection>,
                          current: DocumentSection, buffer: seq<string>)
    requires |ks| == |lines| && i < |lines| && ks[i].Title?
    requires Parsed(ks, lines, i, sections, Some(current), buffer)
    ensures Parsed(ks, lines, i + 1, sections + [current.(content := Strip(Join("\n", buffer)))],
                   Some(Opened(ks[i].heading, i)), [])
  {
    var hs := HeadingLines(ks, i);
    assert HeadingLines(ks, i + 1) == hs + [i];
    var saved := current.(content := Strip(Join("\n", buffer)));
    assert saved == SectionAt(ks, lines, hs + [i], |hs| - 1, i + 1);
    SavedSections(ks, lines, i, sections, saved);
  }

  /** The section saved at a heading line takes its place after the ones
      saved before it. */
  lemma SavedSections(ks: seq<LineKind>, lines: seq<string>, i: nat, sections: seq<DocumentSection>,
                      saved: DocumentSection)
    requires |ks| == |lines| && i < |lines| && ks[i].Title?
    requires var hs := HeadingLines(ks, i);
             && hs != [] && |sections| == |hs| - 1
             && (forall k :: 0 <= k < |hs| - 1 ==> sections[k] == SectionAt(ks, lines, hs, k, i))
             && HeadingLines(ks, i + 1) == hs + [i]
             && saved == SectionAt(ks, lines, hs + [i], |hs| - 1, i + 1)
    ensures var hs' := HeadingLines(ks, i + 1);
            forall k :: 0 <= k < |hs'| - 1 ==> (sections + [saved])[k] == SectionAt(ks, lines, hs', k, i + 1)
  {
    var hs := HeadingLines(ks, i);
    var hs' := hs + [i];
    forall k | 0 <= k < |hs'| - 1 ensures (sections + [saved])[k] == SectionAt(ks, lines, hs', k, i + 1) {
      if k < |hs| - 1 {
        assert SectionAt(ks, lines, hs', k, i + 1) == SectionAt(ks, lines, hs, k, i);
      }
    }
  }

  /** After the last line, saving the open section gives the sections. */
  lemma ParsedDone(ks: seq<LineKind>, lines: seq<string>, sections: seq<DocumentSection>,
                   current: Option<DocumentSection>, buffer: seq<string>)
    requires |ks| == |lines| && Parsed(ks, lines, |lines|, sections, current, buffer)
    ensures var hs := HeadingLines(ks, |lines|);
            && (hs == [] <==> current.None?)
            && (hs == [] ==> sections == [])
            && (hs != [] ==>
                  sections + [current.value.(content := Strip(Join("\n", buffer)))]
                  == seq(|hs|, k requires 0 <= k < |hs| => SectionAt(ks, lines, hs, k, |lines|)))
  {
  }

  // ---------------------------------------------------------------------
  // Properties of the sections

  /** A line the parser treats as a heading. */
  predicate IsHeadingLine(line: string) {
    KindOf(line).Title?
  }

  /** `HeadingLines` lists every heading line, and nothing else. */
  lemma {:induction false} HeadingLinesExact(ks: seq<LineKind>, n: nat)
    requires n <= |ks|
    ensures forall j :: 0 <= j < n ==> (j in HeadingLines(ks, n) <==> ks[j].Title?)
    decreases n
  {
    if n > 0 {
      HeadingLinesExact(ks, n - 1);
    }
  }

  /** With no heading line, the whole text is the one section "Document
      Content", of level 1. */
  lemma NoHeadingsOneSection(text: string)
    requires forall line :: line in Split(text, '\n') ==> !IsHeadingLine(line)
    ensures Sections(text) == [DocumentSection("Document Content", text, 1, None)]
  {
    var lines := Split(text, '\n');
    var ks := Kinds(lines);
    forall j | 0 <= j < |lines| ensures !ks[j].Title? {
      assert lines[j] in lines;
    }
    NoTitles(ks, |lines|);
  }

  /** Without a heading kind among the first `n`, there is no heading index. */
  lemma {:induction false} NoTitles(ks: seq<LineKind>, n: nat)
    requires n <= |ks|
    requires forall j :: 0 <= j < n ==> !ks[j].Title?
    ensures HeadingLines(ks, n) == []
    decreases n
  {
    if n > 0 {
      NoTitles(ks, n - 1);
    }
  }

  /** With heading lines, there is exactly one section per heading line, in
      order: it starts at that line and carries that heading's title and
      level. */
  lemma OneSectionPerHeading(text: string)
    ensures var lines := Split(text, '\n');
            var ks := Kinds(lines);
            var hs := HeadingLines(ks, |lines|);
            var ss := Sections(text);
            hs != [] ==>
              && |ss| == |hs|
              && (forall j :: 0 <= j < |lines| ==> (j in hs <==> ks[j].Title?))
              && forall k :: 0 <= k < |ss| ==>
                   && ss[k].startPosition == Some(hs[k])
                   && ss[k].title == ks[hs[k]].heading.title
                   && ss[k].level == ks[hs[k]].heading.level
  {
    var lines := Split(text, '\n');
    var ks := Kinds(lines);
    var hs := HeadingLines(ks, |lines|);
    HeadingLinesExact(ks, |lines|);
    if hs != [] {
      SectionsAtHeadings(ks, lines, hs, |lines|);
    }
  }

  /** Section k starts at heading line `hs[k]` and carries its heading. */
  lemma SectionsAtHeadings(ks: seq<LineKind>, lines: seq<string>, hs: seq<nat>, n: nat)
    requires |ks| == |lines| && HeadingIndices(ks, hs, n)
    ensures forall k :: 0 <= k < |hs| ==>
              && SectionAt(ks, lines, hs, k, n).startPosition == Some(hs[k])
              && SectionAt(ks, lines, hs, k, n).title == ks[hs[k]].heading.title
              && SectionAt(ks, lines, hs, k, n).level == ks[hs[k]].heading.level
  {
  }

  /** The content lines of `lines[lo..hi]` are those of `lines[lo..m]`
      followed by those of `lines[m..hi]`. */
  lemma {:induction false} BodySplit(ks: seq<LineKind>, lines: seq<string>, lo: nat, m: nat, hi: nat)
    requires |ks| == |lines| && lo <= m <= hi <= |lines|
    ensures Body(ks, lines, lo, hi) == Body(ks, lines, lo, m) + Body(ks, lines, m, hi)
    decreases hi
  {
    if hi > m {
      BodySplit(ks, lines, lo, m, hi - 1);
    }
  }

  /** When the kinds are those `kindOf` gives the lines, every line `Body`
      collects is one `kindOf` calls a content line. */
  lemma {:induction false} BodyKinds(ks: seq<LineKind>, lines: seq<string>, lo: nat, hi: nat, kindOf: string -> LineKind)
    requires |ks| == |lines| && lo <= hi <= |lines|
    requires forall j :: lo <= j < hi ==> ks[j] == kindOf(lines[j])
    ensures forall k :: 0 <= k < |Body(ks, lines, lo, hi)| ==> kindOf(Body(ks, lines, lo, hi)[k]) == Content
    decreases hi
  {
    if hi > lo {
      BodyKinds(ks, lines, lo, hi - 1, kindOf);
      var prev := Body(ks, lines, lo, hi - 1);
      var last := if ks[hi - 1].Content? then [lines[hi - 1]] else [];
      var body := Body(ks, lines, lo, hi);
      assert body == prev + last;
      forall k | 0 <= k < |body| ensures kindOf(body[k]) == Content {
        if k < |prev| {
          assert body[k] == prev[k];
        } else {
          assert body[k] == lines[hi - 1] && ks[hi - 1] == Content;
        }
      }
    }
  }

  /** Every line in a section's content is a content line: never whitespace
      only, never a heading. */
  lemma BodyIsContent(lines: seq<string>, lo: nat, hi: nat)
    requires lo <= hi <= |lines|
    ensures var body := Body(Kinds(lines), lines, lo, hi);
            forall k :: 0 <= k < |body| ==> KindOf(body[k]) == Content
  {
    BodyKinds(Kinds(lines), lines, lo, hi, KindOf);
  }

  /** A content line is neither whitespace only nor a heading. */
  lemma ContentLine(line: string)
    requires KindOf(line) == Content
    ensures Strip(line) != [] && !IsHeadingLine(line)
  {
  }

  /** The content lines each section collects. */
  function SectionBodies(ks: seq<LineKind>, lines: seq<string>, hs: seq<nat>, n: nat): (r: seq<seq<string>>)
    requires |ks| == |lines| && HeadingIndices(ks, hs, n)
    ensures |r| == |hs|
  {
    seq(|hs|, k requires 0 <= k < |hs| => Body(ks, lines, ContentStart(hs, k), ContentEnd(hs, k, n)))
  }

  /** No content line is lost or repeated: the sections' content lines, in
      order, are all the content lines of the text, in order; each section's
      content is its lines joined with newlines and stripped. */
  lemma ContentPartitioned(text: string)
    ensures var lines := Split(text, '\n');
            var ks := Kinds(lines);
            var hs := HeadingLines(ks, |lines|);
            hs != [] ==>
              var bodies := SectionBodies(ks, lines, hs, |lines|);
              && Flatten(bodies) == Body(ks, lines, 0, |lines|)
              && forall k :: 0 <= k < |hs| ==> Sections(text)[k].content == Strip(Join("\n", bodies[k]))
  {
    var lines := Split(text, '\n');
    var ks := Kinds(lines);
    var hs := HeadingLines(ks, |lines|);
    if hs != [] {
      BodiesCover(ks, lines, hs);
      var bodies := SectionBodies(ks, lines, hs, |lines|);
      var ss := Sections(text);
      forall k | 0 <= k < |hs| ensures ss[k].content == Strip(Join("\n", bodies[k])) {
        assert ss[k] == SectionAt(ks, lines, hs, k, |lines|);
      }
    }
  }

  /** All sections' content lines together are all the content lines. */
  lemma BodiesCover(ks: seq<LineKind>, lines: seq<string>, hs: seq<nat>)
    requires |ks| == |lines| && HeadingIndices(ks, hs, |lines|) && hs != []
    ensures Flatten(SectionBodies(ks, lines, hs, |lines|)) == Body(ks, lines, 0, |lines|)
  {
    BodiesPrefix(ks, lines, hs, |lines|, |hs|);
    assert SectionBodies(ks, lines, hs, |lines|)[..|hs|] == SectionBodies(ks, lines, hs, |lines|);
  }

  /** The first m sections' content lines are the content lines up to where
      section m - 1 ends. */
  lemma {:induction false} BodiesPrefix(ks: seq<LineKind>, lines: seq<string>, hs: seq<nat>, n: nat, m: nat)
    requires |ks| == |lines| && HeadingIndices(ks, hs, n) && 1 <= m <= |hs|
    ensures Flatten(SectionBodies(ks, lines, hs, n)[..m]) == Body(ks, lines, 0, ContentEnd(hs, m - 1, n))
    decreases m
  {
    var bodies := SectionBodies(ks, lines, hs, n);
    if m == 1 {
      assert bodies[..1] == [] + [bodies[0]];
      FlattenSnoc([], bodies[0]);
    } else {
      BodiesPrefix(ks, lines, hs, n, m - 1);
      var h := hs[m - 1];
      assert bodies[..m] == bodies[..m - 1] + [bodies[m - 1]];
      FlattenSnoc(bodies[..m - 1], bodies[m - 1]);
      assert ContentEnd(hs, m - 2, n) == h;
      assert Body(ks, lines, 0, h + 1) == Body(ks, lines, 0, h);
      BodySplit(ks, lines, 0, h + 1, ContentEnd(hs, m - 1, n));
    }
  }

  // ---------------------------------------------------------------------
  // count_words

  /** `len(re.findall(r'\b\w+\b', text))`: the number of maximal runs of
      word characters, counted at the position where each run starts. */
  function CountWords(s: string): (r: nat)
    ensures 2 * r <= |s| + 1
    ensures s != [] && !IsWordChar(s[|s| - 1]) ==> 2 * r <= |s|
    decreases |s|
  {
    if s == [] then 0
    else CountWords(s[..|s| - 1]) + (if StartsWord(s, |s| - 1) then 1 else 0)
  }

  predicate StartsWord(s: string, i: nat)
    requires i < |s|
  {
    IsWordChar(s[i]) && (i == 0 || !IsWordChar(s[i - 1]))
  }

  /** Counting words of a concatenation whose seam does not cut a word in
      two: the counts add up. */
  lemma {:induction false} CountWordsAppend(a: string, b: string)
    requires a == [] || b == [] || !IsWordChar(a[|a| - 1]) || !IsWordChar(b[0])
    ensures CountWords(a + b) == CountWords(a) + CountWords(b)
    decreases |b|
  {
    if b != [] {
      var b' := b[..|b| - 1];
      assert (a + b)[..|a + b| - 1] == a + b';
      CountWordsAppend(a, b');
      var n := |a + b| - 1;
      assert (a + b)[n] == b[|b| - 1];
      if |b| > 1 {
        assert (a + b)[n - 1] == b[|b| - 2];
      } else if a != [] {
        assert (a + b)[n - 1] == a[|a| - 1];
      }
      assert StartsWord(a + b, n) == StartsWord(b, |b| - 1);
      assert CountWords(a + b) == CountWords(a + b') + (if StartsWord(a + b, n) then 1 else 0);
      assert CountWords(b) == CountWords(b') + (if StartsWord(b, |b| - 1) then 1 else 0);
    } else {
      assert a + b == a;
    }
  }

  /** A text without word characters has no words. */
  lemma {:induction false} NoWordChars(s: string)
    requires forall i :: 0 <= i < |s| ==> !IsWordChar(s[i])
    ensures CountWords(s) == 0
    decreases |s|
  {
    if s != [] {
      NoWordChars(s[..|s| - 1]);
    }
  }

  /** A non-empty run of word characters is one word. */
  lemma {:induction false} OneWord(w: string)
    requires w != [] && forall i :: 0 <= i < |w| ==> IsWordChar(w[i])
    ensures CountWords(w) == 1
    decreases |w|
  {
    if |w| == 1 {
      assert w[..0] == [];
    } else {
      OneWord(w[..|w| - 1]);
    }
  }

  /** Non-empty runs of word characters. */
  predicate WordsOnly(ws: seq<string>) {
    forall k :: 0 <= k < |ws| ==> ws[k] != [] && forall i :: 0 <= i < |ws[k]| ==> IsWordChar(ws[k][i])
  }

  /** Words joined with single spaces are counted one by one. */
  lemma {:induction false} CountJoinedWords(ws: seq<string>)
    requires WordsOnly(ws)
    ensures CountWords(Join(" ", ws)) == |ws|
  {
    if |ws| == 1 {
      OneWord(ws[0]);
    } else if |ws| > 1 {
      var rest := Join(" ", ws[1..]);
      CountJoinedWords(ws[1..]);
      OneWord(ws[0]);
      NoWordChars(" ");
      CountWordsAppend(" ", rest);
      assert ws[0] + " " + rest == ws[0] + (" " + rest);
      CountWordsAppend(ws[0], " " + rest);
    }
  }

  /** The sentence of the processor's unit test, "This is a test document
      with ten words total.", written as its words joined by spaces and
      followed by the full stop, has nine words. */
  lemma NineWords()
    ensures CountWords(Join(" ", ["This", "is", "a", "test", "document", "with", "ten", "words", "total"]) + ".") == 9
  {
    var ws := ["This", "is", "a", "test", "document", "with", "ten", "words", "total"];
    assert WordsOnly(ws) by {
      forall k | 0 <= k < |ws| ensures ws[k] != [] && forall i :: 0 <= i < |ws[k]| ==> IsWordChar(ws[k][i]) {
      }
    }
    CountJoinedWords(ws);
    NoWordChars(".");
    CountWordsAppend(Join(" ", ws), ".");
  }

  /** The header names `_describe_table` lists: the truthy cells of the
      header row, in order; a missing cell (`None`) or an empty one is
      skipped. */
  function HeaderNames(header: seq<Option<string>>): (r: seq<string>)
    ensures |r| <= |header|
    ensures forall k :: 0 <= k < |r| ==> r[k] != []
  {
    if header == [] then []
    else
      var last := header[|header| - 1];
      HeaderNames(header[..|header| - 1]) + (if last.Some? && last.value != [] then [last.value] else [])
  }

  /** A name is listed exactly when some header cell holds it and it is
      non-empty. */
  lemma {:induction false} HeaderNamesExact(header: seq<Option<string>>, name: string)
    ensures name in HeaderNames(header) <==> name != [] && Some(name) in header
    decreases |header|
  {
    if header != [] {
      var init := header[..|header| - 1];
      HeaderNamesExact(init, name);
      assert header == init + [header[|header| - 1]];
    }
  }

  /** A header cell `str(h) for h in header if h` keeps. */
  predicate Named(cell: Option<string>) {
    cell.Some? && cell.value != []
  }

  /** `HeaderNames` is the in-order filter of the header: name k is the
      value of the k-th named cell, at index `idx[k]`; the indices increase
      and are exactly those of the named cells. */
  lemma {:induction false} HeaderNamesInOrder(header: seq<Option<string>>) returns (idx: seq<nat>)
    ensures |idx| == |HeaderNames(header)|
    ensures forall k :: 0 <= k < |idx| ==> idx[k] < |header| && header[idx[k]] == Some(HeaderNames(header)[k])
    ensures forall k :: 0 <= k < |idx| - 1 ==> idx[k] < idx[k + 1]
    ensures forall i :: 0 <= i < |header| ==> (Named(header[i]) <==> i in idx)
    decreases |header|
  {
    if header == [] {
      idx := [];
    } else {
      var n := |header| - 1;
      var init := header[..n];
      var pre := HeaderNamesInOrder(init);
      assert forall i :: 0 <= i < n ==> header[i] == init[i];
      if Named(header[n]) {
        idx := pre + [n];
        assert HeaderNames(header) == HeaderNames(init) + [header[n].value];
      } else {
        idx := pre;
        assert HeaderNames(header) == HeaderNames(init);
      }
    }
  }

  /** `_describe_table(table)`: "" for an empty table or an empty header row;
      otherwise the row count (rows after the header), the column count (the
      header's width) and the non-empty header names. */
  function DescribeTable(table: seq<seq<Option<string>>>): (r: string)
    ensures r == [] <==> table == [] || table[0] == []
  {
    if table == [] || table[0] == [] then ""
    else
      var header := table[0];
      "Table with " + (NatToString(|table| - 1) + (" rows and " + (NatToString(|header|)
      + (" columns. Columns: " + (Join(", ", HeaderNames(header)) + ". ")))))
  }

  /** A non-empty description reads back: "Table with ", the decimal digits
      of the number of rows after the header, " rows and ", the decimal
      digits of the header's width, " columns. Columns: ", and the header
      names joined by ", " and followed by ". "; both numbers read back. */
  lemma DescriptionReadsBack(table: seq<seq<Option<string>>>)
    requires table != [] && table[0] != []
    ensures var rows := NatToString(|table| - 1);
            var cols := NatToString(|table[0]|);
            && Laid(DescribeTable(table), rows, cols, Join(", ", HeaderNames(table[0])) + ". ")
            && DigitsValue(rows) == |table| - 1 && DigitsValue(cols) == |table[0]|
  {
    NatToStringRoundTrip(|table| - 1);
    NatToStringRoundTrip(|table[0]|);
    DescriptionLayout(DescribeTable(table), NatToString(|table| - 1), NatToString(|table[0]|),
                      Join(", ", HeaderNames(table[0])) + ". ");
  }

  /** `r` is "Table with ", then `rows`, " rows and ", `cols`,
      " columns. Columns: " and `names`, each piece at its own place. */
  predicate Laid(r: string, rows: string, cols: string, names: string) {
    var i := 11 + |rows|;
    var j := i + 10 + |cols|;
    && |r| == j + 19 + |names|
    && r[..11] == "Table with " && r[11..i] == rows
    && r[i..i + 10] == " rows and " && r[i + 10..j] == cols
    && r[j..j + 19] == " columns. Columns: " && r[j + 19..] == names
  }

  /** Where the pieces of a description sit, whatever the numbers and names. */
  lemma DescriptionLayout(r: string, rows: string, cols: string, names: string)
    requires r == "Table with " + (rows + (" rows and " + (cols + (" columns. Columns: " + names))))
    ensures Laid(r, rows, cols, names)
  {
    ConcatSlices("Table with ", rows, " rows and ", cols, " columns. Columns: ", names);
  }

  /** The piece `x` at position `i`, and what follows it. */
  lemma SliceAt(s: string, i: nat, x: string, rest: string)
    requires i <= |s| && s[i..] == x + rest
    ensures i + |x| <= |s| && s[i..i + |x|] == x && s[i + |x|..] == rest
  {
    assert s[i..i + |x|] == s[i..][..|x|];
    assert s[i + |x|..] == s[i..][|x|..];
  }

  /** Slicing the pieces back out of `a + (b + (c + (d + (e + f))))`. */
  lemma ConcatSlices(a: string, b: string, c: string, d: string, e: string, f: string)
    ensures var s := a + (b + (c + (d + (e + f))));
            var i := |a| + |b|;
            var j := i + |c| + |d|;
            && |s| == j + |e| + |f|
            && s[..|a|] == a && s[|a|..i] == b && s[i..i + |c|] == c
            && s[i + |c|..j] == d && s[j..j + |e|] == e && s[j + |e|..] == f
  {
    var s := a + (b + (c + (d + (e + f))));
    assert s[0..] == s;
    SliceAt(s, 0, a, b + (c + (d + (e + f))));
    SliceAt(s, |a|, b, c + (d + (e + f)));
    SliceAt(s, |a| + |b|, c, d + (e + f));
    SliceAt(s, |a| + |b| + |c|, d, e + f);
    SliceAt(s, |a| + |b| + |c| + |d|, e, f);
  }
}
