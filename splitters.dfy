/** The two regular-expression splitters of the chunking engine,
    `_split_into_paragraphs` (`re.split(r'\n\s*\n', text)`) and
    `_split_into_sentences` (`re.split(r'(?<=[.!?])\s+', text)`), written as
    explicit character scans.  `re.split` searches for the leftmost match,
    cuts there, and resumes the search where the match ends; `Spans` does
    the same and returns the (start, end) offsets of the pieces. */
module Splitters {
  import opened Wrappers
  import opened Text

  datatype Splitter =
    | BlankLine      // r'\n\s*\n'
    | SentenceBreak  // r'(?<=[.!?])\s+'

  /** Position of the last newline in `text[lo..hi]`, if any. */
  function LastNewline(text: string, lo: nat, hi: nat): (k: Option<nat>)
    requires lo <= hi <= |text|
    ensures k.Some? ==> lo <= k.value < hi && text[k.value] == '\n'
    ensures k.Some? ==> forall j :: k.value < j < hi ==> text[j] != '\n'
    ensures k.None? ==> forall j :: lo <= j < hi ==> text[j] != '\n'
    decreases hi
  {
    if hi == lo then None
    else if text[hi - 1] == '\n' then Some(hi - 1)
    else LastNewline(text, lo, hi - 1)
  }

  predicate IsSentenceEnd(c: char) {
    c == '.' || c == '!' || c == '?'
  }

  /** The end of the match of the splitter's pattern that starts exactly at
      `i`, or None.  For `\n\s*\n` the greedy `\s*` backs off to the last
      newline of the whitespace run after the first newline; for
      `(?<=[.!?])\s+` the match is the whole whitespace run, and it can only
      start right after a sentence-ending mark. */
  function MatchAt(kind: Splitter, text: string, i: nat): (m: Option<nat>)
    requires i <= |text|
    ensures m.Some? ==> i < m.value <= |text| && AllSpace(text[i..m.value])
    ensures m.Some? && kind == BlankLine ==>
              text[i] == '\n' && text[m.value - 1] == '\n' && i + 1 < m.value
    ensures m.Some? && kind == SentenceBreak ==>
              0 < i && IsSentenceEnd(text[i - 1])
              && (m.value == |text| || !IsSpace(text[m.value]))
  {
    if i == |text| then None
    else match kind
      case BlankLine =>
        if text[i] != '\n' then None
        else
          var k := LastNewline(text, i + 1, SkipSpaces(text, i + 1));
          if k.Some? then Some(k.value + 1) else None
      case SentenceBreak =>
        if 0 < i && IsSentenceEnd(text[i - 1]) && IsSpace(text[i]) then
          var k := SkipSpaces(text, i);
          assert AllSpace(text[i..k]) by {
            forall j | 0 <= j < k - i ensures IsSpace(text[i..k][j]) {
              assert text[i..k][j] == text[i + j];
            }
          }
          Some(k)
        else None
  }

  /** No match of the pattern starts anywhere in `text[lo..hi]`. */
  predicate NoMatchIn(kind: Splitter, text: string, lo: nat, hi: nat)
    requires lo <= hi <= |text|
  {
    forall j :: lo <= j < hi ==> MatchAt(kind, text, j).None?
  }

  /** The leftmost-match scan of `re.split`: the piece being built starts at
      `start`, and the search for the next match is at `i`. */
  function Spans(kind: Splitter, text: string, start: nat, i: nat): seq<(nat, nat)>
    requires start <= i <= |text|
    decreases |text| - i
  {
    if i == |text| then [(start, |text|)]
    else match MatchAt(kind, text, i)
      case Some(j) => [(start, i)] + Spans(kind, text, j, j)
      case None => Spans(kind, text, start, i + 1)
  }

  /** What `re.split` guarantees about the pieces it returns, for a scan
      that began at `start`: the pieces start there and end at the end of
      the text, they are in text order, consecutive pieces are separated by
      exactly one match of the pattern, and no match starts inside a piece
      (the search is leftmost). */
  predicate IsSplitFrom(kind: Splitter, text: string, start: nat, sp: seq<(nat, nat)>) {
    && |sp| >= 1
    && sp[0].0 == start && sp[|sp| - 1].1 == |text|
    && (forall k :: 0 <= k < |sp| ==> sp[k].0 <= sp[k].1 <= |text|)
    && (forall k :: 0 <= k < |sp| ==> NoMatchIn(kind, text, sp[k].0, sp[k].1))
    && (forall k :: 0 <= k < |sp| - 1 ==> MatchAt(kind, text, sp[k].1) == Some(sp[k + 1].0))
  }

  predicate IsSplit(kind: Splitter, text: string, sp: seq<(nat, nat)>) {
    IsSplitFrom(kind, text, 0, sp)
  }

  lemma {:induction false} SpansAreSplit(kind: Splitter, text: string, start: nat, i: nat)
    requires start <= i <= |text|
    requires NoMatchIn(kind, text, start, i)
    ensures IsSplitFrom(kind, text, start, Spans(kind, text, start, i))
    decreases |text| - i
  {
    if i < |text| {
      match MatchAt(kind, text, i)
      case Some(j) =>
        SpansAreSplit(kind, text, j, j);
        ConsSplit(kind, text, start, i, j, Spans(kind, text, j, j));
      case None =>
        SpansAreSplit(kind, text, start, i + 1);
    }
  }

  /** A piece up to a match, in front of a split of what follows the match. */
  lemma ConsSplit(kind: Splitter, text: string, start: nat, i: nat, j: nat, rest: seq<(nat, nat)>)
    requires start <= i < |text| && NoMatchIn(kind, text, start, i)
    requires MatchAt(kind, text, i) == Some(j)
    requires IsSplitFrom(kind, text, j, rest)
    ensures IsSplitFrom(kind, text, start, [(start, i)] + rest)
  {
    var sp := [(start, i)] + rest;
    forall k | 0 <= k < |sp| - 1
      ensures MatchAt(kind, text, sp[k].1) == Some(sp[k + 1].0)
    {
      if k > 0 { assert sp[k] == rest[k - 1] && sp[k + 1] == rest[k]; }
    }
    forall k | 0 <= k < |sp|
      ensures sp[k].0 <= sp[k].1 <= |text| && NoMatchIn(kind, text, sp[k].0, sp[k].1)
    {
      if k > 0 { assert sp[k] == rest[k - 1]; }
    }
  }

  /** The spans of `re.split(pattern, text)`: they lie inside the text
      (`SplitSpansAreSplit` states the rest). */
  function SplitSpans(kind: Splitter, text: string): (sp: seq<(nat, nat)>)
    ensures forall k :: 0 <= k < |sp| ==> sp[k].0 <= sp[k].1 <= |text|
  {
    SpansAreSplit(kind, text, 0, 0);
    Spans(kind, text, 0, 0)
  }

  lemma SplitSpansAreSplit(kind: Splitter, text: string)
    ensures IsSplit(kind, text, SplitSpans(kind, text))
  {
    SpansAreSplit(kind, text, 0, 0);
  }

  /** The pieces the spans cut out of the text. */
  function Pieces(text: string, sp: seq<(nat, nat)>): seq<string>
    requires forall k :: 0 <= k < |sp| ==> sp[k].0 <= sp[k].1 <= |text|
  {
    if sp == [] then []
    else Pieces(text, sp[..|sp| - 1]) + [text[sp[|sp| - 1].0..sp[|sp| - 1].1]]
  }

  lemma {:induction false} PiecesAt(text: string, sp: seq<(nat, nat)>)
    requires forall k :: 0 <= k < |sp| ==> sp[k].0 <= sp[k].1 <= |text|
    ensures |Pieces(text, sp)| == |sp|
    ensures forall k :: 0 <= k < |sp| ==> Pieces(text, sp)[k] == text[sp[k].0..sp[k].1]
    decreases |sp|
  {
    if sp != [] {
      PiecesAt(text, sp[..|sp| - 1]);
    }
  }

  /** `[p.strip() for p in pieces if p.strip()]`. */
  function StripNonEmpty(pieces: seq<string>): seq<string> {
    if pieces == [] then []
    else
      var init := StripNonEmpty(pieces[..|pieces| - 1]);
      var p := Strip(pieces[|pieces| - 1]);
      if p != [] then init + [p] else init
  }

  /** Every result of `StripNonEmpty` is non-empty and carries no
      surrounding whitespace, and there are no more results than pieces. */
  lemma {:induction false} StripNonEmptyTrimmed(pieces: seq<string>)
    ensures |StripNonEmpty(pieces)| <= |pieces|
    ensures forall k :: 0 <= k < |StripNonEmpty(pieces)| ==> Trimmed(StripNonEmpty(pieces)[k])
    decreases |pieces|
  {
    if pieces != [] {
      StripNonEmptyTrimmed(pieces[..|pieces| - 1]);
    }
  }

  /** Non-empty, with no whitespace at either end. */
  predicate Trimmed(s: string) {
    s != [] && !IsSpace(s[0]) && !IsSpace(s[|s| - 1])
  }

  /** `_split_into_paragraphs`: the non-empty stripped pieces between
      blank-line gaps. */
  function SplitParagraphs(text: string): (ps: seq<string>)
    ensures forall k :: 0 <= k < |ps| ==> Trimmed(ps[k])
  {
    var pieces := Pieces(text, SplitSpans(BlankLine, text));
    StripNonEmptyTrimmed(pieces);
    StripNonEmpty(pieces)
  }

  /** `_split_into_sentences`: the non-empty stripped pieces between
      sentence breaks. */
  function SplitSentences(text: string): (ss: seq<string>)
    ensures forall k :: 0 <= k < |ss| ==> Trimmed(ss[k])
  {
    var pieces := Pieces(text, SplitSpans(SentenceBreak, text));
    StripNonEmptyTrimmed(pieces);
    StripNonEmpty(pieces)
  }

  /** A paragraph separator: a whitespace run of at least two characters
      that starts and ends with a newline. */
  predicate IsBlankLineGap(gap: string) {
    |gap| >= 2 && gap[0] == '\n' && gap[|gap| - 1] == '\n' && AllSpace(gap)
  }

  /** A sentence separator: a non-empty maximal whitespace run right after
      '.', '!' or '?'. */
  predicate IsSentenceGap(text: string, lo: nat, hi: nat)
    requires lo <= hi <= |text|
  {
    && lo < hi && AllSpace(text[lo..hi])
    && 0 < lo && IsSentenceEnd(text[lo - 1])
    && (hi == |text| || !IsSpace(text[hi]))
  }

  /** The paragraphs are the stripped, non-empty pieces between consecutive
      blank-line separators, in text order. */
  lemma ParagraphsSplitAtBlankLines(text: string)
    ensures var sp := SplitSpans(BlankLine, text);
            forall k :: 0 <= k < |sp| - 1 ==> sp[k].1 <= sp[k + 1].0 && IsBlankLineGap(text[sp[k].1..sp[k + 1].0])
  {
    var sp := SplitSpans(BlankLine, text);
    SplitSpansAreSplit(BlankLine, text);
    forall k | 0 <= k < |sp| - 1
      ensures sp[k].1 <= sp[k + 1].0 && IsBlankLineGap(text[sp[k].1..sp[k + 1].0])
    {
      assert MatchAt(BlankLine, text, sp[k].1) == Some(sp[k + 1].0);
    }
  }

  /** The sentences are the stripped, non-empty pieces between consecutive
      whitespace runs that follow a sentence-ending mark, in text order. */
  lemma SentencesSplitAfterMarks(text: string)
    ensures var sp := SplitSpans(SentenceBreak, text);
            forall k :: 0 <= k < |sp| - 1 ==> sp[k].1 <= sp[k + 1].0 && IsSentenceGap(text, sp[k].1, sp[k + 1].0)
  {
    var sp := SplitSpans(SentenceBreak, text);
    SplitSpansAreSplit(SentenceBreak, text);
    forall k | 0 <= k < |sp| - 1
      ensures sp[k].1 <= sp[k + 1].0 && IsSentenceGap(text, sp[k].1, sp[k + 1].0)
    {
      assert MatchAt(SentenceBreak, text, sp[k].1) == Some(sp[k + 1].0);
    }
  }

  /** Text that is empty or all whitespace has no sentences (and so the
      sentence strategy makes no chunks of it). */
  lemma NoSentencesInBlankText(text: string)
    requires AllSpace(text)
    ensures SplitSentences(text) == []
  {
    var sp := SplitSpans(SentenceBreak, text);
    forall i | 0 <= i <= |text| ensures MatchAt(SentenceBreak, text, i).None? {
      if 0 < i <= |text| { assert IsSpace(text[i - 1]); }
    }
    SpansWithoutMatch(SentenceBreak, text, 0, 0);
    assert sp == [(0, |text|)];
    PiecesAt(text, sp);
    var ps := Pieces(text, sp);
    assert ps[0] == text[0..|text|] == text;
    assert Strip(text) == [];
    assert ps[..0] == [];
    assert StripNonEmpty(ps) == StripNonEmpty(ps[..0]) == [];
  }

  /** Without any match the split returns the rest of the text as its one piece. */
  lemma {:induction false} SpansWithoutMatch(kind: Splitter, text: string, start: nat, i: nat)
    requires start <= i <= |text|
    requires forall j :: i <= j <= |text| ==> MatchAt(kind, text, j).None?
    ensures Spans(kind, text, start, i) == [(start, |text|)]
    decreases |text| - i
  {
    if i < |text| {
      SpansWithoutMatch(kind, text, start, i + 1);
    }
  }
}
