/** `ChunkingEngine`'s strategy methods, written with the source's loops and
    proved to compute the functions of `Strategies`, `SentenceGrouping` and
    `ParagraphGrouping`.  The engine's configuration never changes after
    construction, so it is passed as the value `e`. */
module ChunkingEngine {
  import opened Wrappers
  import opened Text
  import opened Tokens
  import opened Splitters
  import opened DocumentProcessor
  import opened ChunkModel
  import SG = SentenceGrouping
  import PG = ParagraphGrouping
  import opened Strategies

  /** `chunk_document(document, strategy)`: the strategy name selects the
      splitter; any other name is an error that names it. */
  method ChunkDocument(e: Engine, doc: ProcessedDocument, strategy: string)
    returns (r: Result<seq<TextChunk>, string>)
    requires strategy == "fixed" && e.tok.encode(doc.fullText) != [] ==> Step(e) > 0
    ensures strategy == "smart" ==> r == Ok(SmartChunks(e, doc))
    ensures strategy == "fixed" ==> r == Ok(FixedChunks(e, doc.fullText))
    ensures strategy == "sentence" ==> r == Ok(SentenceChunks(e, doc.fullText))
    ensures strategy == "section" ==> r == Ok(SectionChunks(e, doc.sections))
    ensures r.Ok? <==> strategy in {"smart", "fixed", "sentence", "section"}
    ensures r.Err? ==> r.error == "Unknown chunking strategy: " + strategy
  {
    if strategy == "smart" {
      var chunks := SmartChunk(e, doc);
      r := Ok(chunks);
    } else if strategy == "fixed" {
      var chunks := FixedChunk(e, doc.fullText);
      r := Ok(chunks);
    } else if strategy == "sentence" {
      var chunks := SentenceChunk(e, doc.fullText);
      r := Ok(chunks);
    } else if strategy == "section" {
      var chunks := SectionChunk(e, doc);
      r := Ok(chunks);
    } else {
      r := Err("Unknown chunking strategy: " + strategy);
    }
  }

  /** `_smart_chunk`: whole sections when they fit, split ones otherwise,
      ids running on across sections. */
  method SmartChunk(e: Engine, doc: ProcessedDocument) returns (chunks: seq<TextChunk>)
    ensures chunks == SmartChunks(e, doc)
  {
    var secs := doc.sections;
    chunks := [];
    var chunkId: nat := 0;
    for i := 0 to |secs|
      invariant chunks == SmartPlan(e, secs[..i]).chunks
      invariant chunkId == |chunks|
    {
      var section := secs[i];
      var sectionTokens := CountTokens(e.tok, section.content);
      if sectionTokens <= e.chunkSize {
        chunks := chunks + [TextChunk(section.content, chunkId, Some(section.title), Some(section.level),
                                      sectionTokens, SectionPreserved, true)];
        chunkId := chunkId + 1;
      } else {
        var sectionChunks := SplitLongSection(e, section, chunkId);
        chunks := chunks + sectionChunks;
        chunkId := chunkId + |sectionChunks|;
      }
      assert secs[..i + 1][..i] == secs[..i];
    }
    assert secs[..|secs|] == secs;
  }

  /** `_split_long_section(section, start_chunk_id)`: the section's
      paragraphs, grouped. */
  method SplitLongSection(e: Engine, section: DocumentSection, start: nat) returns (chunks: seq<TextChunk>)
    ensures chunks == PG.SplitPlan(e, section, start).chunks
  {
    var paragraphs := SplitParagraphs(section.content);
    chunks := GroupParagraphs(e, section, start, paragraphs);
  }

  /** The loop of `_split_long_section`: each paragraph is added to the
      buffer by `AddParagraph`; what is left is saved as the last chunk. */
  method GroupParagraphs(e: Engine, section: DocumentSection, start: nat, paragraphs: seq<string>)
    returns (chunks: seq<TextChunk>)
    ensures chunks == PG.Finish(e, section, PG.Fold(e, section, start, paragraphs)).chunks
  {
    chunks := [];
    var current: seq<string> := [];
    var currentTokens: nat := 0;
    var chunkId := start;
    assert paragraphs[..0] == [];
    for i := 0 to |paragraphs|
      invariant var st := PG.Fold(e, section, start, paragraphs[..i]);
                chunks == st.chunks && current == st.Current()
                && currentTokens == st.currentTokens && chunkId == st.chunkId
    {
      ghost var st := PG.Fold(e, section, start, paragraphs[..i]);
      ParagraphFoldNext(e, section, start, paragraphs, i);
      chunks, current, currentTokens, chunkId :=
        AddParagraph(e, section, st, chunks, current, currentTokens, chunkId, paragraphs[i]);
    }
    assert paragraphs[..|paragraphs|] == paragraphs;
    if current != [] {
      chunks := chunks + [CreateChunkFromParagraphs(e, current, chunkId, section)];
    }
  }

  /** One turn of the paragraph loop of `_split_long_section`, on the loop's
      variables (which `st` describes): an oversized paragraph is flushed
      around and split by sentences; a budget overflow flushes and seeds the
      next buffer with the overlap tail of the last chunk; otherwise the
      paragraph joins the buffer. */
  method AddParagraph(e: Engine, section: DocumentSection, ghost st: PG.Acc,
                      chunks: seq<TextChunk>, current: seq<string>, currentTokens: nat, chunkId: nat,
                      para: string)
    returns (chunks': seq<TextChunk>, current': seq<string>, currentTokens': nat, chunkId': nat)
    requires chunks == st.chunks && current == st.Current()
    requires currentTokens == st.currentTokens && chunkId == st.chunkId
    ensures var st' := PG.Step(e, section, st, para);
            chunks' == st'.chunks && current' == st'.Current()
            && currentTokens' == st'.currentTokens && chunkId' == st'.chunkId
  {
    var paraTokens := CountTokens(e.tok, para);
    if paraTokens > e.chunkSize {
      chunks', current', currentTokens', chunkId' := AddLargeParagraph(e, section, st, chunks, current, currentTokens, chunkId, para);
    } else if currentTokens + paraTokens > e.chunkSize {
      chunks', current', currentTokens', chunkId' := AddOverflowingParagraph(e, section, st, chunks, current, chunkId, para);
    } else {
      PG.SavedEffect(e, section, st);
      PG.AppendEffect(e, section, st, para);
      chunks', chunkId' := chunks, chunkId;
      current' := current + [para];
      currentTokens' := currentTokens + paraTokens;
    }
  }

  /** The oversized-paragraph branch: save the buffer, clear it, and append
      the paragraph's sentence chunks. */
  method AddLargeParagraph(e: Engine, section: DocumentSection, ghost st: PG.Acc,
                           chunks: seq<TextChunk>, current: seq<string>, currentTokens: nat, chunkId: nat,
                           para: string)
    returns (chunks': seq<TextChunk>, current': seq<string>, currentTokens': nat, chunkId': nat)
    requires chunks == st.chunks && current == st.Current()
    requires currentTokens == st.currentTokens && chunkId == st.chunkId
    requires CountTokens(e.tok, para) > e.chunkSize
    ensures var st' := PG.Step(e, section, st, para);
            chunks' == st'.chunks && current' == st'.Current()
            && currentTokens' == st'.currentTokens && chunkId' == st'.chunkId
  {
    ghost var saved := PG.Saved(e, section, st);
    PG.SavedEffect(e, section, st);
    PG.LargeEffect(e, section, st, para);
    chunks', chunkId' := SaveCurrent(e, section, chunks, current, chunkId);
    current', currentTokens' := current, currentTokens;
    if current != [] {
      current', currentTokens' := [], 0;
    }
    assert chunks' == saved.chunks && chunkId' == saved.chunkId;
    assert current' == saved.Current() && currentTokens' == saved.currentTokens;
    var paraChunks := SplitLargeParagraph(e, para, chunkId', section);
    chunks' := chunks' + paraChunks;
    chunkId' := chunkId' + |paraChunks|;
  }

  /** The budget-overflow branch: save the buffer and start the next one
      with the overlap tail of the last chunk, when there is one and
      overlap is on, followed by the paragraph. */
  method AddOverflowingParagraph(e: Engine, section: DocumentSection, ghost st: PG.Acc,
                                 chunks: seq<TextChunk>, current: seq<string>, chunkId: nat,
                                 para: string)
    returns (chunks': seq<TextChunk>, current': seq<string>, currentTokens': nat, chunkId': nat)
    requires chunks == st.chunks && current == st.Current() && chunkId == st.chunkId
    requires var paraTokens := CountTokens(e.tok, para);
             paraTokens <= e.chunkSize && st.currentTokens + paraTokens > e.chunkSize
    ensures var st' := PG.Step(e, section, st, para);
            chunks' == st'.chunks && current' == st'.Current()
            && currentTokens' == st'.currentTokens && chunkId' == st'.chunkId
  {
    var paraTokens := CountTokens(e.tok, para);
    PG.SavedEffect(e, section, st);
    PG.OverflowEffect(e, section, st, para);
    chunks', chunkId' := SaveCurrent(e, section, chunks, current, chunkId);
    if chunks' != [] && e.chunkOverlap > 0 {
      var overlapText := OverlapText(e, chunks'[|chunks'| - 1].content);
      current' := [overlapText, para];
      currentTokens' := CountTokens(e.tok, overlapText) + paraTokens;
    } else {
      current' := [para];
      currentTokens' := paraTokens;
    }
  }

  /** The `if current_chunk:` save that opens the first two branches of the
      paragraph loop. */
  method SaveCurrent(e: Engine, section: DocumentSection, chunks: seq<TextChunk>, current: seq<string>, chunkId: nat)
    returns (chunks': seq<TextChunk>, chunkId': nat)
    ensures current != [] ==> chunks' == chunks + [CreateChunkFromParagraphs(e, current, chunkId, section)] && chunkId' == chunkId + 1
    ensures current == [] ==> chunks' == chunks && chunkId' == chunkId
  {
    chunks', chunkId' := chunks, chunkId;
    if current != [] {
      chunks' := chunks + [CreateChunkFromParagraphs(e, current, chunkId, section)];
      chunkId' := chunkId + 1;
    }
  }

  /** `_split_large_paragraph(paragraph, start_chunk_id, section)`: the
      paragraph's sentences, grouped with the overlap carried and tagged
      'sentence_split'. */
  method SplitLargeParagraph(e: Engine, paragraph: string, start: nat, section: DocumentSection)
    returns (chunks: seq<TextChunk>)
    ensures chunks == PG.LargeParagraph(e, section, start, paragraph).chunks
  {
    var sentences := SplitSentences(paragraph);
    chunks := GroupSentences(e, e.chunkOverlap > 0, PG.SentenceOrigin(section), start, sentences);
  }

  /** The sentence loop shared by `_split_large_paragraph` (which carries
      the overlap tail into the next buffer when `chunk_overlap > 0`) and
      `_sentence_chunk` (which never does): a non-empty buffer is flushed
      when the next sentence would push its running total over the budget. */
  method GroupSentences(e: Engine, carry: bool, o: Origin, start: nat, sentences: seq<string>)
    returns (chunks: seq<TextChunk>)
    ensures chunks == SG.Chunks(e, carry, o, start, sentences)
  {
    chunks := [];
    var current: seq<string> := [];
    var currentTokens: nat := 0;
    var chunkId := start;
    assert sentences[..0] == [];
    for i := 0 to |sentences|
      invariant var st := SG.Fold(e, carry, o, start, sentences[..i]);
                chunks == st.chunks && current == st.Current()
                && currentTokens == st.currentTokens && chunkId == st.chunkId
    {
      ghost var st := SG.Fold(e, carry, o, start, sentences[..i]);
      var sentence := sentences[i];
      var sentTokens := CountTokens(e.tok, sentence);
      if currentTokens + sentTokens > e.chunkSize && current != [] {
        var chunkText := Join(" ", current);
        chunks := chunks + [MakeChunk(e, chunkText, chunkId, o)];
        chunkId := chunkId + 1;
        if carry {
          var overlapText := OverlapText(e, chunkText);
          current := [overlapText, sentence];
          currentTokens := CountTokens(e.tok, overlapText) + sentTokens;
        } else {
          current := [sentence];
          currentTokens := sentTokens;
        }
      } else {
        current := current + [sentence];
        currentTokens := currentTokens + sentTokens;
      }
      SG.StepEffect(e, carry, o, st, sentence);
      FoldNext(e, carry, o, start, sentences, i);
    }
    assert sentences[..|sentences|] == sentences;
    if current != [] {
      var chunkText := Join(" ", current);
      chunks := chunks + [MakeChunk(e, chunkText, chunkId, o)];
    }
  }

  /** `_fixed_chunk(text)`: a window of `chunk_size` tokens that advances by
      `chunk_size - chunk_overlap`.  The source does not check that this step
      is positive; when it is not and there are tokens, the loop never ends,
      so that case is excluded. */
  method FixedChunk(e: Engine, text: string) returns (chunks: seq<TextChunk>)
    requires e.tok.encode(text) != [] ==> Step(e) > 0
    ensures chunks == FixedChunks(e, text)
  {
    chunks := [];
    var tokens := e.tok.encode(text);
    var chunkId: nat := 0;
    var i: nat := 0;
    ghost var done: seq<nat> := [];
    while i < |tokens|
      invariant tokens != [] ==> Starts(|tokens|, Step(e), 0) == done + Starts(|tokens|, Step(e), i)
      invariant tokens == [] ==> i == 0 && done == []
      invariant chunkId == |done| == |chunks|
      invariant forall k :: 0 <= k < |done| ==> done[k] <= |tokens| && chunks[k] == WindowChunk(e, tokens, done[k], k)
      decreases |tokens| - i
    {
      var chunkTokens := Window(e, tokens, i);
      var chunkText := e.tok.decode(chunkTokens);
      chunks := chunks + [TextChunk(chunkText, chunkId, None, None, |chunkTokens|, FixedWindow, false)];
      assert Starts(|tokens|, Step(e), i) == [i] + Starts(|tokens|, Step(e), i + Step(e));
      done := done + [i];
      i := i + e.chunkSize - e.chunkOverlap;
      chunkId := chunkId + 1;
    }
    if tokens != [] {
      assert Starts(|tokens|, Step(e), i) == [];
      assert done == Starts(|tokens|, Step(e), 0);
      FixedChunksByWindows(e, text, chunks);
    }
  }

  /** `_sentence_chunk(text)`: the text's sentences, grouped with no
      overlap and no section, tagged 'sentence'. */
  method SentenceChunk(e: Engine, text: string) returns (chunks: seq<TextChunk>)
    ensures chunks == SentenceChunks(e, text)
  {
    var sentences := SplitSentences(text);
    chunks := GroupSentences(e, false, DocOrigin(), 0, sentences);
  }

  /** `_section_chunk(document)`: one complete chunk per section. */
  method SectionChunk(e: Engine, doc: ProcessedDocument) returns (chunks: seq<TextChunk>)
    ensures chunks == SectionChunks(e, doc.sections)
  {
    var secs := doc.sections;
    chunks := [];
    for chunkId := 0 to |secs|
      invariant chunks == SectionChunks(e, secs[..chunkId])
    {
      var section := secs[chunkId];
      chunks := chunks + [TextChunk(section.content, chunkId, Some(section.title), Some(section.level),
                                    CountTokens(e.tok, section.content), WholeSection, true)];
      assert secs[..chunkId + 1][..chunkId] == secs[..chunkId];
    }
    assert secs[..|secs|] == secs;
  }

  lemma FoldNext(e: Engine, carry: bool, o: Origin, start: nat, units: seq<string>, i: nat)
    requires i < |units|
    ensures SG.Fold(e, carry, o, start, units[..i + 1]) == SG.Step(e, carry, o, SG.Fold(e, carry, o, start, units[..i]), units[i])
  {
    assert units[..i + 1][..i] == units[..i];
  }

  lemma ParagraphFoldNext(e: Engine, sec: DocumentSection, start: nat, paras: seq<string>, i: nat)
    requires i < |paras|
    ensures PG.Fold(e, sec, start, paras[..i + 1]) == PG.Step(e, sec, PG.Fold(e, sec, start, paras[..i]), paras[i])
  {
    assert paras[..i + 1][..i] == paras[..i];
  }
}
