/** The paragraph-level accumulate/flush loop of `_split_long_section`, as a
    fold over the section's paragraphs.  A paragraph over the budget flushes
    the buffer and is handed to the sentence-level loop
    (`_split_large_paragraph`); a paragraph that does not fit beside the
    buffer flushes it and starts a new buffer seeded with the overlap tail;
    any other paragraph is appended.  The state is the one of the sentence
    loop, with the same `heads`/`runs` bookkeeping; the own units of a
    sentence-split chunk are sentences, those of a paragraph chunk are
    paragraphs. */
module ParagraphGrouping {
  import opened Wrappers
  import opened Text
  import opened Tokens
  import opened Splitters
  import opened DocumentProcessor
  import opened ChunkModel
  import SG = SentenceGrouping

  type Acc = SG.Acc

  function SentenceOrigin(sec: DocumentSection): Origin {
    SectionOrigin(SentenceSplit, sec)
  }

  /** `_split_large_paragraph(para, chunk_id, section)`, with its overlap
      bookkeeping. */
  function LargeParagraph(e: Engine, sec: DocumentSection, start: nat, p: string): Acc {
    SG.Finish(e, SentenceOrigin(sec),
              SG.Fold(e, e.chunkOverlap > 0, SentenceOrigin(sec), start, SplitSentences(p)))
  }

  /** Saving the buffer as a 'paragraph_based' chunk. */
  function Flush(e: Engine, sec: DocumentSection, st: Acc): Acc {
    st.(chunks := st.chunks + [CreateChunkFromParagraphs(e, st.Current(), st.chunkId, sec)],
        chunkId := st.chunkId + 1,
        heads := st.heads + [st.head],
        runs := st.runs + [st.run],
        head := [], run := [], currentTokens := 0)
  }

  /** The `if current_chunk:` save that opens the first two branches. */
  function Saved(e: Engine, sec: DocumentSection, st: Acc): Acc {
    if st.Current() != [] then Flush(e, sec, st) else st
  }

  /** Appending chunks made elsewhere, with their bookkeeping. */
  function Extend(st: Acc, chunks: seq<TextChunk>, heads: seq<seq<string>>, runs: seq<seq<string>>): Acc {
    st.(chunks := st.chunks + chunks,
        chunkId := st.chunkId + |chunks|,
        heads := st.heads + heads,
        runs := st.runs + runs)
  }

  /** A paragraph over the budget: save the buffer, then split the paragraph
      by sentences; the buffer stays empty. */
  function LargeStep(e: Engine, sec: DocumentSection, st: Acc, p: string): Acc {
    var saved := Saved(e, sec, st);
    var sub := LargeParagraph(e, sec, saved.chunkId, p);
    Extend(saved, sub.chunks, sub.heads, sub.runs)
  }

  /** A paragraph that does not fit beside the buffer: save the buffer and
      start a new one with the overlap tail of the last chunk (when there is
      one and overlap is on) and the paragraph. */
  function OverflowStep(e: Engine, sec: DocumentSection, st: Acc, p: string): Acc {
    var t := CountTokens(e.tok, p);
    var saved := Saved(e, sec, st);
    if saved.chunks != [] && e.chunkOverlap > 0 then
      var ov := OverlapText(e, saved.chunks[|saved.chunks| - 1].content);
      saved.(head := [ov], run := [p], currentTokens := CountTokens(e.tok, ov) + t)
    else
      saved.(head := [], run := [p], currentTokens := t)
  }

  function AppendStep(e: Engine, st: Acc, p: string): Acc {
    st.(run := st.run + [p], currentTokens := st.currentTokens + CountTokens(e.tok, p))
  }

  /** One iteration of the paragraph loop. */
  function Step(e: Engine, sec: DocumentSection, st: Acc, p: string): Acc {
    var t := CountTokens(e.tok, p);
    if t > e.chunkSize then LargeStep(e, sec, st, p)
    else if st.currentTokens + t > e.chunkSize then OverflowStep(e, sec, st, p)
    else AppendStep(e, st, p)
  }

  function Fold(e: Engine, sec: DocumentSection, start: nat, paras: seq<string>): Acc
    decreases |paras|
  {
    if paras == [] then SG.Init(start)
    else Step(e, sec, Fold(e, sec, start, paras[..|paras| - 1]), paras[|paras| - 1])
  }

  /** The final `if current_chunk:` save. */
  function Finish(e: Engine, sec: DocumentSection, st: Acc): Acc {
    if st.Current() == [] then st else Flush(e, sec, st)
  }

  /** The plan of `_split_long_section(section, start_chunk_id)`. */
  function SplitPlan(e: Engine, sec: DocumentSection, start: nat): Acc {
    Finish(e, sec, Fold(e, sec, start, SplitParagraphs(sec.content)))
  }

  /** The units a paragraph contributes: its sentences when it is over the
      budget, else the paragraph itself. */
  function Units(e: Engine, p: string): seq<string> {
    if CountTokens(e.tok, p) > e.chunkSize then SplitSentences(p) else [p]
  }

  /** The units of a list of paragraphs, in order. */
  function Leaves(e: Engine, paras: seq<string>): seq<string>
    decreases |paras|
  {
    if paras == [] then []
    else Leaves(e, paras[..|paras| - 1]) + Units(e, paras[|paras| - 1])
  }

  // ---------------------------------------------------------------------
  // The three branches in terms of the loop's own variables

  lemma SavedEffect(e: Engine, sec: DocumentSection, st: Acc)
    ensures var saved := Saved(e, sec, st);
            && saved.chunks == (if st.Current() != [] then st.chunks + [CreateChunkFromParagraphs(e, st.Current(), st.chunkId, sec)] else st.chunks)
            && saved.chunkId == (if st.Current() != [] then st.chunkId + 1 else st.chunkId)
            && saved.Current() == [] && saved.currentTokens == (if st.Current() != [] then 0 else st.currentTokens)
  {
  }

  lemma LargeEffect(e: Engine, sec: DocumentSection, st: Acc, p: string)
    requires CountTokens(e.tok, p) > e.chunkSize
    ensures var saved := Saved(e, sec, st);
            var st' := Step(e, sec, st, p);
            && st'.chunks == saved.chunks + LargeParagraph(e, sec, saved.chunkId, p).chunks
            && st'.chunkId == saved.chunkId + |LargeParagraph(e, sec, saved.chunkId, p).chunks|
            && st'.Current() == saved.Current() && st'.currentTokens == saved.currentTokens
  {
  }

  lemma OverflowEffect(e: Engine, sec: DocumentSection, st: Acc, p: string)
    requires CountTokens(e.tok, p) <= e.chunkSize
    requires st.currentTokens + CountTokens(e.tok, p) > e.chunkSize
    ensures var saved := Saved(e, sec, st);
            var st' := Step(e, sec, st, p);
            && st'.chunks == saved.chunks && st'.chunkId == saved.chunkId
            && (saved.chunks != [] && e.chunkOverlap > 0 ==>
                  var ov := OverlapText(e, saved.chunks[|saved.chunks| - 1].content);
                  st'.Current() == [ov, p] && st'.currentTokens == CountTokens(e.tok, ov) + CountTokens(e.tok, p))
            && (!(saved.chunks != [] && e.chunkOverlap > 0) ==>
                  st'.Current() == [p] && st'.currentTokens == CountTokens(e.tok, p))
  {
  }

  lemma AppendEffect(e: Engine, sec: DocumentSection, st: Acc, p: string)
    requires CountTokens(e.tok, p) <= e.chunkSize
    requires st.currentTokens + CountTokens(e.tok, p) <= e.chunkSize
    ensures var st' := Step(e, sec, st, p);
            && st'.chunks == st.chunks && st'.chunkId == st.chunkId
            && st'.Current() == st.Current() + [p]
            && st'.currentTokens == st.currentTokens + CountTokens(e.tok, p)
  {
    assert st.head + (st.run + [p]) == st.head + st.run + [p];
  }

  // ---------------------------------------------------------------------
  // Invariants

  predicate IsSplitTag(t: ChunkTag) {
    t == ParagraphBased || t == SentenceSplit
  }

  /** Chunk k carries the section's title and level, is numbered `start + k`,
      and is the join of its seed and its own units with its tag's
      separator. */
  predicate Numbered(e: Engine, sec: DocumentSection, start: nat, st: Acc) {
    && |st.chunks| == |st.heads| == |st.runs|
    && st.chunkId == start + |st.chunks|
    && forall k :: 0 <= k < |st.chunks| ==>
         && IsSplitTag(st.chunks[k].strategy)
         && st.chunks[k] == MakeChunk(e, Join(Separator(st.chunks[k].strategy), st.heads[k] + st.runs[k]),
                                      start + k, SectionOrigin(st.chunks[k].strategy, sec))
  }

  /** Seed `h` in front of chunk k is either nothing or the overlap tail of
      chunk k - 1. */
  predicate SeedOk(e: Engine, chunks: seq<TextChunk>, k: nat, h: seq<string>)
    requires k <= |chunks|
  {
    h == [] || (k > 0 && e.chunkOverlap > 0 && h == [OverlapText(e, chunks[k - 1].content)])
  }

  predicate Seeded(e: Engine, st: Acc)
    requires |st.heads| == |st.chunks|
  {
    && (forall k :: 0 <= k < |st.heads| ==> SeedOk(e, st.chunks, k, st.heads[k]))
    && SeedOk(e, st.chunks, |st.chunks|, st.head)
  }

  predicate Partitioned(e: Engine, paras: seq<string>, st: Acc) {
    && Flatten(st.runs) + st.run == Leaves(e, paras)
    && (forall k :: 0 <= k < |st.runs| ==> st.runs[k] != [])
    && (st.run == [] ==> st.head == [])
  }

  predicate WithinBudget(e: Engine, st: Acc)
    requires |st.heads| == |st.runs|
  {
    && (forall k :: 0 <= k < |st.runs| ==>
          |st.runs[k]| > 1 ==> SumTokens(e.tok, st.heads[k] + st.runs[k]) <= e.chunkSize)
    && (|st.run| > 1 ==> SumTokens(e.tok, st.Current()) <= e.chunkSize)
  }

  // ---------------------------------------------------------------------
  // Numbering and contents

  lemma FlushNumbered(e: Engine, sec: DocumentSection, start: nat, st: Acc)
    requires Numbered(e, sec, start, st)
    ensures Numbered(e, sec, start, Flush(e, sec, st))
  {
    var st' := Flush(e, sec, st);
    forall k | 0 <= k < |st'.chunks|
      ensures IsSplitTag(st'.chunks[k].strategy)
      ensures st'.chunks[k] == MakeChunk(e, Join(Separator(st'.chunks[k].strategy), st'.heads[k] + st'.runs[k]),
                                         start + k, SectionOrigin(st'.chunks[k].strategy, sec))
    {
      if k < |st.chunks| {
        assert st'.chunks[k] == st.chunks[k] && st'.heads[k] == st.heads[k] && st'.runs[k] == st.runs[k];
      }
    }
  }

  lemma SavedNumbered(e: Engine, sec: DocumentSection, start: nat, st: Acc)
    requires Numbered(e, sec, start, st)
    ensures Numbered(e, sec, start, Saved(e, sec, st))
  {
    if st.Current() != [] { FlushNumbered(e, sec, start, st); }
  }

  lemma ExtendNumbered(e: Engine, sec: DocumentSection, start: nat, st: Acc, units: seq<string>,
                       chunks: seq<TextChunk>, heads: seq<seq<string>>, runs: seq<seq<string>>)
    requires Numbered(e, sec, start, st)
    requires SG.Layout(e, e.chunkOverlap > 0, SentenceOrigin(sec), st.chunkId, units, chunks, heads, runs)
    ensures Numbered(e, sec, start, Extend(st, chunks, heads, runs))
  {
    var st' := Extend(st, chunks, heads, runs);
    forall k | 0 <= k < |st'.chunks|
      ensures IsSplitTag(st'.chunks[k].strategy)
      ensures st'.chunks[k] == MakeChunk(e, Join(Separator(st'.chunks[k].strategy), st'.heads[k] + st'.runs[k]),
                                         start + k, SectionOrigin(st'.chunks[k].strategy, sec))
    {
      if k < |st.chunks| {
        assert st'.chunks[k] == st.chunks[k] && st'.heads[k] == st.heads[k] && st'.runs[k] == st.runs[k];
      } else {
        var j := k - |st.chunks|;
        assert st'.chunks[k] == chunks[j] && st'.heads[k] == heads[j] && st'.runs[k] == runs[j];
      }
    }
  }

  lemma LargeParagraphLayout(e: Engine, sec: DocumentSection, start: nat, p: string)
    ensures var sub := LargeParagraph(e, sec, start, p);
            SG.Layout(e, e.chunkOverlap > 0, SentenceOrigin(sec), start, SplitSentences(p),
                      sub.chunks, sub.heads, sub.runs)
  {
    SG.FinishLayout(e, e.chunkOverlap > 0, SentenceOrigin(sec), start, SplitSentences(p));
  }

  lemma StepNumbered(e: Engine, sec: DocumentSection, start: nat, st: Acc, p: string)
    requires Numbered(e, sec, start, st)
    ensures Numbered(e, sec, start, Step(e, sec, st, p))
  {
    SavedNumbered(e, sec, start, st);
    if CountTokens(e.tok, p) > e.chunkSize {
      var saved := Saved(e, sec, st);
      var sub := LargeParagraph(e, sec, saved.chunkId, p);
      LargeParagraphLayout(e, sec, saved.chunkId, p);
      ExtendNumbered(e, sec, start, saved, SplitSentences(p), sub.chunks, sub.heads, sub.runs);
    }
  }

  // ---------------------------------------------------------------------
  // Overlap seeds

  /** A seed that is fine in front of chunk k stays fine once more chunks
      follow. */
  lemma SeedOkExtend(e: Engine, chunks: seq<TextChunk>, more: seq<TextChunk>, k: nat, h: seq<string>)
    requires k <= |chunks| && SeedOk(e, chunks, k, h)
    ensures SeedOk(e, chunks + more, k, h)
  {
    if k > 0 { assert (chunks + more)[k - 1] == chunks[k - 1]; }
  }

  lemma FlushSeeded(e: Engine, sec: DocumentSection, st: Acc)
    requires |st.heads| == |st.chunks| && Seeded(e, st)
    ensures var st' := Flush(e, sec, st); |st'.heads| == |st'.chunks| && Seeded(e, st')
  {
    var st' := Flush(e, sec, st);
    forall k | 0 <= k < |st'.heads| ensures SeedOk(e, st'.chunks, k, st'.heads[k]) {
      if k < |st.heads| {
        SeedOkExtend(e, st.chunks, st'.chunks[|st.chunks|..], k, st.heads[k]);
        assert st.chunks + st'.chunks[|st.chunks|..] == st'.chunks;
      } else {
        SeedOkExtend(e, st.chunks, st'.chunks[|st.chunks|..], k, st.head);
        assert st.chunks + st'.chunks[|st.chunks|..] == st'.chunks;
      }
    }
  }

  lemma SavedSeeded(e: Engine, sec: DocumentSection, st: Acc)
    requires |st.heads| == |st.chunks| && Seeded(e, st)
    ensures var st' := Saved(e, sec, st); |st'.heads| == |st'.chunks| && Seeded(e, st')
  {
    if st.Current() != [] { FlushSeeded(e, sec, st); }
  }

  lemma ExtendSeeded(e: Engine, sec: DocumentSection, st: Acc, units: seq<string>,
                     chunks: seq<TextChunk>, heads: seq<seq<string>>, runs: seq<seq<string>>)
    requires |st.heads| == |st.chunks| && Seeded(e, st) && st.head == []
    requires SG.Layout(e, e.chunkOverlap > 0, SentenceOrigin(sec), st.chunkId, units, chunks, heads, runs)
    ensures var st' := Extend(st, chunks, heads, runs); |st'.heads| == |st'.chunks| && Seeded(e, st')
  {
    var st' := Extend(st, chunks, heads, runs);
    forall k | 0 <= k < |st'.heads| ensures SeedOk(e, st'.chunks, k, st'.heads[k]) {
      if k < |st.heads| {
        assert st'.heads[k] == st.heads[k];
        SeedOkExtend(e, st.chunks, chunks, k, st.heads[k]);
      } else {
        var j := k - |st.heads|;
        assert st'.heads[k] == heads[j];
        assert heads[j] == SG.Seed(e, e.chunkOverlap > 0, chunks, j);
        assert j > 0 ==> st'.chunks[k - 1] == chunks[j - 1];
      }
    }
  }

  lemma StepSeeded(e: Engine, sec: DocumentSection, st: Acc, p: string)
    requires |st.heads| == |st.chunks| && Seeded(e, st)
    ensures var st' := Step(e, sec, st, p); |st'.heads| == |st'.chunks| && Seeded(e, st')
  {
    SavedSeeded(e, sec, st);
    if CountTokens(e.tok, p) > e.chunkSize {
      LargeSeeded(e, sec, st, p);
    }
  }

  lemma LargeSeeded(e: Engine, sec: DocumentSection, st: Acc, p: string)
    requires |st.heads| == |st.chunks| && Seeded(e, st)
    ensures var st' := LargeStep(e, sec, st, p); |st'.heads| == |st'.chunks| && Seeded(e, st')
  {
    SavedSeeded(e, sec, st);
    var saved := Saved(e, sec, st);
    var sub := LargeParagraph(e, sec, saved.chunkId, p);
    LargeParagraphLayout(e, sec, saved.chunkId, p);
    assert saved.head == [] by {
      if st.Current() == [] { assert st.head == []; }
    }
    ExtendSeeded(e, sec, saved, SplitSentences(p), sub.chunks, sub.heads, sub.runs);
  }

  // ---------------------------------------------------------------------
  // Partition of the units

  lemma SavedPartitioned(e: Engine, sec: DocumentSection, paras: seq<string>, st: Acc)
    requires Partitioned(e, paras, st)
    ensures var saved := Saved(e, sec, st);
            Flatten(saved.runs) + saved.run == Leaves(e, paras)
            && (forall k :: 0 <= k < |saved.runs| ==> saved.runs[k] != [])
            && (st.run == [] ==> saved == st)
  {
    if st.Current() != [] {
      FlattenSnoc(st.runs, st.run);
    }
  }

  lemma ExtendPartitioned(st: Acc, chunks: seq<TextChunk>, heads: seq<seq<string>>, runs: seq<seq<string>>)
    requires st.run == [] && forall k :: 0 <= k < |st.runs| ==> st.runs[k] != []
    requires forall k :: 0 <= k < |runs| ==> runs[k] != []
    ensures var st' := Extend(st, chunks, heads, runs);
            && Flatten(st'.runs) + st'.run == Flatten(st.runs) + Flatten(runs)
            && (forall k :: 0 <= k < |st'.runs| ==> st'.runs[k] != [])
  {
    FlattenAppend(st.runs, runs);
    var st' := Extend(st, chunks, heads, runs);
    forall k | 0 <= k < |st'.runs| ensures st'.runs[k] != [] {
      if k >= |st.runs| { assert st'.runs[k] == runs[k - |st.runs|]; }
    }
  }

  lemma SavedEmpty(e: Engine, sec: DocumentSection, st: Acc)
    requires st.run == [] ==> st.head == []
    ensures Saved(e, sec, st).run == [] && Saved(e, sec, st).head == []
  {
  }

  lemma LargePartitioned(e: Engine, sec: DocumentSection, paras: seq<string>, st: Acc, p: string)
    requires Partitioned(e, paras, st)
    ensures var st' := LargeStep(e, sec, st, p);
            && Flatten(st'.runs) + st'.run == Leaves(e, paras) + SplitSentences(p)
            && (forall k :: 0 <= k < |st'.runs| ==> st'.runs[k] != [])
            && st'.run == [] && st'.head == []
  {
    SavedPartitioned(e, sec, paras, st);
    SavedEmpty(e, sec, st);
    var saved := Saved(e, sec, st);
    var sub := LargeParagraph(e, sec, saved.chunkId, p);
    LargeParagraphRuns(e, sec, saved.chunkId, p);
    ExtendPartitioned(saved, sub.chunks, sub.heads, sub.runs);
    var st' := Extend(saved, sub.chunks, sub.heads, sub.runs);
    assert LargeStep(e, sec, st, p) == st';
    assert Flatten(saved.runs) == Leaves(e, paras) by {
      assert Flatten(saved.runs) + saved.run == Flatten(saved.runs);
    }
    calc {
      Flatten(st'.runs) + st'.run;
      Flatten(saved.runs) + Flatten(sub.runs);
      Leaves(e, paras) + SplitSentences(p);
    }
  }

  /** The own units of the sentence-split chunks are the paragraph's sentences. */
  lemma LargeParagraphRuns(e: Engine, sec: DocumentSection, start: nat, p: string)
    ensures var sub := LargeParagraph(e, sec, start, p);
            && Flatten(sub.runs) == SplitSentences(p)
            && (forall k :: 0 <= k < |sub.runs| ==> sub.runs[k] != [])
  {
    LargeParagraphLayout(e, sec, start, p);
  }

  lemma OverflowPartitioned(e: Engine, sec: DocumentSection, paras: seq<string>, st: Acc, p: string)
    requires Partitioned(e, paras, st)
    ensures var st' := OverflowStep(e, sec, st, p);
            && Flatten(st'.runs) + st'.run == Leaves(e, paras) + [p]
            && (forall k :: 0 <= k < |st'.runs| ==> st'.runs[k] != [])
            && st'.run != []
  {
    SavedPartitioned(e, sec, paras, st);
  }

  lemma StepPartitioned(e: Engine, sec: DocumentSection, paras: seq<string>, st: Acc, p: string)
    requires Partitioned(e, paras, st)
    ensures Partitioned(e, paras + [p], Step(e, sec, st, p))
  {
    assert (paras + [p])[..|paras|] == paras;
    assert Leaves(e, paras + [p]) == Leaves(e, paras) + Units(e, p);
    var t := CountTokens(e.tok, p);
    if t > e.chunkSize {
      LargePartitioned(e, sec, paras, st, p);
    } else if st.currentTokens + t > e.chunkSize {
      OverflowPartitioned(e, sec, paras, st, p);
    }
  }

  // ---------------------------------------------------------------------
  // Token totals and the budget

  lemma SavedCounted(e: Engine, sec: DocumentSection, st: Acc)
    requires SG.Counted(e, st)
    ensures SG.Counted(e, Saved(e, sec, st))
  {
  }

  lemma OverflowCounted(e: Engine, sec: DocumentSection, st: Acc, p: string)
    ensures SG.Counted(e, OverflowStep(e, sec, st, p))
  {
    var saved := Saved(e, sec, st);
    if saved.chunks != [] && e.chunkOverlap > 0 {
      var ov := OverlapText(e, saved.chunks[|saved.chunks| - 1].content);
      SumTokensSnoc(e.tok, [ov], p);
      assert [ov] + [p] == [ov, p];
      assert [ov][..0] == [];
    } else {
      assert [p][..0] == [];
    }
  }

  lemma AppendCounted(e: Engine, st: Acc, p: string)
    requires SG.Counted(e, st)
    ensures SG.Counted(e, AppendStep(e, st, p))
  {
    SumTokensSnoc(e.tok, st.Current(), p);
    assert st.Current() + [p] == st.head + (st.run + [p]);
  }

  lemma StepCounted(e: Engine, sec: DocumentSection, st: Acc, p: string)
    requires SG.Counted(e, st)
    ensures SG.Counted(e, Step(e, sec, st, p))
  {
    var t := CountTokens(e.tok, p);
    if t > e.chunkSize {
      SavedCounted(e, sec, st);
    } else if st.currentTokens + t > e.chunkSize {
      OverflowCounted(e, sec, st, p);
    } else {
      AppendCounted(e, st, p);
    }
  }

  lemma ExtendWithinBudget(e: Engine, st: Acc, chunks: seq<TextChunk>, heads: seq<seq<string>>, runs: seq<seq<string>>)
    requires |st.heads| == |st.runs| && WithinBudget(e, st) && st.run == []
    requires |heads| == |runs| && forall k :: 0 <= k < |runs| ==> runs[k] != []
    requires SG.Budgeted(e, heads, runs)
    ensures var st' := Extend(st, chunks, heads, runs); |st'.heads| == |st'.runs| && WithinBudget(e, st')
  {
    var st' := Extend(st, chunks, heads, runs);
    forall k | 0 <= k < |st'.runs| && |st'.runs[k]| > 1
      ensures SumTokens(e.tok, st'.heads[k] + st'.runs[k]) <= e.chunkSize
    {
      if k >= |st.runs| {
        var j := k - |st.runs|;
        assert st'.heads[k] == heads[j] && st'.runs[k] == runs[j];
      } else {
        assert st'.heads[k] == st.heads[k] && st'.runs[k] == st.runs[k];
      }
    }
  }

  lemma SavedWithinBudget(e: Engine, sec: DocumentSection, st: Acc)
    requires |st.heads| == |st.runs| && WithinBudget(e, st)
    ensures var saved := Saved(e, sec, st); |saved.heads| == |saved.runs| && WithinBudget(e, saved)
  {
    var saved := Saved(e, sec, st);
    forall k | 0 <= k < |saved.runs| && |saved.runs[k]| > 1
      ensures SumTokens(e.tok, saved.heads[k] + saved.runs[k]) <= e.chunkSize
    {
      if k < |st.runs| {
        assert saved.heads[k] == st.heads[k] && saved.runs[k] == st.runs[k];
      }
    }
  }

  lemma LargeWithinBudget(e: Engine, sec: DocumentSection, st: Acc, p: string)
    requires |st.heads| == |st.runs| && WithinBudget(e, st)
    requires st.run == [] ==> st.head == []
    ensures var st' := LargeStep(e, sec, st, p); |st'.heads| == |st'.runs| && WithinBudget(e, st')
  {
    SavedWithinBudget(e, sec, st);
    SavedEmpty(e, sec, st);
    var saved := Saved(e, sec, st);
    var sub := LargeParagraph(e, sec, saved.chunkId, p);
    var o := SentenceOrigin(sec);
    SG.FinishBudgeted(e, e.chunkOverlap > 0, o, saved.chunkId, SplitSentences(p));
    ExtendWithinBudget(e, saved, sub.chunks, sub.heads, sub.runs);
  }

  lemma AppendWithinBudget(e: Engine, st: Acc, p: string)
    requires |st.heads| == |st.runs| && SG.Counted(e, st) && WithinBudget(e, st)
    requires st.currentTokens + CountTokens(e.tok, p) <= e.chunkSize
    ensures var st' := AppendStep(e, st, p); |st'.heads| == |st'.runs| && WithinBudget(e, st')
  {
    SumTokensSnoc(e.tok, st.Current(), p);
    assert st.Current() + [p] == st.head + (st.run + [p]);
  }

  lemma StepWithinBudget(e: Engine, sec: DocumentSection, st: Acc, p: string)
    requires |st.heads| == |st.runs| && SG.Counted(e, st) && WithinBudget(e, st)
    requires st.run == [] ==> st.head == []
    ensures var st' := Step(e, sec, st, p); |st'.heads| == |st'.runs| && WithinBudget(e, st')
  {
    var t := CountTokens(e.tok, p);
    if t > e.chunkSize {
      LargeWithinBudget(e, sec, st, p);
    } else if st.currentTokens + t > e.chunkSize {
      SavedWithinBudget(e, sec, st);
    } else {
      AppendWithinBudget(e, st, p);
    }
  }

  // ---------------------------------------------------------------------
  // The fold

  lemma {:induction false} FoldShape(e: Engine, sec: DocumentSection, start: nat, paras: seq<string>)
    ensures var st := Fold(e, sec, start, paras);
            Numbered(e, sec, start, st) && Seeded(e, st) && Partitioned(e, paras, st)
    decreases |paras|
  {
    if paras != [] {
      var init, p := paras[..|paras| - 1], paras[|paras| - 1];
      assert init + [p] == paras;
      FoldShape(e, sec, start, init);
      FoldSnoc(e, sec, start, init, p);
      StepShape(e, sec, start, init, Fold(e, sec, start, init), p);
    }
  }

  lemma FoldSnoc(e: Engine, sec: DocumentSection, start: nat, paras: seq<string>, p: string)
    ensures Fold(e, sec, start, paras + [p]) == Step(e, sec, Fold(e, sec, start, paras), p)
  {
    assert (paras + [p])[..|paras|] == paras;
  }

  lemma StepShape(e: Engine, sec: DocumentSection, start: nat, paras: seq<string>, st: Acc, p: string)
    requires Numbered(e, sec, start, st) && Seeded(e, st) && Partitioned(e, paras, st)
    ensures var st' := Step(e, sec, st, p);
            Numbered(e, sec, start, st') && Seeded(e, st') && Partitioned(e, paras + [p], st')
  {
    StepNumbered(e, sec, start, st, p);
    StepSeeded(e, sec, st, p);
    StepPartitioned(e, sec, paras, st, p);
  }

  lemma {:induction false} FoldCounted(e: Engine, sec: DocumentSection, start: nat, paras: seq<string>)
    ensures SG.Counted(e, Fold(e, sec, start, paras))
    decreases |paras|
  {
    if paras != [] {
      var init, p := paras[..|paras| - 1], paras[|paras| - 1];
      FoldCounted(e, sec, start, init);
      StepCounted(e, sec, Fold(e, sec, start, init), p);
    }
  }

  lemma {:induction false} FoldWithinBudget(e: Engine, sec: DocumentSection, start: nat, paras: seq<string>)
    ensures var st := Fold(e, sec, start, paras); |st.heads| == |st.runs| && WithinBudget(e, st)
    decreases |paras|
  {
    if paras != [] {
      var init, p := paras[..|paras| - 1], paras[|paras| - 1];
      FoldWithinBudget(e, sec, start, init);
      FoldCounted(e, sec, start, init);
      FoldShape(e, sec, start, init);
      StepWithinBudget(e, sec, Fold(e, sec, start, init), p);
    }
  }

  // ---------------------------------------------------------------------
  // The buffer after a flush

  /** After a budget-overflow flush of a non-empty buffer with overlap on,
      the new buffer is the overlap tail of the chunk just saved, then the
      paragraph; with overlap off it is the paragraph alone. */
  lemma OverflowBuffer(e: Engine, sec: DocumentSection, st: Acc, p: string)
    requires st.Current() != []
    ensures var st' := OverflowStep(e, sec, st, p);
            st'.Current() == (if e.chunkOverlap > 0 then [OverlapText(e, Join("\n\n", st.Current())), p] else [p])
  {
  }

  /** The flush forced by an oversized paragraph leaves an empty buffer: no
      overlap is carried into the sentence split nor out of it. */
  lemma LargeBuffer(e: Engine, sec: DocumentSection, paras: seq<string>, st: Acc, p: string)
    requires Partitioned(e, paras, st)
    ensures LargeStep(e, sec, st, p).Current() == []
  {
    LargePartitioned(e, sec, paras, st, p);
  }

  // ---------------------------------------------------------------------
  // The finished plan

  /** What `_split_long_section` returns: chunk k is numbered `start + k`, is
      tagged 'paragraph_based' or 'sentence_split', carries the section's
      title and level, and is its overlap seed (nothing, or the overlap tail
      of chunk k - 1) followed by a non-empty run of its own units, joined
      with the tag's separator; the runs, in order, are exactly `units`. */
  predicate SplitLayout(e: Engine, sec: DocumentSection, start: nat, units: seq<string>,
                        chunks: seq<TextChunk>, heads: seq<seq<string>>, runs: seq<seq<string>>)
  {
    && |chunks| == |heads| == |runs|
    && Flatten(runs) == units
    && (forall k :: 0 <= k < |runs| ==> runs[k] != [])
    && (forall k :: 0 <= k < |chunks| ==>
          && IsSplitTag(chunks[k].strategy)
          && chunks[k] == MakeChunk(e, Join(Separator(chunks[k].strategy), heads[k] + runs[k]),
                                    start + k, SectionOrigin(chunks[k].strategy, sec)))
    && (forall k :: 0 <= k < |heads| ==> SeedOk(e, chunks, k, heads[k]))
  }

  /** The units of a section: its paragraphs, an oversized one replaced by
      its sentences. */
  function SectionUnits(e: Engine, sec: DocumentSection): seq<string> {
    Leaves(e, SplitParagraphs(sec.content))
  }

  lemma FinishLayout(e: Engine, sec: DocumentSection, start: nat, paras: seq<string>, st: Acc)
    requires Numbered(e, sec, start, st) && Seeded(e, st) && Partitioned(e, paras, st)
    ensures var fin := Finish(e, sec, st);
            SplitLayout(e, sec, start, Leaves(e, paras), fin.chunks, fin.heads, fin.runs)
  {
    var fin := Finish(e, sec, st);
    if st.Current() != [] {
      assert fin == Flush(e, sec, st);
      FlattenSnoc(st.runs, st.run);
      FlushNumbered(e, sec, start, st);
      FlushSeeded(e, sec, st);
    } else {
      assert fin == st;
      assert Flatten(st.runs) + st.run == Flatten(st.runs);
    }
    NumberedLayout(e, sec, start, Leaves(e, paras), fin);
  }

  /** Numbered and seeded chunks whose runs are the units make a layout. */
  lemma NumberedLayout(e: Engine, sec: DocumentSection, start: nat, units: seq<string>, st: Acc)
    requires Numbered(e, sec, start, st) && Seeded(e, st)
    requires Flatten(st.runs) == units && forall k :: 0 <= k < |st.runs| ==> st.runs[k] != []
    ensures SplitLayout(e, sec, start, units, st.chunks, st.heads, st.runs)
  {
  }

  lemma SplitPlanLayout(e: Engine, sec: DocumentSection, start: nat)
    ensures var pl := SplitPlan(e, sec, start);
            SplitLayout(e, sec, start, SectionUnits(e, sec), pl.chunks, pl.heads, pl.runs)
  {
    var paras := SplitParagraphs(sec.content);
    FoldShape(e, sec, start, paras);
    FinishLayout(e, sec, start, paras, Fold(e, sec, start, paras));
  }

  lemma FinishBudget(e: Engine, sec: DocumentSection, st: Acc)
    requires |st.heads| == |st.runs| && WithinBudget(e, st)
    ensures var fin := Finish(e, sec, st);
            && |fin.heads| == |fin.runs|
            && forall k :: 0 <= k < |fin.runs| ==>
                 |fin.runs[k]| > 1 ==> SumTokens(e.tok, fin.heads[k] + fin.runs[k]) <= e.chunkSize
  {
    var fin := Finish(e, sec, st);
    if st.Current() != [] {
      forall k | 0 <= k < |fin.runs| && |fin.runs[k]| > 1
        ensures SumTokens(e.tok, fin.heads[k] + fin.runs[k]) <= e.chunkSize
      {
        if k < |st.runs| {
          assert fin.heads[k] == st.heads[k] && fin.runs[k] == st.runs[k];
        }
      }
    }
  }

  /** A chunk with more than one unit of its own fits the budget. */
  lemma SplitPlanBudget(e: Engine, sec: DocumentSection, start: nat)
    ensures var pl := SplitPlan(e, sec, start);
            && |pl.heads| == |pl.runs|
            && forall k :: 0 <= k < |pl.runs| ==>
                 |pl.runs[k]| > 1 ==> SumTokens(e.tok, pl.heads[k] + pl.runs[k]) <= e.chunkSize
  {
    var paras := SplitParagraphs(sec.content);
    FoldWithinBudget(e, sec, start, paras);
    FinishBudget(e, sec, Fold(e, sec, start, paras));
  }
}
