/** What each of the four chunking strategies returns, as functions of the
    input, and the properties proved about them.  The methods of
    `ChunkingEngine` compute these with the source's loops. */
module Strategies {
  import opened Wrappers
  import opened Text
  import opened Tokens
  import opened Splitters
  import opened DocumentProcessor
  import opened ChunkModel
  import SG = SentenceGrouping
  import PG = ParagraphGrouping

  // =====================================================================
  // smart

  /** The chunks of a prefix of the sections, with, for every chunk, its
      overlap seed, its own units, and the index of the section it comes
      from (bookkeeping for the properties below). */
  datatype Plan = Plan(
    chunks: seq<TextChunk>,
    heads: seq<seq<string>>,
    runs: seq<seq<string>>,
    sectionOf: seq<nat>)

  /** A section that fits the budget, kept whole. */
  function PreservedChunk(e: Engine, sec: DocumentSection, id: nat): TextChunk {
    TextChunk(sec.content, id, Some(sec.title), Some(sec.level),
              CountTokens(e.tok, sec.content), SectionPreserved, true)
  }

  predicate Fits(e: Engine, sec: DocumentSection) {
    CountTokens(e.tok, sec.content) <= e.chunkSize
  }

  /** One iteration of `_smart_chunk`: section `i`, numbered from `start`. */
  function SectionPlan(e: Engine, sec: DocumentSection, start: nat, i: nat): Plan {
    if Fits(e, sec) then Plan([PreservedChunk(e, sec, start)], [[]], [[sec.content]], [i])
    else
      var pl := PG.SplitPlan(e, sec, start);
      Plan(pl.chunks, pl.heads, pl.runs, seq(|pl.chunks|, _ => i))
  }

  function SmartPlan(e: Engine, secs: seq<DocumentSection>): Plan
    decreases |secs|
  {
    if secs == [] then Plan([], [], [], [])
    else
      var prev := SmartPlan(e, secs[..|secs| - 1]);
      var sp := SectionPlan(e, secs[|secs| - 1], |prev.chunks|, |secs| - 1);
      Plan(prev.chunks + sp.chunks, prev.heads + sp.heads, prev.runs + sp.runs, prev.sectionOf + sp.sectionOf)
  }

  /** `_smart_chunk(document)`. */
  function SmartChunks(e: Engine, doc: ProcessedDocument): seq<TextChunk> {
    SmartPlan(e, doc.sections).chunks
  }

  /** The units a section contributes: itself when it fits, else its
      paragraphs with each oversized one replaced by its sentences. */
  function WholeUnits(e: Engine, sec: DocumentSection): seq<string> {
    if Fits(e, sec) then [sec.content] else PG.SectionUnits(e, sec)
  }

  function DocUnits(e: Engine, secs: seq<DocumentSection>): seq<string>
    decreases |secs|
  {
    if secs == [] then [] else DocUnits(e, secs[..|secs| - 1]) + WholeUnits(e, secs[|secs| - 1])
  }

  /** Chunk `c`, numbered `id`, comes from section `sec`: it copies the
      section's title and level, its token count is its content's; it is
      the section verbatim, tagged 'section_preserved' and marked complete,
      exactly when the section fits the budget; otherwise it is a split
      chunk, its seed and own units joined with its tag's separator. */
  predicate ChunkFromSection(e: Engine, c: TextChunk, id: nat, sec: DocumentSection,
                             head: seq<string>, run: seq<string>)
  {
    && c.chunkId == id
    && c.tokenCount == CountTokens(e.tok, c.content)
    && c.sectionTitle == Some(sec.title) && c.sectionLevel == Some(sec.level)
    && run != []
    && (c.strategy == SectionPreserved <==> Fits(e, sec))
    && (c.strategy == SectionPreserved ==>
          c.content == sec.content && c.isCompleteSection && head == [] && run == [sec.content])
    && (c.strategy != SectionPreserved ==>
          PG.IsSplitTag(c.strategy) && !c.isCompleteSection
          && c.content == Join(Separator(c.strategy), head + run))
  }

  predicate PlanSized(pl: Plan) {
    |pl.chunks| == |pl.heads| == |pl.runs| == |pl.sectionOf|
  }

  /** A chunk of `_split_long_section` of a section that does not fit. */
  lemma SplitChunkFromSection(e: Engine, c: TextChunk, id: nat, sec: DocumentSection,
                              head: seq<string>, run: seq<string>)
    requires !Fits(e, sec) && run != [] && PG.IsSplitTag(c.strategy)
    requires c == MakeChunk(e, Join(Separator(c.strategy), head + run), id, SectionOrigin(c.strategy, sec))
    ensures ChunkFromSection(e, c, id, sec, head, run)
  {
  }

  lemma SplitSectionPlanLayout(e: Engine, sec: DocumentSection, start: nat, i: nat)
    requires !Fits(e, sec)
    ensures var sp := SectionPlan(e, sec, start, i);
            && PlanSized(sp)
            && Flatten(sp.runs) == WholeUnits(e, sec)
            && (forall k :: 0 <= k < |sp.chunks| ==>
                  && sp.sectionOf[k] == i
                  && ChunkFromSection(e, sp.chunks[k], start + k, sec, sp.heads[k], sp.runs[k])
                  && PG.SeedOk(e, sp.chunks, k, sp.heads[k]))
  {
    var pl := PG.SplitPlan(e, sec, start);
    PG.SplitPlanLayout(e, sec, start);
    var sp := SectionPlan(e, sec, start, i);
    assert sp == Plan(pl.chunks, pl.heads, pl.runs, seq(|pl.chunks|, _ => i));
    forall k | 0 <= k < |sp.chunks|
      ensures sp.sectionOf[k] == i
      ensures ChunkFromSection(e, sp.chunks[k], start + k, sec, sp.heads[k], sp.runs[k])
      ensures PG.SeedOk(e, sp.chunks, k, sp.heads[k])
    {
      SplitChunkFromSection(e, pl.chunks[k], start + k, sec, pl.heads[k], pl.runs[k]);
    }
  }

  lemma SectionPlanLayout(e: Engine, sec: DocumentSection, start: nat, i: nat)
    ensures var sp := SectionPlan(e, sec, start, i);
            && PlanSized(sp)
            && Flatten(sp.runs) == WholeUnits(e, sec)
            && (forall k :: 0 <= k < |sp.chunks| ==>
                  && sp.sectionOf[k] == i
                  && ChunkFromSection(e, sp.chunks[k], start + k, sec, sp.heads[k], sp.runs[k])
                  && PG.SeedOk(e, sp.chunks, k, sp.heads[k]))
  {
    var sp := SectionPlan(e, sec, start, i);
    if Fits(e, sec) {
      assert Flatten(sp.runs) == Flatten(sp.runs[..0]) + [sec.content];
    } else {
      SplitSectionPlanLayout(e, sec, start, i);
    }
  }

  /** Everything `_smart_chunk` promises about its output, for the plan of
      the first sections. */
  predicate SmartLayout(e: Engine, secs: seq<DocumentSection>, pl: Plan) {
    && PlanSized(pl)
    && (forall k :: 0 <= k < |pl.chunks| ==>
          && pl.sectionOf[k] < |secs|
          && ChunkFromSection(e, pl.chunks[k], k, secs[pl.sectionOf[k]], pl.heads[k], pl.runs[k])
          && PG.SeedOk(e, pl.chunks, k, pl.heads[k]))
    && (forall k :: 0 <= k < |pl.chunks| - 1 ==> pl.sectionOf[k] <= pl.sectionOf[k + 1])
  }

  lemma SeedOkShift(e: Engine, prev: seq<TextChunk>, local: seq<TextChunk>, j: nat, h: seq<string>)
    requires j <= |local| && PG.SeedOk(e, local, j, h)
    ensures PG.SeedOk(e, prev + local, |prev| + j, h)
  {
    if j > 0 { assert (prev + local)[|prev| + j - 1] == local[j - 1]; }
  }

  lemma SmartStepLayout(e: Engine, secs: seq<DocumentSection>, prev: Plan, sp: Plan)
    requires secs != []
    requires SmartLayout(e, secs[..|secs| - 1], prev)
    requires PlanSized(sp)
    requires forall k :: 0 <= k < |sp.chunks| ==>
               && sp.sectionOf[k] == |secs| - 1
               && ChunkFromSection(e, sp.chunks[k], |prev.chunks| + k, secs[|secs| - 1], sp.heads[k], sp.runs[k])
               && PG.SeedOk(e, sp.chunks, k, sp.heads[k])
    ensures SmartLayout(e, secs, Plan(prev.chunks + sp.chunks, prev.heads + sp.heads,
                                      prev.runs + sp.runs, prev.sectionOf + sp.sectionOf))
  {
    var pl := Plan(prev.chunks + sp.chunks, prev.heads + sp.heads, prev.runs + sp.runs, prev.sectionOf + sp.sectionOf);
    var n := |prev.chunks|;
    forall k | 0 <= k < |pl.chunks|
      ensures pl.sectionOf[k] < |secs|
      ensures ChunkFromSection(e, pl.chunks[k], k, secs[pl.sectionOf[k]], pl.heads[k], pl.runs[k])
      ensures PG.SeedOk(e, pl.chunks, k, pl.heads[k])
    {
      if k < n {
        assert pl.chunks[k] == prev.chunks[k] && pl.heads[k] == prev.heads[k];
        assert pl.runs[k] == prev.runs[k] && pl.sectionOf[k] == prev.sectionOf[k];
        assert secs[..|secs| - 1][prev.sectionOf[k]] == secs[prev.sectionOf[k]];
        PG.SeedOkExtend(e, prev.chunks, sp.chunks, k, prev.heads[k]);
      } else {
        var j := k - n;
        assert pl.chunks[k] == sp.chunks[j] && pl.heads[k] == sp.heads[j];
        assert pl.runs[k] == sp.runs[j] && pl.sectionOf[k] == sp.sectionOf[j];
        SeedOkShift(e, prev.chunks, sp.chunks, j, sp.heads[j]);
      }
    }
    forall k | 0 <= k < |pl.chunks| - 1 ensures pl.sectionOf[k] <= pl.sectionOf[k + 1] {
      if k + 1 < n {
        assert pl.sectionOf[k] == prev.sectionOf[k] && pl.sectionOf[k + 1] == prev.sectionOf[k + 1];
      } else if k + 1 == n {
        assert pl.sectionOf[k] == prev.sectionOf[k] && pl.sectionOf[k + 1] == sp.sectionOf[0];
      } else {
        assert pl.sectionOf[k] == sp.sectionOf[k - n] && pl.sectionOf[k + 1] == sp.sectionOf[k + 1 - n];
      }
    }
  }

  lemma {:induction false} SmartPlanLayout(e: Engine, secs: seq<DocumentSection>)
    ensures SmartLayout(e, secs, SmartPlan(e, secs))
    decreases |secs|
  {
    if secs != [] {
      var prev := SmartPlan(e, secs[..|secs| - 1]);
      SmartPlanLayout(e, secs[..|secs| - 1]);
      SectionPlanLayout(e, secs[|secs| - 1], |prev.chunks|, |secs| - 1);
      SmartStepLayout(e, secs, prev, SectionPlan(e, secs[|secs| - 1], |prev.chunks|, |secs| - 1));
    }
  }

  /** The own units of the chunks, in order, are the units of the sections,
      in order: nothing is dropped, duplicated or reordered (apart from the
      overlap seeds, which are copies). */
  lemma {:induction false} SmartPlanOrder(e: Engine, secs: seq<DocumentSection>)
    ensures Flatten(SmartPlan(e, secs).runs) == DocUnits(e, secs)
    decreases |secs|
  {
    if secs != [] {
      var prev := SmartPlan(e, secs[..|secs| - 1]);
      var sp := SectionPlan(e, secs[|secs| - 1], |prev.chunks|, |secs| - 1);
      SmartPlanOrder(e, secs[..|secs| - 1]);
      SectionPlanLayout(e, secs[|secs| - 1], |prev.chunks|, |secs| - 1);
      FlattenAppend(prev.runs, sp.runs);
    }
  }

  /** `_smart_chunk`'s output: ids are 0, 1, 2, … across sections and
      sub-splits; every chunk's token count is its content's; every chunk
      carries the title and level of the section it comes from, and the
      sections are visited in order; a chunk is a whole section, verbatim
      and marked complete, exactly when that section fits the budget. */
  lemma SmartChunksIds(e: Engine, doc: ProcessedDocument)
    ensures forall k :: 0 <= k < |SmartChunks(e, doc)| ==>
              SmartChunks(e, doc)[k].chunkId == k
              && SmartChunks(e, doc)[k].tokenCount == CountTokens(e.tok, SmartChunks(e, doc)[k].content)
  {
    SmartPlanLayout(e, doc.sections);
  }

  /** A chunk from a section is that section verbatim exactly when the
      section fits. */
  lemma PreservedIff(e: Engine, c: TextChunk, id: nat, sec: DocumentSection, head: seq<string>, run: seq<string>)
    requires ChunkFromSection(e, c, id, sec, head, run)
    ensures Fits(e, sec) <==> c == PreservedChunk(e, sec, id)
  {
  }

  /** A section that fits the budget is one chunk, verbatim; a chunk of a
      section that does not fit is not. */
  lemma SmartKeepsFittingSection(e: Engine, doc: ProcessedDocument, k: nat)
    requires k < |SmartChunks(e, doc)|
    ensures var pl := SmartPlan(e, doc.sections);
            && k < |pl.sectionOf| && pl.sectionOf[k] < |doc.sections|
            && (Fits(e, doc.sections[pl.sectionOf[k]]) <==>
                  SmartChunks(e, doc)[k] == PreservedChunk(e, doc.sections[pl.sectionOf[k]], k))
  {
    var pl := SmartPlan(e, doc.sections);
    SmartPlanLayout(e, doc.sections);
    PreservedIff(e, pl.chunks[k], k, doc.sections[pl.sectionOf[k]], pl.heads[k], pl.runs[k]);
  }

  // =====================================================================
  // sentence

  function DocOrigin(): Origin {
    Origin(SentenceGroup, None, None)
  }

  /** `_sentence_chunk(text)`, with its bookkeeping. */
  function SentencePlan(e: Engine, text: string): SG.Acc {
    SG.Finish(e, DocOrigin(), SG.Fold(e, false, DocOrigin(), 0, SplitSentences(text)))
  }

  function SentenceChunks(e: Engine, text: string): seq<TextChunk> {
    SentencePlan(e, text).chunks
  }

  /** The sentence strategy: chunk k is numbered k, tagged 'sentence', has
      no section, and is the ' '-join of a non-empty run of consecutive
      sentences with no overlap carried; the runs partition the sentences in
      order; a run of more than one sentence fits the budget; a chunk was
      ended only because the next sentence did not fit. */
  lemma SentenceChunksLayout(e: Engine, text: string)
    ensures var pl := SentencePlan(e, text);
            && |pl.chunks| == |pl.runs| == |pl.heads|
            && Flatten(pl.runs) == SplitSentences(text)
            && (forall k :: 0 <= k < |pl.runs| ==> pl.runs[k] != [])
            && (forall k :: 0 <= k < |pl.chunks| ==>
                  && pl.heads[k] == []
                  && pl.chunks[k].content == Join(" ", pl.runs[k])
                  && pl.chunks[k].chunkId == k
                  && pl.chunks[k].tokenCount == CountTokens(e.tok, pl.chunks[k].content)
                  && pl.chunks[k].strategy == SentenceGroup
                  && pl.chunks[k].sectionTitle.None? && pl.chunks[k].sectionLevel.None?)
  {
    var pl := SentencePlan(e, text);
    SG.FinishLayout(e, false, DocOrigin(), 0, SplitSentences(text));
    forall k | 0 <= k < |pl.chunks|
      ensures pl.heads[k] == [] && pl.chunks[k].content == Join(" ", pl.runs[k])
      ensures pl.chunks[k].chunkId == k
      ensures pl.chunks[k].tokenCount == CountTokens(e.tok, pl.chunks[k].content)
      ensures pl.chunks[k].strategy == SentenceGroup
      ensures pl.chunks[k].sectionTitle.None? && pl.chunks[k].sectionLevel.None?
    {
      UnseededChunk(e, pl.chunks, k, pl.heads[k], pl.runs[k]);
    }
  }

  lemma UnseededChunk(e: Engine, chunks: seq<TextChunk>, k: nat, head: seq<string>, run: seq<string>)
    requires k < |chunks|
    requires chunks[k] == MakeChunk(e, Join(" ", head + run), k, DocOrigin())
    requires head == SG.Seed(e, false, chunks, k)
    ensures head == [] && chunks[k].content == Join(" ", run)
    ensures chunks[k].chunkId == k && chunks[k].tokenCount == CountTokens(e.tok, chunks[k].content)
    ensures chunks[k].strategy == SentenceGroup
    ensures chunks[k].sectionTitle.None? && chunks[k].sectionLevel.None?
  {
    assert head + run == run;
  }

  lemma SentenceChunksBudget(e: Engine, text: string)
    ensures var pl := SentencePlan(e, text);
            && |pl.heads| == |pl.runs|
            && (forall k :: 0 <= k < |pl.runs| ==> pl.runs[k] != [])
            && SG.Budgeted(e, pl.heads, pl.runs)
  {
    SG.FinishBudgeted(e, false, DocOrigin(), 0, SplitSentences(text));
  }

  /** No chunks exactly when there are no sentences; in particular empty or
      blank text gives no chunks. */
  lemma SentenceChunksEmpty(e: Engine, text: string)
    ensures SentenceChunks(e, text) == [] <==> SplitSentences(text) == []
    ensures AllSpace(text) ==> SentenceChunks(e, text) == []
  {
    SG.ChunksEmptyIff(e, false, DocOrigin(), 0, SplitSentences(text));
    if AllSpace(text) { NoSentencesInBlankText(text); }
  }

  // =====================================================================
  // section

  /** The chunk `_section_chunk` makes of section `i`. */
  function WholeChunk(e: Engine, sec: DocumentSection, i: nat): TextChunk {
    TextChunk(sec.content, i, Some(sec.title), Some(sec.level),
              CountTokens(e.tok, sec.content), WholeSection, true)
  }

  /** `_section_chunk(document)`: one chunk per section, in order, numbered
      by the section's index. */
  function SectionChunks(e: Engine, secs: seq<DocumentSection>): (r: seq<TextChunk>)
    ensures |r| == |secs|
    ensures forall i :: 0 <= i < |secs| ==>
              r[i].content == secs[i].content && r[i].chunkId == i
              && r[i].sectionTitle == Some(secs[i].title) && r[i].sectionLevel == Some(secs[i].level)
              && r[i].tokenCount == CountTokens(e.tok, r[i].content)
              && r[i].strategy == WholeSection && r[i].isCompleteSection
    decreases |secs|
  {
    if secs == [] then []
    else
      var init := SectionChunks(e, secs[..|secs| - 1]);
      assert forall i :: 0 <= i < |secs| - 1 ==> secs[..|secs| - 1][i] == secs[i];
      init + [WholeChunk(e, secs[|secs| - 1], |secs| - 1)]
  }

  // =====================================================================
  // fixed

  /** `tokens[i:i + chunk_size]` (Python clamps the end). */
  function Window(e: Engine, tokens: seq<int>, i: nat): (w: seq<int>)
    requires i <= |tokens|
    ensures |w| <= e.chunkSize && |w| <= |tokens| - i
    ensures i < |tokens| && e.chunkSize > 0 ==> |w| > 0
    ensures w == tokens[i..i + |w|]
  {
    if i + e.chunkSize <= |tokens| then tokens[i..i + e.chunkSize] else tokens[i..]
  }

  /** The window starting at `i`, as chunk `id`: its token count is the
      window's length, not a recount of the decoded text. */
  function WindowChunk(e: Engine, tokens: seq<int>, i: nat, id: nat): TextChunk
    requires i <= |tokens|
  {
    TextChunk(e.tok.decode(Window(e, tokens, i)), id, None, None, |Window(e, tokens, i)|, FixedWindow, false)
  }

  function Step(e: Engine): int {
    e.chunkSize - e.chunkOverlap
  }

  /** The window starts of `_fixed_chunk`'s `while` loop from `i` on: `i`,
      `i + step`, … while below `n`. */
  function Starts(n: nat, step: int, i: nat): (r: seq<nat>)
    requires step > 0
    ensures forall k :: 0 <= k < |r| ==> i <= r[k] < n
    decreases n - i
  {
    if i >= n then [] else [i] + Starts(n, step, i + step)
  }

  /** `_fixed_chunk(text)`.  The loop only terminates when the step is
      positive or there is nothing to chunk. */
  function FixedChunks(e: Engine, text: string): seq<TextChunk>
    requires e.tok.encode(text) != [] ==> Step(e) > 0
  {
    var tokens := e.tok.encode(text);
    if tokens == [] then []
    else
      var starts := Starts(|tokens|, Step(e), 0);
      seq(|starts|, k requires 0 <= k < |starts| => WindowChunk(e, tokens, starts[k], k))
  }

  /** The chunks of `_fixed_chunk` are determined window by window. */
  lemma FixedChunksByWindows(e: Engine, text: string, chunks: seq<TextChunk>)
    requires Step(e) > 0
    requires var tokens := e.tok.encode(text);
             var starts := Starts(|tokens|, Step(e), 0);
             && |chunks| == |starts|
             && forall k :: 0 <= k < |chunks| ==> chunks[k] == WindowChunk(e, tokens, starts[k], k)
    ensures chunks == FixedChunks(e, text)
  {
  }

  /** `k * s`, by repeated addition. */
  function Offset(s: int, k: nat): int {
    if k == 0 then 0 else Offset(s, k - 1) + s
  }

  lemma {:induction false} OffsetIsProduct(s: int, k: nat)
    ensures Offset(s, k) == k * s
  {
    if k > 0 {
      OffsetIsProduct(s, k - 1);
      assert k * s == (k - 1) * s + s;
    }
  }

  /** Start k is `k` steps after `i` and below the end; the starts stop
      at the first one at or past the end. */
  lemma {:induction false} StartsAt(n: nat, step: int, i: nat)
    requires step > 0
    ensures forall k :: 0 <= k < |Starts(n, step, i)| ==>
              Starts(n, step, i)[k] == i + Offset(step, k) < n
    ensures i + Offset(step, |Starts(n, step, i)|) >= n
    decreases n - i
  {
    if i < n {
      var rest := Starts(n, step, i + step);
      StartsAt(n, step, i + step);
      forall k | 0 <= k < |Starts(n, step, i)|
        ensures Starts(n, step, i)[k] == i + Offset(step, k) < n
      {
        if k > 0 {
          OffsetShift(step, k - 1);
          assert Starts(n, step, i)[k] == rest[k - 1];
        }
      }
      OffsetShift(step, |rest|);
    }
  }

  lemma {:induction false} OffsetShift(s: int, j: nat)
    ensures Offset(s, j + 1) == s + Offset(s, j)
  {
  }

  /** The fixed strategy: window k starts at `k * step` below the token
      count, the number of windows is the least that reaches the end, every
      window holds at most `chunk_size` tokens and its token count is its
      length, and ids are 0, 1, 2, …. */
  lemma FixedChunksShape(e: Engine, text: string)
    requires Step(e) > 0
    ensures var tokens := e.tok.encode(text);
            var cs := FixedChunks(e, text);
            && (forall k :: 0 <= k < |cs| ==>
                  && k * Step(e) < |tokens|
                  && cs[k].content == e.tok.decode(Window(e, tokens, k * Step(e)))
                  && cs[k].tokenCount == |Window(e, tokens, k * Step(e))| <= e.chunkSize
                  && cs[k].chunkId == k && cs[k].strategy == FixedWindow)
            && |cs| * Step(e) >= |tokens|
  {
    var tokens := e.tok.encode(text);
    var cs := FixedChunks(e, text);
    if tokens != [] {
      var starts := Starts(|tokens|, Step(e), 0);
      StartsAt(|tokens|, Step(e), 0);
      forall k | 0 <= k < |cs|
        ensures k * Step(e) < |tokens|
        ensures cs[k] == WindowChunk(e, tokens, k * Step(e), k)
      {
        OffsetIsProduct(Step(e), k);
        assert starts[k] == k * Step(e);
      }
      OffsetIsProduct(Step(e), |cs|);
    }
  }

  /** Consecutive windows overlap: when window k is full, its last
      `chunk_overlap` tokens are the first ones of window k + 1. */
  lemma FixedWindowsOverlap(e: Engine, tokens: seq<int>, k: nat, j: nat)
    requires Step(e) > 0
    requires (k + 1) * Step(e) <= |tokens|
    requires k * Step(e) + e.chunkSize <= |tokens|
    requires j < e.chunkOverlap
    ensures Window(e, tokens, k * Step(e))[Step(e) + j] == tokens[(k + 1) * Step(e) + j]
    ensures j < |Window(e, tokens, (k + 1) * Step(e))| ==>
              Window(e, tokens, (k + 1) * Step(e))[j] == tokens[(k + 1) * Step(e) + j]
  {
    assert (k + 1) * Step(e) == k * Step(e) + Step(e);
  }

  /** The step that a position falls into. */
  lemma {:induction false} FindSlot(s: int, p: nat) returns (k: nat)
    requires s > 0
    ensures Offset(s, k) <= p < Offset(s, k) + s
    decreases p
  {
    if p < s {
      k := 0;
    } else {
      var k' := FindSlot(s, p - s);
      k := k' + 1;
    }
  }

  lemma {:induction false} OffsetMonotone(s: int, a: nat, b: nat)
    requires s > 0 && a <= b
    ensures Offset(s, a) <= Offset(s, b)
    decreases b
  {
    if a < b { OffsetMonotone(s, a, b - 1); }
  }

  /** Every token lies in some window. */
  lemma FixedCoverage(e: Engine, text: string, p: nat)
    requires Step(e) > 0 && p < |e.tok.encode(text)|
    ensures var cs := FixedChunks(e, text);
            exists k :: 0 <= k < |cs| && k * Step(e) <= p < k * Step(e) + |Window(e, e.tok.encode(text), k * Step(e))|
  {
    var tokens := e.tok.encode(text);
    var cs := FixedChunks(e, text);
    var s := Step(e);
    StartsAt(|tokens|, s, 0);
    var k := FindSlot(s, p);
    if k >= |cs| {
      OffsetMonotone(s, |cs|, k);
      assert false;
    }
    OffsetIsProduct(s, k);
    assert Starts(|tokens|, s, 0)[k] == k * s;
    var w := Window(e, tokens, k * s);
    assert p < k * s + |w|;
  }
}
