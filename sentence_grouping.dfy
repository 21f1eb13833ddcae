/** The sentence-level accumulate/flush loop shared by `_split_large_paragraph`
    (tag 'sentence_split', overlap carried when `chunk_overlap > 0`) and
    `_sentence_chunk` (tag 'sentence', no overlap), as a fold over the
    sentences.  Besides the loop's own variables the fold state records,
    for every chunk flushed so far, the overlap seed it started with
    (`heads`) and the sentences of its own it received (`runs`); these two
    are bookkeeping for the properties below, not part of the output. */
module SentenceGrouping {
  import opened Text
  import opened Tokens
  import opened ChunkModel

  datatype Acc = Acc(
    chunks: seq<TextChunk>,
    currentTokens: nat,
    chunkId: nat,
    heads: seq<seq<string>>,
    runs: seq<seq<string>>,
    head: seq<string>,
    run: seq<string>)
  {
    /** The loop's `current_chunk` buffer. */
    function Current(): seq<string> {
      head + run
    }
  }

  function Init(start: nat): Acc {
    Acc([], 0, start, [], [], [], [])
  }

  /** One iteration: flush the buffer when it is non-empty and the sentence
      would push the running total over the budget, else append. */
  function Step(e: Engine, carry: bool, o: Origin, st: Acc, s: string): Acc {
    var t := CountTokens(e.tok, s);
    if st.currentTokens + t > e.chunkSize && st.Current() != [] then
      var text := Join(" ", st.Current());
      var flushed := st.(chunks := st.chunks + [MakeChunk(e, text, st.chunkId, o)],
                         chunkId := st.chunkId + 1,
                         heads := st.heads + [st.head],
                         runs := st.runs + [st.run]);
      if carry then
        var ov := OverlapText(e, text);
        flushed.(head := [ov], run := [s], currentTokens := CountTokens(e.tok, ov) + t)
      else
        flushed.(head := [], run := [s], currentTokens := t)
    else
      st.(run := st.run + [s], currentTokens := st.currentTokens + t)
  }

  /** The state after the loop has consumed `units`. */
  function Fold(e: Engine, carry: bool, o: Origin, start: nat, units: seq<string>): Acc
    decreases |units|
  {
    if units == [] then Init(start)
    else Step(e, carry, o, Fold(e, carry, o, start, units[..|units| - 1]), units[|units| - 1])
  }

  /** The final `if current_chunk:` flush. */
  function Finish(e: Engine, o: Origin, st: Acc): Acc {
    if st.Current() == [] then st
    else st.(chunks := st.chunks + [MakeChunk(e, Join(" ", st.Current()), st.chunkId, o)],
             chunkId := st.chunkId + 1,
             heads := st.heads + [st.head],
             runs := st.runs + [st.run],
             head := [], run := [], currentTokens := 0)
  }

  /** The chunks the loop returns for `units`, numbered from `start`. */
  function Chunks(e: Engine, carry: bool, o: Origin, start: nat, units: seq<string>): seq<TextChunk> {
    Finish(e, o, Fold(e, carry, o, start, units)).chunks
  }

  /** One iteration in terms of the loop's own variables. */
  lemma StepEffect(e: Engine, carry: bool, o: Origin, st: Acc, s: string)
    ensures var st' := Step(e, carry, o, st, s);
            var t := CountTokens(e.tok, s);
            if st.currentTokens + t > e.chunkSize && st.Current() != [] then
              var text := Join(" ", st.Current());
              && st'.chunks == st.chunks + [MakeChunk(e, text, st.chunkId, o)]
              && st'.chunkId == st.chunkId + 1
              && (carry ==> st'.Current() == [OverlapText(e, text), s]
                            && st'.currentTokens == CountTokens(e.tok, OverlapText(e, text)) + t)
              && (!carry ==> st'.Current() == [s] && st'.currentTokens == t)
            else
              && st'.chunks == st.chunks && st'.chunkId == st.chunkId
              && st'.Current() == st.Current() + [s] && st'.currentTokens == st.currentTokens + t
  {
    var t := CountTokens(e.tok, s);
    if !(st.currentTokens + t > e.chunkSize && st.Current() != []) {
      assert st.head + (st.run + [s]) == st.head + st.run + [s];
    }
  }

  /** The flushing iteration in terms of the loop's own variables. */
  lemma FlushEffect(e: Engine, carry: bool, o: Origin, st: Acc, s: string)
    requires st.currentTokens + CountTokens(e.tok, s) > e.chunkSize && st.Current() != []
    ensures var st' := Step(e, carry, o, st, s);
            var text := Join(" ", st.Current());
            && st'.chunks == st.chunks + [MakeChunk(e, text, st.chunkId, o)]
            && st'.chunkId == st.chunkId + 1
            && (carry ==> st'.Current() == [OverlapText(e, text), s]
                          && st'.currentTokens == CountTokens(e.tok, OverlapText(e, text)) + CountTokens(e.tok, s))
            && (!carry ==> st'.Current() == [s] && st'.currentTokens == CountTokens(e.tok, s))
  {
  }

  /** The appending iteration in terms of the loop's own variables. */
  lemma AppendEffect(e: Engine, carry: bool, o: Origin, st: Acc, s: string)
    requires !(st.currentTokens + CountTokens(e.tok, s) > e.chunkSize && st.Current() != [])
    ensures var st' := Step(e, carry, o, st, s);
            && st'.chunks == st.chunks && st'.chunkId == st.chunkId
            && st'.Current() == st.Current() + [s]
            && st'.currentTokens == st.currentTokens + CountTokens(e.tok, s)
  {
    assert st.head + (st.run + [s]) == st.head + st.run + [s];
  }

  /** The final flush in terms of the loop's own variables. */
  lemma FinishEffect(e: Engine, o: Origin, st: Acc)
    ensures Finish(e, o, st).chunks ==
              if st.Current() == [] then st.chunks
              else st.chunks + [MakeChunk(e, Join(" ", st.Current()), st.chunkId, o)]
  {
  }

  // ---------------------------------------------------------------------
  // Invariants of the fold

  /** Chunks are numbered densely from `start`; chunk k is the join of its
      overlap seed and its own sentences. */
  predicate Numbered(e: Engine, o: Origin, start: nat, st: Acc) {
    && |st.chunks| == |st.heads| == |st.runs|
    && st.chunkId == start + |st.chunks|
    && forall k :: 0 <= k < |st.chunks| ==>
         st.chunks[k] == MakeChunk(e, Join(" ", st.heads[k] + st.runs[k]), start + k, o)
  }

  /** The own sentences of the chunks, then of the buffer, are exactly the
      sentences consumed, in order; no chunk is without one. */
  predicate Partitioned(units: seq<string>, st: Acc) {
    && Flatten(st.runs) + st.run == units
    && (forall k :: 0 <= k < |st.runs| ==> st.runs[k] != [])
    && (st.run == [] ==> st.head == [] && st.runs == [])
  }

  /** The overlap seed a chunk starts with: the overlap tail of the chunk
      flushed just before it, when overlap is carried; nothing otherwise. */
  function Seed(e: Engine, carry: bool, chunks: seq<TextChunk>, k: nat): seq<string>
    requires k <= |chunks|
  {
    if carry && k > 0 then [OverlapText(e, chunks[k - 1].content)] else []
  }

  predicate Seeded(e: Engine, carry: bool, st: Acc)
    requires |st.heads| == |st.chunks|
  {
    && (forall k :: 0 <= k < |st.heads| ==> st.heads[k] == Seed(e, carry, st.chunks, k))
    && (st.run != [] ==> st.head == Seed(e, carry, st.chunks, |st.chunks|))
  }

  /** `current_tokens` is the sum of the buffer's per-unit token counts. */
  predicate Counted(e: Engine, st: Acc) {
    st.currentTokens == SumTokens(e.tok, st.Current())
  }

  /** A chunk with more than one sentence of its own fits the budget. */
  predicate WithinBudget(e: Engine, st: Acc)
    requires |st.heads| == |st.runs|
  {
    && (forall k :: 0 <= k < |st.runs| ==>
          |st.runs[k]| > 1 ==> SumTokens(e.tok, st.heads[k] + st.runs[k]) <= e.chunkSize)
    && (|st.run| > 1 ==> SumTokens(e.tok, st.Current()) <= e.chunkSize)
  }

  /** The first sentence after chunk k's own ones. */
  function NextUnit(st: Acc, k: nat): string
    requires k < |st.runs|
    requires forall j :: 0 <= j < |st.runs| ==> st.runs[j] != []
    requires st.runs != [] ==> st.run != []
  {
    if k + 1 < |st.runs| then st.runs[k + 1][0] else st.run[0]
  }

  /** A chunk was flushed only because the next sentence did not fit. */
  predicate Greedy(e: Engine, st: Acc)
    requires |st.heads| == |st.runs|
    requires forall j :: 0 <= j < |st.runs| ==> st.runs[j] != []
    requires st.runs != [] ==> st.run != []
  {
    forall k :: 0 <= k < |st.runs| ==>
      SumTokens(e.tok, st.heads[k] + st.runs[k]) + CountTokens(e.tok, NextUnit(st, k)) > e.chunkSize
  }

  predicate Inv(e: Engine, carry: bool, o: Origin, start: nat, units: seq<string>, st: Acc) {
    && Numbered(e, o, start, st)
    && Partitioned(units, st)
    && Seeded(e, carry, st)
    && Counted(e, st)
    && WithinBudget(e, st)
    && Greedy(e, st)
  }

  lemma StepNumbered(e: Engine, carry: bool, o: Origin, start: nat, st: Acc, s: string)
    requires Numbered(e, o, start, st)
    ensures Numbered(e, o, start, Step(e, carry, o, st, s))
  {
  }

  lemma StepPartitioned(e: Engine, carry: bool, o: Origin, units: seq<string>, st: Acc, s: string)
    requires Partitioned(units, st)
    ensures Partitioned(units + [s], Step(e, carry, o, st, s))
  {
    var st' := Step(e, carry, o, st, s);
    if st.currentTokens + CountTokens(e.tok, s) > e.chunkSize && st.Current() != [] {
      assert st'.runs == st.runs + [st.run] && st'.run == [s];
      FlattenSnoc(st.runs, st.run);
    } else {
      assert st'.runs == st.runs && st'.run == st.run + [s] && st'.head == st.head;
    }
  }

  lemma StepSeeded(e: Engine, carry: bool, o: Origin, start: nat, units: seq<string>, st: Acc, s: string)
    requires Numbered(e, o, start, st) && Partitioned(units, st) && Seeded(e, carry, st)
    ensures Numbered(e, o, start, Step(e, carry, o, st, s))
    ensures Seeded(e, carry, Step(e, carry, o, st, s))
  {
    var st' := Step(e, carry, o, st, s);
    StepNumbered(e, carry, o, start, st, s);
    forall k | 0 <= k < |st'.heads| ensures st'.heads[k] == Seed(e, carry, st'.chunks, k) {
      if k < |st.heads| {
        assert st'.heads[k] == st.heads[k];
        assert Seed(e, carry, st'.chunks, k) == Seed(e, carry, st.chunks, k);
      }
    }
  }

  lemma StepCounted(e: Engine, carry: bool, o: Origin, st: Acc, s: string)
    requires Counted(e, st)
    ensures Counted(e, Step(e, carry, o, st, s))
  {
    var t := CountTokens(e.tok, s);
    if st.currentTokens + t > e.chunkSize && st.Current() != [] {
      if carry {
        var ov := OverlapText(e, Join(" ", st.Current()));
        SumTokensSnoc(e.tok, [ov], s);
        assert [ov] + [s] == [ov, s];
        assert [ov][..0] == [];
      } else {
        assert [s][..0] == [];
      }
    } else {
      SumTokensSnoc(e.tok, st.Current(), s);
      assert st.Current() + [s] == st.head + (st.run + [s]);
    }
  }

  lemma StepWithinBudget(e: Engine, carry: bool, o: Origin, units: seq<string>, st: Acc, s: string)
    requires |st.heads| == |st.runs| && Partitioned(units, st) && Counted(e, st) && WithinBudget(e, st)
    ensures WithinBudget(e, Step(e, carry, o, st, s))
  {
    var t := CountTokens(e.tok, s);
    if !(st.currentTokens + t > e.chunkSize && st.Current() != []) && st.run != [] {
      SumTokensSnoc(e.tok, st.Current(), s);
      assert st.Current() + [s] == st.head + (st.run + [s]);
    }
  }

  lemma StepGreedy(e: Engine, carry: bool, o: Origin, units: seq<string>, st: Acc, s: string)
    requires |st.heads| == |st.runs| && Partitioned(units, st) && Counted(e, st) && Greedy(e, st)
    ensures var st' := Step(e, carry, o, st, s);
            |st'.heads| == |st'.runs| && Partitioned(units + [s], st') && Greedy(e, st')
  {
    var st' := Step(e, carry, o, st, s);
    StepPartitioned(e, carry, o, units, st, s);
    forall k | 0 <= k < |st'.runs|
      ensures SumTokens(e.tok, st'.heads[k] + st'.runs[k]) + CountTokens(e.tok, NextUnit(st', k)) > e.chunkSize
    {
      if k < |st.runs| {
        assert st'.heads[k] == st.heads[k] && st'.runs[k] == st.runs[k];
        assert NextUnit(st', k) == NextUnit(st, k);
      }
    }
  }

  lemma {:induction false} FoldShape(e: Engine, carry: bool, o: Origin, start: nat, units: seq<string>)
    ensures var st := Fold(e, carry, o, start, units);
            Numbered(e, o, start, st) && Partitioned(units, st) && Seeded(e, carry, st)
    decreases |units|
  {
    if units != [] {
      var init, s := units[..|units| - 1], units[|units| - 1];
      assert init + [s] == units;
      FoldShape(e, carry, o, start, init);
      StepSeeded(e, carry, o, start, init, Fold(e, carry, o, start, init), s);
      StepPartitioned(e, carry, o, init, Fold(e, carry, o, start, init), s);
    }
  }

  lemma {:induction false} FoldCounted(e: Engine, carry: bool, o: Origin, start: nat, units: seq<string>)
    ensures Counted(e, Fold(e, carry, o, start, units))
    decreases |units|
  {
    if units != [] {
      var init, s := units[..|units| - 1], units[|units| - 1];
      FoldCounted(e, carry, o, start, init);
      StepCounted(e, carry, o, Fold(e, carry, o, start, init), s);
    }
  }

  lemma {:induction false} FoldWithinBudget(e: Engine, carry: bool, o: Origin, start: nat, units: seq<string>)
    ensures var st := Fold(e, carry, o, start, units);
            |st.heads| == |st.runs| && WithinBudget(e, st)
    decreases |units|
  {
    if units != [] {
      var init, s := units[..|units| - 1], units[|units| - 1];
      FoldWithinBudget(e, carry, o, start, init);
      FoldShape(e, carry, o, start, init);
      FoldCounted(e, carry, o, start, init);
      StepWithinBudget(e, carry, o, init, Fold(e, carry, o, start, init), s);
    }
  }

  lemma {:induction false} FoldGreedy(e: Engine, carry: bool, o: Origin, start: nat, units: seq<string>)
    ensures var st := Fold(e, carry, o, start, units);
            |st.heads| == |st.runs| && Partitioned(units, st) && Greedy(e, st)
    decreases |units|
  {
    if units != [] {
      var init, s := units[..|units| - 1], units[|units| - 1];
      assert init + [s] == units;
      FoldGreedy(e, carry, o, start, init);
      FoldCounted(e, carry, o, start, init);
      StepGreedy(e, carry, o, init, Fold(e, carry, o, start, init), s);
    }
  }

  lemma FoldInv(e: Engine, carry: bool, o: Origin, start: nat, units: seq<string>)
    ensures Inv(e, carry, o, start, units, Fold(e, carry, o, start, units))
  {
    FoldShape(e, carry, o, start, units);
    FoldCounted(e, carry, o, start, units);
    FoldWithinBudget(e, carry, o, start, units);
    FoldGreedy(e, carry, o, start, units);
  }

  // ---------------------------------------------------------------------
  // The finished result

  /** What the loop returns: every chunk is its overlap seed (the overlap
      tail of the chunk before it when overlap is carried, nothing
      otherwise) followed by a non-empty run of the input sentences, joined
      by spaces; the runs, in order, are exactly the input sentences; ids are
      dense from `start`; the token count is recomputed from the content. */
  predicate Layout(e: Engine, carry: bool, o: Origin, start: nat, units: seq<string>,
                   chunks: seq<TextChunk>, heads: seq<seq<string>>, runs: seq<seq<string>>)
  {
    && |chunks| == |heads| == |runs|
    && Flatten(runs) == units
    && (forall k :: 0 <= k < |runs| ==> runs[k] != [])
    && (forall k :: 0 <= k < |chunks| ==>
          chunks[k] == MakeChunk(e, Join(" ", heads[k] + runs[k]), start + k, o))
    && (forall k :: 0 <= k < |heads| ==> heads[k] == Seed(e, carry, chunks, k))
  }

  /** A chunk with more than one sentence of its own fits the budget, and a
      chunk was ended only because the next sentence would not fit. */
  predicate Budgeted(e: Engine, heads: seq<seq<string>>, runs: seq<seq<string>>)
    requires |heads| == |runs|
    requires forall k :: 0 <= k < |runs| ==> runs[k] != []
  {
    && (forall k :: 0 <= k < |runs| ==>
          |runs[k]| > 1 ==> SumTokens(e.tok, heads[k] + runs[k]) <= e.chunkSize)
    && (forall k :: 0 <= k < |runs| - 1 ==>
          SumTokens(e.tok, heads[k] + runs[k]) + CountTokens(e.tok, runs[k + 1][0]) > e.chunkSize)
  }

  lemma FinishLayout(e: Engine, carry: bool, o: Origin, start: nat, units: seq<string>)
    ensures var fin := Finish(e, o, Fold(e, carry, o, start, units));
            Layout(e, carry, o, start, units, fin.chunks, fin.heads, fin.runs)
  {
    FoldShape(e, carry, o, start, units);
    FinishLayoutOf(e, carry, o, start, units, Fold(e, carry, o, start, units));
  }

  /** The final flush turns the fold's invariants into the layout. */
  lemma FinishLayoutOf(e: Engine, carry: bool, o: Origin, start: nat, units: seq<string>, st: Acc)
    requires Numbered(e, o, start, st) && Partitioned(units, st) && Seeded(e, carry, st)
    ensures var fin := Finish(e, o, st);
            Layout(e, carry, o, start, units, fin.chunks, fin.heads, fin.runs)
  {
    if st.Current() != [] {
      FlushLayout(e, carry, o, start, units, st);
    }
  }

  /** Flushing a non-empty buffer as the last chunk completes the layout. */
  lemma FlushLayout(e: Engine, carry: bool, o: Origin, start: nat, units: seq<string>, st: Acc)
    requires Numbered(e, o, start, st) && Partitioned(units, st) && Seeded(e, carry, st)
    requires st.Current() != []
    ensures var c := MakeChunk(e, Join(" ", st.Current()), st.chunkId, o);
            Layout(e, carry, o, start, units, st.chunks + [c], st.heads + [st.head], st.runs + [st.run])
  {
    var c := MakeChunk(e, Join(" ", st.Current()), st.chunkId, o);
    FlattenSnoc(st.runs, st.run);
    FlushSeeds(e, carry, st, c);
    FlushNumbers(e, o, start, st, c);
  }

  /** Flushing the buffer as chunk `c` numbers it next. */
  lemma FlushNumbers(e: Engine, o: Origin, start: nat, st: Acc, c: TextChunk)
    requires Numbered(e, o, start, st) && c == MakeChunk(e, Join(" ", st.Current()), st.chunkId, o)
    ensures var chunks, heads, runs := st.chunks + [c], st.heads + [st.head], st.runs + [st.run];
            forall k :: 0 <= k < |chunks| ==> chunks[k] == MakeChunk(e, Join(" ", heads[k] + runs[k]), start + k, o)
  {
    var chunks, heads, runs := st.chunks + [c], st.heads + [st.head], st.runs + [st.run];
    forall k | 0 <= k < |chunks|
      ensures chunks[k] == MakeChunk(e, Join(" ", heads[k] + runs[k]), start + k, o)
    {
      if k < |st.chunks| {
        assert chunks[k] == st.chunks[k] && heads[k] == st.heads[k] && runs[k] == st.runs[k];
      }
    }
  }

  /** Flushing the buffer as chunk `c` keeps every chunk's seed. */
  lemma FlushSeeds(e: Engine, carry: bool, st: Acc, c: TextChunk)
    requires |st.heads| == |st.chunks| && st.run != [] && Seeded(e, carry, st)
    ensures var heads, chunks := st.heads + [st.head], st.chunks + [c];
            forall k :: 0 <= k < |heads| ==> heads[k] == Seed(e, carry, chunks, k)
  {
    var heads, chunks := st.heads + [st.head], st.chunks + [c];
    forall k | 0 <= k < |heads| ensures heads[k] == Seed(e, carry, chunks, k) {
      if k < |st.heads| {
        assert heads[k] == st.heads[k];
        assert Seed(e, carry, chunks, k) == Seed(e, carry, st.chunks, k);
      }
    }
  }

  lemma FinishBudgeted(e: Engine, carry: bool, o: Origin, start: nat, units: seq<string>)
    ensures var fin := Finish(e, o, Fold(e, carry, o, start, units));
            && |fin.heads| == |fin.runs|
            && (forall k :: 0 <= k < |fin.runs| ==> fin.runs[k] != [])
            && Budgeted(e, fin.heads, fin.runs)
  {
    var st := Fold(e, carry, o, start, units);
    FoldWithinBudget(e, carry, o, start, units);
    FoldGreedy(e, carry, o, start, units);
    var fin := Finish(e, o, st);
    if st.Current() != [] {
      FinishGreedy(e, st);
    }
  }

  lemma FinishGreedy(e: Engine, st: Acc)
    requires |st.heads| == |st.runs| && st.run != []
    requires forall j :: 0 <= j < |st.runs| ==> st.runs[j] != []
    requires Greedy(e, st)
    ensures var runs := st.runs + [st.run];
            var heads := st.heads + [st.head];
            forall k :: 0 <= k < |runs| - 1 ==>
              SumTokens(e.tok, heads[k] + runs[k]) + CountTokens(e.tok, runs[k + 1][0]) > e.chunkSize
  {
    var runs := st.runs + [st.run];
    var heads := st.heads + [st.head];
    forall k | 0 <= k < |runs| - 1
      ensures SumTokens(e.tok, heads[k] + runs[k]) + CountTokens(e.tok, runs[k + 1][0]) > e.chunkSize
    {
      assert heads[k] == st.heads[k] && runs[k] == st.runs[k];
      assert NextUnit(st, k) == runs[k + 1][0];
    }
  }

  /** No sentences, no chunks; some sentences, some chunks. */
  lemma ChunksEmptyIff(e: Engine, carry: bool, o: Origin, start: nat, units: seq<string>)
    ensures Chunks(e, carry, o, start, units) == [] <==> units == []
  {
    FinishLayout(e, carry, o, start, units);
    var fin := Finish(e, o, Fold(e, carry, o, start, units));
    if fin.chunks == [] {
      assert fin.runs == [];
    } else {
      assert fin.runs[0] != [];
      assert Flatten(fin.runs) == Flatten(fin.runs[..|fin.runs| - 1]) + fin.runs[|fin.runs| - 1];
    }
  }
}
