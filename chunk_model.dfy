/** The chunking engine's configuration and output records, and the pure
    helpers every strategy shares: building a chunk, the overlap tail, and
    `optimize_chunk_size`. */
module ChunkModel {
  import opened Wrappers
  import opened Text
  import opened Tokens
  import opened DocumentProcessor

  /** `ChunkingEngine(chunk_size, chunk_overlap, model_name)`: the token
      budget, the overlap, and the tokenizer the model name selects. */
  datatype Engine = Engine(chunkSize: nat, chunkOverlap: nat, tok: Tokenizer)

  /** The value of the chunk's `metadata['strategy']`. */
  datatype ChunkTag =
    | SectionPreserved  // 'section_preserved'
    | ParagraphBased    // 'paragraph_based'
    | SentenceSplit     // 'sentence_split'
    | FixedWindow       // 'fixed'
    | SentenceGroup     // 'sentence'
    | WholeSection      // 'section'

  function TagName(t: ChunkTag): string {
    match t
    case SectionPreserved => "section_preserved"
    case ParagraphBased => "paragraph_based"
    case SentenceSplit => "sentence_split"
    case FixedWindow => "fixed"
    case SentenceGroup => "sentence"
    case WholeSection => "section"
  }

  /** `TextChunk`.  `isCompleteSection` stands for the optional metadata key
      `is_complete_section`, which the source only ever sets to True:
      false means the key is absent. */
  datatype TextChunk = TextChunk(
    content: string,
    chunkId: nat,
    sectionTitle: Option<string>,
    sectionLevel: Option<int>,
    tokenCount: nat,
    strategy: ChunkTag,
    isCompleteSection: bool)

  /** Where a split chunk comes from: its tag and the provenance it copies. */
  datatype Origin = Origin(tag: ChunkTag, title: Option<string>, level: Option<int>)

  function SectionOrigin(tag: ChunkTag, sec: DocumentSection): Origin {
    Origin(tag, Some(sec.title), Some(sec.level))
  }

  /** A chunk built from a text the way every split path builds it: the
      token count is recomputed from the content. */
  function MakeChunk(e: Engine, content: string, id: nat, o: Origin): (c: TextChunk)
    ensures c.content == content && c.chunkId == id
    ensures c.tokenCount == CountTokens(e.tok, c.content)
    ensures c.strategy == o.tag && c.sectionTitle == o.title && c.sectionLevel == o.level
    ensures !c.isCompleteSection
  {
    TextChunk(content, id, o.title, o.level, CountTokens(e.tok, content), o.tag, false)
  }

  /** The separator a split chunk's units are joined with. */
  function Separator(tag: ChunkTag): string {
    if tag == ParagraphBased then "\n\n" else " "
  }

  /** `_create_chunk_from_paragraphs`: the paragraphs joined by a blank line,
      tagged 'paragraph_based', with the section's title and level. */
  function CreateChunkFromParagraphs(e: Engine, paragraphs: seq<string>, id: nat, sec: DocumentSection): (c: TextChunk)
    ensures c.content == Join("\n\n", paragraphs) && c.chunkId == id
    ensures c.tokenCount == CountTokens(e.tok, c.content)
    ensures c.strategy == ParagraphBased && !c.isCompleteSection
    ensures c.sectionTitle == Some(sec.title) && c.sectionLevel == Some(sec.level)
  {
    MakeChunk(e, Join("\n\n", paragraphs), id, SectionOrigin(ParagraphBased, sec))
  }

  /** `_get_overlap_text`: the overlap tail of a chunk's text. */
  function OverlapText(e: Engine, text: string): (r: string)
    ensures |e.tok.encode(text)| <= e.chunkOverlap ==> r == text
  {
    var tokens := e.tok.encode(text);
    if |tokens| <= e.chunkOverlap then text
    else e.tok.decode(TailSlice(tokens, e.chunkOverlap))
  }

  /** The overlap tail is the text itself when it has at most
      `chunk_overlap` tokens, otherwise the decoding of its last
      `chunk_overlap` tokens (of all of them when `chunk_overlap` is 0,
      Python's `tokens[-0:]`). */
  lemma OverlapTextTail(e: Engine, text: string)
    ensures |e.tok.encode(text)| <= e.chunkOverlap ==> OverlapText(e, text) == text
    ensures |e.tok.encode(text)| > e.chunkOverlap ==>
              exists tail :: OverlapText(e, text) == e.tok.decode(tail)
                && |tail| == (if e.chunkOverlap == 0 then |e.tok.encode(text)| else e.chunkOverlap)
                && e.tok.encode(text) == e.tok.encode(text)[..|e.tok.encode(text)| - |tail|] + tail
  {
    var tokens := e.tok.encode(text);
    if |tokens| > e.chunkOverlap {
      var tail := TailSlice(tokens, e.chunkOverlap);
      assert tokens == tokens[..|tokens| - |tail|] + tail;
    }
  }

  /** `optimize_chunk_size`'s thresholds, over the document's token count
      and number of sections. */
  function OptimalChunkSize(totalTokens: int, numSections: nat): (size: nat)
    ensures size in {500, 1000, 1500, 2000}
    ensures totalTokens < 5000 <==> size == 500
    ensures size == 1000 <==> 5000 <= totalTokens < 20000 && numSections > 3
    ensures totalTokens >= 50000 <==> size == 2000
  {
    if totalTokens < 5000 then 500
    else if totalTokens < 20000 && numSections > 3 then 1000
    else if totalTokens < 50000 then 1500
    else 2000
  }

  /** `optimize_chunk_size`. */
  function OptimizeChunkSize(e: Engine, doc: ProcessedDocument): (size: nat)
    ensures size in {500, 1000, 1500, 2000}
    ensures CountTokens(e.tok, doc.fullText) < 5000 <==> size == 500
    ensures size == 1000 <==> 5000 <= CountTokens(e.tok, doc.fullText) < 20000 && |doc.sections| > 3
    ensures CountTokens(e.tok, doc.fullText) >= 50000 <==> size == 2000
  {
    OptimalChunkSize(CountTokens(e.tok, doc.fullText), |doc.sections|)
  }

  /** A longer document never gets a smaller chunk size. */
  lemma OptimalChunkSizeMonotone(t1: int, t2: int, n: nat)
    requires t1 <= t2
    ensures OptimalChunkSize(t1, n) <= OptimalChunkSize(t2, n)
  {
  }
}
