# DocuMind chunking core, modelled in Dafny

This project models the part of DocuMind that turns a processed document into
chunks for summarisation, together with what that part relies on:

- `ChunkingEngine` (`src/core/chunking_engine.py`). It has the four chunking
  strategies: smart (whole sections when they fit, otherwise paragraph and
  sentence splitting with overlap), fixed token windows, sentence groups, and
  one chunk per section. It also has the regular-expression splitters, the
  overlap tail and `optimize_chunk_size`.
- From `src/processors/document_processor.py`:
  - the heading parser `extract_sections`;
  - `count_words`;
  - the table description `_describe_table`;
  - the processor choice `DocumentProcessorFactory.get_processor`.
- From `src/strategies/summarization_strategies.py`: the summarisation
  strategy selector `select_strategy` and the lookup `get_strategy_instance`.

How the source becomes Dafny:

- The engine's configuration (`chunk_size`, `chunk_overlap`, tokenizer) never
  changes after construction, so it is the value `ChunkModel.Engine`.
- The tokenizer is a pair of arbitrary total functions, `encode` and `decode`.
  Nothing else is assumed about them.
- Each strategy that loops in the source is a `method` with the same loop
  (module `ChunkingEngine`). Its `ensures` ties its result to a specification
  function written as a fold over the loop's input (modules `Strategies`,
  `SentenceGrouping`, `ParagraphGrouping`). The properties the source promises
  are lemmas about those functions.
- The sentence loop is written once (`SentenceGrouping`). Both
  `_split_large_paragraph` (which carries the overlap tail) and
  `_sentence_chunk` (which does not) use it, as the two source loops differ
  only in that and in the tag.
- `re.split` is modelled as a leftmost-match scan that returns the spans of the
  pieces (module `Splitters`).
- `extract_sections` is a method with the source's line loop. It is proved equal
  to a declarative description: one section per heading line, holding the
  content lines up to the next heading.
- Character classes (`\s`, `\w`, `\d`, upper case, `str.lower`) are their ASCII
  parts (module `Text`).

Modules:

| module | file | contents |
|---|---|---|
| Wrappers | wrappers.dfy | Option and Result |
| Text | text.dfy | strip, join, split, lower, decimal rendering |
| Tokens | tokens.dfy | the tokenizer and token counting |
| Splitters | splitters.dfy | `_split_into_paragraphs`, `_split_into_sentences` |
| DocumentProcessor | document.dfy | sections, `extract_sections`, `count_words`, `_describe_table` |
| ChunkModel | chunk_model.dfy | `TextChunk`, the engine, shared chunk builders, `optimize_chunk_size` |
| SentenceGrouping | sentence_grouping.dfy | the sentence accumulate/flush loop as a fold |
| ParagraphGrouping | paragraph_grouping.dfy | the paragraph loop of `_split_long_section` as a fold |
| Strategies | strategies.dfy | what each strategy returns, and its properties |
| ChunkingEngine | engine.dfy | the strategy methods, with the source's loops |
| ProcessorFactory | factory.dfy | `get_processor` |
| Summarization | summarization.dfy | `select_strategy`, `get_strategy_instance` |

## Model

| member | source | states |
|---|---|---|
| ChunkingEngine.ChunkDocument | src/core/chunking_engine.py:47-70 | "smart", "fixed", "sentence" and "section" each return their strategy's chunks; the call succeeds exactly for those four names; any other name gives the error "Unknown chunking strategy: " followed by the name |
| ChunkingEngine.SmartChunk | src/core/chunking_engine.py:72-106 | the section loop computes `Strategies.SmartChunks`: a fitting section becomes one chunk, a longer one becomes its split chunks, and ids continue from section to section |
| ChunkingEngine.SplitLongSection | src/core/chunking_engine.py:108-178 | the result is the chunks of the paragraph plan of the section, numbered from the start id |
| ChunkingEngine.GroupParagraphs | src/core/chunking_engine.py:123-176 | the paragraph loop plus the final save compute the fold of `ParagraphGrouping.Step` over the paragraphs, then `Finish` |
| ChunkingEngine.AddParagraph | src/core/chunking_engine.py:124-167 | one iteration on the loop's own variables (chunks, buffer, running total, next id) is exactly one `ParagraphGrouping.Step`: the oversized, overflow and append branches |
| ChunkingEngine.AddLargeParagraph | src/core/chunking_engine.py:127-143 | for a paragraph over `chunk_size`: the buffer is saved if non-empty, then cleared, and the paragraph's sentence chunks follow with the next ids; the result is one `ParagraphGrouping.Step` |
| ChunkingEngine.AddOverflowingParagraph | src/core/chunking_engine.py:145-163 | for a paragraph that fits alone but overflows the buffer: the buffer is saved if non-empty, and the new buffer is the last chunk's overlap tail plus the paragraph when there is a chunk and overlap is on, else the paragraph; the result is one `ParagraphGrouping.Step` |
| ChunkingEngine.SaveCurrent | src/core/chunking_engine.py:129-154 | a non-empty buffer is saved as one 'paragraph_based' chunk with the next id; an empty buffer changes nothing |
| ChunkingEngine.SplitLargeParagraph | src/core/chunking_engine.py:180-234 | the result is the paragraph's sentences grouped by the sentence loop, with overlap carried when `chunk_overlap > 0` and the tag 'sentence_split' |
| ChunkingEngine.GroupSentences | src/core/chunking_engine.py:194-232 | the sentence loop plus the final save compute `SentenceGrouping.Chunks` |
| ChunkingEngine.FixedChunk | src/core/chunking_engine.py:277-301 | the window loop computes `Strategies.FixedChunks`, when the step `chunk_size - chunk_overlap` is positive or there are no tokens |
| ChunkingEngine.SentenceChunk | src/core/chunking_engine.py:303-340 | the result is `Strategies.SentenceChunks` of the text |
| ChunkingEngine.SectionChunk | src/core/chunking_engine.py:342-359 | the enumerate loop computes `Strategies.SectionChunks` of the sections |
| ChunkingEngine.FoldNext | src/core/chunking_engine.py:194-220 | the fold of the sentence loop over the first i + 1 sentences is one more step after the fold over the first i |
| ChunkingEngine.ParagraphFoldNext | src/core/chunking_engine.py:123-167 | the same for the paragraph loop |
| Strategies.SmartPlanLayout | src/core/chunking_engine.py:72-106 | smart chunk k is numbered k. It comes from a section visited in order and copies that section's title and level. Its token count is its content's. When the section fits, it is the section verbatim, tagged 'section_preserved' and complete; otherwise it is its overlap seed plus its own units, joined with its tag's separator |
| Strategies.SmartPlanOrder | src/core/chunking_engine.py:80-104 | the chunks' own units, in order, are exactly the units of the sections, in order: nothing is lost, repeated or reordered |
| Strategies.SmartChunksIds | src/core/chunking_engine.py:78-104 | smart chunk ids are 0, 1, 2, … across sections and splits, and each token count is the count of the content |
| Strategies.PreservedIff | src/core/chunking_engine.py:84-103 | a chunk from a section is that section verbatim exactly when the section fits `chunk_size` |
| Strategies.SmartKeepsFittingSection | src/core/chunking_engine.py:84-96 | every smart chunk has a source section; it is the whole section, unsplit, exactly when that section fits |
| Strategies.SplitChunkFromSection | src/core/chunking_engine.py:97-104 | a split chunk of a section that does not fit has the provenance the smart layout requires |
| Strategies.SectionPlanLayout | src/core/chunking_engine.py:81-104 | the chunks of one section: whole when it fits, else the split plan. Each chunk is tied to the section, and the units are the section's units |
| Strategies.SentenceChunksLayout | src/core/chunking_engine.py:303-340 | sentence chunk k is numbered k, tagged 'sentence' and has no section. Its content is the ' '-join of a non-empty run of consecutive sentences, with no overlap. The runs partition the sentences in order |
| Strategies.SentenceChunksBudget | src/core/chunking_engine.py:315-327 | in a sentence chunk with more than one sentence, the sum of the sentences' token counts is at most `chunk_size`; a chunk was closed only because adding the next sentence's count would exceed it |
| Strategies.SentenceChunksEmpty | src/core/chunking_engine.py:330-338 | there are no chunks exactly when there are no sentences; blank text gives no chunks |
| Strategies.UnseededChunk | src/core/chunking_engine.py:315-338 | a chunk of the sentence strategy carries no overlap seed, is numbered by position, tagged 'sentence' and has no section |
| Strategies.SectionChunks | src/core/chunking_engine.py:342-359 | one chunk per section, in order: chunk i is section i's content, numbered i, with its title, level and token count, tagged 'section' and complete |
| Strategies.Window | src/core/chunking_engine.py:287 | `tokens[i:i + chunk_size]` with Python's clamped end: at most `chunk_size` tokens, a contiguous slice, non-empty while `i` is inside the tokens |
| Strategies.Starts | src/core/chunking_engine.py:286-298 | the loop's window starts all lie below the token count |
| Strategies.StartsAt | src/core/chunking_engine.py:286-298 | start k is k steps after the first start, and the starts stop at the first one at or past the end |
| Strategies.FixedChunksShape | src/core/chunking_engine.py:277-301 | fixed chunk k starts at `k * step` below the token count and holds the decoded window. Its token count is the window's length, at most `chunk_size`. Ids run 0, 1, 2, …, and the windows reach the end of the tokens |
| Strategies.FixedWindowsOverlap | src/core/chunking_engine.py:296-297 | when window k is full, its last `chunk_overlap` tokens are the first tokens of window k + 1 |
| Strategies.FixedCoverage | src/core/chunking_engine.py:286-298 | every token lies in some window |
| Strategies.FixedChunksByWindows | src/core/chunking_engine.py:286-298 | chunks that agree window by window with the loop's windows are the fixed chunks |
| SentenceGrouping.FinishLayout | src/core/chunking_engine.py:194-232 | the sentence loop's chunks are dense from the start id. Each is its overlap seed plus a non-empty run of its own sentences, joined by ' '. The seed is the overlap tail of the previous chunk when overlap is carried, else nothing. The runs, in order, are the sentences |
| SentenceGrouping.FinishBudgeted | src/core/chunking_engine.py:197-220 | for a chunk with more than one own sentence, the running total (seed and sentences, unit by unit) is at most `chunk_size`; every chunk but the last was closed because the next sentence's count would push that total over |
| SentenceGrouping.FinishGreedy | src/core/chunking_engine.py:197-220 | the final save keeps the greedy property of the chunks closed inside the loop |
| SentenceGrouping.ChunksEmptyIff | src/core/chunking_engine.py:194-232 | the sentence loop gives no chunks exactly when there are no sentences |
| SentenceGrouping.StepEffect | src/core/chunking_engine.py:197-220 | one turn of the sentence loop on the loop's variables: flush and seed, or append |
| ParagraphGrouping.SplitPlanLayout | src/core/chunking_engine.py:108-234 | each chunk of `_split_long_section` is numbered from the start id, tagged 'paragraph_based' or 'sentence_split', and carries the section's title and level. It is its seed (nothing, or the overlap tail of the previous chunk) plus a non-empty run of own units, joined with the tag's separator. The runs, in order, are the paragraphs, with each oversized one replaced by its sentences |
| ParagraphGrouping.SplitPlanBudget | src/core/chunking_engine.py:123-167 | for a split chunk with more than one own unit, the running total of its seed and units, unit by unit, is at most `chunk_size` |
| ParagraphGrouping.OverflowBuffer | src/core/chunking_engine.py:146-163 | after an overflow flush, the new buffer is the overlap tail of the chunk just saved plus the paragraph when overlap is on, else the paragraph alone |
| ParagraphGrouping.LargeBuffer | src/core/chunking_engine.py:127-143 | an oversized paragraph leaves the buffer empty: no overlap is carried into or out of its sentence split |
| ParagraphGrouping.FinishLayout | src/core/chunking_engine.py:169-176 | the final save turns the loop invariant into the finished layout |
| ParagraphGrouping.FinishBudget | src/core/chunking_engine.py:169-176 | the final save keeps the budget property |
| ChunkModel.MakeChunk | src/core/chunking_engine.py:199-207 | a split chunk has the given content and id, its token count recounted from the content, the given tag and provenance, and no completeness mark |
| ChunkModel.CreateChunkFromParagraphs | src/core/chunking_engine.py:236-252 | the chunk's content is the paragraphs joined by blank lines ("\n\n"); it has the given id, the section's title and level, the token count of that content, the tag 'paragraph_based', and no completeness mark |
| ChunkModel.OverlapTextTail | src/core/chunking_engine.py:254-263 | the overlap tail is the text itself when it has at most `chunk_overlap` tokens. Otherwise it is the decoding of the last `chunk_overlap` tokens, or of all of them when `chunk_overlap` is 0, as with Python's `tokens[-0:]` |
| ChunkModel.OverlapText | src/core/chunking_engine.py:254-258 | a text of at most `chunk_overlap` tokens is its own overlap tail (the longer case is `OverlapTextTail`) |
| ChunkModel.OptimalChunkSize | src/core/chunking_engine.py:361-382 | the size is one of 500, 1000, 1500, 2000. It is 500 exactly below 5000 tokens; 1000 exactly for 5000 to 19999 tokens with more than 3 sections; 2000 exactly from 50000 tokens |
| ChunkModel.OptimizeChunkSize | src/core/chunking_engine.py:361-382 | on the token count of the document's full text and its number of sections: one of 500, 1000, 1500, 2000; 500 exactly below 5000 tokens; 1000 exactly for 5000 to 19999 tokens with more than 3 sections; 2000 exactly from 50000 tokens |
| ChunkModel.OptimalChunkSizeMonotone | src/core/chunking_engine.py:361-382 | a longer document never gets a smaller chunk size |
| Tokens.TailSlice | src/core/chunking_engine.py:261 | `tokens[-k:]` is the last k tokens when k > 0 and all tokens when k = 0 |
| Tokens.SumTokensSnoc | src/core/chunking_engine.py:166-167 | the running total grows by the appended unit's count |
| Splitters.SplitSpansAreSplit | src/core/chunking_engine.py:265-275 | the `re.split` scan returns in-order pieces that cover the text from start to end. Consecutive pieces are separated by exactly one match, and no match starts inside a piece |
| Splitters.ParagraphsSplitAtBlankLines | src/core/chunking_engine.py:265-269 | consecutive paragraph pieces are separated by a whitespace run that starts and ends with a newline (`\n\s*\n`) |
| Splitters.SentencesSplitAfterMarks | src/core/chunking_engine.py:271-275 | consecutive sentence pieces are separated by a maximal whitespace run right after '.', '!' or '?' |
| Splitters.SplitParagraphs | src/core/chunking_engine.py:265-269 | every paragraph is non-empty and has no whitespace at either end (`p.strip()` of the pieces, empty ones dropped) |
| Splitters.SplitSentences | src/core/chunking_engine.py:271-275 | every sentence is non-empty and has no whitespace at either end |
| Splitters.NoSentencesInBlankText | src/core/chunking_engine.py:271-275 | empty or all-whitespace text has no sentences |
| Splitters.PiecesAt | src/core/chunking_engine.py:268 | piece k is the text between span k's bounds |
| Splitters.MatchAt | src/core/chunking_engine.py:268 | a match is whitespace only. A paragraph match starts and ends with a newline. A sentence match follows '.', '!' or '?' and is a maximal whitespace run |
| DocumentProcessor.ExtractSections | src/processors/document_processor.py:50-121 | the sections are `Sections(text)`, the declarative description of the heading structure |
| DocumentProcessor.ParseLines | src/processors/document_processor.py:62-106 | after the line loop, the saved sections, the open section and the buffer are those the heading lines determine |
| DocumentProcessor.OneSectionPerHeading | src/processors/document_processor.py:91-111 | with heading lines, there is exactly one section per heading line, in order. It starts at that line and has that heading's title and level |
| DocumentProcessor.SectionsAtHeadings | src/processors/document_processor.py:98-104 | section k starts at heading line k and has that line's title and level |
| DocumentProcessor.NoHeadingsOneSection | src/processors/document_processor.py:113-119 | a text without heading lines is the one section "Document Content", level 1, holding the whole text |
| DocumentProcessor.ContentPartitioned | src/processors/document_processor.py:91-111 | the sections' content lines, in order, are all the content lines of the text, in order; each section's content is its lines joined with newlines and stripped |
| DocumentProcessor.BodyIsContent | src/processors/document_processor.py:66-106 | every line in a section's content is a content line |
| DocumentProcessor.ContentLine | src/processors/document_processor.py:67-69 | a content line is neither whitespace-only nor a heading |
| DocumentProcessor.HeadingLinesExact | src/processors/document_processor.py:76-104 | the heading indices are exactly the lines a pattern matches |
| DocumentProcessor.RecognisersExclusive | src/processors/document_processor.py:55-60 | no two of the four heading patterns match the same line, so their order does not matter |
| DocumentProcessor.HeadingShape | src/processors/document_processor.py:76-89 | a heading has a non-empty, stripped title and a level of at least 1; a markdown level is at most 6 and a numbered one at least 2 |
| DocumentProcessor.HeadingLevels | src/processors/document_processor.py:76-89 | the exact heading of a line by its first character: for '#', level = the number of leading '#', title = the rest stripped; for an upper-case letter (all-caps or roman), level 2 and the whole line as title; for a digit, level = the number of parts `split('.')` gives of the number prefix, title = the text after the whitespace that follows it |
| DocumentProcessor.NumberedExample | src/processors/document_processor.py:83-85 | "1. X" is a heading of level 2 (parts "1" and "") titled "X" |
| DocumentProcessor.NumberUnitsDots | src/processors/document_processor.py:84 | the number prefix holds one '.' per `\d+\.` unit |
| Text.SplitCount | src/processors/document_processor.py:84 | `len(s.split(d))` is one more than the number of `d` in `s` |
| DocumentProcessor.MarkdownHeading | src/processors/document_processor.py:56 | `^#{1,6}\s+(.+)$`: a match has 1 to 6 leading '#' (its level), followed by whitespace, and its title is the rest of the line stripped (lines 80-82) |
| DocumentProcessor.AllCapsHeading | src/processors/document_processor.py:57 | `^([A-Z][A-Z\s]{3,})\s*$`: a match is at least 4 characters starting with an upper-case letter, and is the heading of level 2 titled with the whole line (lines 86-88) |
| DocumentProcessor.NumberedHeading | src/processors/document_processor.py:58 | `^(\d+\.(?:\d+\.)*)\s+(.+)$`: a match starts with a digit, its number prefix is followed by whitespace, its level is one more than the number of `\d+\.` units and its title is the text after that whitespace (lines 83-85) |
| DocumentProcessor.RomanHeading | src/processors/document_processor.py:59 | `^([IVXLCDM]+\.\s+.+)$`: a match starts with a roman-numeral letter and is the heading of level 2 titled with the whole line (lines 86-88) |
| DocumentProcessor.Classify | src/processors/document_processor.py:76-89 | a line is a heading exactly when one of the four patterns matches it |
| DocumentProcessor.NumberUnits | src/processors/document_processor.py:58 | the run of `\d+\.` units ends where it starts exactly when there are none |
| DocumentProcessor.ParsedNextHeading | src/processors/document_processor.py:91-104 | a later heading saves the open section with the buffer joined and stripped, opens its own section, and clears the buffer |
| DocumentProcessor.ParsedFirstHeading | src/processors/document_processor.py:98-104 | the first heading opens a section and keeps the lines buffered before it |
| DocumentProcessor.ParsedSkip | src/processors/document_processor.py:67-69 | a whitespace-only line changes nothing |
| DocumentProcessor.ParsedContent | src/processors/document_processor.py:105-106 | a content line is appended to the buffer |
| DocumentProcessor.ParsedDone | src/processors/document_processor.py:108-111 | after the last line, saving the open section completes the sections |
| DocumentProcessor.CountWords | src/processors/document_processor.py:123-125 | words are runs of word characters separated by non-word ones, so a text of n characters has at most (n + 1) / 2 of them, and at most n / 2 when it ends in a non-word character |
| DocumentProcessor.CountWordsAppend | src/processors/document_processor.py:123-125 | the word counts of two texts add up when the seam does not cut a word in two |
| DocumentProcessor.OneWord | src/processors/document_processor.py:123-125 | a non-empty run of word characters is one word |
| DocumentProcessor.NoWordChars | src/processors/document_processor.py:123-125 | a text without word characters has no words |
| DocumentProcessor.CountJoinedWords | src/processors/document_processor.py:123-125 | words joined by single spaces are counted one each |
| DocumentProcessor.NineWords | src/processors/document_processor.py:123-125 | "This is a test document with ten words total." has nine words |
| DocumentProcessor.HeaderNames | src/processors/document_processor.py:203-204 | the listed header names are non-empty and no more than the cells |
| DocumentProcessor.HeaderNamesExact | src/processors/document_processor.py:203-204 | a name is listed exactly when a header cell holds it and it is non-empty |
| DocumentProcessor.HeaderNamesInOrder | src/processors/document_processor.py:203 | the names are the non-empty cells in header order: name k is cell idx[k], the indices increase, and they are exactly the cells holding a non-empty name |
| DocumentProcessor.DescribeTable | src/processors/document_processor.py:193-206 | the description is empty exactly for an empty table or an empty header row |
| DocumentProcessor.DescriptionReadsBack | src/processors/document_processor.py:193-204 | a description is, piece by piece at its own position, "Table with ", the decimal row count (rows after the header), " rows and ", the decimal column count (the header's width), " columns. Columns: ", and the header names joined by ", " and followed by ". "; both numbers read back to the counts |
| Text.NatToStringRoundTrip | src/processors/document_processor.py:202 | the decimal rendering of a count reads back to the count |
| Text.Strip | src/processors/document_processor.py:67 | `str.strip()` is empty exactly for whitespace-only text, and otherwise begins and ends with non-whitespace |
| Text.Split | src/processors/document_processor.py:62 | `text.split('\n')` has at least one piece, no piece holds a newline, and joining the pieces with newlines gives the text back |
| Text.LowerIdempotent | src/processors/document_processor.py:346 | lower-casing twice is lower-casing once |
| ProcessorFactory.CaseInsensitive | src/processors/document_processor.py:346-354 | a path and its lower-cased form get the same processor or the same error |
| ProcessorFactory.Dispatch | src/processors/document_processor.py:346-354 | "stem.ext" gets the processor ".ext" is accepted with, or the error "Unsupported file type: .ext" |
| ProcessorFactory.FactoryTests | src/processors/document_processor.py:348-354 | ".pdf", ".docx", ".txt" and ".md" files get their processors; a ".xyz" file is refused with an error naming ".xyz" |
| ProcessorFactory.DotFileRefused | src/processors/document_processor.py:346-354 | a dot-file such as ".pdf" has no suffix and is refused with "Unsupported file type: " |
| ProcessorFactory.SuffixOfName | src/processors/document_processor.py:346 | the suffix of "stem.ext" is ".ext" |
| ProcessorFactory.Suffix | src/processors/document_processor.py:346 | `Path.suffix` is empty or a dot followed by at least one non-dot character, shorter than the name |
| ProcessorFactory.Accepted | src/processors/document_processor.py:348-354 | only dotted suffixes of 3 to 9 characters are accepted |
| ProcessorFactory.FileName | src/processors/document_processor.py:346 | `Path.name` holds no '/' |
| ProcessorFactory.GetProcessor | src/processors/document_processor.py:343-354 | the processor is the one the lower-cased suffix of the file name is accepted with; when it is not accepted the error is "Unsupported file type: " followed by that suffix |
| ProcessorFactory.SameSuffixSameProcessor | src/processors/document_processor.py:346-354 | the outcome depends only on the lower-cased suffix |
| Summarization.SelectStrategy | src/strategies/summarization_strategies.py:303-341 | "stuff" exactly below 4000 tokens; "refine" exactly for "premium" with 4000 to 49999 tokens; "map_reduce" exactly otherwise, including "premium" at exactly 50000 |
| Summarization.SelectionIgnoresChunks | src/strategies/summarization_strategies.py:303-341 | the choice does not depend on the chunks |
| Summarization.StuffOnlyForShort | src/strategies/summarization_strategies.py:321-322 | once a document is too long for "stuff", every longer one is too |
| Summarization.PremiumAtLongLimit | src/strategies/summarization_strategies.py:325-341 | "premium" at exactly 50000 tokens gets "map_reduce" |
| Summarization.GetStrategyInstance | src/strategies/summarization_strategies.py:344-360 | a found strategy is registered under the requested name; otherwise the error is "Unknown strategy: " followed by the name |
| Summarization.LookupByName | src/strategies/summarization_strategies.py:350-358 | each strategy is found under its own name |
| Summarization.SelectedIsRegistered | src/strategies/summarization_strategies.py:303-360 | whatever the selector picks, the lookup finds it |

## Left out

- The `process` methods of the PDF, DOCX and text processors, `process_document`, and the metadata they gather. These are file I/O through pdfplumber and python-docx.
- The tokenizer. tiktoken's `encoding_for_model` is replaced by a caller-supplied pair of total functions `encode`/`decode`, and no property of real BPE encodings is assumed.
- Character classes are ASCII only: `\s`, `\w`, `\d`, `[A-Z]`, `str.strip()` and `str.lower()` on non-ASCII characters are not modelled.
- `TextChunk.start_position` and `end_position` are never set by the engine, so they are not modelled. `metadata` becomes the tag and the completeness flag.
- `DocumentSection.start_position` of the default "Document Content" section is `None`. A parsed section's position is the index of its heading line.
- `DocumentSection` is a value. The parser's update of `current_section.content` is modelled as saving a copy with the content filled in, which is equivalent because nothing else holds that object.
- `chunk_size` and `chunk_overlap` are natural numbers. Negative values are not modelled.
- ChunkingEngine.FixedChunk: requires `chunk_size - chunk_overlap > 0` whenever the text has tokens. With a step of zero or less, the source's `while` loop never ends, and a non-terminating loop cannot be stated here. The same precondition is on `Strategies.FixedChunks`, and on `ChunkingEngine.ChunkDocument` for the "fixed" name.
- Summarisation itself (the stuff, map-reduce and refine strategies, prompts, `MultiLevelSummarizer`), the LLM manager, the app and its configuration. These are calls into language-model services.
- Summarization.GetStrategyInstance: returns the strategy's tag, not an object, and ignores `model_name`. Constructing the strategy object needs the language-model client.
- ProcessorFactory.GetProcessor: returns the processor's kind, not a processor object.
- ChunkModel.OverlapText: its own contract states only the short case (the text is its own tail). The long case, the decoding of the last `chunk_overlap` tokens, is stated by `ChunkModel.OverlapTextTail`.
- ProcessorFactory.FileName: `Path` normalisation is not modelled. Trailing '/' and '.' components and repeated separators are not collapsed; the name is the text after the last '/'.
- DocumentProcessor.DescribeTable: cells are `Option<string>`, with `None` for a missing cell. Non-string cells and their `str()` rendering are not modelled. The DOCX copy of `_describe_table` (src/processors/document_processor.py:297-309) is identical and is covered by the same function.
- DocumentProcessor.NineWords: the test sentence is stated as its words joined by spaces, followed by the full stop, rather than as one literal.
- ProcessorFactory.FactoryTests: stated for any stem without '/', rather than for the single file names of the unit test.
- Summarization.SelectStrategy: the token count is any integer, and the chunk list is a parameter that is not consulted, as in the code.
- The errors of the source are `ValueError`s; here they are `Err` values carrying the message.
