/** The summarisation strategy selector: `StrategySelectorr.select_strategy`,
    which picks a strategy from the document's token count and the quality
    preference, and the name lookup of `get_strategy_instance`, which here
    returns the strategy's tag instead of an LLM-backed object. */
module Summarization {
  import opened Wrappers
  import opened ChunkModel

  /** The three summarisation strategies. */
  datatype StrategyName = Stuff | MapReduce | Refine

  /** The name each strategy is registered under. */
  function Name(s: StrategyName): string {
    match s
    case Stuff => "stuff"
    case MapReduce => "map_reduce"
    case Refine => "refine"
  }

  /** Documents below this many tokens are summarised in one call. */
  const ShortLimit := 4000

  /** Above this many tokens, map-reduce is chosen whatever the preference;
      below it, the "premium" preference gets refine. */
  const LongLimit := 50000

  /** `select_strategy(chunks, total_tokens, quality_preference)`: first
      match wins. Short documents get stuff; a premium preference below the
      long limit gets refine; everything else, including "balanced", "fast",
      an unknown preference and premium at exactly the long limit, gets
      map-reduce. The chunks are not consulted. */
  function SelectStrategy(chunks: seq<TextChunk>, totalTokens: int, quality: string): (r: StrategyName)
    ensures r == Stuff <==> totalTokens < ShortLimit
    ensures r == Refine <==> quality == "premium" && ShortLimit <= totalTokens < LongLimit
    ensures r == MapReduce <==> ShortLimit <= totalTokens && (quality != "premium" || totalTokens >= LongLimit)
  {
    if totalTokens < ShortLimit then Stuff
    else if quality == "premium" && totalTokens < LongLimit then Refine
    else if totalTokens > LongLimit then MapReduce
    else if quality == "balanced" then MapReduce
    else if quality == "fast" then MapReduce
    else MapReduce
  }

  /** The choice depends only on the token count and the preference. */
  lemma SelectionIgnoresChunks(c1: seq<TextChunk>, c2: seq<TextChunk>, totalTokens: int, quality: string)
    ensures SelectStrategy(c1, totalTokens, quality) == SelectStrategy(c2, totalTokens, quality)
  {
  }

  /** Once a document is too long for stuff, every longer one is too: the
      stuff region is the prefix of token counts below the short limit. */
  lemma StuffOnlyForShort(chunks: seq<TextChunk>, t1: int, t2: int, quality: string)
    requires t1 <= t2 && SelectStrategy(chunks, t1, quality) != Stuff
    ensures SelectStrategy(chunks, t2, quality) != Stuff
  {
  }

  /** Premium at exactly the long limit falls through to map-reduce. */
  lemma PremiumAtLongLimit(chunks: seq<TextChunk>)
    ensures SelectStrategy(chunks, LongLimit, "premium") == MapReduce
  {
  }

  /** `get_strategy_instance(name)`: the strategy registered under `name`,
      or the `ValueError` naming it. */
  function GetStrategyInstance(name: string): (r: Result<StrategyName, string>)
    ensures r.Ok? ==> Name(r.value) == name
    ensures r.Err? ==> r.error == "Unknown strategy: " + name
  {
    if name == "stuff" then Ok(Stuff)
    else if name == "map_reduce" then Ok(MapReduce)
    else if name == "refine" then Ok(Refine)
    else Err("Unknown strategy: " + name)
  }

  /** Every strategy is found under its own name, so the lookup accepts
      exactly the three registered names. */
  lemma LookupByName(s: StrategyName)
    ensures GetStrategyInstance(Name(s)) == Ok(s)
  {
  }

  /** Whatever the selector picks, the lookup accepts its name. */
  lemma SelectedIsRegistered(chunks: seq<TextChunk>, totalTokens: int, quality: string)
    ensures GetStrategyInstance(Name(SelectStrategy(chunks, totalTokens, quality))) == Ok(SelectStrategy(chunks, totalTokens, quality))
  {
    LookupByName(SelectStrategy(chunks, totalTokens, quality));
  }
}
