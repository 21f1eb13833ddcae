/** The token counter the chunking engine is built on.  The source obtains
    it from the tiktoken library for a model name; here the encoder and the
    decoder are two arbitrary total functions supplied by the caller, and
    nothing is assumed about them beyond what their types say. */
module Tokens {

  datatype Tokenizer = Tokenizer(encode: string -> seq<int>, decode: seq<int> -> string)

  /** `count_tokens`: the number of token ids the encoder produces. */
  function CountTokens(tk: Tokenizer, text: string): nat {
    |tk.encode(text)|
  }

  /** The running `current_tokens` total of a buffer of units: the sum of
      the units' individual token counts. */
  function SumTokens(tk: Tokenizer, units: seq<string>): nat {
    if units == [] then 0
    else SumTokens(tk, units[..|units| - 1]) + CountTokens(tk, units[|units| - 1])
  }

  lemma SumTokensSnoc(tk: Tokenizer, units: seq<string>, u: string)
    ensures SumTokens(tk, units + [u]) == SumTokens(tk, units) + CountTokens(tk, u)
  {
    assert (units + [u])[..|units|] == units;
  }

  /** Python's `tokens[-k:]`: the last `k` ids when `0 < k`, and, because
      `-0 == 0`, the whole list when `k == 0`. */
  function TailSlice(tokens: seq<int>, k: nat): (r: seq<int>)
    requires k <= |tokens|
    ensures k > 0 ==> |r| == k && tokens == tokens[..|tokens| - k] + r
    ensures k == 0 ==> r == tokens
  {
    if k == 0 then tokens else tokens[|tokens| - k..]
  }
}
