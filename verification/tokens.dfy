/**
 * The token budget allocator: token counting and `cap` (chat.py:45-52).
 * The cl100k_base tokenizer is a foreign library, so it is a parameter: a pair of total
 * functions, with the round-trip law stated as a predicate and required only where used.
 */
module Tokens {

  type Tok = nat

  datatype Tokenizer = Tokenizer(encode: string -> seq<Tok>, decode: seq<Tok> -> string)

  /** `decode(encode(s)) == s` for every string, as a lossless BPE tokenizer promises. */
  ghost predicate RoundTrips(tk: Tokenizer)
  {
    forall s :: tk.decode(tk.encode(s)) == s
  }

  /** `len(ENCODER.encode(s))`. */
  function Count(tk: Tokenizer, s: string): nat
  {
    |tk.encode(s)|
  }

  /** What `cap` returns when it has no tokens to spend. */
  const Ellipsis: string := "..."

  /** What `cap` appends after a truncated prefix. */
  const TruncationMarker: string := " ..."

  function Min(a: int, b: int): int
  {
    if a <= b then a else b
  }

  /** `cap(text, max_tokens)`: limit `text` to `maxTokens` tokens, marking a truncation. */
  function Cap(tk: Tokenizer, text: string, maxTokens: int): (r: string)
    ensures maxTokens <= 0 ==> r == Ellipsis
    ensures 0 < maxTokens && Count(tk, text) <= maxTokens ==> r == text
    ensures 0 < maxTokens < Count(tk, text) ==>
      r == tk.decode(tk.encode(text)[..maxTokens]) + TruncationMarker
  {
    if maxTokens <= 0 then Ellipsis
    else
      var encoded := tk.encode(text);
      if |encoded| <= maxTokens then text
      else tk.decode(encoded[..maxTokens]) + TruncationMarker
  }

  /**
   * With a lossless tokenizer and a positive ceiling, `cap` is always the decoding of a
   * token prefix of `text` of length min(count, ceiling), followed by the marker exactly
   * when the prefix is proper: it never reorders or takes anything but a prefix.
   */
  lemma CapIsTokenPrefix(tk: Tokenizer, text: string, maxTokens: int)
    requires RoundTrips(tk)
    requires 0 < maxTokens
    ensures var kept := Min(Count(tk, text), maxTokens);
      Cap(tk, text, maxTokens) ==
        tk.decode(tk.encode(text)[..kept])
          + (if kept < Count(tk, text) then TruncationMarker else "")
  {
    var encoded := tk.encode(text);
    if |encoded| <= maxTokens {
      assert encoded[..|encoded|] == encoded;
      assert tk.decode(tk.encode(text)) == text;
    }
  }
}
