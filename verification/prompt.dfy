/**
 * The prompt assembler: `construct_prompt` (chat.py:57-144). It builds one system message
 * (instructions plus budgeted reference blocks), the budgeted and scrubbed history, and one
 * final user message that depends on the answer mode.
 */
module Prompt {
  import opened Wrappers
  import opened Text
  import opened Tokens
  import opened Citations

  /** NUM_TOKENS for gpt-3.5-turbo. */
  const NumTokens: int := 4095

  /** int(NUM_TOKENS * CONTEXT_FRACTION) = int(4095 * 0.5). */
  const ContextBudget: int := NumTokens / 2

  /** int(NUM_TOKENS * HISTORY_FRACTION) = int(4095 * 0.25). */
  const HistoryBudget: int := NumTokens / 4

  /** The stop of the slice `history[:-10:-1]`. */
  const HistoryStop: int := -10

  /** chr(ord('a') + i) stays below the surrogate range for i below this bound. */
  const MaxLabels: int := 0xD800 - 'a' as int

  const SystemRole: string := "system"
  const UserRole: string := "user"
  const AssistantRole: string := "assistant"

  /** A retrieved reference passage with its provenance. */
  datatype Block = Block(title: string, authors: seq<string>, date: string, url: string, text: string)

  /** One chat message: a role name and its content. */
  datatype Message = Message(role: string, content: string)

  /**
   * The fixed wording `construct_prompt` assembles prompts from: the literals at
   * chat.py:70-73 (without their closing blank line), :91-94, :121-123, :126-127 and
   * :130-135, character for character. Splitting them into short pieces is a
   * verification device only, not a reflection of the source: the verifier reasons about
   * a concatenation of short literals far more cheaply than about one long literal, and
   * the value is the same string.
   */
  datatype Wording = PreambleHead | Caveat | CitationInstructions | ConciseClause | RookieClause

  function Words(w: Wording): string
  {
    match w
    case PreambleHead =>
      "You are a helpful " + "assistant " + "knowledgeable about " + "AI Alignment and "
      + "Safety. Please give " + "a clear and " + "coherent answer to " + "the user's "
      + "questions.(written " + "after \"Q:\") using " + "the following " + "sources. Each "
      + "source is labeled " + "with a letter. Feel " + "free to use the " + "sources in any "
      + "order, and try to " + "use multiple " + "sources in your " + "answers."
    case Caveat =>
      "\n\nBefore the " + "question (\"Q: \"), " + "there will be a " + "history of previous "
      + "questions and " + "answers. These " + "sources only apply " + "to the last "
      + "question. Any " + "sources used in " + "previous answers " + "are invalid."
    case CitationInstructions =>
      "In your answer, " + "please cite any " + "claims you make " + "back to each source "
      + "using the format: " + "[a], [b], etc. If " + "you use multiple " + "sources to make a "
      + "claim cite all of " + "them. For example: " + "\"AGI is concerning "
      + "[c, d, e].\"\n\n"
    case ConciseClause =>
      "Answer very " + "concisely, getting " + "to the crux of the " + "matter in as few "
      + "words as possible. " + "Limit your answer " + "to 1-2 sentences.\n\n"
    case RookieClause =>
      "This user is new to " + "the field of AI " + "Alignment and " + "Safety - don't "
      + "assume they know " + "any technical terms " + "or jargon. Still " + "give a complete "
      + "answer without " + "patronizing the " + "user, but take any " + "extra time needed "
      + "to explain new " + "concepts or to " + "illustrate your " + "answer with "
      + "examples. Put extra " + "effort into " + "explaining the " + "intuition behind "
      + "concepts rather " + "than just giving a " + "formal definition.\n\n"
  }

  /** The opening instructions of the system message, ending in a blank line (chat.py:70-73). */
  function Preamble(): string
  {
    Words(PreambleHead) + "\n\n"
  }

  const QuestionPrefix: string := "Q: "

  // ------------------------------------------------------------------ context blocks

  /** The citation letter of the block at position `i`: chr(ord('a') + i). */
  function Label(i: nat): (c: char)
    requires i < MaxLabels
    ensures c as int == 'a' as int + i
  {
    ('a' as int + i) as char
  }

  /** `[<letter>] <title> - <authors joined by ','> - <date>\n<text>\n\n`. */
  function RenderBlock(i: nat, b: Block): string
    requires i < MaxLabels
  {
    "[" + [Label(i)] + "] " + b.title + " - " + Join(",", b.authors) + " - " + b.date
      + "\n" + b.text + "\n\n"
  }

  /** Tokens of the rendered blocks `lo .. hi-1`. */
  function BlockTokens(tk: Tokenizer, blocks: seq<Block>, lo: nat, hi: nat): nat
    requires lo <= hi <= |blocks| <= MaxLabels
    decreases hi - lo
  {
    if lo == hi then 0
    else Count(tk, RenderBlock(lo, blocks[lo])) + BlockTokens(tk, blocks, lo + 1, hi)
  }

  /** The rendered blocks `lo .. hi-1`, concatenated in input order. */
  function BlockTexts(blocks: seq<Block>, lo: nat, hi: nat): string
    requires lo <= hi <= |blocks| <= MaxLabels
    decreases hi - lo
  {
    if lo == hi then "" else RenderBlock(lo, blocks[lo]) + BlockTexts(blocks, lo + 1, hi)
  }

  /** What the context loop appended, how many blocks it took whole, and its final count. */
  datatype ContextFill = ContextFill(text: string, whole: nat, count: int)

  /**
   * The context loop (chat.py:78-87) from block `i` on, with `count` tokens already used.
   * `PromptLemmas.FillContextCounts` and `PromptLemmas.FillContextText` state what it appends.
   */
  function FillContext(tk: Tokenizer, blocks: seq<Block>, i: nat, count: int): (r: ContextFill)
    requires i <= |blocks| <= MaxLabels
    ensures i <= r.whole <= |blocks|
    decreases |blocks| - i
  {
    if i == |blocks| then ContextFill("", i, count)
    else
      var block := RenderBlock(i, blocks[i]);
      var tokens := Count(tk, block);
      if count + tokens > ContextBudget then
        ContextFill(Cap(tk, block, ContextBudget - count), i, count)
      else
        var rest := FillContext(tk, blocks, i + 1, count + tokens);
        ContextFill(block + rest.text, rest.whole, rest.count)
  }

  /**
   * The system text around the context: `head + "\n\n" + blocks` stripped, then the caveat
   * appended when asked for, and the whole stripped again (chat.py:89-96).
   */
  function Frame(head: string, blocks: string, caveat: string, withCaveat: bool): string
  {
    var sources := Strip(head + "\n\n" + blocks);
    Strip(if withCaveat then sources + caveat else sources)
  }

  /** The system message's content (chat.py:70-96). */
  function SystemContent(tk: Tokenizer, history: seq<Message>, context: seq<Block>): string
    requires |context| <= MaxLabels
  {
    var fill := FillContext(tk, context, 0, Count(tk, Preamble()));
    Frame(Words(PreambleHead), fill.text, Words(Caveat), |history| > 0)
  }

  // ------------------------------------------------------------------ history

  /**
   * `history[:-10:-1]`, with Python's slice rules: a negative stop counts from the end and
   * is clamped to "before the first element"; the stop itself is excluded.
   */
  function RecentFirst(history: seq<Message>): (r: seq<Message>)
    ensures |r| == Min(|history|, 9)
    ensures forall j :: 0 <= j < |r| ==> r[j] == history[|history| - 1 - j]
  {
    var stop := if HistoryStop + |history| < 0 then -1 else HistoryStop + |history|;
    Reverse(history[stop + 1..])
  }

  /** A history message as rendered into the prompt, and the running count after it. */
  datatype Turn = Turn(msg: Message, count: int)

  /** `src` is rendered as `out`: user turns are quoted, every other role is scrubbed assistant text. */
  ghost predicate Renders(src: Message, out: Message)
  {
    && (src.role == UserRole ==> out == Message(UserRole, QuestionPrefix + src.content))
    && (src.role != UserRole ==> out.role == AssistantRole && NoCitations(out.content))
  }

  /** One iteration of the history loop (chat.py:103-113) with `count` tokens already used. */
  function RenderTurn(tk: Tokenizer, src: Message, count: int): (t: Turn)
    ensures Renders(src, t.msg)
    ensures src.role != UserRole ==>
      t.msg.content == Scrub(Cap(tk, src.content, HistoryBudget - count))
    ensures t.count == count + Count(tk, t.msg.content)
  {
    if src.role == UserRole then
      var content := QuestionPrefix + src.content;
      Turn(Message(UserRole, content), count + Count(tk, content))
    else
      var content := Scrub(Cap(tk, src.content, HistoryBudget - count));
      ScrubLeavesNoCitations(Cap(tk, src.content, HistoryBudget - count));
      Turn(Message(AssistantRole, content), count + Count(tk, content))
  }

  /** Every message rendered in turn, threading the count, with no stopping rule. */
  function RenderAll(tk: Tokenizer, msgs: seq<Message>, count: int): (r: seq<Turn>)
    ensures |r| == |msgs|
    decreases |msgs|
  {
    if |msgs| == 0 then []
    else
      var t := RenderTurn(tk, msgs[0], count);
      [t] + RenderAll(tk, msgs[1..], t.count)
  }

  /**
   * The history loop (chat.py:100-116) over messages taken most recent first: it keeps
   * rendering until the running count first exceeds the history budget, keeping the
   * message that crossed it, so the result is a prefix of `RenderAll`.
   */
  function CollectHistory(tk: Tokenizer, msgs: seq<Message>, count: int): (r: seq<Turn>)
    ensures |r| <= |msgs|
    ensures |msgs| > 0 ==> |r| > 0
    decreases |msgs|
  {
    if |msgs| == 0 then []
    else
      var t := RenderTurn(tk, msgs[0], count);
      if t.count > HistoryBudget then [t]
      else [t] + CollectHistory(tk, msgs[1..], t.count)
  }

  function Messages(turns: seq<Turn>): (r: seq<Message>)
    ensures |r| == |turns|
    ensures forall j :: 0 <= j < |r| ==> r[j] == turns[j].msg
  {
    seq(|turns|, j requires 0 <= j < |turns| => turns[j].msg)
  }

  /** `out` renders, in order, the last |out| messages of `history`. */
  ghost predicate RendersSuffix(history: seq<Message>, out: seq<Message>)
  {
    && |out| <= |history|
    && forall j :: 0 <= j < |out| ==> Renders(history[|history| - |out| + j], out[j])
  }

  /** The history part of the prompt, back in chronological order (chat.py:99-118). */
  function HistoryMessages(tk: Tokenizer, history: seq<Message>): (r: seq<Message>)
    ensures |r| <= 9 && |r| <= |history|
  {
    Reverse(Messages(CollectHistory(tk, RecentFirst(history), 0)))
  }

  // ------------------------------------------------------------------ question and prompt

  predicate ValidMode(mode: string)
  {
    mode == "default" || mode == "concise" || mode == "rookie"
  }

  /** The mode-specific clause placed between the citation instructions and the question. */
  function ModeClause(mode: string): string
  {
    if mode == "concise" then Words(ConciseClause)
    else if mode == "rookie" then Words(RookieClause)
    else ""
  }

  /** The final user message's content (chat.py:121-140). */
  function QuestionContent(mode: string, query: string): string
  {
    Words(CitationInstructions) + ModeClause(mode) + (QuestionPrefix + query)
  }

  /** The structure every assembled prompt has. */
  ghost predicate WellShaped(prompt: seq<Message>, query: string, history: seq<Message>)
  {
    && |prompt| >= 2
    && prompt[0].role == SystemRole
    && prompt[|prompt| - 1].role == UserRole
    && EndsWith(prompt[|prompt| - 1].content, QuestionPrefix + query)
    && var kept := |prompt| - 2;
       && kept <= 9
       && (|history| > 0 ==> kept > 0)
       && RendersSuffix(history, prompt[1..|prompt| - 1])
  }

  /** The three parts of the prompt, in order: system message, history, question. */
  function Assemble(tk: Tokenizer, query: string, mode: string, history: seq<Message>,
                    context: seq<Block>): (r: seq<Message>)
    requires |context| <= MaxLabels
    ensures |r| >= 2
  {
    var system := Message(SystemRole, SystemContent(tk, history, context));
    var question := Message(UserRole, QuestionContent(mode, query));
    [system] + HistoryMessages(tk, history) + [question]
  }

  /**
   * `construct_prompt(query, mode, history, context)`: the assembled prompt, or the
   * `ValueError` an unknown mode raises.
   */
  function ConstructPrompt(tk: Tokenizer, query: string, mode: string, history: seq<Message>,
                           context: seq<Block>): (r: Result<seq<Message>, string>)
    requires |context| <= MaxLabels
    ensures r.Failure? <==> !ValidMode(mode)
    ensures !ValidMode(mode) ==> r == Failure("Invalid mode: " + mode)
  {
    if !ValidMode(mode) then Failure("Invalid mode: " + mode)
    else Success(Assemble(tk, query, mode, history, context))
  }
}
