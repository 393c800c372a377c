/**
 * The event protocol of `talk_to_robot_internal` (chat.py:150-234). The generator is
 * modelled as the finite sequence it yields; retrieval, moderation, the completion
 * stream, the session ledger and the followup engine are abstract stage outcomes.
 */
module Events {
  import opened Wrappers
  import opened Tokens
  import opened Prompt

  /** The `phase` of a loading event: "semantic", "prompt" or "llm". */
  datatype Phase = Semantic | PromptPhase | Llm

  /** The citation metadata published once retrieval is done (chat.py:156). */
  datatype Citation = Citation(title: string, author: seq<string>, date: string, url: string)

  /** A suggested followup question, kept as the field/value record `asdict` produces. */
  datatype Followup = Followup(fields: seq<(string, string)>)

  /** One yielded dictionary, by its `state`. */
  datatype Event =
    | Loading(phase: Phase, citations: Option<seq<Citation>>)
    | Streaming(content: string)
    | Done(followups: seq<Followup>)
    | Error(error: string)
  {
    predicate IsTerminal()
    {
      Done? || Error?
    }
  }

  /** The ledger entry of one session: what it has spent and what it may spend. */
  datatype Session = Session(currentCost: real, totalBudget: real)

  /** The session `talk_to_robot` and `talk_to_robot_simple` create: nothing spent, $10 to spend. */
  const FreshSession: Session := Session(0.0, 10.0)

  /** What the completion service streamed: each chunk's delta content, then maybe a failure. */
  datatype Completion = Completion(chunks: seq<Option<string>>, failure: Option<string>)

  /**
   * The outcomes of the external stages. Each stage either yields its value or the
   * message of the exception it raised.
   */
  datatype Stages = Stages(
    retrieval: Result<seq<Block>, string>,
    moderate: seq<string> -> Result<seq<bool>, string>,
    session: Session,
    complete: (seq<Message>, int) -> Completion,
    suggest: seq<string> -> Result<seq<Followup>, string>)

  const ModerationRejected: string :=
    "This conversation was rejected by OpenAI's moderation filter. Sorry."

  const BudgetExceeded: string := "Exceeded the maximum budget for this session"

  /** The safety margin subtracted from the completion budget. */
  const CompletionMargin: int := 50

  function CitationOf(b: Block): Citation
  {
    Citation(b.title, b.authors, b.date, b.url)
  }

  function CitationsOf(blocks: seq<Block>): (r: seq<Citation>)
    ensures |r| == |blocks|
    ensures forall i :: 0 <= i < |r| ==> r[i] == CitationOf(blocks[i])
  {
    seq(|blocks|, i requires 0 <= i < |blocks| => CitationOf(blocks[i]))
  }

  function Contents(prompt: seq<Message>): (r: seq<string>)
    ensures |r| == |prompt|
    ensures forall i :: 0 <= i < |r| ==> r[i] == prompt[i].content
  {
    seq(|prompt|, i requires 0 <= i < |prompt| => prompt[i].content)
  }

  /** The two moderation inputs: the raw query and the prompt contents joined by blank lines. */
  function ModerationInputs(query: string, prompt: seq<Message>): seq<string>
  {
    [query, Text.Join("\n\n", Contents(prompt))]
  }

  predicate AnyFlagged(flags: seq<bool>)
  {
    exists i :: 0 <= i < |flags| && flags[i]
  }

  /** Tokens of every message's content plus its role name. */
  function PromptTokens(tk: Tokenizer, prompt: seq<Message>): nat
  {
    if |prompt| == 0 then 0
    else
      var m := prompt[|prompt| - 1];
      PromptTokens(tk, prompt[..|prompt| - 1]) + Count(tk, m.content) + Count(tk, m.role)
  }

  /** `max_tokens_completion` (chat.py:182): what is left of NUM_TOKENS after the prompt and margin. */
  function MaxTokensCompletion(tk: Tokenizer, prompt: seq<Message>): (r: int)
    ensures r <= NumTokens - CompletionMargin
    ensures r == NumTokens - CompletionMargin <==>
      forall i :: 0 <= i < |prompt| ==>
        Count(tk, prompt[i].content) == 0 && Count(tk, prompt[i].role) == 0
  {
    ZeroTokensIffEmptyCost(tk, prompt);
    NumTokens - PromptTokens(tk, prompt) - CompletionMargin
  }

  lemma {:induction false} ZeroTokensIffEmptyCost(tk: Tokenizer, prompt: seq<Message>)
    ensures PromptTokens(tk, prompt) == 0 <==>
      forall i :: 0 <= i < |prompt| ==>
        Count(tk, prompt[i].content) == 0 && Count(tk, prompt[i].role) == 0
  {
    if |prompt| > 0 {
      var init := prompt[..|prompt| - 1];
      ZeroTokensIffEmptyCost(tk, init);
      assert forall i :: 0 <= i < |init| ==> init[i] == prompt[i];
    }
  }

  /** Adding a message to the prompt takes its content and role tokens off the completion budget. */
  lemma MaxTokensCompletionAppend(tk: Tokenizer, prompt: seq<Message>, m: Message)
    ensures MaxTokensCompletion(tk, prompt + [m])
      == MaxTokensCompletion(tk, prompt) - Count(tk, m.content) - Count(tk, m.role)
  {
    assert (prompt + [m])[..|prompt|] == prompt;
  }

  /** One `streaming` event per chunk that carries content, in order (chat.py:200-204). */
  function StreamEvents(chunks: seq<Option<string>>): (r: seq<Event>)
    ensures forall i :: 0 <= i < |r| ==> r[i].Streaming?
    ensures |r| <= |chunks|
  {
    if |chunks| == 0 then []
    else
      (match chunks[0] case None => [] case Some(c) => [Streaming(c)]) + StreamEvents(chunks[1..])
  }

  /**
   * Chunk by chunk, in arrival order: a chunk with content adds exactly one `streaming`
   * event carrying that content, and a chunk without content adds nothing.
   */
  lemma {:induction false} StreamEventsSnoc(chunks: seq<Option<string>>, c: Option<string>)
    ensures StreamEvents(chunks + [c])
      == StreamEvents(chunks) + (match c case None => [] case Some(x) => [Streaming(x)])
    decreases |chunks|
  {
    var last: seq<Event> := match c case None => [] case Some(x) => [Streaming(x)];
    if |chunks| == 0 {
      assert chunks + [c] == [c];
      assert StreamEvents([c][1..]) == [];
    } else {
      var head: seq<Event> := match chunks[0] case None => [] case Some(x) => [Streaming(x)];
      assert (chunks + [c])[0] == chunks[0];
      assert (chunks + [c])[1..] == chunks[1..] + [c];
      StreamEventsSnoc(chunks[1..], c);
      assert StreamEvents(chunks + [c]) == head + (StreamEvents(chunks[1..]) + last);
      assert StreamEvents(chunks) == head + StreamEvents(chunks[1..]);
    }
  }

  /** The accumulated `response`: every chunk's content, in order. */
  function Response(chunks: seq<Option<string>>): string
  {
    if |chunks| == 0 then ""
    else (match chunks[0] case None => "" case Some(c) => c) + Response(chunks[1..])
  }

  /**
   * The events from the moderation step on (chat.py:165-230), once the prompt exists.
   * The budget test is the code's own: it raises when the cost is at or below the budget.
   */
  function Generate(tk: Tokenizer, query: string, prompt: seq<Message>, st: Stages): (r: seq<Event>)
    ensures |r| >= 1
    ensures forall i :: 0 <= i < |r| && r[i].Loading? ==> r[i] == Loading(Llm, None)
  {
    match st.moderate(ModerationInputs(query, prompt))
    case Failure(e) => [Error(e)]
    case Success(flags) =>
      if AnyFlagged(flags) then [Error(ModerationRejected)]
      else
        var maxTokens := MaxTokensCompletion(tk, prompt);
        [Loading(Llm, None)]
        + if st.session.currentCost <= st.session.totalBudget then [Error(BudgetExceeded)]
          else
            var completion := st.complete(prompt, maxTokens);
            StreamEvents(completion.chunks)
            + match completion.failure
              case Some(e) => [Error(e)]
              case None =>
                match st.suggest([query, Response(completion.chunks)])
                case Failure(e) => [Error(e)]
                case Success(followups) => [Done(followups)]
  }

  /**
   * The fixed partial order of one invocation's events: loading events, then streaming
   * events, then exactly one terminal event, which is last.
   */
  ghost predicate WellOrdered(events: seq<Event>)
  {
    && |events| > 0
    && events[|events| - 1].IsTerminal()
    && (forall i :: 0 <= i < |events| - 1 ==> !events[i].IsTerminal())
    && (forall i, j :: 0 <= i < j < |events| && events[i].Streaming? ==> !events[j].Loading?)
  }

  lemma WellOrderedFromParts(loads: seq<Event>, streams: seq<Event>, last: Event)
    requires forall i :: 0 <= i < |loads| ==> loads[i].Loading?
    requires forall i :: 0 <= i < |streams| ==> streams[i].Streaming?
    requires last.IsTerminal()
    ensures WellOrdered(loads + streams + [last])
  {
    var r := loads + streams + [last];
    forall i | 0 <= i < |r| - 1
      ensures r[i].Loading? || r[i].Streaming?
    {
      if i < |loads| {
        assert r[i] == loads[i];
      } else {
        assert r[i] == streams[i - |loads|];
      }
    }
  }

  /** The three loading events up to prompt construction (chat.py:153-159). */
  function Loads(blocks: seq<Block>): (r: seq<Event>)
    ensures forall i :: 0 <= i < |r| ==> r[i].Loading?
  {
    [Loading(Semantic, None), Loading(Semantic, Some(CitationsOf(blocks))), Loading(PromptPhase, None)]
  }

  /** The events after the prompt stage: the `ValueError` of a bad mode, or generation. */
  function PromptStage(tk: Tokenizer, query: string, built: Result<seq<Message>, string>,
                       st: Stages): (r: seq<Event>)
    ensures |r| >= 1
    ensures forall i :: 0 <= i < |r| && r[i].Loading? ==> r[i].citations.None?
  {
    match built
    case Failure(e) => [Error(e)]
    case Success(prompt) => Generate(tk, query, prompt, st)
  }

  /**
   * The events once retrieval has produced `blocks` and `construct_prompt` has produced
   * `built` (chat.py:156-230).
   */
  function Orchestrate(tk: Tokenizer, query: string, blocks: seq<Block>,
                       built: Result<seq<Message>, string>, st: Stages): (r: seq<Event>)
    ensures WellOrdered(r)
    ensures |r| > 3 && r[..3] == Loads(blocks)
    ensures forall i :: 0 <= i < |r| && r[i].Loading? && r[i].citations.Some? ==>
      r[i].citations.value == CitationsOf(blocks)
  {
    var tail := PromptStage(tk, query, built, st);
    PromptStageWellOrdered(tk, query, built, st, Loads(blocks));
    LoadsPrefix(blocks, tail);
    Loads(blocks) + tail
  }

  /** `talk_to_robot_internal(index, query, mode, history)` as the sequence of events it yields. */
  function TalkInternal(tk: Tokenizer, query: string, mode: string, history: seq<Message>,
                        st: Stages): (r: seq<Event>)
    requires st.retrieval.Success? ==> |st.retrieval.value| <= MaxLabels
    ensures WellOrdered(r)
    ensures r[0] == Loading(Semantic, None)
    ensures forall i :: 0 <= i < |r| && r[i].Loading? && r[i].citations.Some? ==>
      st.retrieval.Success? && r[i].citations.value == CitationsOf(st.retrieval.value)
  {
    match st.retrieval
    case Failure(e) =>
      WellOrderedFromParts([Loading(Semantic, None)], [], Error(e));
      [Loading(Semantic, None), Error(e)]
    case Success(blocks) =>
      var r := Orchestrate(tk, query, blocks, ConstructPrompt(tk, query, mode, history, blocks), st);
      assert r[0] == r[..3][0];
      r
  }

  lemma LoadsPrefix(blocks: seq<Block>, tail: seq<Event>)
    requires forall i :: 0 <= i < |tail| && tail[i].Loading? ==> tail[i].citations.None?
    ensures (Loads(blocks) + tail)[..3] == Loads(blocks)
    ensures var r := Loads(blocks) + tail;
      forall i :: 0 <= i < |r| && r[i].Loading? && r[i].citations.Some? ==>
        r[i].citations.value == CitationsOf(blocks)
  {
    var r := Loads(blocks) + tail;
    assert forall i :: 3 <= i < |r| ==> r[i] == tail[i - 3];
  }

  lemma PromptStageWellOrdered(tk: Tokenizer, query: string, built: Result<seq<Message>, string>,
                               st: Stages, loads: seq<Event>)
    requires forall i :: 0 <= i < |loads| ==> loads[i].Loading?
    ensures WellOrdered(loads + PromptStage(tk, query, built, st))
  {
    match built
    case Failure(e) =>
      WellOrderedFromParts(loads, [], Error(e));
      assert loads + [] + [Error(e)] == loads + [Error(e)];
    case Success(prompt) =>
      GenerateWellOrdered(tk, query, prompt, st, loads);
  }

  lemma GenerateWellOrdered(tk: Tokenizer, query: string, prompt: seq<Message>, st: Stages,
                            loads: seq<Event>)
    requires forall i :: 0 <= i < |loads| ==> loads[i].Loading?
    ensures WellOrdered(loads + Generate(tk, query, prompt, st))
  {
    var g := Generate(tk, query, prompt, st);
    match st.moderate(ModerationInputs(query, prompt))
    case Failure(e) =>
      WellOrderedFromParts(loads, [], Error(e));
    case Success(flags) =>
      if AnyFlagged(flags) {
        WellOrderedFromParts(loads, [], Error(ModerationRejected));
      } else {
        var llm := loads + [Loading(Llm, None)];
        assert forall i :: 0 <= i < |llm| ==> llm[i].Loading?;
        if st.session.currentCost <= st.session.totalBudget {
          WellOrderedFromParts(llm, [], Error(BudgetExceeded));
          assert loads + g == llm + [] + [Error(BudgetExceeded)];
        } else {
          var completion := st.complete(prompt, MaxTokensCompletion(tk, prompt));
          var streams := StreamEvents(completion.chunks);
          var last := g[|g| - 1];
          assert g == [Loading(Llm, None)] + streams + [last];
          WellOrderedFromParts(llm, streams, last);
          assert loads + g == llm + streams + [last];
        }
      }
  }

  // ------------------------------------------------------------------ protocol properties

  /** The concatenation of every `streaming` event's content, in order. */
  function Streamed(events: seq<Event>): string
  {
    if |events| == 0 then ""
    else (if events[0].Streaming? then events[0].content else "") + Streamed(events[1..])
  }

  lemma {:induction false} StreamedAppend(a: seq<Event>, b: seq<Event>)
    ensures Streamed(a + b) == Streamed(a) + Streamed(b)
    decreases |a|
  {
    if |a| == 0 {
      assert a + b == b;
    } else {
      assert (a + b)[0] == a[0];
      assert (a + b)[1..] == a[1..] + b;
      StreamedAppend(a[1..], b);
    }
  }

  /** What the caller is streamed is exactly the response handed to the followup engine. */
  lemma {:induction false} StreamedIsResponse(chunks: seq<Option<string>>)
    ensures Streamed(StreamEvents(chunks)) == Response(chunks)
    decreases |chunks|
  {
    if |chunks| > 0 {
      var head: seq<Event> := match chunks[0] case None => [] case Some(c) => [Streaming(c)];
      StreamedAppend(head, StreamEvents(chunks[1..]));
      StreamedIsResponse(chunks[1..]);
    }
  }

  /** The prompt was built and moderation ran on it and flagged nothing. */
  ghost predicate PassesModeration(query: string, built: Result<seq<Message>, string>, st: Stages)
  {
    && built.Success?
    && var verdict := st.moderate(ModerationInputs(query, built.value));
       verdict.Success? && !AnyFlagged(verdict.value)
  }

  /**
   * The model is asked for a completion only after moderation has passed: the `llm`
   * loading event appears exactly when it did, and otherwise nothing is streamed.
   */
  lemma ModerationGatesGeneration(tk: Tokenizer, query: string, blocks: seq<Block>,
                                  built: Result<seq<Message>, string>, st: Stages)
    ensures var r := Orchestrate(tk, query, blocks, built, st);
      && ((exists i :: 0 <= i < |r| && r[i] == Loading(Llm, None))
          <==> PassesModeration(query, built, st))
      && (!PassesModeration(query, built, st) ==>
            forall i :: 0 <= i < |r| ==> !r[i].Streaming? && !r[i].Done?)
  {
    var r := Orchestrate(tk, query, blocks, built, st);
    if PassesModeration(query, built, st) {
      assert r[3] == Loading(Llm, None);
    } else {
      match built
      case Failure(e) =>
        assert r == Loads(blocks) + [Error(e)];
      case Success(prompt) =>
        assert r == Loads(blocks) + Generate(tk, query, prompt, st);
        assert |Generate(tk, query, prompt, st)| == 1;
    }
  }

  /** A flagged conversation ends in the moderation error, right after the prompt phase. */
  lemma FlaggedEndsInRejection(tk: Tokenizer, query: string, blocks: seq<Block>,
                               prompt: seq<Message>, st: Stages)
    requires var verdict := st.moderate(ModerationInputs(query, prompt));
      verdict.Success? && AnyFlagged(verdict.value)
    ensures Orchestrate(tk, query, blocks, Success(prompt), st)
      == Loads(blocks) + [Error(ModerationRejected)]
  {
  }

  /** An unknown mode fails right after the prompt phase starts, before moderation. */
  lemma InvalidModeFailsAtPrompt(tk: Tokenizer, query: string, mode: string, history: seq<Message>,
                                 st: Stages)
    requires st.retrieval.Success? && |st.retrieval.value| <= MaxLabels
    requires !ValidMode(mode)
    ensures TalkInternal(tk, query, mode, history, st)
      == Loads(st.retrieval.value) + [Error("Invalid mode: " + mode)]
  {
  }

  /**
   * The budget test as written (chat.py:190) raises while the session is still within
   * its budget: then nothing is streamed and the invocation ends in an error.
   */
  lemma WithinBudgetNeverStreams(tk: Tokenizer, query: string, blocks: seq<Block>,
                                 built: Result<seq<Message>, string>, st: Stages)
    requires st.session.currentCost <= st.session.totalBudget
    ensures var r := Orchestrate(tk, query, blocks, built, st);
      && r[|r| - 1].Error?
      && forall i :: 0 <= i < |r| ==> !r[i].Streaming? && !r[i].Done?
    ensures PassesModeration(query, built, st) ==>
      Orchestrate(tk, query, blocks, built, st)
        == Loads(blocks) + [Loading(Llm, None), Error(BudgetExceeded)]
  {
    var r := Orchestrate(tk, query, blocks, built, st);
    match built
    case Failure(e) =>
      assert r == Loads(blocks) + [Error(e)];
    case Success(prompt) =>
      assert r == Loads(blocks) + Generate(tk, query, prompt, st);
  }

  /**
   * Consequently every invocation on a freshly created $10 session, as `talk_to_robot` and
   * `talk_to_robot_simple` make, streams nothing and never reaches `done`.
   */
  lemma FreshSessionNeverAnswers(tk: Tokenizer, query: string, mode: string, history: seq<Message>,
                                 st: Stages)
    requires st.retrieval.Success? ==> |st.retrieval.value| <= MaxLabels
    requires st.session == FreshSession
    ensures var r := TalkInternal(tk, query, mode, history, st);
      && r[|r| - 1].Error?
      && forall i :: 0 <= i < |r| ==> !r[i].Streaming? && !r[i].Done?
  {
    assert st.session.currentCost <= st.session.totalBudget;
    match st.retrieval
    case Failure(e) =>
    case Success(blocks) =>
      WithinBudgetNeverStreams(tk, query, blocks, ConstructPrompt(tk, query, mode, history, blocks), st);
  }

  /**
   * Past moderation and the budget test, the caller sees the loading events, one
   * `streaming` event per content chunk, and then `done` carrying the followups for
   * `[query, response]`; when the followup lookup raises, an `error` follows the
   * streamed answer instead; when the completion service raises, its error follows the
   * chunks streamed so far.
   */
  lemma GeneratedEvents(tk: Tokenizer, query: string, blocks: seq<Block>, prompt: seq<Message>,
                        st: Stages)
    requires PassesModeration(query, Success(prompt), st)
    requires st.session.currentCost > st.session.totalBudget
    ensures var c := st.complete(prompt, MaxTokensCompletion(tk, prompt));
      var r := Orchestrate(tk, query, blocks, Success(prompt), st);
      var streams := StreamEvents(c.chunks);
      && Streamed(streams) == Response(c.chunks)
      && r[..4 + |streams|] == Loads(blocks) + [Loading(Llm, None)] + streams
      && |r| == 5 + |streams|
      && r[|r| - 1] == (if c.failure.Some? then Error(c.failure.value)
                        else match st.suggest([query, Response(c.chunks)])
                             case Success(followups) => Done(followups)
                             case Failure(e) => Error(e))
  {
    var c := st.complete(prompt, MaxTokensCompletion(tk, prompt));
    StreamedIsResponse(c.chunks);
    var r := Orchestrate(tk, query, blocks, Success(prompt), st);
    var g := Generate(tk, query, prompt, st);
    assert r == Loads(blocks) + g;
    assert g[..1 + |StreamEvents(c.chunks)|] == [Loading(Llm, None)] + StreamEvents(c.chunks);
  }
}
