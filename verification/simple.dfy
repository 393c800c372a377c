/**
 * `talk_to_robot_simple` (chat.py:243-260): one fresh $10 session, the `default` mode and
 * no history, with the event stream folded into a single result.
 */
module Simple {
  import opened Wrappers
  import opened Tokens
  import opened Prompt
  import opened Events

  /** The dictionary the adapter serialises: the response text and, once seen, the citations. */
  datatype SimpleResult = SimpleResult(response: string, citations: Option<map<char, Citation>>)

  /** `res = {'response': ''}`. */
  const Initial: SimpleResult := SimpleResult("", None)

  /** The citations keyed by their letters: `citations[chr(ord('a') + i)] = c`. */
  function CitationMap(cs: seq<Citation>): map<char, Citation>
    requires |cs| <= MaxLabels
  {
    map i | 0 <= i < |cs| :: Label(i) := cs[i]
  }

  /** Citation `i` is filed under letter `chr(ord('a') + i)`, and nothing else is filed. */
  lemma CitationMapByLetter(cs: seq<Citation>)
    requires |cs| <= MaxLabels
    ensures var m := CitationMap(cs);
      && m.Keys == (set i | 0 <= i < |cs| :: Label(i))
      && forall i :: 0 <= i < |cs| ==> m[Label(i)] == cs[i]
  {
  }

  /** The event the adapter takes citations from: a semantic loading event carrying them. */
  predicate CarriesCitations(e: Event)
  {
    e.Loading? && e.phase == Semantic && e.citations.Some?
  }

  /** Every citation list in `events` can be lettered. */
  predicate Labelable(events: seq<Event>)
  {
    forall i :: 0 <= i < |events| && CarriesCitations(events[i]) ==>
      |events[i].citations.value| <= MaxLabels
  }

  /** One iteration of the adapter's loop (chat.py:248-258). */
  function Step(res: SimpleResult, e: Event): SimpleResult
    requires CarriesCitations(e) ==> |e.citations.value| <= MaxLabels
  {
    match e
    case Loading(phase, cits) =>
      if CarriesCitations(e) then res.(citations := Some(CitationMap(cits.value))) else res
    case Streaming(content) => res.(response := res.response + content)
    case Error(message) => res.(response := message)
    case Done(_) => res
  }

  /** The loop over every event, in order. */
  function Fold(events: seq<Event>): SimpleResult
    requires Labelable(events)
  {
    if |events| == 0 then Initial
    else Step(Fold(events[..|events| - 1]), events[|events| - 1])
  }

  // ------------------------------------------------------------------ the fold

  /** Folding one more event is one more step of the loop. */
  lemma FoldSnoc(events: seq<Event>, e: Event)
    requires Labelable(events + [e])
    ensures Labelable(events)
    ensures Fold(events + [e]) == Step(Fold(events), e)
  {
    assert (events + [e])[..|events|] == events;
    assert forall i :: 0 <= i < |events| ==> (events + [e])[i] == events[i];
  }

  /** One step either replaces the response with an error message or appends what `e` streams. */
  lemma StepResponse(res: SimpleResult, e: Event)
    requires CarriesCitations(e) ==> |e.citations.value| <= MaxLabels
    ensures e.Error? ==> Step(res, e).response == e.error
    ensures !e.Error? ==> Step(res, e).response == res.response + Streamed([e])
  {
    assert [e][1..] == [];
  }

  /** With no error in the stream, the response is everything streamed, in order. */
  lemma {:induction false} FoldResponseWithoutError(events: seq<Event>)
    requires Labelable(events)
    requires forall i :: 0 <= i < |events| ==> !events[i].Error?
    ensures Fold(events).response == Streamed(events)
    decreases |events|
  {
    if |events| > 0 {
      var n := |events| - 1;
      var init := events[..n];
      var e := events[n];
      assert events == init + [e];
      FoldSnoc(init, e);
      FoldResponseWithoutError(init);
      StepResponse(Fold(init), e);
      StreamedAppend(init, [e]);
    }
  }

  /**
   * An error overwrites the response: after the last error event `k`, the response is its
   * message followed by whatever was streamed after it.
   */
  lemma {:induction false} FoldResponseAfterError(events: seq<Event>, k: nat)
    requires Labelable(events)
    requires k < |events| && events[k].Error?
    requires forall j :: k < j < |events| ==> !events[j].Error?
    ensures Fold(events).response == events[k].error + Streamed(events[k + 1..])
    decreases |events|
  {
    var n := |events| - 1;
    var init := events[..n];
    var e := events[n];
    assert events == init + [e];
    FoldSnoc(init, e);
    StepResponse(Fold(init), e);
    if k == n {
      assert events[k + 1..] == [];
    } else {
      assert init[k] == events[k];
      assert forall j :: k < j < |init| ==> init[j] == events[j];
      FoldResponseAfterError(init, k);
      var before := init[k + 1..];
      assert events[k + 1..] == before + [e];
      StreamedAppend(before, [e]);
      Text.AppendAssoc(events[k].error, Streamed(before), Streamed([e]));
    }
  }

  /** With no event carrying citations, the result has none. */
  lemma {:induction false} FoldWithoutCitations(events: seq<Event>)
    requires Labelable(events)
    requires forall i :: 0 <= i < |events| ==> !CarriesCitations(events[i])
    ensures Fold(events).citations == None
    decreases |events|
  {
    if |events| > 0 {
      var n := |events| - 1;
      assert events == events[..n] + [events[n]];
      FoldSnoc(events[..n], events[n]);
      FoldWithoutCitations(events[..n]);
    }
  }

  /** The citations are those of the last event `k` carrying them, keyed by letter. */
  lemma {:induction false} FoldCitationsFromLast(events: seq<Event>, k: nat)
    requires Labelable(events)
    requires k < |events| && CarriesCitations(events[k])
    requires forall j :: k < j < |events| ==> !CarriesCitations(events[j])
    ensures Fold(events).citations == Some(CitationMap(events[k].citations.value))
    decreases |events|
  {
    var n := |events| - 1;
    assert events == events[..n] + [events[n]];
    FoldSnoc(events[..n], events[n]);
    if k < n {
      FoldCitationsFromLast(events[..n], k);
    }
  }

  // ------------------------------------------------------------------ the adapter

  /** `talk_to_robot_simple(index, query)`, before serialisation. */
  function TalkSimple(tk: Tokenizer, query: string, st: Stages): (r: SimpleResult)
    requires st.retrieval.Success? ==> |st.retrieval.value| <= MaxLabels
  {
    var events := TalkInternal(tk, query, "default", [], st.(session := FreshSession));
    TalkInternalLabelable(tk, query, "default", [], st.(session := FreshSession));
    Fold(events)
  }

  /** Every citation list of an invocation can be lettered. */
  lemma TalkInternalLabelable(tk: Tokenizer, query: string, mode: string, history: seq<Message>,
                              st: Stages)
    requires st.retrieval.Success? ==> |st.retrieval.value| <= MaxLabels
    ensures Labelable(TalkInternal(tk, query, mode, history, st))
  {
    var events := TalkInternal(tk, query, mode, history, st);
    forall i | 0 <= i < |events| && CarriesCitations(events[i])
      ensures |events[i].citations.value| <= MaxLabels
    {
    }
  }

  /**
   * Past retrieval, with the session within its budget, the adapter's result cites every
   * retrieved block under its letter and carries the message of the error that ended the
   * stream; once moderation passes that error is the budget message.
   */
  lemma FoldWithinBudget(tk: Tokenizer, query: string, blocks: seq<Block>,
                         built: Result<seq<Message>, string>, st: Stages)
    requires |blocks| <= MaxLabels
    requires st.session.currentCost <= st.session.totalBudget
    ensures var events := Orchestrate(tk, query, blocks, built, st);
      && Labelable(events)
      && events[|events| - 1].Error?
      && Fold(events).response == events[|events| - 1].error
      && Fold(events).citations == Some(CitationMap(CitationsOf(blocks)))
      && (PassesModeration(query, built, st) ==> Fold(events).response == BudgetExceeded)
  {
    var events := Orchestrate(tk, query, blocks, built, st);
    WithinBudgetNeverStreams(tk, query, blocks, built, st);
    var n := |events| - 1;
    assert Labelable(events) by {
      forall i | 0 <= i < |events| && CarriesCitations(events[i])
        ensures |events[i].citations.value| <= MaxLabels
      {
      }
    }
    FoldResponseAfterError(events, n);
    assert events[n + 1..] == [];
    assert events[1] == Loads(blocks)[1];
    FoldCitationsFromLast(events, 1);
  }

  /** When retrieval fails, the adapter returns its message and no citations. */
  lemma SimpleRetrievalFailure(tk: Tokenizer, query: string, st: Stages)
    requires st.retrieval.Failure?
    ensures TalkSimple(tk, query, st) == SimpleResult(st.retrieval.error, None)
  {
    var events := [Loading(Semantic, None), Error(st.retrieval.error)];
    assert TalkInternal(tk, query, "default", [], st.(session := FreshSession)) == events;
    assert events[..1] == [events[0]];
    assert Fold(events[..1]) == Step(Initial, events[0]) == Initial;
    assert Fold(events) == Step(Fold(events[..1]), events[1]);
  }

  /**
   * Because the fresh $10 session fails the budget test as written, the adapter never
   * returns an answer: past retrieval its response is the message of the error that ended
   * the stream, the budget message once moderation passes, and every retrieved block is
   * cited under its letter.
   */
  lemma SimpleReturnsError(tk: Tokenizer, query: string, st: Stages)
    requires st.retrieval.Success? && |st.retrieval.value| <= MaxLabels
    ensures var r := TalkSimple(tk, query, st);
      var events := TalkInternal(tk, query, "default", [], st.(session := FreshSession));
      && events[|events| - 1].Error?
      && r.response == events[|events| - 1].error
      && r.citations == Some(CitationMap(CitationsOf(st.retrieval.value)))
      && (PassesModeration(query, ConstructPrompt(tk, query, "default", [], st.retrieval.value), st)
          ==> r.response == BudgetExceeded)
  {
    var started := st.(session := FreshSession);
    assert started.session.currentCost <= started.session.totalBudget;
    var blocks := st.retrieval.value;
    var built := ConstructPrompt(tk, query, "default", [], blocks);
    var events := Orchestrate(tk, query, blocks, built, started);
    assert TalkInternal(tk, query, "default", [], started) == events;
    FoldWithinBudget(tk, query, blocks, built, started);
    assert TalkSimple(tk, query, st) == Fold(events);
  }
}
