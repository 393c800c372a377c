/**
 * What `construct_prompt` (chat.py:57-144) promises, stated about the functions of `Prompt`:
 * the greedy context fill, the system message's shape, the history loop's stopping rule,
 * and the overall order of the assembled prompt.
 */
module PromptLemmas {
  import opened Wrappers
  import opened Text
  import opened Tokens
  import opened Citations
  import opened Prompt

  // ------------------------------------------------------------------ context blocks

  /**
   * Block `i` opens with its letter in brackets and closes with its text and a blank line,
   * so its label is `chr(ord('a') + i)` and its text is carried verbatim.
   */
  lemma RenderBlockLabelled(i: nat, b: Block)
    requires i < MaxLabels
    ensures var r := RenderBlock(i, b);
      && StartsWith(r, ['[', Label(i), ']', ' '])
      && r[1] as int == 'a' as int + i
      && EndsWith(r, "\n" + b.text + "\n\n")
  {
    var r := RenderBlock(i, b);
    var tail := "\n" + b.text + "\n\n";
    assert r == "[" + [Label(i)] + "] " + b.title + " - " + Join(",", b.authors) + " - " + b.date
      + tail;
    EndsWithAppend("[" + [Label(i)] + "] " + b.title + " - " + Join(",", b.authors) + " - " + b.date, tail);
  }

  lemma {:induction false} BlockTokensSplit(tk: Tokenizer, blocks: seq<Block>, i: nat, j: nat, k: nat)
    requires i <= j <= k <= |blocks| <= MaxLabels
    ensures BlockTokens(tk, blocks, i, k) == BlockTokens(tk, blocks, i, j) + BlockTokens(tk, blocks, j, k)
    decreases j - i
  {
    if i < j {
      BlockTokensSplit(tk, blocks, i + 1, j, k);
    }
  }

  /**
   * The context loop is greedy: starting at block `i` with `count` tokens used, it takes
   * blocks whole while the running count stays within the context budget, and stops at the
   * first block that would push it over.
   */
  lemma {:induction false} FillContextCounts(tk: Tokenizer, blocks: seq<Block>, i: nat, count: int)
    requires i <= |blocks| <= MaxLabels
    ensures var r := FillContext(tk, blocks, i, count);
      && r.count == count + BlockTokens(tk, blocks, i, r.whole)
      && (i < r.whole ==> r.count <= ContextBudget)
      && (count <= ContextBudget ==> r.count <= ContextBudget)
      && (r.whole < |blocks| ==>
            r.count + Count(tk, RenderBlock(r.whole, blocks[r.whole])) > ContextBudget)
    decreases |blocks| - i
  {
    if i < |blocks| {
      var tokens := Count(tk, RenderBlock(i, blocks[i]));
      if count + tokens <= ContextBudget {
        FillContextCounts(tk, blocks, i + 1, count + tokens);
      }
    }
  }

  /**
   * What the context loop appends: the blocks it takes whole, in input order and each under
   * its own label, then the first block that would overflow capped to the budget left;
   * every later block is dropped.
   */
  lemma {:induction false} FillContextText(tk: Tokenizer, blocks: seq<Block>, i: nat, count: int)
    requires i <= |blocks| <= MaxLabels
    ensures var r := FillContext(tk, blocks, i, count);
      && (r.whole == |blocks| ==> r.text == BlockTexts(blocks, i, |blocks|))
      && (r.whole < |blocks| ==>
            r.text == BlockTexts(blocks, i, r.whole)
                      + Cap(tk, RenderBlock(r.whole, blocks[r.whole]), ContextBudget - r.count))
    decreases |blocks| - i
  {
    var r := FillContext(tk, blocks, i, count);
    if i < |blocks| {
      var block := RenderBlock(i, blocks[i]);
      var tokens := Count(tk, block);
      if count + tokens <= ContextBudget {
        FillContextText(tk, blocks, i + 1, count + tokens);
        var rest := FillContext(tk, blocks, i + 1, count + tokens);
        assert r == ContextFill(block + rest.text, rest.whole, rest.count);
        assert BlockTexts(blocks, i, rest.whole) == block + BlockTexts(blocks, i + 1, rest.whole);
        if rest.whole < |blocks| {
          var capped := Cap(tk, RenderBlock(rest.whole, blocks[rest.whole]), ContextBudget - rest.count);
          AppendAssoc(block, BlockTexts(blocks, i + 1, rest.whole), capped);
        }
      } else {
        assert r.text == Cap(tk, block, ContextBudget - count);
        assert BlockTexts(blocks, i, i) + r.text == r.text;
      }
    }
  }

  /**
   * Every block is taken whole exactly when all of them fit in the budget together; they
   * then appear one after another, untruncated.
   */
  lemma AllBlocksFitIff(tk: Tokenizer, blocks: seq<Block>, i: nat, count: int)
    requires i < |blocks| <= MaxLabels
    ensures var r := FillContext(tk, blocks, i, count);
      && (r.whole == |blocks| <==> count + BlockTokens(tk, blocks, i, |blocks|) <= ContextBudget)
      && (r.whole == |blocks| ==> r.text == BlockTexts(blocks, i, |blocks|))
  {
    FillContextCounts(tk, blocks, i, count);
    FillContextText(tk, blocks, i, count);
    var r := FillContext(tk, blocks, i, count);
    if r.whole < |blocks| {
      BlockTokensSplit(tk, blocks, i, r.whole, |blocks|);
      assert BlockTokens(tk, blocks, r.whole, |blocks|)
          == Count(tk, RenderBlock(r.whole, blocks[r.whole])) + BlockTokens(tk, blocks, r.whole + 1, |blocks|);
    }
  }

  // ------------------------------------------------------------------ system message

  lemma PreambleHeadTrimmed()
    ensures |Words(PreambleHead)| > 0 && Trimmed(Words(PreambleHead))
  {
  }

  lemma CaveatKeepsTrailing()
    ensures StripRight(Words(Caveat)) == Words(Caveat)
  {
  }

  /**
   * Stripping the assembled system text only trims the context's trailing whitespace: a
   * trimmed head and a caveat without trailing whitespace come through verbatim.
   */
  lemma {:induction false} FrameShape(head: string, blocks: string, caveat: string, withCaveat: bool)
    requires |head| > 0 && Trimmed(head)
    requires StripRight(caveat) == caveat
    ensures var content := Frame(head, blocks, caveat, withCaveat);
      && content == head + StripRight("\n\n" + blocks) + (if withCaveat then caveat else "")
      && StartsWith(content, head)
      && (withCaveat ==> EndsWith(content, caveat))
  {
    assert head + "\n\n" + blocks == head + ("\n\n" + blocks);
    StripKeepsTrimmedHead(head, "\n\n" + blocks);
    var sources := Strip(head + "\n\n" + blocks);
    StripIsTrimmedInfix(head + "\n\n" + blocks);
    if withCaveat {
      StripKeepsTrimmedHead(sources, caveat);
      EndsWithAppend(sources, caveat);
    } else {
      StripTrimmed(sources);
      assert sources + "" == sources;
    }
    var content := Frame(head, blocks, caveat, withCaveat);
    assert content[..|head|] == head;
  }

  /**
   * `content` is the preamble's instructions, then the context text `blocks` with its
   * trailing whitespace removed, then the history caveat exactly when `withCaveat`.
   */
  ghost predicate SystemShaped(content: string, blocks: string, withCaveat: bool)
  {
    content == Words(PreambleHead) + StripRight("\n\n" + blocks)
               + (if withCaveat then Words(Caveat) else "")
  }

  /** The system message has that shape, with the caveat exactly when there is history (chat.py:70-96). */
  lemma SystemContentShape(tk: Tokenizer, history: seq<Message>, context: seq<Block>)
    requires |context| <= MaxLabels
    ensures SystemShaped(SystemContent(tk, history, context),
                         FillContext(tk, context, 0, Count(tk, Preamble())).text, |history| > 0)
  {
    var fill := FillContext(tk, context, 0, Count(tk, Preamble()));
    PreambleHeadTrimmed();
    CaveatKeepsTrailing();
    FrameShape(Words(PreambleHead), fill.text, Words(Caveat), |history| > 0);
  }

  // ------------------------------------------------------------------ history

  /** Rendering threads the running count: turn `j` is rendered with the count after turn `j - 1`. */
  lemma {:induction false} RenderAllThreadsCount(tk: Tokenizer, msgs: seq<Message>, count: int)
    ensures var r := RenderAll(tk, msgs, count);
      forall j :: 0 <= j < |r| ==>
        && r[j] == RenderTurn(tk, msgs[j], if j == 0 then count else r[j - 1].count)
        && Renders(msgs[j], r[j].msg)
    decreases |msgs|
  {
    if |msgs| > 0 {
      var t := RenderTurn(tk, msgs[0], count);
      RenderAllThreadsCount(tk, msgs[1..], t.count);
      var rest := RenderAll(tk, msgs[1..], t.count);
      assert forall j :: 1 <= j < 1 + |rest| ==> ([t] + rest)[j] == rest[j - 1];
    }
  }

  /**
   * The history loop keeps a prefix of the rendered messages: it stops right after the
   * first one whose running count exceeds the history budget, and keeps that one.
   */
  lemma {:induction false} CollectHistoryStopsAfterOverflow(tk: Tokenizer, msgs: seq<Message>, count: int)
    ensures var r := CollectHistory(tk, msgs, count);
      && r == RenderAll(tk, msgs, count)[..|r|]
      && (forall j :: 0 <= j < |r| - 1 ==> r[j].count <= HistoryBudget)
      && (|r| < |msgs| ==> r[|r| - 1].count > HistoryBudget)
    decreases |msgs|
  {
    if |msgs| > 0 {
      var t := RenderTurn(tk, msgs[0], count);
      if t.count <= HistoryBudget {
        CollectHistoryStopsAfterOverflow(tk, msgs[1..], t.count);
        var rest := CollectHistory(tk, msgs[1..], t.count);
        var r := [t] + rest;
        assert forall j :: 1 <= j < |r| ==> r[j] == rest[j - 1];
      }
    }
  }

  /**
   * Each kept turn is the rendering of its source message with the count the turn before
   * it left: a user turn quoted whole, any other the scrubbed cap to the budget then left.
   */
  lemma {:induction false} CollectHistoryRenders(tk: Tokenizer, msgs: seq<Message>, count: int)
    ensures var r := CollectHistory(tk, msgs, count);
      forall j :: 0 <= j < |r| ==>
        && r[j] == RenderTurn(tk, msgs[j], if j == 0 then count else r[j - 1].count)
        && Renders(msgs[j], r[j].msg)
    decreases |msgs|
  {
    if |msgs| > 0 {
      var t := RenderTurn(tk, msgs[0], count);
      if t.count <= HistoryBudget {
        CollectHistoryRenders(tk, msgs[1..], t.count);
        var rest := CollectHistory(tk, msgs[1..], t.count);
        assert forall j :: 1 <= j < 1 + |rest| ==> ([t] + rest)[j] == rest[j - 1];
      }
    }
  }

  /** Reversing renderings of the most-recent-first messages gives renderings of a suffix. */
  lemma ReversedRendersSuffix(history: seq<Message>, recent: seq<Message>, kept: seq<Turn>)
    requires |kept| <= |recent| <= |history|
    requires forall j :: 0 <= j < |recent| ==> recent[j] == history[|history| - 1 - j]
    requires forall j :: 0 <= j < |kept| ==> Renders(recent[j], kept[j].msg)
    ensures RendersSuffix(history, Reverse(Messages(kept)))
  {
    var r := Reverse(Messages(kept));
    forall j | 0 <= j < |r|
      ensures Renders(history[|history| - |r| + j], r[j])
    {
      var k := |r| - 1 - j;
      assert r[j] == kept[k].msg;
      assert recent[k] == history[|history| - |r| + j];
    }
  }

  /**
   * The kept history renders, in chronological order, a contiguous run of the most recent
   * messages: at most nine of them, and at least the latest when there is any history.
   */
  lemma HistoryKeepsRecentSuffix(tk: Tokenizer, history: seq<Message>)
    ensures var r := HistoryMessages(tk, history);
      && RendersSuffix(history, r)
      && |r| <= 9
      && (|history| > 0 ==> |r| > 0)
  {
    var recent := RecentFirst(history);
    CollectHistoryRenders(tk, recent, 0);
    ReversedRendersSuffix(history, recent, CollectHistory(tk, recent, 0));
  }

  /**
   * The kept history is exactly the first renderings of the newest-first messages, with
   * the count threaded from zero, put back in chronological order.
   */
  lemma HistoryIsReversedRenderPrefix(tk: Tokenizer, history: seq<Message>)
    ensures var r := HistoryMessages(tk, history);
      r == Reverse(Messages(RenderAll(tk, RecentFirst(history), 0)[..|r|]))
  {
    CollectHistoryStopsAfterOverflow(tk, RecentFirst(history), 0);
  }

  /** Every message is kept, up to the slice's nine, when nothing costs tokens. */
  lemma {:induction false} CollectEverythingWhenFree(tk: Tokenizer, msgs: seq<Message>, count: int)
    requires forall s :: |tk.encode(s)| == 0
    requires count <= HistoryBudget
    ensures |CollectHistory(tk, msgs, count)| == |msgs|
    decreases |msgs|
  {
    if |msgs| > 0 {
      CollectEverythingWhenFree(tk, msgs[1..], RenderTurn(tk, msgs[0], count).count);
    }
  }

  /** The slice `history[:-10:-1]` is the only limit left when tokens are free: nine, not ten. */
  lemma NineMessagesWhenFree(tk: Tokenizer, history: seq<Message>)
    requires forall s :: |tk.encode(s)| == 0
    ensures |HistoryMessages(tk, history)| == Min(|history|, 9)
  {
    CollectEverythingWhenFree(tk, RecentFirst(history), 0);
  }

  /**
   * User turns are never capped, so the history budget is a stopping rule and not a
   * bound: the latest user turn is always kept whole, and when it alone exceeds the
   * budget it is all the history there is.
   */
  lemma LatestUserTurnKeptWhole(tk: Tokenizer, earlier: seq<Message>, content: string)
    ensures var r := HistoryMessages(tk, earlier + [Message(UserRole, content)]);
      && |r| > 0
      && r[|r| - 1] == Message(UserRole, QuestionPrefix + content)
      && (Count(tk, QuestionPrefix + content) > HistoryBudget ==> |r| == 1)
  {
    var history := earlier + [Message(UserRole, content)];
    var recent := RecentFirst(history);
    assert recent[0] == Message(UserRole, content);
    var kept := CollectHistory(tk, recent, 0);
    assert kept[0] == RenderTurn(tk, recent[0], 0);
  }

  // ------------------------------------------------------------------ question and prompt

  /**
   * `default` adds no clause; `concise` and `rookie` each add their one fixed clause between
   * the citation instructions and the question.
   */
  lemma QuestionByMode(query: string)
    ensures QuestionContent("default", query) == Words(CitationInstructions) + (QuestionPrefix + query)
    ensures QuestionContent("concise", query)
      == Words(CitationInstructions) + Words(ConciseClause) + (QuestionPrefix + query)
    ensures QuestionContent("rookie", query)
      == Words(CitationInstructions) + Words(RookieClause) + (QuestionPrefix + query)
  {
    assert Words(CitationInstructions) + "" == Words(CitationInstructions);
  }

  lemma EndsOfThree(a: string, b: string, c: string)
    ensures StartsWith(a + b + c, a) && EndsWith(a + b + c, c)
  {
    assert (a + b + c)[..|a|] == a;
    EndsWithAppend(a + b, c);
  }

  /** Every question starts with the citation instructions and ends with `Q: <query>`. */
  lemma QuestionFramed(mode: string, query: string)
    ensures StartsWith(QuestionContent(mode, query), Words(CitationInstructions))
    ensures EndsWith(QuestionContent(mode, query), QuestionPrefix + query)
  {
    EndsOfThree(Words(CitationInstructions), ModeClause(mode), QuestionPrefix + query);
  }

  lemma AssembledShape(system: Message, kept: seq<Message>, question: Message, query: string,
                       history: seq<Message>)
    requires system.role == SystemRole && question.role == UserRole
    requires EndsWith(question.content, QuestionPrefix + query)
    requires |kept| <= 9 && (|history| > 0 ==> |kept| > 0)
    requires RendersSuffix(history, kept)
    ensures var p := [system] + kept + [question];
      WellShaped(p, query, history) && p[1..|p| - 1] == kept
  {
    var p := [system] + kept + [question];
    assert p[1..|p| - 1] == kept;
  }

  /**
   * For a known mode the prompt is one system message, then the kept history in
   * chronological order, then one user message ending in `Q: <query>`.
   */
  lemma ConstructPromptShape(tk: Tokenizer, query: string, mode: string, history: seq<Message>,
                             context: seq<Block>)
    requires |context| <= MaxLabels
    requires ValidMode(mode)
    ensures var r := ConstructPrompt(tk, query, mode, history, context);
      && r.Success?
      && WellShaped(r.value, query, history)
      && r.value[0].content == SystemContent(tk, history, context)
      && r.value[1..|r.value| - 1] == HistoryMessages(tk, history)
      && r.value[|r.value| - 1].content == QuestionContent(mode, query)
  {
    HistoryKeepsRecentSuffix(tk, history);
    QuestionFramed(mode, query);
    AssembledShape(Message(SystemRole, SystemContent(tk, history, context)),
                   HistoryMessages(tk, history),
                   Message(UserRole, QuestionContent(mode, query)), query, history);
  }
}
