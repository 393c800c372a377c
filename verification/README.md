# stampy-chat prompt assembly and event protocol, in Dafny

This project models the core of `api/src/stampy_chat/chat.py`:

- `cap`, the token-ceiling truncation;
- `construct_prompt`, which builds the system message, the budgeted and scrubbed history, and the mode-dependent question;
- `talk_to_robot_internal`, modelled as the finite sequence of events its generator yields, computed from the outcomes of its external stages;
- `talk_to_robot_simple`, the fold of that event sequence into one response with letter-keyed citations.

The modules follow the program's parts:

| file | module | what it holds |
|---|---|---|
| `wrappers.dfy` | `Wrappers` | `Option` and `Result` |
| `text.dfy` | `Text` | Python's `str.strip()` (the `str.isspace` set), `str.join`, reversal |
| `tokens.dfy` | `Tokens` | the tokenizer as a pair of functions, token counts, `cap` |
| `citations.dfy` | `Citations` | `re.sub(r"\[[0-9]+\]", "[x]", …)` as a left-to-right scan |
| `prompt.dfy` | `Prompt` | `construct_prompt` and its parts |
| `prompt_lemmas.dfy` | `PromptLemmas` | what `construct_prompt` promises |
| `events.dfy` | `Events` | the event protocol of `talk_to_robot_internal` |
| `simple.dfy` | `Simple` | `talk_to_robot_simple` |

## Modelling choices

- **Tokenizer.** The tokenizer (tiktoken `cl100k_base`) is a parameter `Tokenizer(encode, decode)`. A token count is `|encode(s)|`. The lossless round trip `decode(encode(s)) == s` is the predicate `RoundTrips`. It is required only by the lemma that needs it.
- **Budgets.** They are the integer products the code computes:
  - `NUM_TOKENS` = 4095;
  - `int(4095 * 0.5)` = 2047 for context;
  - `int(4095 * 0.25)` = 1023 for history;
  - the completion margin is 50.
- **External stages.** Each becomes a field of `Events.Stages`. The field is either a value or the message of the exception raised:
  - retrieval (`get_top_k_blocks`);
  - moderation (`openai.Moderation.create`), as per-input flags;
  - the session ledger, as current cost and total budget;
  - the completion stream (`litellm.completion`), as chunks with optional content, then an optional failure;
  - the followup engine (`multisearch_authored`).
- **Event sequence.** Every exception inside the `try` becomes one trailing `error` event.
- **Fixed wording.** The wording of the prompts is kept character for character. Each literal is written as a concatenation of short pieces. This is only to make verification cheaper; the value is the same string.

### Behaviour worth noting

- **History window.** The comment at chat.py:99 speaks of the last 10 messages. The slice `history[:-10:-1]` at :102 keeps at most nine (`Prompt.RecentFirst`, `PromptLemmas.NineMessagesWhenFree`).
- **History budget.** It is a stopping rule, not a bound. User turns are never capped (:104-105). The message whose tokens push the count over the budget is kept before the loop stops (:115-116). `PromptLemmas.LatestUserTurnKeptWhole` states the consequence.
- **Budget test.** The test at chat.py:190 raises while the cost is *at or below* the budget. The model keeps it as written. So the fresh $10 session that `talk_to_robot` and `talk_to_robot_simple` create (:239, :246) never streams an answer (`Events.FreshSessionNeverAnswers`, `Simple.SimpleReturnsError`).
- **Mode validation.** An unknown mode raises only at :137, inside `construct_prompt`. By then the retrieval and citation events have already been yielded (`Events.InvalidModeFailsAtPrompt`).
- **Followup failure.** `multisearch_authored` is called at :227, after the whole answer has been streamed. If it raises, the stream ends in `error` rather than `done` (`Events.GeneratedEvents`).
- **`cap`.** It does not bound the re-tokenised length: the `" ..."` marker is appended after the decoded prefix (:52). `Tokens.CapIsTokenPrefix` states what it does promise.

## Model

| member | source | states |
|---|---|---|
| Tokens.Cap | api/src/stampy_chat/chat.py:45-52 | exactly `"..."` when the ceiling is not positive; the text unchanged when its token count is within the ceiling; otherwise the decoding of the first `max_tokens` tokens followed by `" ..."` |
| Tokens.CapIsTokenPrefix | api/src/stampy_chat/chat.py:45-52 | with a lossless tokenizer and a positive ceiling, the result is the decoding of a token prefix of length min(count, ceiling), followed by the marker exactly when that prefix is proper: never a suffix or reordering |
| Text.Strip | api/src/stampy_chat/chat.py:89 | `str.strip()` over Python's whitespace set, never longer than its input; `Text.StripIsTrimmedInfix` states exactly what it removes |
| Text.StripIsTrimmedInfix | api/src/stampy_chat/chat.py:89 | `strip()` returns the infix starting at the first non-whitespace character, with only whitespace removed before and after it, and neither end of it whitespace |
| Text.StripTrimmed | api/src/stampy_chat/chat.py:89 | a string with non-whitespace ends is left unchanged by `strip()` |
| Text.StripKeepsTrimmedHead | api/src/stampy_chat/chat.py:89-96 | stripping `a + b` when `a` has non-whitespace ends keeps `a` whole and only drops `b`'s trailing whitespace |
| Prompt.Label | api/src/stampy_chat/chat.py:79 | the letter of block `i` is the character with code `ord('a') + i` |
| Prompt.RenderBlock | api/src/stampy_chat/chat.py:79 | the f-string for block `i`: letter, title, comma-joined authors, date, then the text; `PromptLemmas.RenderBlockLabelled` states its ends |
| PromptLemmas.RenderBlockLabelled | api/src/stampy_chat/chat.py:79 | block `i` opens with `[`, its letter, `] ` and ends with `\n`, its text, and a blank line |
| Prompt.FillContext | api/src/stampy_chat/chat.py:78-87 | the context loop from block `i` with `count` tokens used; the blocks it takes whole are a run starting at `i`; `PromptLemmas.FillContextCounts` and `PromptLemmas.FillContextText` state its count and text |
| PromptLemmas.FillContextCounts | api/src/stampy_chat/chat.py:75-87 | the final count is the starting count plus the tokens of the blocks taken whole; once any block is taken whole the count stays within the context budget; taking stops at the first block that would push the count over it |
| PromptLemmas.FillContextText | api/src/stampy_chat/chat.py:78-87 | the context text is the blocks taken whole, in input order, followed by the first overflowing block capped to the budget left; later blocks are dropped |
| PromptLemmas.AllBlocksFitIff | api/src/stampy_chat/chat.py:78-87 | all blocks are taken whole exactly when their tokens together fit the budget, and they then appear untruncated one after another |
| PromptLemmas.PreambleHeadTrimmed | api/src/stampy_chat/chat.py:70-73 | the preamble's instructions begin and end with non-whitespace, so stripping never touches them |
| PromptLemmas.CaveatKeepsTrailing | api/src/stampy_chat/chat.py:91-94 | the history caveat ends in non-whitespace, so the final strip keeps it whole |
| Prompt.Frame | api/src/stampy_chat/chat.py:89-96 | the strip at :89, the caveat appended at :90-94, and the strip at :96; `PromptLemmas.FrameShape` states what survives them |
| PromptLemmas.FrameShape | api/src/stampy_chat/chat.py:89-96 | the two strips around the context only remove the context's trailing whitespace: the head comes first and the caveat, when added, comes last, verbatim |
| Prompt.SystemContent | api/src/stampy_chat/chat.py:70-96 | the system message's content: the preamble, the context loop started at the preamble's token count, then the frame; `PromptLemmas.SystemContentShape` states its shape |
| PromptLemmas.SystemContentShape | api/src/stampy_chat/chat.py:70-96 | the system message is the preamble's instructions, then the context text without its trailing whitespace, then the caveat exactly when the history is non-empty |
| Prompt.RecentFirst | api/src/stampy_chat/chat.py:102 | `history[:-10:-1]` holds min(length, 9) messages, the most recent first |
| Prompt.RenderTurn | api/src/stampy_chat/chat.py:103-113 | a user turn becomes `"Q: " + content`; any other role becomes an assistant turn whose content is the scrubbed cap to the history budget left, free of `[digits]` markers; the count grows by the rendered content's tokens |
| PromptLemmas.RenderAllThreadsCount | api/src/stampy_chat/chat.py:100-113 | each history message is rendered with the running count left by the one before it |
| PromptLemmas.CollectHistoryStopsAfterOverflow | api/src/stampy_chat/chat.py:100-116 | the kept messages are a prefix of the renderings; every kept message but the last leaves the count within the history budget; when collection stops early, the last kept message is the one that pushed the count over |
| PromptLemmas.CollectHistoryRenders | api/src/stampy_chat/chat.py:102-113 | each kept turn is exactly the rendering of its source message with the count the turn before it left: a user turn quoted whole, any other the scrubbed cap to the budget then left |
| Prompt.CollectHistory | api/src/stampy_chat/chat.py:100-116 | collection keeps no more messages than it is given, and at least one if it is given any |
| PromptLemmas.HistoryKeepsRecentSuffix | api/src/stampy_chat/chat.py:99-118 | the history in the prompt renders, in chronological order, a contiguous run of the latest messages; at most nine of them, and at least the latest when there is history |
| PromptLemmas.HistoryIsReversedRenderPrefix | api/src/stampy_chat/chat.py:99-118 | the history in the prompt is exactly the first renderings of the newest-first messages, with the count threaded from zero, put back in chronological order |
| Prompt.HistoryMessages | api/src/stampy_chat/chat.py:99-118 | the prompt's history has at most nine messages and no more than the history itself |
| PromptLemmas.NineMessagesWhenFree | api/src/stampy_chat/chat.py:99-102 | when no text costs tokens, exactly min(length, 9) messages are kept: nine, not ten |
| PromptLemmas.CollectEverythingWhenFree | api/src/stampy_chat/chat.py:100-116 | when no text costs tokens, collection never stops early |
| PromptLemmas.LatestUserTurnKeptWhole | api/src/stampy_chat/chat.py:102-116 | the latest user turn is always kept whole as `"Q: " + content`, and when it alone exceeds the history budget it is the only history kept |
| Prompt.ConstructPrompt | api/src/stampy_chat/chat.py:125-137 | the call fails, with `"Invalid mode: " + mode`, exactly when the mode is not `default`, `concise` or `rookie` |
| Prompt.QuestionContent | api/src/stampy_chat/chat.py:121-140 | the final user message's content: the citation instructions, the mode's clause, then `"Q: " + query`; `PromptLemmas.QuestionByMode` and `PromptLemmas.QuestionFramed` state it per mode |
| PromptLemmas.QuestionByMode | api/src/stampy_chat/chat.py:121-140 | `default` adds no clause; `concise` and `rookie` each add their fixed clause between the citation instructions and `"Q: " + query` |
| PromptLemmas.QuestionFramed | api/src/stampy_chat/chat.py:121-142 | every question starts with the citation instructions and ends with `"Q: " + query` |
| PromptLemmas.ConstructPromptShape | api/src/stampy_chat/chat.py:57-144 | for a known mode, the prompt is one system message, then the kept history in chronological order, then one user message ending with `"Q: " + query` |
| Citations.Scrub | api/src/stampy_chat/chat.py:110 | `re.sub(r"\[[0-9]+\]", "[x]", …)` as a left-to-right scan; the `Citations` lemmas below relate it to the pattern |
| Citations.CitationHereIffMatch | api/src/stampy_chat/chat.py:110 | the scan's test at a position agrees with the pattern `\[[0-9]+\]` matching there |
| Citations.ScrubReplacesMarker | api/src/stampy_chat/chat.py:110 | a marker `[<digits>]` met by the scan becomes `[x]`, and the scan continues after it |
| Citations.ScrubLeavesNoCitations | api/src/stampy_chat/chat.py:110 | no `[<digits>]` marker remains after scrubbing |
| Citations.ScrubKeepsCleanText | api/src/stampy_chat/chat.py:110 | text without markers is returned unchanged |
| Citations.ScrubFixedIffClean | api/src/stampy_chat/chat.py:110 | scrubbing leaves a string unchanged exactly when it has no marker |
| Citations.ScrubIdempotent | api/src/stampy_chat/chat.py:110 | scrubbing twice is scrubbing once |
| Events.CitationsOf | api/src/stampy_chat/chat.py:156 | one citation per retrieved block, in order, with that block's title, authors, date and url |
| Events.ModerationInputs | api/src/stampy_chat/chat.py:165-166 | the two moderation inputs: the raw query, then every prompt content joined by blank lines |
| Events.PromptTokens | api/src/stampy_chat/chat.py:182 | the sum over the prompt of each message's content tokens plus its role tokens; `Events.ZeroTokensIffEmptyCost` and `Events.MaxTokensCompletionAppend` state it |
| Events.ZeroTokensIffEmptyCost | api/src/stampy_chat/chat.py:182 | the prompt costs no tokens exactly when no message content or role costs a token |
| Events.MaxTokensCompletion | api/src/stampy_chat/chat.py:182 | the completion budget is at most 4095 - 50, and reaches it exactly when no message content or role costs a token |
| Events.MaxTokensCompletionAppend | api/src/stampy_chat/chat.py:182 | each message's content and role tokens come off the completion budget |
| Events.StreamEvents | api/src/stampy_chat/chat.py:193-204 | the completion chunks yield only `streaming` events, at most one per chunk; `Events.StreamEventsSnoc` states which |
| Events.StreamEventsSnoc | api/src/stampy_chat/chat.py:193-204 | chunk by chunk, in arrival order: a chunk with content adds exactly one `streaming` event carrying that chunk's own content, and a chunk without content adds none |
| Events.StreamedIsResponse | api/src/stampy_chat/chat.py:200-204 | the streamed contents, concatenated, are the accumulated response given to the followup lookup |
| Events.Generate | api/src/stampy_chat/chat.py:165-230 | the only loading event after the prompt is built is `loading/llm` |
| Events.GenerateWellOrdered | api/src/stampy_chat/chat.py:165-234 | after any loading events, generation keeps the order: loading, then streaming, then exactly one terminal event, with nothing after it |
| Events.Orchestrate | api/src/stampy_chat/chat.py:153-234 | after retrieval the events are well ordered; they open with the three loading events, and only the second carries citations, those of the retrieved blocks |
| Events.TalkInternal | api/src/stampy_chat/chat.py:150-234 | every invocation opens with `loading/semantic` and is well ordered; any citations are those of the retrieved blocks |
| Events.ModerationGatesGeneration | api/src/stampy_chat/chat.py:165-185 | `loading/llm` appears exactly when the prompt was built and moderation flagged nothing; otherwise nothing is streamed and `done` never comes |
| Events.FlaggedEndsInRejection | api/src/stampy_chat/chat.py:168-179 | a flagged conversation ends in the moderation error right after the prompt phase |
| Events.InvalidModeFailsAtPrompt | api/src/stampy_chat/chat.py:158-160 | an unknown mode ends the stream with its `ValueError` right after the prompt phase starts |
| Events.WithinBudgetNeverStreams | api/src/stampy_chat/chat.py:185-191 | while the cost is at or below the budget, nothing is streamed and the stream ends in an error; past moderation, that error is the budget message |
| Events.FreshSessionNeverAnswers | api/src/stampy_chat/chat.py:237-240 | on a fresh $10 session every invocation ends in an error without streaming |
| Events.GeneratedEvents | api/src/stampy_chat/chat.py:185-234 | past moderation and the budget test: the loading events, one `streaming` event per content chunk, then an error if the completion or the followup lookup failed, else `done` with the followups for `[query, response]` |
| Simple.Step | api/src/stampy_chat/chat.py:248-258 | one iteration of the adapter's loop; `Simple.StepResponse` states its effect on the response |
| Simple.StepResponse | api/src/stampy_chat/chat.py:254-258 | an error event replaces the response with its message; any other event appends what it streams |
| Simple.Fold | api/src/stampy_chat/chat.py:247-258 | the loop over every event in order; `Simple.FoldSnoc` and the `Fold…` lemmas below state its result |
| Simple.FoldSnoc | api/src/stampy_chat/chat.py:247-258 | folding one more event is one more step of the loop |
| Simple.TalkSimple | api/src/stampy_chat/chat.py:243-260 | the adapter: a fresh $10 session, mode `default`, no history, events folded; `Simple.SimpleRetrievalFailure` and `Simple.SimpleReturnsError` state its result |
| Simple.CitationMapByLetter | api/src/stampy_chat/chat.py:248-252 | citation `i` is filed under `chr(ord('a') + i)`, and only those letters are keys |
| Simple.FoldResponseWithoutError | api/src/stampy_chat/chat.py:254-255 | with no error event, the response is every `streaming` content, in order |
| Simple.FoldResponseAfterError | api/src/stampy_chat/chat.py:254-258 | an error overwrites the response: it is the last error's message followed by what was streamed after it |
| Simple.FoldWithoutCitations | api/src/stampy_chat/chat.py:244-252 | with no semantic loading event carrying citations, the result has none |
| Simple.FoldCitationsFromLast | api/src/stampy_chat/chat.py:248-252 | the result's citations are those of the last semantic loading event carrying them, keyed by letter |
| Simple.FoldWithinBudget | api/src/stampy_chat/chat.py:243-260 | with the session within its budget, the result cites every retrieved block by letter and carries the final error's message, the budget message once moderation passes |
| Simple.SimpleRetrievalFailure | api/src/stampy_chat/chat.py:243-260 | when retrieval fails, the result is its message with no citations |
| Simple.SimpleReturnsError | api/src/stampy_chat/chat.py:243-260 | past retrieval, the simple adapter's response is the message of the error ending the stream, the budget message once moderation passes, and every retrieved block is cited by letter |

## Left out

- **External services.** Retrieval, moderation, the completion stream, the session ledger and the followup engine are network services. Their outcomes are inputs; their internals and their arguments `k`, `index` and `session_id` are not modelled.
- **Cost accrual.** `budget_manager.update_cost` during streaming is not modelled. The budget is compared once, before the stream, and nothing reads the updated cost afterwards.
- **Tokenizer internals.** The tokenizer is a foreign library. `encode` and `decode` are any total functions.
- **I/O and logging.** `json.dumps`, `uuid`, `time.time`, `print`, `DEBUG_PRINT` and the `log` callable are left out. `log` is assumed not to raise.
- **Serialisation.** `talk_to_robot` and `talk_to_robot_simple` return JSON text; the model returns the events and the result record they serialise.
- **Generators.** Suspension and abandonment by the caller are not modelled; the generator is the finite sequence it yields.
- **Missing keys.** A history message without `role` or `content` would raise `KeyError`; messages are records with both fields.
- **Citation letters.** `chr(ord('a') + i)` is modelled for fewer than 0xD800 - 97 blocks, since Dafny characters exclude surrogates.
- **Message text.** An exception's `str(e)` is its message, carried as a string; exception types are not distinguished.
- **Money.** The session's cost and budget are exact reals, not floats.
- Tokens.Cap: does not bound the token count of its result, because the code appends `" ..."` after the decoded prefix and re-tokenising that need not stay within the ceiling.
