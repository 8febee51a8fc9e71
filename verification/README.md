# line-ai turn orchestrator — a Dafny model

This project models the core of the line-ai backend: the code that runs one
chat turn and turns the signals of a multi-agent pipeline into the ordered
stream of progress messages a client renders. It covers:

- `ConversationSession`: the process-wide registry of conversations. Each
  conversation has an agent team and a lock, and at most one turn at a time
  may hold a conversation.
- `StepProgressTracker`: one progress step. It is opened once, and each query
  is announced and completed once.
- `EventProcessor`: the per-turn state machine with one handler per signal
  kind. The handlers cover the route decision, the research plan, search
  queries and candidates, ranked selections, fetched results, streaming
  chunks, text messages and the terminal result. The model includes the two
  page-selection loops and the answer-text fallback chain.
- `ask`: the turn itself. It rejects a blank message, opens the conversation,
  emits the two opening messages, forwards the processor's messages until the
  batch that finishes the turn, and releases the conversation.
- The pure parts of the pipeline agents whose output the processor consumes:
  - the search executor's choice of query and its normalisation of raw hits
  - the page fetcher's cut of the ranking to the fetch budget
  - which agents the router's graph reaches on each route
  - the word packing and fetched-item filtering of `google_search`

The processor exists in two copies, `backend/agent.py` and
`backend/workflow.py`. They differ in one respect: only the `agent.py` copy
handles the search-query signal. The model has a single processor with a
`Variant` parameter, and the rows below cite the `agent.py` lines.

Modules, in dependency order:

- `Wrappers`: Option and Result.
- `Text`: Python `strip`/`rstrip`, `isspace`, `str(n)`, and the removal of the termination sentinel.
- `Messages`: the message kinds and `_build_page`.
- `Tracker`: the step progress tracker.
- `Selection`: the two page-selection loops and their reference definitions.
- `Processor`: state, signals and handlers.
- `ProcessorLaws`: one law per handler.
- `Session`: the registry.
- `Turn`: `ask`, message accounting over a whole turn, and the quick-answer scenario.
- `TurnSteps`: the step messages a whole turn emits at most once, and the disjoint fetch batches.
- `Agents`: the agents' pure logic and the agent graph.
- `Tools`: the pure steps of `google_search`.

Side effects are passed in as parameters:

- The signals the agent team produces for a message are a parameter (`signals`) of `Turn.Ask`.
- The generated conversation id is the `freshId` parameter of `Session.Open`.
- The search API's hits, the page bodies and the page words are parameters of the functions that consume them.

## Model

| member | source | states |
|---|---|---|
| Text.Strip | backend/agent.py:58-62 | the stripped text is empty exactly when the input is all whitespace; otherwise it is the input with its leading and trailing whitespace runs cut off, and it starts and ends with a non-space character |
| Text.StripUnique | backend/agent.py:58-62 | any cut that removes only whitespace at both ends and leaves nothing or a non-space character at each end is the stripped text, so the stripped text is determined by the input alone |
| Text.RStrip | backend/agent.py:581-586 | the result is a prefix of the input; everything cut off is whitespace and the result does not end in whitespace |
| Text.StripIdempotent | backend/agent.py:123-125 | stripping a key twice gives the same key, so a query and its stripped form share a tracker key |
| Text.StripTermination | backend/agent.py:581-586 | the result is a prefix of the input with no trailing whitespace; when the right-stripped input does not end in `TERMINATE` it is that text; when it does, it is that text minus the one trailing `TERMINATE` and only whitespace before it |
| Text.StripTerminationRoundTrip | backend/agent.py:581-586 | text without trailing whitespace, followed by whitespace, the sentinel and whitespace, comes back unchanged |
| Text.StripTerminationWithoutSentinel | backend/agent.py:581-586 | text that does not end in the sentinel loses only its trailing whitespace |
| Text.StripTerminationRemovesOnlyOne | backend/agent.py:581-586 | a doubled sentinel leaves the first one in the answer |
| Messages.BuildPage | backend/agent.py:588-608 | a page exists exactly when the url is non-empty; title and favicon are kept exactly when they are truthy; the snippet is kept when it is truthy and is cut to its first 100 characters |
| Tracker.New | backend/agent.py:94-101 | a new tracker is closed and has recorded, announced and completed nothing |
| Tracker.StartStep | backend/agent.py:110-121 | afterwards the step is open; one `step.start` with the given description is emitted exactly when it was closed |
| Tracker.RecordQuery | backend/agent.py:123-129 | answers true exactly when the stripped query is non-blank and not yet recorded, and records it |
| Tracker.EmitStatus | backend/agent.py:131-143 | one `step.status` exactly when the stripped query is non-blank and not yet announced, and marks it announced |
| Tracker.CompleteStep | backend/agent.py:145-165 | one `step.end` exactly when the query's key (or the keyless slot) is not yet completed; emitting closes the step, and otherwise nothing changes |
| Tracker.StartStepOncePerOpening | backend/agent.py:110-121 | a second start while the step is open emits nothing |
| Tracker.CompleteThenReopen | backend/agent.py:145-165 | after a completion the step is closed, so the next start emits one `step.start` again |
| Tracker.RecordTrueOncePerKey | backend/agent.py:123-129 | over any sequence of calls the number of `true` answers is the number of distinct non-blank keys not recorded before |
| Tracker.StatusOncePerKey | backend/agent.py:131-143 | over any sequence of calls exactly one status line is emitted per distinct non-blank key not announced before |
| Tracker.CompleteOncePerKey | backend/agent.py:145-165 | over any sequence of calls, one end is emitted per distinct key not completed before, plus at most one for all keyless calls together |
| Selection.Dedup | backend/agent.py:376-390 | the reference for url de-duplication: urls are distinct and the url set is unchanged; each kept page is the first input page with its url, and the kept pages come in the order those first pages occur in the input |
| Selection.TakeOpt | backend/agent.py:391-398 | the reference for a cap: a prefix of the pages with length min(len, cap), or all pages without a cap |
| Selection.RankScanSpec | backend/agent.py:360-419 | the ranked loop yields the first `rank_top_k` distinct valid pages; its fetch batch is the first `fetch_page_limit` of them not announced earlier in the turn; the announcement set grows by exactly the batch |
| Selection.FetchScanSpec | backend/agent.py:421-461 | the fetched loop, including its early exits, yields the first `fetch_page_limit` distinct valid pages (all of them without a plan) |
| Processor.Init | backend/agent.py:171-207 | a new processor has nothing open, started or finished; all three answer agents are accepted |
| Processor.RouteOpening | backend/agent.py:255-290 | the step a route opens touches only the coding flag and the search tracker |
| Processor.HandleRoute | backend/agent.py:252-301 | only the route's answer agent stays accepted and the planning step is closed; the configuration and the finished flag do not change |
| Processor.HandlePlan | backend/agent.py:303-307 | the plan is stored and nothing is emitted; the configuration and the finished flag do not change |
| Processor.HandleSearchQuery | backend/agent.py:309-325 | only the search tracker changes; a blank query changes nothing and emits nothing |
| Processor.HandleSearchCandidates | backend/agent.py:327-358 | only the search tracker and the rank-start flag change, and the rank step is started afterwards |
| Processor.HandleRanked | backend/agent.py:360-419 | the rank step is started and completed afterwards, and the turn's fetch announcements only grow; the configuration and the finished flag do not change |
| Processor.HandleFetched | backend/agent.py:421-461 | exactly one fetch end is emitted, and its pages replace the citations while nothing else changes |
| Processor.HandleChunk | backend/agent.py:463-493 | something is emitted exactly when the chunk is non-empty and from an accepted source; the configuration and the finished flag do not change |
| Processor.HandleText | backend/agent.py:495-500 | nothing is emitted; the configuration and the finished flag do not change |
| Processor.HandleTerminal | backend/agent.py:502-553 | the turn is finished, the answer step has been opened and closed, and the coding step is closed |
| Processor.ProcessSearch | backend/agent.py:212-248 | the two search signals leave the configuration and the finished flag alone; the workflow copy ignores a search query |
| Processor.Process | backend/agent.py:212-248 | the configuration never changes; the turn is finished afterwards exactly when it was before or the signal is the terminal result; an event without a handler changes nothing and emits nothing |
| ProcessorLaws.AllSourcesBeforeRoute | backend/agent.py:202-206 | before a route decision, the output of every route's answer agent is accepted |
| ProcessorLaws.RouteDecision | backend/agent.py:252-301 | the route restricts the accepted source to its answer agent and sets the answer description; coding opens the coding step and deep dive the search step unless already open; the planning step closes with the route's text, as the last message, exactly when it was open; nothing else changes |
| ProcessorLaws.PlanStored | backend/agent.py:303-307 | the plan is stored, nothing is emitted, and the caps become `max(0, rank_top_k)` and `max(0, fetch_page_limit)` |
| ProcessorLaws.AnnounceQuerySpec | backend/agent.py:315-325 | exactly: a `step.start` with the text `Searching for "q".` when the query was not recorded and the step is closed, then a `step.status` with the text `Searching with "q".` when it was not announced; afterwards it is recorded and announced, the step is open if it was open or the query was new, and nothing else in the tracker changes |
| ProcessorLaws.HandleSearchQuerySpec | backend/agent.py:309-325 | a non-blank query emits exactly the start and status messages above for its stripped form, in that order; the new state is the old one with only the search tracker updated as above |
| ProcessorLaws.SearchQueryAnnounces | backend/agent.py:309-325 | for `process_event`: the workflow copy ignores the signal; a blank query changes nothing; otherwise exactly the messages and the new state above |
| ProcessorLaws.HandleSearchCandidatesSpec | backend/agent.py:327-358 | exactly: for a non-blank query the start and status above, then a `step.end` with the found-count description unless the query was completed; for a blank query one keyless `step.end` unless one was emitted; then the rank `step.start` unless already emitted. The tracker records, announces and completes the query (the step stays open only when the query was already completed and the step open or reopened), the keyless slot is marked for a blank query, the rank step is started, and nothing else changes |
| ProcessorLaws.SearchCandidatesSteps | backend/agent.py:327-358 | the same exact messages and new state, stated for `process_event` in both copies of the processor |
| ProcessorLaws.SearchCandidatesOnce | backend/agent.py:327-358 | repeating the candidates signal for the same query emits nothing |
| ProcessorLaws.RankedSelections | backend/agent.py:360-419 | the rank start if not yet emitted, the rank end with the ranked count if not yet emitted, and a fetch start exactly when the batch is non-empty; the ranked list and the batch are the reference prefixes; the announced urls grow by the batch |
| ProcessorLaws.UnannouncedDistinct | backend/agent.py:394-398 | filtering out announced urls keeps urls distinct and keeps only input pages |
| ProcessorLaws.RankedCaps | backend/agent.py:360-419 | under a plan: at most `max(0, rank_top_k)` ranked pages; every fetch start holds 1 to `max(0, fetch_page_limit)` well-formed pages with distinct urls, none announced earlier in the turn |
| ProcessorLaws.FetchedResultsSpec | backend/agent.py:421-461 | exactly one fetch end carrying the capped distinct valid pages, which replace the citations; an empty fetch end under a non-positive budget |
| ProcessorLaws.StreamingChunkSpec | backend/agent.py:463-493 | an empty chunk, or one from a source that is not accepted, changes nothing; otherwise the coding step closes if open, the answer step opens if not yet opened, and the chunk is emitted verbatim and accumulated |
| ProcessorLaws.TextMessageSpec | backend/agent.py:495-500 | nothing is emitted; a non-empty text from an accepted source is appended to the fallback texts, and nothing else in the state changes |
| ProcessorLaws.FinalAnswerChain | backend/agent.py:515-529 | the answer is the first non-empty of: the streamed chunks, the fallback texts, the accepted history texts, each with the sentinel removed; it is a prefix of the text it was chosen from and never ends in whitespace |
| ProcessorLaws.TerminalSpec | backend/agent.py:502-553 | the coding step closes if open; the answer step opens if it never did and closes if not yet closed; then one answer follows, citing the last fetched pages or none; the turn is finished |
| ProcessorLaws.TerminalTwice | backend/agent.py:531-553 | a second terminal signal adds only another answer: no second answer start or end |
| Session.RequestedId | backend/agent.py:59-64 | the requested id is absent exactly when the given id is missing or blank, and is otherwise the stripped id |
| Session.SessionId | backend/agent.py:69-70 | the session id is the requested id, else the generated one |
| Session.Open | backend/agent.py:69-84 | fails with the id exactly when that conversation exists and is locked; otherwise the id is registered and locked, and no other conversation changes; a known id keeps its team and creates none, and an unknown id gets a new team |
| Session.Close | backend/agent.py:86-88 | releases exactly that conversation's lock and changes nothing else |
| Session.OpenKeepsValid | backend/agent.py:69-84 | opening keeps every team handle one that was created |
| Session.NewTeamIsDistinct | backend/agent.py:71-74 | a new conversation's team is shared with no other conversation |
| Session.TrimmedIdsAgree | backend/agent.py:59-64 | ids that differ only in surrounding whitespace name one conversation |
| Session.MutualExclusion | backend/agent.py:76-79 | while one turn holds a conversation, a second open of that id is refused |
| Session.CloseReleases | backend/agent.py:86-88 | after a turn the conversation is free and keeps its team, and the next open reuses it without creating a team |
| Turn.TurnStartState | backend/agent.py:1139-1149 | the processor a turn starts with has the turn's titles, a fresh search tracker, and planning marked active |
| Turn.Drive | backend/agent.py:1157-1162 | the configuration never changes; a run that starts unfinished ends finished exactly when some signal is a terminal result |
| Turn.Ask | backend/agent.py:1117-1162 | a blank message is refused; a held conversation is refused with its id; otherwise the turn start and the planning start come first, then the processor's messages up to the finishing batch; the registry afterwards is the opened registry with that conversation released, so it keeps its entry unlocked, the team count is the opening's, no id is added but this one, and every other conversation is unchanged |
| Turn.DriveAccounts | backend/agent.py:1157-1162 | over a run, the turn finishes exactly when a terminal signal arrives; it then carries exactly one answer, as its last message, and otherwise none; the answer start and answer end each appear at most once |
| Turn.DriveStopsAtFinish | backend/agent.py:1157-1162 | signals after the one that finishes the turn are never processed |
| Turn.AskAnswerOnce | backend/agent.py:1117-1162 | a turn on a non-blank message whose conversation is free goes ahead; it streams exactly one answer, as its last message, when the pipeline delivers its result, and none otherwise; at most one answer start and one answer end |
| Turn.ConsecutiveTurns | backend/agent.py:1123-1162 | a finished turn releases its conversation, so the next message on the same id is accepted and keeps the team |
| Turn.QuickAnswerText | backend/test_agent.py:157-162 | the chunks `"Hello "` and `"world TERMINATE"` give the answer `"Hello world"` |
| Turn.QuickAnswerScenario | backend/test_agent.py:157-210 | the quick-answer turn streams the eight message types in the order the test expects, with the quick-answer description on the answer start and `"Hello world"` as the answer |
| TurnSteps.ProcessKeeps | backend/agent.py:212-250 | for every signal, each marked message (the rank start, the rank end, a query's status line, a query's search end, the keyless search end) is in the batch exactly when the processor's record of it is newly set, and no record is cleared; no rank start follows a rank end; the fetch start carries only urls not announced before, all recorded afterwards |
| TurnSteps.DriveKeeps | backend/agent.py:1157-1162 | the same over a run of any length: each marked message appears once if its record was set during the run and never otherwise; no rank start follows a rank end; fetch starts carry only urls new to the run, recorded afterwards, and no two fetch starts share a url |
| TurnSteps.RankStepOnce | backend/agent.py:360-419 | over a whole turn the rank step starts once if it was started and never otherwise, ends once if it was completed and never otherwise, and every rank end comes after a rank start |
| TurnSteps.SearchStepsOnce | backend/agent.py:131-165 | over a whole turn each stripped query's status line appears once if the query was announced and never otherwise, and its search end once if it was completed and never otherwise; the keyless end appears once if the step was completed without a query and never otherwise |
| TurnSteps.FetchBatchesDisjoint | backend/agent.py:391-419 | over a whole turn no url appears in two fetch starts, and every url a fetch start carries is recorded as announced |
| TurnSteps.FoundDescriptionInjective | backend/agent.py:343-353 | two equal end descriptions of the search step are for the same query, or both keyless, whatever their counts |
| TurnSteps.StatusTextInjective | backend/agent.py:339-341 | two equal status lines of the search step are for the same query |
| Text.NatToString | backend/agent.py:404 | `str(n)`: a non-empty run of decimal digits that reads back as `n` |
| Agents.LatestQuery | backend/agent.py:688-694 | no result exactly when the history has no search query; otherwise the query of the last one |
| Agents.LatestPlan | backend/agent.py:688-694 | no result exactly when the history has no plan; otherwise the last plan |
| Agents.LatestRanked | backend/agent.py:823-827 | no result exactly when the history has no ranking; otherwise the last ranking |
| Agents.FirstNonBlank | backend/agent.py:752-756 | empty exactly when every plan query is blank; the result is stripped |
| Agents.FirstNonBlankIsFirst | backend/agent.py:752-756 | the query picked is the first plan query that is not blank |
| Agents.QueryText | backend/agent.py:747-756 | the latest search query, stripped; else the plan's first non-blank query; else empty |
| Agents.BuildCandidate | backend/agent.py:768-787 | a hit is dropped exactly when its link is missing or blank; the url is the stripped link; a blank title falls back to the raw link; an empty snippet becomes the placeholder; the favicon is kept stripped when non-blank |
| Agents.CandidatesAppend | backend/agent.py:768-787 | the candidates keep the order of the hits |
| Agents.CandidatesWellFormed | backend/agent.py:768-787 | every candidate has a stripped, non-empty url and a non-empty title |
| Agents.NormaliseHits | backend/agent.py:766-787 | the loop yields the candidates of the hits with a usable link, in order |
| Agents.SearchExecutorReply | backend/agent.py:742-794 | the reply carries the chosen query; its candidates are empty for an empty query or a failed search, and are otherwise the normalised hits |
| Agents.FetchSelections | backend/agent.py:818-840 | nothing without a ranking; the whole ranking without a plan; otherwise a prefix of length `min(len, max(0, fetch_page_limit))` |
| Agents.ZeroBudgetFetchesNothing | backend/agent.py:818-840 | a non-positive fetch budget selects no page |
| Agents.RouteAnswerer | backend/agent.py:1084-1095 | each route's answer agent is the agent whose output the processor accepts after that route |
| Agents.Successors | backend/agent.py:1066-1095 | no edge leads back to the router, an answer agent has no successor, and an agent of a route only leads to agents of that route |
| Agents.ReachWithinRoute | backend/agent.py:1066-1095 | however far the flow runs, it stays among the agents of the chosen route |
| Agents.RouteReachesOnlyItsAnswerer | backend/agent.py:1066-1095 | the only answer agent a route reaches is the accepted one, and that agent is reached |
| Tools.KeptCountSpec | backend/tools.py:32-37 | the first i words are kept exactly when, at one separator each, they fit in the budget |
| Tools.PackWords | backend/tools.py:32-38 | the packed text is the longest leading run of words that fits, joined by single spaces; it is at most `max_chars` long and starts and ends with a non-space character |
| Tools.FetchedIndices | backend/tools.py:53-66 | the positions of the fetched pages: increasing, and exactly the fetched ones |
| Tools.KeepFetched | backend/tools.py:53-66 | the kept items are the fetched ones in order, each carrying its title, link, snippet and body |
| Tools.KeepAllFetched | backend/tools.py:64-66 | when every page is fetched, every item is kept, in order |

## Left out

- The language models, autogen's agents and `GraphFlow.run_stream` are not modelled. The signals a team produces are a parameter of `Turn.Ask`, and the agent graph is modelled only as its edge relation.
- `TodayDateAgent` reads the wall clock and is left out.
- The reflection-based handler lookup (`_resolve_handler`) is replaced by the closed `Signal` datatype. Every other event kind is the `Unhandled` signal, which the processor ignores.
- The asyncio lock is a boolean on the conversation, because turns are modelled one at a time. Concurrent turns and `uuid4` are not modelled; the generated id is a parameter.
- `create_team` is an opaque team handle: the number of teams created before it.
- Entries are never removed from the registry; the code has no eviction.
- `agent.py` imports its message classes (`StepStartMessage`, `Page` and the rest) from a `message` module whose definitions are not part of this model. Their pydantic validation is reduced to the single rule the orchestrator depends on: a page needs a non-empty url. JSON serialisation is out of scope.
- The HTTP calls, the HTML parsing and the search API request in `tools.py` are left out; the page words, the page bodies and the hits are parameters.
- The page fetcher's network calls are left out, and so is its assembly of results from the fetched payloads (`backend/agent.py:842-903`); only its cut of the ranking is modelled.
- Agents.BuildCandidate: a snippet that is a non-string truthy value makes the source fail on `.strip()`; the model's snippet is always a string or absent, so this crash is not modelled.
- The search executor in `agent.py` calls `google_search` without its `max_chars` argument, and `agent.py` imports a `fetch_page` that `tools.py` does not define. The model takes each agent's inputs as parameters and does not model how they are wired.
- The processor does not check that fetched pages were among the ranked ones, and the model claims no such property.
- Text.StripTermination: only one trailing sentinel is removed, so a doubled sentinel leaves one behind (`Text.StripTerminationRemovesOnlyOne`).
- Python's `str.isspace` is modelled by the code points Python treats as whitespace. There is no Unicode normalisation.
- The `__main__` demos, `main.py`, `crew.py` and the `play/` directory are not part of this model.
