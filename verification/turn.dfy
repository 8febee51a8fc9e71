/** `ask`: one turn of a conversation. It rejects a blank message, opens the
    conversation, streams the opening messages, then feeds the pipeline's
    signals to a fresh processor and forwards its messages in order until the
    batch that finishes the turn, and finally releases the conversation. The
    signals the agent team produces for the message are a parameter. */
module Turn {
  import opened Wrappers
  import opened Text
  import opened Messages
  import opened Tracker
  import opened Selection
  import opened Processor
  import opened ProcessorLaws
  import opened Session

  const PlanningTitle: string := "Planning the appropriate route"
  const SearchTitle: string := "Running web search"
  const CodingTitle: string := "Coding agent thinking"
  const RankTitle: string := "Ranking candidate sources"
  const FetchTitle: string := "Fetching supporting details"
  const AnswerTitle: string := "Answering the question"
  const SearchPrepareDescription: string := "Preparing deep dive web search queries."
  const PlanningDescription: string := "Evaluating best workflow for this request."

  const TurnConfig: Config :=
    Config(PlanningTitle, SearchPrepareDescription, RankTitle, FetchTitle, CodingTitle, AnswerTitle)

  /** The processor a turn starts with: planning marked active. */
  function TurnStartState(): (s: State)
    ensures s.cfg == TurnConfig && s.search == New(SearchTitle)
    ensures s.planningOpen && !s.finished && !s.answerStarted && !s.answerCompleted
  {
    Init(TurnConfig, New(SearchTitle)).(planningOpen := true)
  }

  /** The `async for` loop: process each signal and forward its messages,
      stopping right after the batch that sets `finished`. A run that starts
      unfinished ends finished exactly when some signal is a terminal result. */
  function Drive(v: Variant, s: State, signals: seq<Signal>): (r: (State, seq<Msg>))
    ensures r.0.cfg == s.cfg
    ensures !s.finished ==> (r.0.finished <==> exists i :: 0 <= i < |signals| && signals[i].TaskResult?)
    decreases |signals|
  {
    if |signals| == 0 then (s, [])
    else
      var (s1, batch) := Process(v, s, signals[0]);
      if s1.finished then (s1, batch)
      else
        var (s2, rest) := Drive(v, s1, signals[1..]);
        (s2, batch + rest)
  }

  datatype AskError = EmptyMessage | ConversationBusy(id: string)

  /** The whole turn: the opening messages, the processor's messages, and the
      registry with the conversation released. A refused turn changes no
      registry; an accepted one leaves every other conversation as it was. */
  function Ask(v: Variant, reg: Registry, userMessage: string, conversationId: Option<string>,
               freshId: string, signals: seq<Signal>): (r: Result<(Registry, seq<Msg>), AskError>)
    ensures r == Failure(EmptyMessage) <==> IsBlank(userMessage)
    ensures !IsBlank(userMessage) && Open(reg, conversationId, freshId).Failure? ==>
              r == Failure(ConversationBusy(SessionId(conversationId, freshId)))
    ensures r.Success? ==>
              var id := SessionId(conversationId, freshId);
              && Open(reg, conversationId, freshId).Success?
              && |r.value.1| >= 2
              && r.value.1[0] == TurnStart(id)
              && r.value.1[1] == StepStart(PlanningTitle, PlanningDescription)
              && r.value.1[2..] == Drive(v, TurnStartState(), signals).1
              && r.value.0 == Close(Open(reg, conversationId, freshId).value.0, id)
              && id in r.value.0.conversations && !r.value.0.conversations[id].locked
              && r.value.0.teamsCreated == Open(reg, conversationId, freshId).value.0.teamsCreated
              && r.value.0.conversations.Keys == reg.conversations.Keys + {id}
              && (forall other | other in reg.conversations && other != id ::
                    r.value.0.conversations[other] == reg.conversations[other])
  {
    if IsBlank(userMessage) then Failure(EmptyMessage)
    else
      match Open(reg, conversationId, freshId)
      case Failure(Busy(id)) => Failure(ConversationBusy(id))
      case Success((reg1, id)) =>
        var opening := [TurnStart(id), StepStart(PlanningTitle, PlanningDescription)];
        Success((Close(reg1, id), opening + Drive(v, TurnStartState(), signals).1))
  }

  // Counting messages by kind.

  /** The three message kinds that belong to the answer, as opposed to the
      progress steps. */
  datatype AnswerKind = StartKind | EndKind | FinalKind

  /** Whether a message is of the given answer kind (`step.answer.start`,
      `step.answer.end` or `answer`). */
  predicate IsKind(m: Msg, k: AnswerKind) {
    match k
    case StartKind => m.AnswerStart?
    case EndKind => m.AnswerEnd?
    case FinalKind => m.Answer?
  }

  /** How many messages are of the given kind. */
  function CountOf(ms: seq<Msg>, k: AnswerKind): (n: nat)
    ensures n <= |ms|
  {
    if |ms| == 0 then 0
    else CountOf(ms[..|ms| - 1], k) + (if IsKind(ms[|ms| - 1], k) then 1 else 0)
  }

  lemma {:induction false} CountOfAppend(a: seq<Msg>, b: seq<Msg>, k: AnswerKind)
    ensures CountOf(a + b, k) == CountOf(a, k) + CountOf(b, k)
    decreases |b|
  {
    if |b| == 0 {
      assert a + b == a;
    } else {
      CountOfAppend(a, b[..|b| - 1], k);
      assert (a + b)[..|a + b| - 1] == a + b[..|b| - 1];
    }
  }

  lemma CountOfFour(a: seq<Msg>, b: seq<Msg>, c: seq<Msg>, d: seq<Msg>, k: AnswerKind)
    ensures CountOf(a + b + c + d, k) == CountOf(a, k) + CountOf(b, k) + CountOf(c, k) + CountOf(d, k)
  {
    CountOfAppend(a, b, k);
    CountOfAppend(a + b, c, k);
    CountOfAppend(a + b + c, d, k);
  }

  lemma {:induction false} CountOfNone(ms: seq<Msg>, k: AnswerKind)
    requires forall m | m in ms :: !IsKind(m, k)
    ensures CountOf(ms, k) == 0
    decreases |ms|
  {
    if |ms| > 0 {
      assert forall m | m in ms[..|ms| - 1] :: m in ms;
      CountOfNone(ms[..|ms| - 1], k);
    }
  }

  /** Messages of the progress steps, none of which belongs to the answer. */
  predicate ProgressOnly(ms: seq<Msg>) {
    forall m | m in ms :: m.StepStart? || m.StepStatus? || m.StepEnd? || m.FetchStart? || m.FetchEnd?
  }

  lemma ProgressCountsNoAnswer(ms: seq<Msg>)
    requires ProgressOnly(ms)
    ensures CountOf(ms, StartKind) == 0 && CountOf(ms, EndKind) == 0 && CountOf(ms, FinalKind) == 0
  {
    CountOfNone(ms, StartKind);
    CountOfNone(ms, EndKind);
    CountOfNone(ms, FinalKind);
  }

  /** The answer-related messages of one batch are exactly what the three
      answer flags record: a start when `answerStarted` is first set, an end
      when `answerCompleted` is first set, and an answer (as the last message)
      exactly for the terminal signal, which sets `finished`. */
  predicate Accounts(s: State, r: (State, seq<Msg>), terminal: bool) {
    && (s.answerStarted ==> r.0.answerStarted)
    && CountOf(r.1, StartKind) == (if r.0.answerStarted && !s.answerStarted then 1 else 0)
    && (s.answerCompleted ==> r.0.answerCompleted)
    && CountOf(r.1, EndKind) == (if r.0.answerCompleted && !s.answerCompleted then 1 else 0)
    && CountOf(r.1, FinalKind) == (if terminal then 1 else 0)
    && r.0.finished == (s.finished || terminal)
    && (terminal ==> |r.1| > 0 && r.1[|r.1| - 1].Answer?)
  }

  /** A batch of progress messages that leaves the answer flags alone. */
  lemma QuietAccounts(s: State, r: (State, seq<Msg>))
    requires ProgressOnly(r.1)
    requires r.0.answerStarted == s.answerStarted && r.0.answerCompleted == s.answerCompleted
    requires r.0.finished == s.finished
    ensures Accounts(s, r, false)
  {
    ProgressCountsNoAnswer(r.1);
  }

  lemma HandleRouteAccounts(s: State, route: Route)
    ensures Accounts(s, HandleRoute(s, route), false)
  {
    HandleRouteSpec(s, route);
    QuietAccounts(s, HandleRoute(s, route));
  }

  lemma AnnounceQueryProgress(t: Tracker, q: string)
    requires q != [] && Strip(q) == q
    ensures ProgressOnly(AnnounceQuery(t, q).1)
  {
    var (t1, isNew) := RecordQuery(t, q);
    var (t2, started) := if isNew then StartStep(t1, "Searching for " + Quoted(q) + ".") else (t1, []);
    var (t3, status) := EmitStatus(t2, q, "Searching with " + Quoted(q) + ".");
    assert AnnounceQuery(t, q).1 == started + status;
  }

  lemma HandleSearchQueryAccounts(s: State, query: string)
    ensures Accounts(s, HandleSearchQuery(s, query), false)
  {
    var q := Strip(query);
    StripIdempotent(query);
    if q != [] {
      AnnounceQueryProgress(s.search, q);
    }
    QuietAccounts(s, HandleSearchQuery(s, query));
  }

  lemma SearchQueryAccounts(v: Variant, s: State, query: string)
    ensures Accounts(s, Process(v, s, SearchQuery(query)), false)
  {
    assert Process(v, s, SearchQuery(query)) == ProcessSearch(v, s, SearchQuery(query));
    if v == AgentModule {
      HandleSearchQueryAccounts(s, query);
    } else {
      QuietAccounts(s, (s, []));
    }
  }

  lemma HandleSearchCandidatesAccounts(s: State, query: string, candidates: seq<CandidateItem>)
    ensures Accounts(s, HandleSearchCandidates(s, query, candidates), false)
  {
    var q := Strip(query);
    StripIdempotent(query);
    var (t, ms) :=
      if q != [] then
        var (t1, announced) := AnnounceQuery(s.search, q);
        var (t2, ended) := CompleteStep(t1, Some(q), FoundDescription(|candidates|, q));
        AnnounceQueryProgress(s.search, q);
        (t2, announced + ended)
      else
        CompleteStep(s.search, None, FoundDescription(|candidates|, q));
    assert HandleSearchCandidates(s, query, candidates).1 == ms + EnsureRankStarted(s.(search := t)).1;
    QuietAccounts(s, HandleSearchCandidates(s, query, candidates));
  }

  lemma HandleRankedAccounts(s: State, selections: seq<RankedItem>)
    ensures Accounts(s, HandleRanked(s, selections), false)
  {
    var r := HandleRanked(s, selections);
    var a := RankScan(selections, RankLimit(s), FetchLimit(s), s.fetchAnnounced);
    var started := EnsureRankStarted(s).1;
    var ended := if s.rankCompleted then [] else [StepEnd(s.cfg.rankTitle, "Selected " + NatToString(|a.ranked|) + " pages for deeper research.")];
    var fetch := if |a.batch| > 0 then [FetchStart(s.cfg.fetchTitle, a.batch)] else [];
    assert r.1 == started + ended + fetch;
    assert ProgressOnly(started + ended + fetch) by {
      assert ProgressOnly(started) && ProgressOnly(ended) && ProgressOnly(fetch);
    }
    QuietAccounts(s, r);
  }

  lemma HandleFetchedAccounts(s: State, results: seq<ResultItem>)
    ensures Accounts(s, HandleFetched(s, results), false)
  {
    HandleFetchedSpec(s, results);
    QuietAccounts(s, HandleFetched(s, results));
  }

  lemma HandleChunkAccounts(s: State, source: string, content: string)
    ensures Accounts(s, HandleChunk(s, source, content), false)
  {
    var r := HandleChunk(s, source, content);
    if source !in s.sources || content == [] {
      QuietAccounts(s, r);
    } else {
      var (s1, closed) := CloseCoding(s);
      var (s2, started) := EnsureAnswerStarted(s1);
      var delta := [AnswerDelta(s.cfg.answerTitle, content)];
      assert r.1 == closed + started + delta;
      ProgressCountsNoAnswer(closed);
      forall k: AnswerKind
        ensures CountOf(r.1, k) == CountOf(closed, k) + CountOf(started, k) + CountOf(delta, k)
      {
        CountOfAppend(closed, started, k);
        CountOfAppend(closed + started, delta, k);
      }
    }
  }

  lemma HandleTextAccounts(s: State, source: string, content: string)
    ensures Accounts(s, HandleText(s, source, content), false)
  {
    HandleTextSpec(s, source, content);
    QuietAccounts(s, HandleText(s, source, content));
  }

  lemma CountOfShort(xs: seq<Msg>, k: AnswerKind)
    requires |xs| <= 1
    ensures CountOf(xs, k) == if |xs| == 1 && IsKind(xs[0], k) then 1 else 0
  {
    if |xs| == 1 {
      assert xs[..0] == [];
    }
  }

  /** The count of one kind in a terminal batch: progress messages, at most
      one answer start, at most one answer end, then the answer. */
  lemma TerminalCount(ms: seq<Msg>, closed: seq<Msg>, started: seq<Msg>, ended: seq<Msg>, a: Msg, k: AnswerKind)
    requires ms == closed + started + ended + [a]
    requires ProgressOnly(closed)
    requires |started| <= 1 && forall m | m in started :: m.AnswerStart?
    requires |ended| <= 1 && forall m | m in ended :: m.AnswerEnd?
    requires a.Answer?
    ensures CountOf(ms, k) == match k
                              case StartKind => |started|
                              case EndKind => |ended|
                              case FinalKind => 1
  {
    assert CountOf(closed, k) == 0 by {
      ProgressCountsNoAnswer(closed);
    }
    assert CountOf(started, k) == if k == StartKind then |started| else 0 by {
      if |started| == 1 {
        assert started[0] in started;
      }
      CountOfShort(started, k);
    }
    assert CountOf(ended, k) == if k == EndKind then |ended| else 0 by {
      if |ended| == 1 {
        assert ended[0] in ended;
      }
      CountOfShort(ended, k);
    }
    assert CountOf([a], k) == if k == FinalKind then 1 else 0 by {
      CountOfShort([a], k);
    }
    CountOfFour(closed, started, ended, [a], k);
  }

  lemma HandleTerminalAccounts(s: State, history: seq<HistoryItem>)
    ensures Accounts(s, HandleTerminal(s, history), true)
  {
    var r := HandleTerminal(s, history);
    HandleTerminalSpec(s, history);
    var closed := if s.codingOpen then [StepEnd(s.cfg.codingTitle, CodingDoneDescription)] else [];
    var started := if s.answerStarted then [] else [AnswerStart(s.cfg.answerTitle, s.answerDescription)];
    var ended := if s.answerCompleted then [] else [AnswerEnd(s.cfg.answerTitle)];
    var a := r.1[|r.1| - 1];
    TerminalCount(r.1, closed, started, ended, a, StartKind);
    TerminalCount(r.1, closed, started, ended, a, EndKind);
    TerminalCount(r.1, closed, started, ended, a, FinalKind);
  }

  /** Every signal's batch accounts for the answer flags. */
  lemma ProcessAccounts(v: Variant, s: State, signal: Signal)
    ensures Accounts(s, Process(v, s, signal), signal.TaskResult?)
  {
    match signal
    case RoutePlan(route) =>
      RouteDispatch(v, s, route);
      HandleRouteAccounts(s, route);
    case Plan(plan) =>
      PlanDispatch(v, s, plan);
      HandlePlanSpec(s, plan);
      QuietAccounts(s, HandlePlan(s, plan));
    case SearchQuery(query) => SearchQueryAccounts(v, s, query);
    case SearchCandidates(query, candidates) =>
      SearchCandidatesDispatch(v, s, query, candidates);
      HandleSearchCandidatesAccounts(s, query, candidates);
    case RankedResults(selections) =>
      RankedDispatch(v, s, selections);
      HandleRankedAccounts(s, selections);
    case FetchedResults(results) =>
      FetchedDispatch(v, s, results);
      HandleFetchedAccounts(s, results);
    case StreamingChunk(source, content) =>
      ChunkDispatch(v, s, source, content);
      HandleChunkAccounts(s, source, content);
    case TextMessage(source, content) =>
      TextDispatch(v, s, source, content);
      HandleTextAccounts(s, source, content);
    case TaskResult(history) =>
      TerminalDispatch(v, s, history);
      HandleTerminalAccounts(s, history);
    case Unhandled => QuietAccounts(s, Process(v, s, signal));
  }

  /** Whether some signal ends the run. */
  predicate HasTerminal(signals: seq<Signal>) {
    exists i :: 0 <= i < |signals| && signals[i].TaskResult?
  }

  lemma HasTerminalCons(signals: seq<Signal>)
    requires |signals| > 0
    ensures HasTerminal(signals) <==> signals[0].TaskResult? || HasTerminal(signals[1..])
  {
    if HasTerminal(signals) && !signals[0].TaskResult? {
      var i :| 0 <= i < |signals| && signals[i].TaskResult?;
      assert signals[1..][i - 1].TaskResult?;
    }
    if HasTerminal(signals[1..]) {
      var i :| 0 <= i < |signals[1..]| && signals[1..][i].TaskResult?;
      assert signals[i + 1].TaskResult?;
    }
  }

  /** What a run from an unfinished processor accounts for: it finishes
      exactly when `terminal`, then with one answer as its last message and
      otherwise with none; each answer flag is set at most once and its
      message appears exactly when it is first set. */
  predicate RunAccounts(s: State, r: (State, seq<Msg>), terminal: bool) {
    && (r.0.finished <==> terminal)
    && CountOf(r.1, FinalKind) == (if terminal then 1 else 0)
    && (terminal ==> |r.1| > 0 && r.1[|r.1| - 1].Answer?)
    && (s.answerStarted ==> r.0.answerStarted)
    && CountOf(r.1, StartKind) == (if r.0.answerStarted && !s.answerStarted then 1 else 0)
    && (s.answerCompleted ==> r.0.answerCompleted)
    && CountOf(r.1, EndKind) == (if r.0.answerCompleted && !s.answerCompleted then 1 else 0)
  }

  /** A quiet first batch followed by a run is a run. */
  lemma ComposeRun(s: State, s1: State, batch: seq<Msg>, r: (State, seq<Msg>), terminal: bool)
    requires Accounts(s, (s1, batch), false) && RunAccounts(s1, r, terminal)
    ensures RunAccounts(s, (r.0, batch + r.1), terminal)
  {
    CountOfAppend(batch, r.1, FinalKind);
    CountOfAppend(batch, r.1, StartKind);
    CountOfAppend(batch, r.1, EndKind);
    if terminal {
      assert (batch + r.1)[|batch + r.1| - 1] == r.1[|r.1| - 1];
    }
  }

  lemma {:induction false} DriveRun(v: Variant, s: State, signals: seq<Signal>)
    requires !s.finished
    ensures RunAccounts(s, Drive(v, s, signals), HasTerminal(signals))
    decreases |signals|
  {
    if |signals| > 0 {
      var (s1, batch) := Process(v, s, signals[0]);
      ProcessAccounts(v, s, signals[0]);
      HasTerminalCons(signals);
      if !s1.finished {
        DriveRun(v, s1, signals[1..]);
        ComposeRun(s, s1, batch, Drive(v, s1, signals[1..]), HasTerminal(signals[1..]));
      }
    }
  }

  /** Over a whole run from an unfinished processor: the turn finishes
      exactly when a terminal signal arrives; it then carries exactly one
      answer, as its last message, and otherwise none; the answer start and
      the answer end appear at most once each, exactly when their flags are
      first set. */
  lemma DriveAccounts(v: Variant, s: State, signals: seq<Signal>)
    requires !s.finished
    ensures var r := Drive(v, s, signals);
            && (r.0.finished <==> HasTerminal(signals))
            && CountOf(r.1, FinalKind) == (if r.0.finished then 1 else 0)
            && (r.0.finished ==> |r.1| > 0 && r.1[|r.1| - 1].Answer?)
            && (s.answerStarted ==> r.0.answerStarted)
            && CountOf(r.1, StartKind) == (if r.0.answerStarted && !s.answerStarted then 1 else 0)
            && (s.answerCompleted ==> r.0.answerCompleted)
            && CountOf(r.1, EndKind) == (if r.0.answerCompleted && !s.answerCompleted then 1 else 0)
  {
    DriveRun(v, s, signals);
  }

  /** Signals after the one that finishes the turn are never processed. */
  lemma {:induction false} DriveStopsAtFinish(v: Variant, s: State, signals: seq<Signal>, later: seq<Signal>)
    requires !s.finished && Drive(v, s, signals).0.finished
    ensures Drive(v, s, signals + later) == Drive(v, s, signals)
    decreases |signals|
  {
    assert |signals| > 0;
    assert (signals + later)[0] == signals[0];
    var s1 := Process(v, s, signals[0]).0;
    if !s1.finished {
      assert (signals + later)[1..] == signals[1..] + later;
      DriveStopsAtFinish(v, s1, signals[1..], later);
    }
  }

  /** A turn on a non-blank message whose conversation is free goes ahead.
      It streams at most one answer, and exactly one (as its last message)
      when the pipeline delivers its terminal result; the answer start and
      end appear at most once each. */
  lemma AskAnswerOnce(v: Variant, reg: Registry, userMessage: string, conversationId: Option<string>,
                      freshId: string, signals: seq<Signal>)
    requires !IsBlank(userMessage) && Open(reg, conversationId, freshId).Success?
    ensures Ask(v, reg, userMessage, conversationId, freshId, signals).Success?
    ensures var ms := Ask(v, reg, userMessage, conversationId, freshId, signals).value.1;
            && CountOf(ms, FinalKind) == (if HasTerminal(signals) then 1 else 0)
            && (HasTerminal(signals) ==> ms[|ms| - 1].Answer?)
            && CountOf(ms, StartKind) <= 1
            && CountOf(ms, EndKind) <= 1
  {
    var ms := Ask(v, reg, userMessage, conversationId, freshId, signals).value.1;
    var driven := Drive(v, TurnStartState(), signals).1;
    DriveRun(v, TurnStartState(), signals);
    OpeningCountsNothing(ms, driven);
  }

  /** The two opening messages of a turn belong to no answer kind. */
  lemma OpeningCountsNothing(ms: seq<Msg>, driven: seq<Msg>)
    requires |ms| >= 2 && ms[0].TurnStart? && ms[1].StepStart? && ms[2..] == driven
    ensures forall k: AnswerKind :: CountOf(ms, k) == CountOf(driven, k)
    ensures |driven| > 0 ==> ms[|ms| - 1] == driven[|driven| - 1]
  {
    assert ms == ms[..2] + driven;
    forall k: AnswerKind
      ensures CountOf(ms, k) == CountOf(driven, k)
    {
      CountOfNone(ms[..2], k);
      CountOfAppend(ms[..2], driven, k);
    }
  }

  /** A turn releases its conversation: the next turn on the same id is not
      refused and keeps the conversation's team. */
  lemma ConsecutiveTurns(v: Variant, reg: Registry, m1: string, m2: string, conversationId: Option<string>,
                         f1: string, f2: string, sig1: seq<Signal>, sig2: seq<Signal>)
    requires Ask(v, reg, m1, conversationId, f1, sig1).Success?
    requires conversationId.Some? && !IsBlank(conversationId.value) && !IsBlank(m2)
    ensures var reg1 := Ask(v, reg, m1, conversationId, f1, sig1).value.0;
            var id := Strip(conversationId.value);
            && Ask(v, reg1, m2, conversationId, f2, sig2).Success?
            && Ask(v, reg1, m2, conversationId, f2, sig2).value.0.conversations[id].team
                 == reg1.conversations[id].team
  {
  }

  // The quick-answer turn end to end.

  const QuickSignals: seq<Signal> := [
    RoutePlan(QuickAnswer),
    StreamingChunk(QuickAnswerAgent, "Hello "),
    StreamingChunk(QuickAnswerAgent, "world TERMINATE"),
    TaskResult([])]

  lemma QuickAnswerText()
    ensures FinalAnswer(["Hello ", "world TERMINATE"], [], [], {QuickAnswerAgent}) == "Hello world"
  {
    var parts := ["Hello ", "world TERMINATE"];
    assert Concat(parts) == "Hello world" + " " + Sentinel + "" by {
      assert parts[..1][..0] == [];
      assert Concat(parts) == "Hello " + "world TERMINATE";
    }
    assert StripTermination(Concat(parts)) == "Hello world" by {
      StripTerminationRoundTrip("Hello world", " ", "");
    }
  }

  const QuickMessages: seq<Msg> := [
    TurnStart("dummy-conv"), StepStart(PlanningTitle, PlanningDescription),
    StepEnd(PlanningTitle, QuickAnswerEnd),
    AnswerStart(AnswerTitle, Some(QuickAnswerDescription)), AnswerDelta(AnswerTitle, "Hello "),
    AnswerDelta(AnswerTitle, "world TERMINATE"),
    AnswerEnd(AnswerTitle), Answer("Hello world", None)]

  lemma QuickMessagesTags()
    ensures TypeTags(QuickMessages) == ["turn.start", "step.start", "step.end", "step.answer.start",
                                        "step.answer.delta", "step.answer.delta", "step.answer.end", "answer"]
  {
    var tags := TypeTags(QuickMessages);
    assert |tags| == 8;
    forall i | 0 <= i < 8
      ensures tags[i] == ["turn.start", "step.start", "step.end", "step.answer.start",
                          "step.answer.delta", "step.answer.delta", "step.answer.end", "answer"][i]
    {
      assert tags[i] == TypeTag(QuickMessages[i]);
    }
  }

  /** The processor once the quick-answer route is taken and nothing streamed. */
  predicate QuickReady(s: State) {
    && s.sources == {QuickAnswerAgent} && s.answerDescription == Some(QuickAnswerDescription)
    && s.cfg.answerTitle == AnswerTitle && !s.codingOpen && !s.finished
    && !s.answerStarted && !s.answerCompleted
    && s.answerChunks == [] && s.fallbackSegments == [] && s.citations == []
  }

  lemma QuickAnswerLast(s: State)
    requires s.answerStarted && s.answerChunks == ["Hello "]
    requires QuickReady(s.(answerStarted := false, answerChunks := []))
    ensures Drive(AgentModule, s, QuickSignals[2..]).1 == QuickMessages[5..]
  {
    ChunkDispatch(AgentModule, s, QuickAnswerAgent, "world TERMINATE");
    HandleChunkSpec(s, QuickAnswerAgent, "world TERMINATE");
    var (s3, b3) := Process(AgentModule, s, QuickSignals[2]);
    assert b3 == [AnswerDelta(AnswerTitle, "world TERMINATE")];
    QuickAnswerFinish(s3);
    assert QuickSignals[2..][1..] == QuickSignals[3..];
  }

  lemma QuickAnswerFinish(s: State)
    requires s.answerStarted && s.answerChunks == ["Hello ", "world TERMINATE"]
    requires QuickReady(s.(answerStarted := false, answerChunks := []))
    ensures Drive(AgentModule, s, QuickSignals[3..]).1 == QuickMessages[6..]
  {
    TerminalDispatch(AgentModule, s, []);
    HandleTerminalSpec(s, []);
    QuickAnswerText();
    assert QuickSignals[3..][1..] == [];
  }

  lemma QuickAnswerStreams(s: State)
    requires QuickReady(s)
    ensures Drive(AgentModule, s, QuickSignals[1..]).1 == QuickMessages[3..]
  {
    StreamingChunkSpec(AgentModule, s, QuickAnswerAgent, "Hello ");
    var (s2, b2) := Process(AgentModule, s, QuickSignals[1]);
    assert b2 == [AnswerStart(AnswerTitle, Some(QuickAnswerDescription)), AnswerDelta(AnswerTitle, "Hello ")];
    QuickAnswerLast(s2);
    assert QuickSignals[1..][1..] == QuickSignals[2..];
  }

  lemma QuickAnswerDrive()
    ensures Drive(AgentModule, TurnStartState(), QuickSignals).1 == QuickMessages[2..]
  {
    var s0 := TurnStartState();
    RouteDecision(AgentModule, s0, QuickAnswer);
    var (s1, b1) := Process(AgentModule, s0, QuickSignals[0]);
    assert b1 == [StepEnd(PlanningTitle, QuickAnswerEnd)];
    QuickAnswerStreams(s1);
  }

  lemma QuickAnswerRun(reg: Registry)
    requires "dummy-conv" !in reg.conversations
    ensures var r := Ask(AgentModule, reg, "hello", Some("dummy-conv"), "unused", QuickSignals);
            r.Success? && r.value.1 == QuickMessages
  {
    StripOfTrimmed("dummy-conv");
    assert !IsBlank("hello") by { assert !IsSpace("hello"[0]); }
    assert SessionId(Some("dummy-conv"), "unused") == "dummy-conv";
    QuickAnswerDrive();
    var ms := Ask(AgentModule, reg, "hello", Some("dummy-conv"), "unused", QuickSignals).value.1;
    assert ms == ms[..2] + ms[2..];
  }

  /** A quick-answer turn: the route ends planning, two chunks stream as two
      deltas after one answer start carrying the quick-answer description,
      and the terminal result closes the answer step and carries the chunks
      joined with the sentinel removed. */
  lemma QuickAnswerScenario(reg: Registry)
    requires "dummy-conv" !in reg.conversations
    ensures var r := Ask(AgentModule, reg, "hello", Some("dummy-conv"), "unused", QuickSignals);
            && r.Success?
            && TypeTags(r.value.1) == ["turn.start", "step.start", "step.end", "step.answer.start",
                                       "step.answer.delta", "step.answer.delta", "step.answer.end", "answer"]
            && r.value.1[0] == TurnStart("dummy-conv")
            && r.value.1[3] == AnswerStart(AnswerTitle, Some(QuickAnswerDescription))
            && r.value.1[7] == Answer("Hello world", None)
  {
    QuickAnswerRun(reg);
    QuickMessagesTags();
  }
}
