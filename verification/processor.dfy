/** `EventProcessor`: the per-turn state machine that turns pipeline signals
    into progress messages. The reflection-based handler lookup of the source
    becomes the closed `Signal` datatype and the `match` in `Process`; each
    handler is a pure function from the state to the new state and the
    messages it emits, in emission order. */
module Processor {
  import opened Wrappers
  import opened Text
  import opened Messages
  import opened Tracker
  import opened Selection

  /** The route chosen by the router agent (a closed literal in the source). */
  datatype Route = QuickAnswer | DeepDive | Coding

  /** The deep-dive budget. The source keeps the integers as given and clamps
      them at zero where they are used. */
  datatype ResearchPlan = ResearchPlan(queries: seq<string>, rankTopK: int, fetchPageLimit: int)

  /** One entry of the finished run's message history: a text message with
      its source, or any other message (ignored by the answer fallback). */
  datatype HistoryItem = TextItem(source: string, content: string) | OtherItem

  /** The pipeline signals the processor has a handler for; `Unhandled`
      stands for every other signal, which the processor ignores. */
  datatype Signal =
    | RoutePlan(route: Route)
    | Plan(plan: ResearchPlan)
    | SearchQuery(query: string)
    | SearchCandidates(candidateQuery: string, candidates: seq<CandidateItem>)
    | RankedResults(selections: seq<RankedItem>)
    | FetchedResults(results: seq<ResultItem>)
    | StreamingChunk(chunkSource: string, chunk: string)
    | TextMessage(textSource: string, text: string)
    | TaskResult(history: seq<HistoryItem>)
    | Unhandled

  /** The two copies of the processor: `workflow.py` has no handler for the
      search-query signal, `agent.py` has one. */
  datatype Variant = AgentModule | WorkflowModule

  /** The step titles and the search preparation text the processor is
      constructed with. */
  datatype Config = Config(
    planningTitle: string,
    searchPrepareDescription: string,
    rankTitle: string,
    fetchTitle: string,
    codingTitle: string,
    answerTitle: string)

  datatype State = State(
    cfg: Config,
    planningOpen: bool,
    search: Tracker,
    rankStarted: bool,
    rankCompleted: bool,
    fetchAnnounced: set<string>,
    answerChunks: seq<string>,
    fallbackSegments: seq<string>,
    citations: seq<Page>,
    plan: Option<ResearchPlan>,
    answerDescription: Option<string>,
    answerStarted: bool,
    answerCompleted: bool,
    codingOpen: bool,
    sources: set<string>,
    finished: bool)

  const ReportAgent: string := "report_agent"
  const QuickAnswerAgent: string := "quick_answer_agent"
  const CodingAgent: string := "coding_agent"

  /** The agent whose output is the answer on each route. */
  function AnswerSource(route: Route): string {
    match route
    case QuickAnswer => QuickAnswerAgent
    case Coding => CodingAgent
    case DeepDive => ReportAgent
  }

  const QuickAnswerEnd: string := "Quick answer selected \U{2013} responding directly using existing knowledge."
  const QuickAnswerDescription: string := "Drafting a direct reply without additional research."
  const CodingEnd: string := "Coding support engaged \U{2013} focusing on implementation guidance."
  const CodingAnswerDescription: string := "Producing code-focused explanations and solutions."
  const CodingStartDescription: string := "Coding agent is thinking through the implementation details."
  const CodingDoneDescription: string := "Coding approach finalized \U{2013} composing response."
  const DeepDiveEnd: string := "Deep dive research selected \U{2013} gathering sources for a comprehensive response."
  const DeepDiveAnswerDescription: string := "Synthesizing findings from external research."
  const RankStartDescription: string := "Prioritizing pages to review in depth."

  /** A freshly constructed processor: nothing open, every answer agent
      accepted, the planning step not yet marked active. */
  function Init(cfg: Config, search: Tracker): (s: State)
    ensures s.sources == {ReportAgent, QuickAnswerAgent, CodingAgent}
    ensures !s.finished && !s.planningOpen && !s.answerStarted && !s.answerCompleted
    ensures !s.rankStarted && !s.rankCompleted && !s.codingOpen && s.plan.None?
    ensures s.fetchAnnounced == {} && s.answerChunks == [] && s.fallbackSegments == [] && s.citations == []
  {
    State(cfg, false, search, false, false, {}, [], [], [], None, None, false, false, false,
          {ReportAgent, QuickAnswerAgent, CodingAgent}, false)
  }

  /** `max(0, n)`. */
  function Clamp(n: int): nat {
    if n < 0 then 0 else n
  }

  /** The rank cap in force: none without a plan. */
  function RankLimit(s: State): Option<nat> {
    if s.plan.Some? then Some(Clamp(s.plan.value.rankTopK)) else None
  }

  /** The fetch cap in force: none without a plan. */
  function FetchLimit(s: State): Option<nat> {
    if s.plan.Some? then Some(Clamp(s.plan.value.fetchPageLimit)) else None
  }

  function Quoted(q: string): string {
    "\"" + q + "\""
  }

  // Helpers shared by several handlers.

  /** `_ensure_rank_step_started`. */
  function EnsureRankStarted(s: State): (State, seq<Msg>) {
    if s.rankStarted then (s, [])
    else (s.(rankStarted := true), [StepStart(s.cfg.rankTitle, RankStartDescription)])
  }

  /** `_ensure_answer_step_started`. */
  function EnsureAnswerStarted(s: State): (State, seq<Msg>) {
    if s.answerStarted then (s, [])
    else (s.(answerStarted := true), [AnswerStart(s.cfg.answerTitle, s.answerDescription)])
  }

  /** Closes the coding step if it is open. */
  function CloseCoding(s: State): (State, seq<Msg>) {
    if s.codingOpen then (s.(codingOpen := false), [StepEnd(s.cfg.codingTitle, CodingDoneDescription)])
    else (s, [])
  }

  // The handlers.

  /** The description the planning step is closed with on each route. */
  function RouteEnd(route: Route): string {
    match route
    case QuickAnswer => QuickAnswerEnd
    case Coding => CodingEnd
    case DeepDive => DeepDiveEnd
  }

  /** The description the answer step will be opened with on each route. */
  function RouteAnswerDescription(route: Route): string {
    match route
    case QuickAnswer => QuickAnswerDescription
    case Coding => CodingAnswerDescription
    case DeepDive => DeepDiveAnswerDescription
  }

  /** The step a route opens: the coding step for coding, the search step
      for deep dive, each only when it is not open yet. */
  function RouteOpening(s: State, route: Route): (r: (State, seq<Msg>))
    ensures r.0 == s.(codingOpen := r.0.codingOpen, search := r.0.search)
  {
    match route
    case QuickAnswer => (s, [])
    case Coding =>
      if !s.codingOpen then (s.(codingOpen := true), [StepStart(s.cfg.codingTitle, CodingStartDescription)])
      else (s, [])
    case DeepDive =>
      var (t, started) := StartStep(s.search, s.cfg.searchPrepareDescription);
      (s.(search := t), started)
  }

  /** Route decision: only the route's answer agent stays accepted and the
      planning step is closed. */
  function HandleRoute(s: State, route: Route): (r: (State, seq<Msg>))
    ensures r.0.cfg == s.cfg && r.0.finished == s.finished
    ensures r.0.sources == {AnswerSource(route)} && !r.0.planningOpen
  {
    var s0 := s.(sources := {AnswerSource(route)}, answerDescription := Some(RouteAnswerDescription(route)));
    var (s1, ms) := RouteOpening(s0, route);
    if s1.planningOpen then
      (s1.(planningOpen := false), ms + [StepEnd(s.cfg.planningTitle, RouteEnd(route))])
    else (s1, ms)
  }

  /** Research plan: stored, nothing emitted. */
  function HandlePlan(s: State, plan: ResearchPlan): (r: (State, seq<Msg>))
    ensures r.0.cfg == s.cfg && r.0.finished == s.finished
    ensures r.1 == [] && r.0.plan == Some(plan)
  {
    (s.(plan := Some(plan)), [])
  }

  /** Opens the search step for a query seen for the first time and
      announces it once; shared by the query and candidates handlers. */
  function AnnounceQuery(t: Tracker, query: string): (Tracker, seq<Msg>)
    requires query != [] && Strip(query) == query
  {
    var (t1, isNew) := RecordQuery(t, query);
    var (t2, started) := if isNew then StartStep(t1, "Searching for " + Quoted(query) + ".") else (t1, []);
    var (t3, status) := EmitStatus(t2, query, "Searching with " + Quoted(query) + ".");
    (t3, started + status)
  }

  /** Search query: only the search tracker changes; a blank query changes
      nothing. */
  function HandleSearchQuery(s: State, query: string): (r: (State, seq<Msg>))
    ensures r.0 == s.(search := r.0.search)
    ensures IsBlank(query) ==> r == (s, [])
  {
    var q := Strip(query);
    StripIdempotent(query);
    if q == [] then (s, [])
    else
      var (t, ms) := AnnounceQuery(s.search, q);
      (s.(search := t), ms)
  }

  /** Description closing a search step once its candidates arrive. */
  function FoundDescription(count: nat, q: string): string {
    if q != [] then "Found " + NatToString(count) + " candidates for " + Quoted(q) + "."
    else "Found " + NatToString(count) + " candidates without a specific query."
  }

  /** Search candidates: only the search tracker and the rank-start flag
      change, and the rank step is started afterwards. */
  function HandleSearchCandidates(s: State, query: string, candidates: seq<CandidateItem>): (r: (State, seq<Msg>))
    ensures r.0 == s.(search := r.0.search, rankStarted := true)
  {
    var q := Strip(query);
    StripIdempotent(query);
    var (t, ms) :=
      if q != [] then
        var (t1, announced) := AnnounceQuery(s.search, q);
        var (t2, ended) := CompleteStep(t1, Some(q), FoundDescription(|candidates|, q));
        (t2, announced + ended)
      else
        CompleteStep(s.search, None, FoundDescription(|candidates|, q));
    var (s1, rank) := EnsureRankStarted(s.(search := t));
    (s1, ms + rank)
  }

  /** Ranked selections: the rank step is started and completed afterwards,
      and the turn's fetch announcements only grow. */
  function HandleRanked(s: State, selections: seq<RankedItem>): (r: (State, seq<Msg>))
    ensures r.0.cfg == s.cfg && r.0.finished == s.finished
    ensures r.0.rankStarted && r.0.rankCompleted && s.fetchAnnounced <= r.0.fetchAnnounced
  {
    var (s1, started) := EnsureRankStarted(s);
    var a := RankScan(selections, RankLimit(s), FetchLimit(s), s.fetchAnnounced);
    RankScanSpec(selections, RankLimit(s), FetchLimit(s), s.fetchAnnounced);
    var s2 := s1.(fetchAnnounced := a.announced);
    var (s3, ended) :=
      if !s2.rankCompleted then
        (s2.(rankCompleted := true),
         [StepEnd(s.cfg.rankTitle, "Selected " + NatToString(|a.ranked|) + " pages for deeper research.")])
      else (s2, []);
    var fetch := if |a.batch| > 0 then [FetchStart(s.cfg.fetchTitle, a.batch)] else [];
    (s3, started + ended + fetch)
  }

  /** Fetched results: one fetch end, whose pages become the citations. */
  function HandleFetched(s: State, results: seq<ResultItem>): (r: (State, seq<Msg>))
    ensures |r.1| == 1 && r.1[0].FetchEnd? && r.0 == s.(citations := r.1[0].pages)
  {
    var pages := FetchScan(results, FetchLimit(s)).pages;
    (s.(citations := pages), [FetchEnd(s.cfg.fetchTitle, pages)])
  }

  /** Streaming chunk: something is emitted exactly when the chunk is
      non-empty and from an accepted source. */
  function HandleChunk(s: State, source: string, content: string): (r: (State, seq<Msg>))
    ensures r.0.cfg == s.cfg && r.0.finished == s.finished
    ensures r.1 == [] <==> source !in s.sources || content == []
  {
    if source !in s.sources || content == [] then (s, [])
    else
      var (s1, closed) := CloseCoding(s);
      var (s2, started) := EnsureAnswerStarted(s1);
      (s2.(answerChunks := s2.answerChunks + [content]),
       closed + started + [AnswerDelta(s.cfg.answerTitle, content)])
  }

  /** Text message: nothing is emitted. */
  function HandleText(s: State, source: string, content: string): (r: (State, seq<Msg>))
    ensures r.0.cfg == s.cfg && r.0.finished == s.finished
    ensures r.1 == []
  {
    if source in s.sources && content != [] then (s.(fallbackSegments := s.fallbackSegments + [content]), [])
    else (s, [])
  }

  /** The contents of the history's text messages from accepted sources. */
  function HistoryTexts(history: seq<HistoryItem>, sources: set<string>): seq<string> {
    if |history| == 0 then []
    else
      var h := history[|history| - 1];
      HistoryTexts(history[..|history| - 1], sources)
        + (if h.TextItem? && h.source in sources then [h.content] else [])
  }

  /** The answer text: the streamed chunks, else the fallback segments, else
      the accepted texts of the history, each joined and stripped of the
      termination sentinel. */
  function FinalAnswer(chunks: seq<string>, fallback: seq<string>, history: seq<HistoryItem>, sources: set<string>): string {
    var streamed := StripTermination(Concat(chunks));
    if streamed != [] then streamed
    else
      var buffered := if |fallback| > 0 then StripTermination(Concat(fallback)) else [];
      if buffered != [] then buffered
      else StripTermination(Concat(HistoryTexts(history, sources)))
  }

  /** Terminal result: the turn is finished, with the answer step opened and
      closed. */
  function HandleTerminal(s: State, history: seq<HistoryItem>): (r: (State, seq<Msg>))
    ensures r.0.cfg == s.cfg && r.0.finished
    ensures r.0.answerStarted && r.0.answerCompleted && !r.0.codingOpen
  {
    var (s1, closed) := CloseCoding(s);
    var answer := FinalAnswer(s1.answerChunks, s1.fallbackSegments, history, s1.sources);
    var (s2, started) := EnsureAnswerStarted(s1);
    var (s3, ended) :=
      if !s2.answerCompleted then (s2.(answerCompleted := true), [AnswerEnd(s.cfg.answerTitle)])
      else (s2, []);
    var citations := if |s3.citations| == 0 then None else Some(s3.citations);
    (s3.(finished := true), closed + started + ended + [Answer(answer, citations)])
  }

  /** The two search signals, dispatched on their own so that laws about the other signals need not unfold them. */
  function ProcessSearch(v: Variant, s: State, signal: Signal): (r: (State, seq<Msg>))
    ensures r.0.cfg == s.cfg && r.0.finished == s.finished
    ensures v == WorkflowModule && signal.SearchQuery? ==> r == (s, [])
  {
    match signal
    case SearchQuery(query) => if v == AgentModule then HandleSearchQuery(s, query) else (s, [])
    case SearchCandidates(query, candidates) => HandleSearchCandidates(s, query, candidates)
    case _ => (s, [])
  }

  /** `process_event`: dispatch on the signal kind. The configuration never
      changes, only the terminal result finishes the turn, and a signal
      without a handler changes nothing. */
  function Process(v: Variant, s: State, signal: Signal): (r: (State, seq<Msg>))
    ensures r.0.cfg == s.cfg
    ensures r.0.finished == (s.finished || signal.TaskResult?)
    ensures signal.Unhandled? ==> r == (s, [])
  {
    match signal
    case RoutePlan(route) => HandleRoute(s, route)
    case Plan(plan) => HandlePlan(s, plan)
    case SearchQuery(_) => ProcessSearch(v, s, signal)
    case SearchCandidates(_, _) => ProcessSearch(v, s, signal)
    case RankedResults(selections) => HandleRanked(s, selections)
    case FetchedResults(results) => HandleFetched(s, results)
    case StreamingChunk(source, content) => HandleChunk(s, source, content)
    case TextMessage(source, content) => HandleText(s, source, content)
    case TaskResult(history) => HandleTerminal(s, history)
    case Unhandled => (s, [])
  }
}
