/** What each handler of the event processor promises, stated against the
    state before the signal: which messages come out, in which order, and
    what the state remembers afterwards. */
module ProcessorLaws {
  import opened Wrappers
  import opened Text
  import opened Messages
  import opened Tracker
  import opened Selection
  import opened Processor

  /** Route decision: the answer source becomes the route's agent; the
      coding route opens the coding step unless it is open, the deep-dive
      route opens the search step unless it is open; the planning step is
      closed (with the route's description, as the last message) exactly
      when it was open. Nothing else changes. */
  lemma RouteDecision(v: Variant, s: State, route: Route)
    ensures var r := Process(v, s, RoutePlan(route));
            var opening :=
              match route
              case QuickAnswer => []
              case Coding => if s.codingOpen then [] else [StepStart(s.cfg.codingTitle, CodingStartDescription)]
              case DeepDive => if s.search.open then [] else [StepStart(s.search.title, s.cfg.searchPrepareDescription)];
            && r.0.sources == {AnswerSource(route)}
            && r.0.answerDescription == Some(RouteAnswerDescription(route))
            && !r.0.planningOpen
            && r.0.codingOpen == (route == Coding || s.codingOpen)
            && r.0.search == (if route == DeepDive then s.search.(open := true) else s.search)
            && r.1 == opening + (if s.planningOpen then [StepEnd(s.cfg.planningTitle, RouteEnd(route))] else [])
            && r.0 == s.(sources := r.0.sources, answerDescription := r.0.answerDescription,
                         planningOpen := false, codingOpen := r.0.codingOpen, search := r.0.search)
  {
    RouteDispatch(v, s, route);
    HandleRouteSpec(s, route);
  }

  lemma RouteDispatch(v: Variant, s: State, route: Route)
    ensures Process(v, s, RoutePlan(route)) == HandleRoute(s, route)
  {
  }

  lemma HandleRouteSpec(s: State, route: Route)
    ensures var r := HandleRoute(s, route);
            var opening :=
              match route
              case QuickAnswer => []
              case Coding => if s.codingOpen then [] else [StepStart(s.cfg.codingTitle, CodingStartDescription)]
              case DeepDive => if s.search.open then [] else [StepStart(s.search.title, s.cfg.searchPrepareDescription)];
            && r.0.sources == {AnswerSource(route)}
            && r.0.answerDescription == Some(RouteAnswerDescription(route))
            && !r.0.planningOpen
            && r.0.codingOpen == (route == Coding || s.codingOpen)
            && r.0.search == (if route == DeepDive then s.search.(open := true) else s.search)
            && r.1 == opening + (if s.planningOpen then [StepEnd(s.cfg.planningTitle, RouteEnd(route))] else [])
            && r.0 == s.(sources := r.0.sources, answerDescription := r.0.answerDescription,
                         planningOpen := false, codingOpen := r.0.codingOpen, search := r.0.search)
  {
    match route
    case QuickAnswer =>
    case Coding =>
    case DeepDive =>
      assert StartStep(s.search, s.cfg.searchPrepareDescription).0 == s.search.(open := true);
  }

  /** Before any route decision all three answer agents are accepted. */
  lemma AllSourcesBeforeRoute(cfg: Config, t: Tracker)
    ensures forall route :: AnswerSource(route) in Init(cfg, t).sources
  {
    forall route ensures AnswerSource(route) in Init(cfg, t).sources {
      match route
      case QuickAnswer =>
      case Coding =>
      case DeepDive =>
    }
  }

  /** The research plan is stored and nothing is emitted. */
  lemma PlanStored(v: Variant, s: State, plan: ResearchPlan)
    ensures Process(v, s, Plan(plan)) == (s.(plan := Some(plan)), [])
    ensures RankLimit(Process(v, s, Plan(plan)).0) == Some(Clamp(plan.rankTopK))
    ensures FetchLimit(Process(v, s, Plan(plan)).0) == Some(Clamp(plan.fetchPageLimit))
  {
    PlanDispatch(v, s, plan);
    HandlePlanSpec(s, plan);
  }

  lemma PlanDispatch(v: Variant, s: State, plan: ResearchPlan)
    ensures Process(v, s, Plan(plan)) == HandlePlan(s, plan)
  {
  }

  lemma HandlePlanSpec(s: State, plan: ResearchPlan)
    ensures HandlePlan(s, plan) == (s.(plan := Some(plan)), [])
    ensures RankLimit(HandlePlan(s, plan).0) == Some(Clamp(plan.rankTopK))
    ensures FetchLimit(HandlePlan(s, plan).0) == Some(Clamp(plan.fetchPageLimit))
  {
  }

  /** The messages announcing a query on the search step: a start when the
      query is new and the step closed, then a status line when the query
      was not announced yet. */
  function QueryMessages(t: Tracker, q: string): seq<Msg> {
    (if q !in t.started && !t.open then [StepStart(t.title, "Searching for " + Quoted(q) + ".")] else [])
    + (if q !in t.announced then [StepStatus(t.title, "Searching with " + Quoted(q) + ".")] else [])
  }

  /** The messages of a search-candidates signal before the rank start: for
      a non-blank query its announcement and an end unless it was completed;
      for a blank query a keyless end unless one was already emitted. */
  function CandidatesMessages(t: Tracker, q: string, count: nat): seq<Msg> {
    if q != [] then
      QueryMessages(t, q) + (if q !in t.completed then [StepEnd(t.title, FoundDescription(count, q))] else [])
    else if t.completedWithoutQuery then []
    else [StepEnd(t.title, FoundDescription(count, q))]
  }

  /** The search tracker after a search-candidates signal. */
  function CandidatesTracker(t: Tracker, q: string): Tracker {
    if q != [] then
      t.(started := t.started + {q}, announced := t.announced + {q}, completed := t.completed + {q},
         open := q in t.completed && (t.open || q !in t.started))
    else if t.completedWithoutQuery then t
    else t.(completedWithoutQuery := true, open := false)
  }

  /** Announcing a stripped, non-empty query: the start and status lines in
      that order, each only once; the query is recorded and announced, and
      the step is open afterwards if it was or if the query was new. */
  lemma AnnounceQuerySpec(t: Tracker, q: string)
    requires q != [] && Strip(q) == q
    ensures var r := AnnounceQuery(t, q);
            && r.1 == QueryMessages(t, q)
            && r.0 == t.(started := t.started + {q}, announced := t.announced + {q},
                         open := t.open || q !in t.started)
  {
    assert !IsBlank(q);
  }

  lemma HandleSearchQuerySpec(s: State, query: string)
    requires !IsBlank(query)
    ensures var r := HandleSearchQuery(s, query);
            var q := Strip(query);
            var t := s.search;
            && r.1 == QueryMessages(t, q)
            && r.0 == s.(search := t.(started := t.started + {q}, announced := t.announced + {q},
                                      open := t.open || q !in t.started))
  {
    StripIdempotent(query);
    AnnounceQuerySpec(s.search, Strip(query));
  }

  /** Search query (agent copy only): a blank query does nothing; otherwise
      the search step is opened with "Searching for" if the query is new and
      the step closed, and the query is announced once with "Searching
      with". The workflow copy ignores the signal. */
  lemma SearchQueryAnnounces(s: State, query: string)
    ensures Process(WorkflowModule, s, SearchQuery(query)) == (s, [])
    ensures IsBlank(query) ==> Process(AgentModule, s, SearchQuery(query)) == (s, [])
    ensures !IsBlank(query) ==>
              var r := Process(AgentModule, s, SearchQuery(query));
              var q := Strip(query);
              var t := s.search;
              && r.1 == QueryMessages(t, q)
              && r.0 == s.(search := t.(started := t.started + {q}, announced := t.announced + {q},
                                        open := t.open || q !in t.started))
  {
    assert Process(AgentModule, s, SearchQuery(query)) == ProcessSearch(AgentModule, s, SearchQuery(query));
    assert Process(WorkflowModule, s, SearchQuery(query)) == ProcessSearch(WorkflowModule, s, SearchQuery(query));
    assert ProcessSearch(AgentModule, s, SearchQuery(query)) == HandleSearchQuery(s, query);
    if !IsBlank(query) {
      HandleSearchQuerySpec(s, query);
    }
  }

  lemma HandleSearchCandidatesSpec(s: State, query: string, candidates: seq<CandidateItem>)
    ensures var r := HandleSearchCandidates(s, query, candidates);
            var q := Strip(query);
            var rank := if s.rankStarted then [] else [StepStart(s.cfg.rankTitle, RankStartDescription)];
            && r.1 == CandidatesMessages(s.search, q, |candidates|) + rank
            && r.0 == s.(search := CandidatesTracker(s.search, q), rankStarted := true)
  {
    if Strip(query) != [] {
      CandidatesWithQuery(s, query, candidates);
    } else {
      CandidatesWithoutQuery(s, query, candidates);
    }
  }

  lemma CandidatesWithQuery(s: State, query: string, candidates: seq<CandidateItem>)
    requires Strip(query) != []
    ensures var r := HandleSearchCandidates(s, query, candidates);
            var q := Strip(query);
            var rank := if s.rankStarted then [] else [StepStart(s.cfg.rankTitle, RankStartDescription)];
            && r.1 == CandidatesMessages(s.search, q, |candidates|) + rank
            && r.0 == s.(search := CandidatesTracker(s.search, q), rankStarted := true)
  {
    StripIdempotent(query);
    var q := Strip(query);
    AnnounceQuerySpec(s.search, q);
    assert CompletionKey(Some(q)) == q;
  }

  lemma CandidatesWithoutQuery(s: State, query: string, candidates: seq<CandidateItem>)
    requires Strip(query) == []
    ensures var r := HandleSearchCandidates(s, query, candidates);
            var rank := if s.rankStarted then [] else [StepStart(s.cfg.rankTitle, RankStartDescription)];
            && r.1 == CandidatesMessages(s.search, [], |candidates|) + rank
            && r.0 == s.(search := CandidatesTracker(s.search, []), rankStarted := true)
  {
  }

  lemma SearchCandidatesDispatch(v: Variant, s: State, query: string, candidates: seq<CandidateItem>)
    ensures Process(v, s, SearchCandidates(query, candidates)) == HandleSearchCandidates(s, query, candidates)
  {
    assert Process(v, s, SearchCandidates(query, candidates)) == ProcessSearch(v, s, SearchCandidates(query, candidates));
  }

  /** Search candidates: for a non-blank query, a start if the query is new
      and the step closed, a status line if the query was not announced, an
      end with the candidate count if it was not completed; for a blank
      query, an end unless a keyless end was already emitted. Then the rank
      step start, unless it was already emitted. Only the search tracker and
      the rank-start flag change. */
  lemma SearchCandidatesSteps(v: Variant, s: State, query: string, candidates: seq<CandidateItem>)
    ensures var r := Process(v, s, SearchCandidates(query, candidates));
            var q := Strip(query);
            var rank := if s.rankStarted then [] else [StepStart(s.cfg.rankTitle, RankStartDescription)];
            && r.1 == CandidatesMessages(s.search, q, |candidates|) + rank
            && r.0 == s.(search := CandidatesTracker(s.search, q), rankStarted := true)
  {
    SearchCandidatesDispatch(v, s, query, candidates);
    HandleSearchCandidatesSpec(s, query, candidates);
  }

  /** Repeating a search-candidates signal for the same query emits nothing:
      no second start, status line, end or rank start. */
  lemma SearchCandidatesOnce(v: Variant, s: State, query: string, c1: seq<CandidateItem>, c2: seq<CandidateItem>)
    ensures Process(v, Process(v, s, SearchCandidates(query, c1)).0, SearchCandidates(query, c2)).1 == []
  {
    SearchCandidatesSteps(v, s, query, c1);
    var s1 := Process(v, s, SearchCandidates(query, c1)).0;
    SearchCandidatesSteps(v, s1, query, c2);
    if !IsBlank(query) {
      // a non-blank query was started or the step was open; either way no new start
      assert Strip(query) in s1.search.started;
    }
  }

  /** Ranked selections: the rank start if not yet emitted, the rank end if
      not yet emitted (carrying the ranked count), and a fetch start exactly
      when the batch is non-empty. The ranked pages are the first `rank_top_k`
      distinct valid pages; the batch is the first `fetch_page_limit` of them
      not announced earlier in the turn; the announcements grow by the batch. */
  lemma RankedSelections(v: Variant, s: State, selections: seq<RankedItem>)
    ensures var r := Process(v, s, RankedResults(selections));
            var d := Dedup(RankedPages(selections));
            var ranked := TakeOpt(d, RankLimit(s));
            var batch := TakeOpt(Unannounced(d, s.fetchAnnounced), FetchLimit(s));
            && r.1 == (if s.rankStarted then [] else [StepStart(s.cfg.rankTitle, RankStartDescription)])
                      + (if s.rankCompleted then []
                         else [StepEnd(s.cfg.rankTitle, "Selected " + NatToString(|ranked|) + " pages for deeper research.")])
                      + (if batch == [] then [] else [FetchStart(s.cfg.fetchTitle, batch)])
            && r.0 == s.(rankStarted := true, rankCompleted := true, fetchAnnounced := s.fetchAnnounced + UrlSet(batch))
  {
    RankedDispatch(v, s, selections);
    HandleRankedSpec(s, selections);
  }

  lemma RankedDispatch(v: Variant, s: State, selections: seq<RankedItem>)
    ensures Process(v, s, RankedResults(selections)) == HandleRanked(s, selections)
  {
  }

  lemma HandleRankedSpec(s: State, selections: seq<RankedItem>)
    ensures var r := HandleRanked(s, selections);
            var d := Dedup(RankedPages(selections));
            var ranked := TakeOpt(d, RankLimit(s));
            var batch := TakeOpt(Unannounced(d, s.fetchAnnounced), FetchLimit(s));
            && r.1 == (if s.rankStarted then [] else [StepStart(s.cfg.rankTitle, RankStartDescription)])
                      + (if s.rankCompleted then []
                         else [StepEnd(s.cfg.rankTitle, "Selected " + NatToString(|ranked|) + " pages for deeper research.")])
                      + (if batch == [] then [] else [FetchStart(s.cfg.fetchTitle, batch)])
            && r.0 == s.(rankStarted := true, rankCompleted := true, fetchAnnounced := s.fetchAnnounced + UrlSet(batch))
  {
    RankScanSpec(selections, RankLimit(s), FetchLimit(s), s.fetchAnnounced);
  }

  lemma UnannouncedDistinct(d: seq<Page>, announced: set<string>)
    requires DistinctUrls(d)
    ensures DistinctUrls(Unannounced(d, announced))
    ensures forall p :: p in Unannounced(d, announced) ==> p in d
  {
    if |d| > 0 {
      UnannouncedDistinct(d[..|d| - 1], announced);
      var u := Unannounced(d[..|d| - 1], announced);
      var p := d[|d| - 1];
      forall q | q in u ensures q.url != p.url {
        var i :| 0 <= i < |d| - 1 && d[..|d| - 1][i] == q;
        assert d[i] == q;
      }
    }
  }

  /** Under a plan, the caps hold and are independent: at most
      `max(0, rank_top_k)` ranked pages, at most `max(0, fetch_page_limit)`
      pages in the fetch start, whose urls are distinct and none of which was
      announced earlier in the turn. */
  lemma RankedCaps(v: Variant, s: State, selections: seq<RankedItem>)
    requires s.plan.Some?
    ensures var d := Dedup(RankedPages(selections));
            |TakeOpt(d, RankLimit(s))| <= Clamp(s.plan.value.rankTopK)
    ensures forall m :: m in Process(v, s, RankedResults(selections)).1 && m.FetchStart? ==>
              && 0 < |m.pages| <= Clamp(s.plan.value.fetchPageLimit)
              && DistinctUrls(m.pages)
              && (forall p :: p in m.pages ==> p.url !in s.fetchAnnounced && WellFormed(p))
  {
    RankedDispatch(v, s, selections);
    HandleRankedCaps(s, selections);
  }

  lemma HandleRankedCaps(s: State, selections: seq<RankedItem>)
    requires s.plan.Some?
    ensures forall m :: m in HandleRanked(s, selections).1 && m.FetchStart? ==>
              && 0 < |m.pages| <= Clamp(s.plan.value.fetchPageLimit)
              && DistinctUrls(m.pages)
              && (forall p :: p in m.pages ==> p.url !in s.fetchAnnounced && WellFormed(p))
  {
    var batch := TakeOpt(Unannounced(Dedup(RankedPages(selections)), s.fetchAnnounced), FetchLimit(s));
    RankedFetchStarts(s, selections);
    assert |batch| <= Clamp(s.plan.value.fetchPageLimit);
    RankedBatchWellFormed(selections, s.fetchAnnounced, FetchLimit(s));
  }

  /** Every fetch start of a ranking carries its non-empty batch. */
  lemma RankedFetchStarts(s: State, selections: seq<RankedItem>)
    ensures var batch := TakeOpt(Unannounced(Dedup(RankedPages(selections)), s.fetchAnnounced), FetchLimit(s));
            forall m | m in HandleRanked(s, selections).1 && m.FetchStart? :: m.pages == batch && batch != []
  {
    var d := Dedup(RankedPages(selections));
    var batch := TakeOpt(Unannounced(d, s.fetchAnnounced), FetchLimit(s));
    var ms := HandleRanked(s, selections).1;
    var pre := (if s.rankStarted then [] else [StepStart(s.cfg.rankTitle, RankStartDescription)])
               + (if s.rankCompleted then []
                  else [StepEnd(s.cfg.rankTitle, "Selected " + NatToString(|TakeOpt(d, RankLimit(s))|) + " pages for deeper research.")]);
    assert ms == pre + (if batch == [] then [] else [FetchStart(s.cfg.fetchTitle, batch)]) by {
      HandleRankedSpec(s, selections);
    }
    FetchStartsCarry(ms, pre, batch, s.cfg.fetchTitle);
  }

  /** In a batch of messages ending with an optional fetch start, every
      fetch start carries the (non-empty) batch. */
  lemma FetchStartsCarry(ms: seq<Msg>, pre: seq<Msg>, batch: seq<Page>, title: string)
    requires ms == pre + (if batch == [] then [] else [FetchStart(title, batch)])
    requires forall m | m in pre :: !m.FetchStart?
    ensures forall m | m in ms && m.FetchStart? :: m.pages == batch && batch != []
  {
  }

  /** The batch of a ranking has distinct, well-formed, unannounced urls. */
  lemma RankedBatchWellFormed(selections: seq<RankedItem>, announced: set<string>, limit: Option<nat>)
    ensures var batch := TakeOpt(Unannounced(Dedup(RankedPages(selections)), announced), limit);
            && DistinctUrls(batch)
            && forall p :: p in batch ==> p.url !in announced && WellFormed(p)
  {
    var d := Dedup(RankedPages(selections));
    BatchWellFormed(d, announced, limit);
  }

  /** The fetch batch has distinct, well-formed, unannounced urls. */
  lemma BatchWellFormed(d: seq<Page>, announced: set<string>, limit: Option<nat>)
    requires DistinctUrls(d) && forall p :: p in d ==> WellFormed(p)
    ensures var batch := TakeOpt(Unannounced(d, announced), limit);
            && DistinctUrls(batch)
            && forall p :: p in batch ==> p.url !in announced && WellFormed(p)
  {
    UnannouncedDistinct(d, announced);
  }

  /** Fetched results: exactly one fetch end, carrying the first
      `fetch_page_limit` distinct valid pages (all without a plan), which
      replace the citation list. */
  lemma FetchedResultsSpec(v: Variant, s: State, results: seq<ResultItem>)
    ensures var r := Process(v, s, FetchedResults(results));
            var pages := TakeOpt(Dedup(FetchedPages(results)), FetchLimit(s));
            && r.1 == [FetchEnd(s.cfg.fetchTitle, pages)]
            && r.0 == s.(citations := pages)
    ensures s.plan.None? ==> Process(v, s, FetchedResults(results)).0.citations == Dedup(FetchedPages(results))
    ensures s.plan.Some? && s.plan.value.fetchPageLimit <= 0 ==>
              Process(v, s, FetchedResults(results)).1 == [FetchEnd(s.cfg.fetchTitle, [])]
    ensures s.plan.Some? ==> |Process(v, s, FetchedResults(results)).0.citations| <= Clamp(s.plan.value.fetchPageLimit)
  {
    FetchedDispatch(v, s, results);
    HandleFetchedSpec(s, results);
  }

  lemma FetchedDispatch(v: Variant, s: State, results: seq<ResultItem>)
    ensures Process(v, s, FetchedResults(results)) == HandleFetched(s, results)
  {
  }

  lemma HandleFetchedSpec(s: State, results: seq<ResultItem>)
    ensures var r := HandleFetched(s, results);
            var pages := TakeOpt(Dedup(FetchedPages(results)), FetchLimit(s));
            && r.1 == [FetchEnd(s.cfg.fetchTitle, pages)]
            && r.0 == s.(citations := pages)
    ensures s.plan.None? ==> HandleFetched(s, results).0.citations == Dedup(FetchedPages(results))
    ensures s.plan.Some? && s.plan.value.fetchPageLimit <= 0 ==>
              HandleFetched(s, results).1 == [FetchEnd(s.cfg.fetchTitle, [])]
    ensures s.plan.Some? ==> |HandleFetched(s, results).0.citations| <= Clamp(s.plan.value.fetchPageLimit)
  {
    FetchScanSpec(results, FetchLimit(s));
  }

  /** Streaming chunk: a chunk from a source that is not accepted, or an
      empty one, changes nothing; otherwise the coding step is closed if
      open, the answer step opened if not yet opened, and the chunk is
      emitted verbatim and accumulated. */
  lemma StreamingChunkSpec(v: Variant, s: State, source: string, content: string)
    ensures source !in s.sources || content == [] ==>
              Process(v, s, StreamingChunk(source, content)) == (s, [])
    ensures source in s.sources && content != [] ==>
              var r := Process(v, s, StreamingChunk(source, content));
              && r.1 == (if s.codingOpen then [StepEnd(s.cfg.codingTitle, CodingDoneDescription)] else [])
                        + (if s.answerStarted then [] else [AnswerStart(s.cfg.answerTitle, s.answerDescription)])
                        + [AnswerDelta(s.cfg.answerTitle, content)]
              && r.0 == s.(codingOpen := false, answerStarted := true, answerChunks := s.answerChunks + [content])
  {
    ChunkDispatch(v, s, source, content);
    HandleChunkSpec(s, source, content);
  }

  lemma ChunkDispatch(v: Variant, s: State, source: string, content: string)
    ensures Process(v, s, StreamingChunk(source, content)) == HandleChunk(s, source, content)
  {
  }

  lemma HandleChunkSpec(s: State, source: string, content: string)
    ensures source !in s.sources || content == [] ==>
              HandleChunk(s, source, content) == (s, [])
    ensures source in s.sources && content != [] ==>
              var r := HandleChunk(s, source, content);
              && r.1 == (if s.codingOpen then [StepEnd(s.cfg.codingTitle, CodingDoneDescription)] else [])
                        + (if s.answerStarted then [] else [AnswerStart(s.cfg.answerTitle, s.answerDescription)])
                        + [AnswerDelta(s.cfg.answerTitle, content)]
              && r.0 == s.(codingOpen := false, answerStarted := true, answerChunks := s.answerChunks + [content])
  {
  }

  /** A plain text message from an accepted source is kept as fallback
      answer text; nothing is emitted and nothing else changes. */
  lemma TextMessageSpec(v: Variant, s: State, source: string, content: string)
    ensures Process(v, s, TextMessage(source, content)).1 == []
    ensures Process(v, s, TextMessage(source, content)).0
            == s.(fallbackSegments := s.fallbackSegments + (if source in s.sources && content != [] then [content] else []))
  {
    TextDispatch(v, s, source, content);
    HandleTextSpec(s, source, content);
  }

  lemma TextDispatch(v: Variant, s: State, source: string, content: string)
    ensures Process(v, s, TextMessage(source, content)) == HandleText(s, source, content)
  {
  }

  lemma HandleTextSpec(s: State, source: string, content: string)
    ensures HandleText(s, source, content).1 == []
    ensures HandleText(s, source, content).0
            == s.(fallbackSegments := s.fallbackSegments + (if source in s.sources && content != [] then [content] else []))
  {
  }

  /** The final answer is the first non-empty of the stripped chunks, the
      stripped fallback segments and the stripped accepted history texts; it
      never ends in whitespace and is a prefix of the text it came from. */
  lemma FinalAnswerChain(chunks: seq<string>, fallback: seq<string>, history: seq<HistoryItem>, sources: set<string>)
    ensures var a := FinalAnswer(chunks, fallback, history, sources);
            var s1 := StripTermination(Concat(chunks));
            var s2 := StripTermination(Concat(fallback));
            var s3 := StripTermination(Concat(HistoryTexts(history, sources)));
            && (s1 != [] ==> a == s1)
            && (s1 == [] && s2 != [] ==> a == s2)
            && (s1 == [] && s2 == [] ==> a == s3)
            && (a == [] ==> s1 == [] && s2 == [] && s3 == [])
            && (|a| > 0 ==> !IsSpace(a[|a| - 1]))
            && (s1 != [] ==> a <= Concat(chunks))
            && (s1 == [] && s2 != [] ==> a <= Concat(fallback))
            && (s1 == [] && s2 == [] ==> a <= Concat(HistoryTexts(history, sources)))
  {
  }

  /** Terminal signal: the coding step is closed if open, the answer step
      opened if it never was and closed if it was not closed yet, then exactly
      one answer is emitted, citing the latest fetched batch (none when it is
      empty); the turn is finished. */
  lemma TerminalSpec(v: Variant, s: State, history: seq<HistoryItem>)
    ensures var r := Process(v, s, TaskResult(history));
            && r.1 == (if s.codingOpen then [StepEnd(s.cfg.codingTitle, CodingDoneDescription)] else [])
                      + (if s.answerStarted then [] else [AnswerStart(s.cfg.answerTitle, s.answerDescription)])
                      + (if s.answerCompleted then [] else [AnswerEnd(s.cfg.answerTitle)])
                      + [Answer(FinalAnswer(s.answerChunks, s.fallbackSegments, history, s.sources),
                                if s.citations == [] then None else Some(s.citations))]
            && r.0 == s.(codingOpen := false, answerStarted := true, answerCompleted := true, finished := true)
  {
    TerminalDispatch(v, s, history);
    HandleTerminalSpec(s, history);
  }

  lemma TerminalDispatch(v: Variant, s: State, history: seq<HistoryItem>)
    ensures Process(v, s, TaskResult(history)) == HandleTerminal(s, history)
  {
  }

  lemma HandleTerminalSpec(s: State, history: seq<HistoryItem>)
    ensures var r := HandleTerminal(s, history);
            && r.1 == (if s.codingOpen then [StepEnd(s.cfg.codingTitle, CodingDoneDescription)] else [])
                      + (if s.answerStarted then [] else [AnswerStart(s.cfg.answerTitle, s.answerDescription)])
                      + (if s.answerCompleted then [] else [AnswerEnd(s.cfg.answerTitle)])
                      + [Answer(FinalAnswer(s.answerChunks, s.fallbackSegments, history, s.sources),
                                if s.citations == [] then None else Some(s.citations))]
            && r.0 == s.(codingOpen := false, answerStarted := true, answerCompleted := true, finished := true)
  {
  }

  /** Processing the terminal signal a second time emits no second answer
      start or answer end: only another answer. */
  lemma TerminalTwice(v: Variant, s: State, h1: seq<HistoryItem>, h2: seq<HistoryItem>)
    ensures var s1 := Process(v, s, TaskResult(h1)).0;
            var ms := Process(v, s1, TaskResult(h2)).1;
            |ms| == 1 && ms[0].Answer?
  {
    TerminalDispatch(v, s, h1);
    HandleTerminalSpec(s, h1);
    var s1 := HandleTerminal(s, h1).0;
    TerminalDispatch(v, s1, h2);
    HandleTerminalSpec(s1, h2);
  }
}
