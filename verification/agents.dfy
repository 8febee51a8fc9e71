/** The pure parts of the pipeline agents whose output the processor
    consumes: how the search executor picks its query and normalises raw
    search hits into candidates, how the page fetcher cuts the ranked
    selections to the plan's fetch budget, and which agents the router's
    graph reaches on each route. Search, fetching and the language models are
    left out; their results are parameters. */
module Agents {
  import opened Wrappers
  import opened Text
  import opened Selection
  import opened Processor

  /** The part of a team's message history the agents read. */
  datatype AgentMsg =
    | QueryMsg(query: string)
    | PlanMsg(plan: ResearchPlan)
    | RankedMsg(selections: seq<RankedItem>)
    | OtherMsg

  /** The message types the agents look up in the history. */
  datatype Kind = QueryKind | PlanKind | RankedKind

  predicate OfKind(m: AgentMsg, k: Kind) {
    match k
    case QueryKind => m.QueryMsg?
    case PlanKind => m.PlanMsg?
    case RankedKind => m.RankedMsg?
  }

  /** `_latest_message_of_type`: the position of the last message of the
      kind, scanning backwards; none when there is no such message. */
  function LatestIndex(history: seq<AgentMsg>, k: Kind): (r: Option<nat>)
    ensures r.None? <==> forall i :: 0 <= i < |history| ==> !OfKind(history[i], k)
    ensures r.Some? ==> r.value < |history| && OfKind(history[r.value], k)
    ensures r.Some? ==> forall j :: r.value < j < |history| ==> !OfKind(history[j], k)
  {
    if |history| == 0 then None
    else if OfKind(history[|history| - 1], k) then Some(|history| - 1)
    else LatestIndex(history[..|history| - 1], k)
  }

  /** The query of the latest search-query message. */
  function LatestQuery(history: seq<AgentMsg>): (r: Option<string>)
    ensures r.None? <==> forall i :: 0 <= i < |history| ==> !history[i].QueryMsg?
    ensures r.Some? ==> exists i :: 0 <= i < |history| && history[i] == QueryMsg(r.value)
                                  && forall j :: i < j < |history| ==> !history[j].QueryMsg?
  {
    match LatestIndex(history, QueryKind)
    case None => None
    case Some(i) => Some(history[i].query)
  }

  /** The latest research plan. */
  function LatestPlan(history: seq<AgentMsg>): (r: Option<ResearchPlan>)
    ensures r.None? <==> forall i :: 0 <= i < |history| ==> !history[i].PlanMsg?
    ensures r.Some? ==> exists i :: 0 <= i < |history| && history[i] == PlanMsg(r.value)
                                  && forall j :: i < j < |history| ==> !history[j].PlanMsg?
  {
    match LatestIndex(history, PlanKind)
    case None => None
    case Some(i) => Some(history[i].plan)
  }

  /** The latest ranking, as the page fetcher's backwards scan finds it. */
  function LatestRanked(history: seq<AgentMsg>): (r: Option<seq<RankedItem>>)
    ensures r.None? <==> forall i :: 0 <= i < |history| ==> !history[i].RankedMsg?
    ensures r.Some? ==> exists i :: 0 <= i < |history| && history[i] == RankedMsg(r.value)
                                  && forall j :: i < j < |history| ==> !history[j].RankedMsg?
  {
    match LatestIndex(history, RankedKind)
    case None => None
    case Some(i) => Some(history[i].selections)
  }

  /** The first plan query that is not blank, stripped; empty if none is. */
  function FirstNonBlank(queries: seq<string>): (r: string)
    ensures r == [] <==> forall i :: 0 <= i < |queries| ==> IsBlank(queries[i])
    ensures r == [] || (!IsSpace(r[0]) && !IsSpace(r[|r| - 1]))
  {
    if |queries| == 0 then []
    else if !IsBlank(queries[0]) then Strip(queries[0])
    else
      var rest := queries[1..];
      var r := FirstNonBlank(rest);
      assert (forall i :: 0 <= i < |queries| ==> IsBlank(queries[i]))
             <==> (forall i :: 0 <= i < |rest| ==> IsBlank(rest[i])) by {
        assert forall i :: 0 <= i < |rest| ==> rest[i] == queries[i + 1];
        assert forall i :: 0 < i < |queries| ==> queries[i] == rest[i - 1];
      }
      r
  }

  /** The plan query picked is the first one that is not blank. */
  lemma {:induction false} FirstNonBlankIsFirst(queries: seq<string>, i: nat)
    requires i < |queries| && !IsBlank(queries[i])
    requires forall j :: 0 <= j < i ==> IsBlank(queries[j])
    ensures FirstNonBlank(queries) == Strip(queries[i])
  {
    if i > 0 {
      assert IsBlank(queries[0]);
      assert queries[1..][i - 1] == queries[i];
      FirstNonBlankIsFirst(queries[1..], i - 1);
    }
  }

  /** The search executor's query: the latest search query, stripped (even
      when that leaves it empty), else the plan's first non-blank query. */
  function QueryText(history: seq<AgentMsg>): (r: string)
    ensures LatestQuery(history).Some? ==> r == Strip(LatestQuery(history).value)
    ensures LatestQuery(history).None? && LatestPlan(history).Some? ==>
              r == FirstNonBlank(LatestPlan(history).value.queries)
    ensures LatestQuery(history).None? && LatestPlan(history).None? ==> r == []
    ensures r == [] || (!IsSpace(r[0]) && !IsSpace(r[|r| - 1]))
  {
    match LatestQuery(history)
    case Some(q) => Strip(q)
    case None =>
      match LatestPlan(history)
      case Some(plan) => FirstNonBlank(plan.queries)
      case None => []
  }

  /** One raw search hit. `None` stands for a field that is missing, null or
      not a string; the snippet's `None` is a missing or null snippet. */
  datatype RawItem = RawItem(link: Option<string>, title: Option<string>, snippet: Option<string>, favicon: Option<string>)

  const MissingSnippet: string := "Snippet not available."

  /** The candidate for one hit, or nothing when its link is not a non-blank
      string. A blank title falls back to the link exactly as given; a
      missing or empty snippet becomes the placeholder; every kept field is
      stripped. */
  function BuildCandidate(raw: RawItem): (r: Option<CandidateItem>)
    ensures r.None? <==> raw.link.None? || IsBlank(raw.link.value)
    ensures r.Some? ==>
              && r.value.url == Strip(raw.link.value) && r.value.url != []
              && r.value.title == (if raw.title.Some? && !IsBlank(raw.title.value) then Strip(raw.title.value)
                                   else raw.link.value)
              && r.value.title != []
              && r.value.snippet == (if raw.snippet.Some? && raw.snippet.value != [] then Strip(raw.snippet.value)
                                     else MissingSnippet)
              && (r.value.favicon.Some? <==> raw.favicon.Some? && !IsBlank(raw.favicon.value))
              && (r.value.favicon.Some? ==> r.value.favicon.value == Strip(raw.favicon.value))
  {
    if raw.link.None? || IsBlank(raw.link.value) then None
    else
      var url := raw.link.value;
      var title := if raw.title.Some? && !IsBlank(raw.title.value) then Strip(raw.title.value) else url;
      var snippet := if raw.snippet.Some? && raw.snippet.value != [] then raw.snippet.value else MissingSnippet;
      var favicon := if raw.favicon.Some? && !IsBlank(raw.favicon.value) then Some(Strip(raw.favicon.value)) else None;
      assert Strip(MissingSnippet) == MissingSnippet by {
        StripOfTrimmed(MissingSnippet);
      }
      Some(CandidateItem(title, Strip(url), Strip(snippet), favicon))
  }

  /** The candidate of one hit as a list of zero or one items. */
  function CandidateOf(raw: RawItem): (cs: seq<CandidateItem>)
    ensures |cs| <= 1
  {
    match BuildCandidate(raw)
    case Some(c) => [c]
    case None => []
  }

  /** The lists `f` gives for the elements of `xs`, concatenated in order. */
  function FlatMap<A, B>(f: A -> seq<B>, xs: seq<A>): seq<B> {
    if |xs| == 0 then [] else FlatMap(f, xs[..|xs| - 1]) + f(xs[|xs| - 1])
  }

  lemma {:induction false} FlatMapAppend<A, B>(f: A -> seq<B>, a: seq<A>, b: seq<A>)
    ensures FlatMap(f, a + b) == FlatMap(f, a) + FlatMap(f, b)
    decreases |b|
  {
    if |b| == 0 {
      assert a + b == a;
    } else {
      var init := b[..|b| - 1];
      assert (a + b)[..|a + b| - 1] == a + init;
      assert (a + b)[|a + b| - 1] == b[|b| - 1];
      FlatMapAppend(f, a, init);
    }
  }

  /** Reference: the candidates of the hits with a usable link, in order. */
  function Candidates(raws: seq<RawItem>): (cs: seq<CandidateItem>) {
    FlatMap(CandidateOf, raws)
  }

  /** Keeping candidates distributes over concatenation, so the order of the
      hits is the order of the candidates. */
  lemma {:induction false} CandidatesAppend(a: seq<RawItem>, b: seq<RawItem>)
    ensures Candidates(a + b) == Candidates(a) + Candidates(b)
  {
    FlatMapAppend(CandidateOf, a, b);
  }

  /** The candidate of one hit has a stripped, non-blank url and a
      non-blank title. */
  lemma CandidateOfWellFormed(raw: RawItem)
    ensures forall c | c in CandidateOf(raw) :: c.url != [] && Strip(c.url) == c.url && c.title != []
  {
    if BuildCandidate(raw).Some? {
      StripIdempotent(raw.link.value);
    }
  }

  lemma CandidatesSnoc(raws: seq<RawItem>, i: nat)
    requires i < |raws|
    ensures Candidates(raws[..i + 1]) == Candidates(raws[..i]) + CandidateOf(raws[i])
  {
    assert raws[..i + 1] == raws[..i] + [raws[i]];
    CandidatesAppend(raws[..i], [raws[i]]);
    assert [raws[i]][..0] == [];
  }

  lemma CandidatesStep(raws: seq<RawItem>, i: nat)
    requires i < |raws|
    ensures var b := BuildCandidate(raws[i]);
            Candidates(raws[..i + 1]) == Candidates(raws[..i]) + if b.Some? then [b.value] else []
  {
    CandidatesSnoc(raws, i);
  }

  /** Every candidate has a stripped, non-blank url and a non-blank title. */
  lemma {:induction false} CandidatesWellFormed(raws: seq<RawItem>)
    ensures forall c | c in Candidates(raws) :: c.url != [] && Strip(c.url) == c.url && c.title != []
    decreases |raws|
  {
    if |raws| > 0 {
      var n := |raws| - 1;
      CandidatesWellFormed(raws[..n]);
      CandidateOfWellFormed(raws[n]);
      CandidatesSnoc(raws, n);
      assert raws[..n + 1] == raws;
    }
  }

  /** The normalising loop of the search executor. */
  method NormaliseHits(raws: seq<RawItem>) returns (cs: seq<CandidateItem>)
    ensures cs == Candidates(raws)
  {
    cs := [];
    var i := 0;
    while i < |raws|
      invariant 0 <= i <= |raws|
      invariant cs == Candidates(raws[..i])
    {
      var b := BuildCandidate(raws[i]);
      CandidatesStep(raws, i);
      if b.Some? {
        cs := cs + [b.value];
      }
      i := i + 1;
    }
    assert raws[..|raws|] == raws;
  }

  /** The search executor's reply: the query it used and its candidates. No
      search is made for an empty query; `hits` is what the search returned
      for the query, `None` when it raised `ValueError`. */
  function SearchExecutorReply(history: seq<AgentMsg>, hits: Option<seq<RawItem>>): (r: Signal)
    ensures r.SearchCandidates? && r.candidateQuery == QueryText(history)
    ensures QueryText(history) == [] || hits.None? ==> r.candidates == []
    ensures QueryText(history) != [] && hits.Some? ==> r.candidates == Candidates(hits.value)
  {
    var query := QueryText(history);
    if query != [] && hits.Some? then SearchCandidates(query, Candidates(hits.value))
    else SearchCandidates(query, [])
  }

  /** The page fetcher's cut of the latest ranking: nothing without a
      ranking, everything without a plan, else the first `max(0, limit)`. */
  function FetchSelections(history: seq<AgentMsg>): (r: seq<RankedItem>)
    ensures LatestRanked(history).None? ==> r == []
    ensures LatestRanked(history).Some? ==> r <= LatestRanked(history).value
    ensures LatestRanked(history).Some? && LatestPlan(history).None? ==> r == LatestRanked(history).value
    ensures LatestRanked(history).Some? && LatestPlan(history).Some? ==>
              var n := Clamp(LatestPlan(history).value.fetchPageLimit);
              var all := LatestRanked(history).value;
              |r| == (if |all| < n then |all| else n)
  {
    match LatestRanked(history)
    case None => []
    case Some(selections) =>
      match LatestPlan(history)
      case None => selections
      case Some(plan) =>
        var limit := Clamp(plan.fetchPageLimit);
        if limit == 0 then []
        else if |selections| <= limit then selections
        else selections[..limit]
  }

  /** A zero or negative fetch budget fetches nothing. */
  lemma ZeroBudgetFetchesNothing(history: seq<AgentMsg>)
    requires LatestPlan(history).Some? && LatestPlan(history).value.fetchPageLimit <= 0
    ensures FetchSelections(history) == []
  {
  }

  // The agent graph.

  datatype Agent =
    | Router | Planner | SearchExecutor | Ranker | PageFetcher | TodayDate
    | QuickAnswerer | Coder | Reporter

  /** The agent's name in the team. */
  function Name(a: Agent): string {
    match a
    case Router => "router_agent"
    case Planner => "research_planner_agent"
    case SearchExecutor => "google_search_agent"
    case Ranker => "search_rank_agent"
    case PageFetcher => "page_fetch_agent"
    case TodayDate => "today_date_agent"
    case QuickAnswerer => QuickAnswerAgent
    case Coder => CodingAgent
    case Reporter => ReportAgent
  }

  /** The agents that write the answer. */
  predicate IsAnswerer(a: Agent) {
    a == QuickAnswerer || a == Coder || a == Reporter
  }

  /** The graph's edges: the router's edges are conditioned on the route it
      chose, the research chain is unconditional. No edge leads back to the
      router, an answer agent ends the flow, and the agents of a route only
      lead to agents of that route. */
  function Successors(a: Agent, route: Route): (r: set<Agent>)
    ensures Router !in r
    ensures IsAnswerer(a) ==> r == {}
    ensures a in RouteAgents(route) ==> r <= RouteAgents(route)
  {
    match a
    case Router =>
      (match route
       case DeepDive => {TodayDate, Planner}
       case QuickAnswer => {QuickAnswerer}
       case Coding => {Coder})
    case Planner => {SearchExecutor}
    case SearchExecutor => {Ranker}
    case Ranker => {PageFetcher}
    case PageFetcher => {Reporter}
    case _ => {}
  }

  /** The agents reachable from the router in at most `k` hops. */
  function Reach(k: nat, route: Route): set<Agent> {
    if k == 0 then {Router} else Reach(k - 1, route) + Next(Reach(k - 1, route), route)
  }

  /** The agents one hop from `agents`. */
  function Next(agents: set<Agent>, route: Route): set<Agent> {
    set a, b | a in agents && b in Successors(a, route) :: b
  }

  /** The agents a route can run. */
  function RouteAgents(route: Route): set<Agent> {
    match route
    case QuickAnswer => {Router, QuickAnswerer}
    case Coding => {Router, Coder}
    case DeepDive => {Router, TodayDate, Planner, SearchExecutor, Ranker, PageFetcher, Reporter}
  }

  /** The answer agent of a route. */
  function RouteAnswerer(route: Route): (a: Agent)
    ensures IsAnswerer(a) && Name(a) == AnswerSource(route)
  {
    match route
    case QuickAnswer => QuickAnswerer
    case Coding => Coder
    case DeepDive => Reporter
  }

  lemma RouteAgentsClosed(route: Route, a: Agent)
    requires a in RouteAgents(route)
    ensures Successors(a, route) <= RouteAgents(route)
  {
  }

  /** However far the flow runs, it stays among the route's agents. */
  lemma {:induction false} ReachWithinRoute(k: nat, route: Route)
    ensures Reach(k, route) <= RouteAgents(route)
  {
    if k > 0 {
      ReachWithinRoute(k - 1, route);
      forall b | b in Reach(k, route) ensures b in RouteAgents(route) {
        if b !in Reach(k - 1, route) {
          var a :| a in Reach(k - 1, route) && b in Successors(a, route);
          RouteAgentsClosed(route, a);
        }
      }
    }
  }

  /** The only answer agent a route reaches is the one whose output the
      processor accepts after that route decision; and it is reached. */
  lemma RouteReachesOnlyItsAnswerer(route: Route, k: nat)
    ensures forall a | a in Reach(k, route) && IsAnswerer(a) :: Name(a) == AnswerSource(route)
    ensures RouteAnswerer(route) in Reach(5, route)
  {
    ReachWithinRoute(k, route);
    var r1 := Reach(1, route);
    assert Router in Reach(0, route);
    match route {
      case QuickAnswer => assert QuickAnswerer in Successors(Router, route);
      case Coding => assert Coder in Successors(Router, route);
      case DeepDive =>
        assert Planner in Successors(Router, route);
        assert Planner in r1;
        assert SearchExecutor in Successors(Planner, route);
        assert SearchExecutor in Reach(2, route);
        assert Ranker in Successors(SearchExecutor, route);
        assert Ranker in Reach(3, route);
        assert PageFetcher in Successors(Ranker, route);
        assert PageFetcher in Reach(4, route);
        assert Reporter in Successors(PageFetcher, route);
    }
    ReachGrows(route, 1);
    ReachGrows(route, 2);
    ReachGrows(route, 3);
    ReachGrows(route, 4);
  }

  lemma ReachGrows(route: Route, k: nat)
    ensures Reach(k, route) <= Reach(k + 1, route)
  {
  }
}
