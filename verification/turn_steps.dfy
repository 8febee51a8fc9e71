/** The step messages a turn emits at most once, stated over a whole turn
    rather than one signal: the rank step's start and end (the end after the
    start), each query's status line and end on the search step, and the
    fetch batches, no two of which share a url. Each per-signal law sets a
    flag or grows a set when it emits; a run keeps those flags and sets, so
    the once-per-signal guards add up to once per turn. */
module TurnSteps {
  import opened Wrappers
  import opened Text
  import opened Messages
  import opened Tracker
  import opened Selection
  import opened Processor
  import opened ProcessorLaws
  import opened Turn

  /** The status line the search step shows for a query. */
  function StatusText(q: string): string {
    "Searching with " + Quoted(q) + "."
  }

  /** The messages a turn promises to emit at most once: the rank step's
      start and end, a query's status line on the search step, and a query's
      end on the search step (the empty query standing for the keyless end). */
  datatype Mark = RankStartMark | RankEndMark | StatusMark(query: string) | EndMark(query: string)

  /** Whether `m` is the message of mark `k`. The step titles of a turn are
      distinct, so the title tells the steps apart. */
  ghost predicate Marks(m: Msg, k: Mark) {
    match k
    case RankStartMark => m.StepStart? && m.title == RankTitle
    case RankEndMark => m.StepEnd? && m.title == RankTitle
    case StatusMark(q) => m.StepStatus? && m.title == SearchTitle && m.description == StatusText(q)
    case EndMark(q) => m.StepEnd? && m.title == SearchTitle && exists n: nat :: m.description == FoundDescription(n, q)
  }

  /** The processor's record that the message of mark `k` was emitted. */
  predicate Flag(s: State, k: Mark) {
    match k
    case RankStartMark => s.rankStarted
    case RankEndMark => s.rankCompleted
    case StatusMark(q) => q in s.search.announced
    case EndMark(q) => if q == [] then s.search.completedWithoutQuery else q in s.search.completed
  }

  /** How many messages carry mark `k`. */
  ghost function Count(ms: seq<Msg>, k: Mark): (n: nat)
    ensures n <= |ms|
  {
    if |ms| == 0 then 0
    else Count(ms[..|ms| - 1], k) + (if Marks(ms[|ms| - 1], k) then 1 else 0)
  }

  lemma {:induction false} CountAppend(a: seq<Msg>, b: seq<Msg>, k: Mark)
    ensures Count(a + b, k) == Count(a, k) + Count(b, k)
    decreases |b|
  {
    if |b| == 0 {
      assert a + b == a;
    } else {
      CountAppend(a, b[..|b| - 1], k);
      assert (a + b)[..|a + b| - 1] == a + b[..|b| - 1];
    }
  }

  lemma {:induction false} CountNone(ms: seq<Msg>, k: Mark)
    requires forall i | 0 <= i < |ms| :: !Marks(ms[i], k)
    ensures Count(ms, k) == 0
    decreases |ms|
  {
    if |ms| > 0 {
      var n := |ms| - 1;
      forall i | 0 <= i < n ensures !Marks(ms[..n][i], k) {
        assert ms[..n][i] == ms[i];
      }
      CountNone(ms[..n], k);
    }
  }

  lemma {:induction false} CountZeroNone(ms: seq<Msg>, k: Mark)
    requires Count(ms, k) == 0
    ensures forall i | 0 <= i < |ms| :: !Marks(ms[i], k)
    decreases |ms|
  {
    if |ms| > 0 {
      var n := |ms| - 1;
      CountZeroNone(ms[..n], k);
      forall i | 0 <= i < n ensures !Marks(ms[i], k) {
        assert ms[..n][i] == ms[i];
      }
    }
  }

  lemma {:induction false} CountPositive(ms: seq<Msg>, k: Mark, i: nat)
    requires i < |ms| && Marks(ms[i], k)
    ensures Count(ms, k) > 0
    decreases |ms|
  {
    var n := |ms| - 1;
    if i < n {
      assert ms[..n][i] == ms[i];
      CountPositive(ms[..n], k, i);
    }
  }

  lemma {:induction false} CountWitness(ms: seq<Msg>, k: Mark) returns (j: nat)
    requires Count(ms, k) > 0
    ensures j < |ms| && Marks(ms[j], k)
    decreases |ms|
  {
    var n := |ms| - 1;
    if Marks(ms[n], k) {
      j := n;
    } else {
      j := CountWitness(ms[..n], k);
      assert ms[..n][j] == ms[j];
    }
  }

  lemma CountOne(m: Msg, k: Mark)
    ensures Count([m], k) == if Marks(m, k) then 1 else 0
  {
    assert [m][..0] == [];
  }

  // The texts that identify a query.

  lemma StatusTextInjective(q: string, q': string)
    requires StatusText(q) == StatusText(q')
    ensures q == q'
  {
    var a := StatusText(q);
    assert a[16..|a| - 2] == q;
    assert StatusText(q')[16..|a| - 2] == q';
  }

  /** Two runs of digits each followed by a non-digit split a string the
      same way. */
  lemma DigitsSplit(x: string, s1: string, y: string, s2: string)
    requires x + s1 == y + s2
    requires forall i :: 0 <= i < |x| ==> '0' <= x[i] <= '9'
    requires forall i :: 0 <= i < |y| ==> '0' <= y[i] <= '9'
    requires |s1| > 0 && !('0' <= s1[0] <= '9') && |s2| > 0 && !('0' <= s2[0] <= '9')
    ensures x == y && s1 == s2
  {
    assert (y + s2)[|x|] == s1[0];
    assert (x + s1)[|y|] == s2[0];
    assert |x| == |y|;
    assert x == (x + s1)[..|x|] && y == (y + s2)[..|y|];
    assert s1 == (x + s1)[|x|..] && s2 == (y + s2)[|y|..];
  }

  /** What follows the count in the end description of a search step. */
  function FoundTail(q: string): (t: string)
    ensures |t| > 17 && t[0] == ' ' && t[12] == (if q != [] then 'f' else 'w')
    ensures q != [] ==> |t| == |q| + 19 && t[17..|q| + 17] == q
  {
    if q != [] then " candidates for " + Quoted(q) + "." else " candidates without a specific query."
  }

  lemma FoundSplit(n: nat, q: string)
    ensures FoundDescription(n, q) == "Found " + (NatToString(n) + FoundTail(q))
  {
  }

  lemma PrefixCancel(p: string, u: string, w: string)
    requires p + u == p + w
    ensures u == w
  {
    assert u == (p + u)[|p|..] && w == (p + w)[|p|..];
  }

  /** An end description names its query: two that are equal are for the
      same query (or both keyless). */
  lemma FoundDescriptionInjective(n: nat, q: string, n': nat, q': string)
    requires FoundDescription(n, q) == FoundDescription(n', q')
    ensures q == q'
  {
    var x := NatToString(n);
    var y := NatToString(n');
    FoundSplit(n, q);
    FoundSplit(n', q');
    PrefixCancel("Found ", x + FoundTail(q), y + FoundTail(q'));
    DigitsSplit(x, FoundTail(q), y, FoundTail(q'));
  }

  // One batch.

  /** The state a turn's processor keeps throughout: the turn's titles, and
      a rank step completed only after it was started. */
  predicate Steady(s: State) {
    && s.cfg == TurnConfig && s.search.title == SearchTitle
    && (s.rankCompleted ==> s.rankStarted)
  }

  /** A batch (or a run) emits the message of mark `k` exactly once when it
      sets the mark's flag, and never otherwise; it never clears a flag. */
  ghost predicate Tallies(s: State, r: (State, seq<Msg>), k: Mark) {
    && (Flag(s, k) ==> Flag(r.0, k))
    && Count(r.1, k) == (if Flag(r.0, k) && !Flag(s, k) then 1 else 0)
  }

  /** No rank start comes after a rank end. */
  ghost predicate NoStartAfterEnd(ms: seq<Msg>) {
    forall i, j | 0 <= i < j < |ms| :: Marks(ms[i], RankEndMark) ==> !Marks(ms[j], RankStartMark)
  }

  /** Every fetch start carries urls not announced before and recorded
      after, and no two fetch starts share a url. */
  predicate FetchFresh(s: State, r: (State, seq<Msg>)) {
    && s.fetchAnnounced <= r.0.fetchAnnounced
    && (forall i | 0 <= i < |r.1| && r.1[i].FetchStart? ::
          UrlSet(r.1[i].pages) <= r.0.fetchAnnounced && UrlSet(r.1[i].pages) !! s.fetchAnnounced)
    && (forall i, j | 0 <= i < j < |r.1| && r.1[i].FetchStart? && r.1[j].FetchStart? ::
          UrlSet(r.1[i].pages) !! UrlSet(r.1[j].pages))
  }

  /** What every batch, and every run, of a turn keeps. */
  ghost predicate Keeps(s: State, r: (State, seq<Msg>)) {
    && Steady(r.0)
    && (forall k :: Tallies(s, r, k))
    && NoStartAfterEnd(r.1)
    && FetchFresh(s, r)
  }

  /** A message that carries no mark and is no fetch start. */
  predicate Quiet(m: Msg) {
    match m
    case StepStart(t, _) => t != RankTitle
    case StepStatus(t, _) => t != SearchTitle
    case StepEnd(t, _) => t != RankTitle && t != SearchTitle
    case FetchStart(_, _) => false
    case _ => true
  }

  predicate QuietAll(ms: seq<Msg>) {
    forall i | 0 <= i < |ms| :: Quiet(ms[i])
  }

  predicate NoFetch(ms: seq<Msg>) {
    forall i | 0 <= i < |ms| :: !ms[i].FetchStart?
  }

  /** The parts of the state the marks and fetch announcements depend on. */
  predicate SameFlags(s: State, s': State) {
    && s'.cfg == s.cfg && s'.search.title == s.search.title
    && s'.rankStarted == s.rankStarted && s'.rankCompleted == s.rankCompleted
    && s'.search.announced == s.search.announced && s'.search.completed == s.search.completed
    && s'.search.completedWithoutQuery == s.search.completedWithoutQuery
    && s'.fetchAnnounced == s.fetchAnnounced
  }

  /** The rank step's start, unless it was started already. */
  function RankOpening(started: bool): seq<Msg> {
    if started then [] else [StepStart(RankTitle, RankStartDescription)]
  }

  /** The fetch start announcing a batch, unless the batch is empty. */
  function FetchOf(batch: seq<Page>): seq<Msg> {
    if batch == [] then [] else [FetchStart(FetchTitle, batch)]
  }

  /** The six step titles of a turn are distinct; in particular only the
      rank and search steps carry their own titles. */
  lemma TitlesDistinct()
    ensures RankTitle != SearchTitle
    ensures CodingTitle != RankTitle && CodingTitle != SearchTitle
    ensures AnswerTitle != RankTitle && AnswerTitle != SearchTitle
    ensures FetchTitle != RankTitle && FetchTitle != SearchTitle
    ensures PlanningTitle != RankTitle && PlanningTitle != SearchTitle
  {
    assert |PlanningTitle| == 30 && |SearchTitle| == 18 && |CodingTitle| == 21;
    assert |RankTitle| == 25 && |FetchTitle| == 27 && |AnswerTitle| == 22;
  }

  lemma QuietAppend(a: seq<Msg>, b: seq<Msg>)
    requires QuietAll(a) && QuietAll(b)
    ensures QuietAll(a + b)
  {
    forall i | 0 <= i < |a + b| ensures Quiet((a + b)[i]) {
      if i < |a| {
        assert (a + b)[i] == a[i];
      } else {
        assert (a + b)[i] == b[i - |a|];
      }
    }
  }

  lemma NoFetchAppend(a: seq<Msg>, b: seq<Msg>)
    requires NoFetch(a) && NoFetch(b)
    ensures NoFetch(a + b)
  {
    forall i | 0 <= i < |a + b| ensures !(a + b)[i].FetchStart? {
      if i < |a| {
        assert (a + b)[i] == a[i];
      } else {
        assert (a + b)[i] == b[i - |a|];
      }
    }
  }

  lemma NoEndOrdered(ms: seq<Msg>)
    requires Count(ms, RankEndMark) == 0
    ensures NoStartAfterEnd(ms)
  {
    CountZeroNone(ms, RankEndMark);
  }

  /** A batch of quiet messages that leaves the flags alone keeps
      everything. */
  lemma QuietKeeps(s: State, r: (State, seq<Msg>))
    requires Steady(s) && SameFlags(s, r.0) && QuietAll(r.1)
    ensures Keeps(s, r)
  {
    var ms := r.1;
    forall k ensures Tallies(s, r, k) {
      CountNone(ms, k);
    }
    CountNone(ms, RankEndMark);
    NoEndOrdered(ms);
    assert NoFetch(ms);
  }

  /** No rank end before a part without rank starts. */
  lemma SplitOrdered(a: seq<Msg>, b: seq<Msg>)
    requires Count(a, RankEndMark) == 0 && Count(b, RankStartMark) == 0
    ensures NoStartAfterEnd(a + b)
  {
    CountZeroNone(a, RankEndMark);
    CountZeroNone(b, RankStartMark);
    var ms := a + b;
    assert forall i | 0 <= i < |a| :: ms[i] == a[i];
    assert forall j | |a| <= j < |ms| :: ms[j] == b[j - |a|];
  }

  /** The status line of a query is marked for that query only. */
  lemma StatusCount(q: string, k: Mark)
    ensures Count([StepStatus(SearchTitle, StatusText(q))], k) == if k == StatusMark(q) then 1 else 0
  {
    var m := StepStatus(SearchTitle, StatusText(q));
    CountOne(m, k);
    if k.StatusMark? && Marks(m, k) {
      StatusTextInjective(k.query, q);
    }
  }

  /** The end of a search step is marked for its own query only. */
  lemma EndCount(q: string, c: nat, k: Mark)
    ensures Count([StepEnd(SearchTitle, FoundDescription(c, q))], k) == if k == EndMark(q) then 1 else 0
  {
    var m := StepEnd(SearchTitle, FoundDescription(c, q));
    CountOne(m, k);
    if k.EndMark? && Marks(m, k) {
      var n: nat :| m.description == FoundDescription(n, k.query);
      FoundDescriptionInjective(n, k.query, c, q);
    }
    if k == EndMark(q) {
      assert m.description == FoundDescription(c, q);
    }
  }

  /** The announcing messages of a query: only its status line is marked. */
  lemma QueryCount(t: Tracker, q: string, k: Mark)
    requires t.title == SearchTitle
    ensures Count(QueryMessages(t, q), k) == if k == StatusMark(q) && q !in t.announced then 1 else 0
    ensures NoFetch(QueryMessages(t, q))
  {
    TitlesDistinct();
    var a := if q !in t.started && !t.open then [StepStart(SearchTitle, "Searching for " + Quoted(q) + ".")] else [];
    var b := if q !in t.announced then [StepStatus(SearchTitle, StatusText(q))] else [];
    assert QueryMessages(t, q) == a + b;
    CountAppend(a, b, k);
    CountNone(a, k);
    if q !in t.announced {
      StatusCount(q, k);
    }
  }

  /** The search-step messages of a candidates signal: the query's status
      line and end, or the keyless end. */
  lemma CandidatesCount(t: Tracker, q: string, c: nat, k: Mark)
    requires t.title == SearchTitle
    ensures Count(CandidatesMessages(t, q, c), k)
            == if q != [] then
                 (if k == StatusMark(q) && q !in t.announced then 1 else 0)
                 + (if k == EndMark(q) && q !in t.completed then 1 else 0)
               else if k == EndMark([]) && !t.completedWithoutQuery then 1 else 0
    ensures NoFetch(CandidatesMessages(t, q, c))
  {
    EndCount(q, c, k);
    if q != [] {
      QueryCount(t, q, k);
      var tail := if q !in t.completed then [StepEnd(SearchTitle, FoundDescription(c, q))] else [];
      assert CandidatesMessages(t, q, c) == QueryMessages(t, q) + tail;
      CountAppend(QueryMessages(t, q), tail, k);
      NoFetchAppend(QueryMessages(t, q), tail);
    }
  }

  /** The rank step's start is marked as such only. */
  lemma RankOpeningCount(started: bool, k: Mark)
    ensures Count(RankOpening(started), k) == if k == RankStartMark && !started then 1 else 0
    ensures NoFetch(RankOpening(started))
  {
    TitlesDistinct();
    if !started {
      CountOne(StepStart(RankTitle, RankStartDescription), k);
    }
  }

  /** Announcing a query keeps the marks: its status line is emitted when
      it is first announced. */
  lemma QueryKeeps(s: State, q: string)
    requires Steady(s)
    ensures var t := s.search;
            Keeps(s, (s.(search := t.(started := t.started + {q}, announced := t.announced + {q},
                                      open := t.open || q !in t.started)),
                      QueryMessages(t, q)))
  {
    var t := s.search;
    var s' := s.(search := t.(started := t.started + {q}, announced := t.announced + {q},
                              open := t.open || q !in t.started));
    var ms := QueryMessages(t, q);
    forall k ensures Tallies(s, (s', ms), k) {
      QueryCount(t, q, k);
    }
    QueryCount(t, q, RankEndMark);
    NoEndOrdered(ms);
  }

  lemma CandidatesTallies(s: State, q: string, c: nat, k: Mark)
    requires Steady(s)
    ensures Tallies(s, (s.(search := CandidatesTracker(s.search, q), rankStarted := true),
                        CandidatesMessages(s.search, q, c) + RankOpening(s.rankStarted)), k)
  {
    CandidatesCount(s.search, q, c, k);
    RankOpeningCount(s.rankStarted, k);
    CountAppend(CandidatesMessages(s.search, q, c), RankOpening(s.rankStarted), k);
    CandidatesFlags(s, q, k);
  }

  lemma CandidatesFlags(s: State, q: string, k: Mark)
    ensures Flag(s.(search := CandidatesTracker(s.search, q), rankStarted := true), k)
            == (|| Flag(s, k) || k == RankStartMark
                || (q != [] && (k == StatusMark(q) || k == EndMark(q)))
                || (q == [] && k == EndMark([])))
  {
  }

  /** A candidates signal keeps the marks: the query's status line and end,
      or the keyless end, and the rank start, each when first flagged. */
  lemma CandidatesKeeps(s: State, q: string, c: nat)
    requires Steady(s)
    ensures Keeps(s, (s.(search := CandidatesTracker(s.search, q), rankStarted := true),
                      CandidatesMessages(s.search, q, c) + RankOpening(s.rankStarted)))
  {
    var s' := s.(search := CandidatesTracker(s.search, q), rankStarted := true);
    var ms := CandidatesMessages(s.search, q, c);
    var rank := RankOpening(s.rankStarted);
    forall k ensures Tallies(s, (s', ms + rank), k) {
      CandidatesTallies(s, q, c, k);
    }
    CandidatesCount(s.search, q, c, RankEndMark);
    RankOpeningCount(s.rankStarted, RankEndMark);
    CountAppend(ms, rank, RankEndMark);
    NoEndOrdered(ms + rank);
    NoFetchAppend(ms, rank);
  }

  /** The fetch batch holds no url announced before. */
  lemma BatchFresh(d: seq<Page>, announced: set<string>, limit: Option<nat>)
    ensures UrlSet(TakeOpt(Unannounced(d, announced), limit)) !! announced
  {
    var u := Unannounced(d, announced);
    var b := TakeOpt(u, limit);
    forall i | 0 <= i < |b| ensures b[i].url !in announced {
      assert b[i] == u[i] && u[i] in u;
    }
  }

  /** The only fetch start of a ranked batch is its last message. */
  lemma FetchAtEnd(pre: seq<Msg>, batch: seq<Page>)
    requires NoFetch(pre)
    ensures var ms := pre + FetchOf(batch);
            forall i | 0 <= i < |ms| && ms[i].FetchStart? :: i == |pre| && ms[i].pages == batch
  {
    var ms := pre + FetchOf(batch);
    forall i | 0 <= i < |pre| ensures !ms[i].FetchStart? {
      assert ms[i] == pre[i];
    }
  }

  /** The rank end a ranked batch emits, if the step was not completed. */
  predicate RankClosing(s: State, ended: seq<Msg>) {
    && |ended| == (if s.rankCompleted then 0 else 1)
    && forall i | 0 <= i < |ended| :: ended[i].StepEnd? && ended[i].title == RankTitle
  }

  /** The state after a ranked batch. */
  function RankedState(s: State, batch: seq<Page>): State {
    s.(rankStarted := true, rankCompleted := true, fetchAnnounced := s.fetchAnnounced + UrlSet(batch))
  }

  lemma RankClosingCount(s: State, ended: seq<Msg>, k: Mark)
    requires RankClosing(s, ended)
    ensures Count(ended, k) == if k == RankEndMark && !s.rankCompleted then 1 else 0
  {
    TitlesDistinct();
    if !s.rankCompleted {
      assert ended == [ended[0]];
      CountOne(ended[0], k);
    } else {
      assert ended == [];
    }
  }

  lemma FetchOfCount(batch: seq<Page>, k: Mark)
    ensures Count(FetchOf(batch), k) == 0
  {
    if batch != [] {
      CountOne(FetchStart(FetchTitle, batch), k);
    }
  }

  lemma RankedFlags(s: State, batch: seq<Page>, k: Mark)
    ensures Flag(RankedState(s, batch), k) == (k == RankStartMark || k == RankEndMark || Flag(s, k))
  {
  }

  lemma RankedCount(s: State, ended: seq<Msg>, batch: seq<Page>, k: Mark)
    requires RankClosing(s, ended)
    ensures Count(RankOpening(s.rankStarted) + ended + FetchOf(batch), k)
            == (if k == RankStartMark && !s.rankStarted then 1 else 0) + (if k == RankEndMark && !s.rankCompleted then 1 else 0)
  {
    var started := RankOpening(s.rankStarted);
    var fetch := FetchOf(batch);
    RankOpeningCount(s.rankStarted, k);
    RankClosingCount(s, ended, k);
    FetchOfCount(batch, k);
    CountAppend(started, ended, k);
    CountAppend(started + ended, fetch, k);
  }

  lemma RankedTallies(s: State, ended: seq<Msg>, batch: seq<Page>, k: Mark)
    requires Steady(s) && RankClosing(s, ended)
    ensures Tallies(s, (RankedState(s, batch), RankOpening(s.rankStarted) + ended + FetchOf(batch)), k)
  {
    RankedCount(s, ended, batch, k);
    RankedFlags(s, batch, k);
  }

  lemma RankedOrdered(s: State, ended: seq<Msg>, batch: seq<Page>)
    requires Steady(s) && RankClosing(s, ended)
    ensures NoStartAfterEnd(RankOpening(s.rankStarted) + ended + FetchOf(batch))
  {
    var started := RankOpening(s.rankStarted);
    var fetch := FetchOf(batch);
    RankOpeningCount(s.rankStarted, RankEndMark);
    RankClosingCount(s, ended, RankStartMark);
    FetchOfCount(batch, RankStartMark);
    CountAppend(ended, fetch, RankStartMark);
    SplitOrdered(started, ended + fetch);
    assert started + ended + fetch == started + (ended + fetch);
  }

  lemma RankedFresh(s: State, ended: seq<Msg>, batch: seq<Page>)
    requires Steady(s) && RankClosing(s, ended)
    requires UrlSet(batch) !! s.fetchAnnounced
    ensures FetchFresh(s, (RankedState(s, batch), RankOpening(s.rankStarted) + ended + FetchOf(batch)))
  {
    var started := RankOpening(s.rankStarted);
    RankOpeningCount(s.rankStarted, RankEndMark);
    assert NoFetch(ended);
    NoFetchAppend(started, ended);
    FetchAtEnd(started + ended, batch);
  }

  /** A ranked batch keeps the marks, puts the rank end after the rank
      start, and announces only urls not announced before. */
  lemma RankedShapeKeeps(s: State, ended: seq<Msg>, batch: seq<Page>)
    requires Steady(s) && RankClosing(s, ended)
    requires UrlSet(batch) !! s.fetchAnnounced
    ensures Keeps(s, (RankedState(s, batch), RankOpening(s.rankStarted) + ended + FetchOf(batch)))
  {
    forall k ensures Tallies(s, (RankedState(s, batch), RankOpening(s.rankStarted) + ended + FetchOf(batch)), k) {
      RankedTallies(s, ended, batch, k);
    }
    RankedOrdered(s, ended, batch);
    RankedFresh(s, ended, batch);
  }

  lemma SearchQueryKeeps(s: State, query: string)
    requires Steady(s)
    ensures Keeps(s, HandleSearchQuery(s, query))
  {
    if IsBlank(query) {
      QuietKeeps(s, (s, []));
    } else {
      HandleSearchQuerySpec(s, query);
      QueryKeeps(s, Strip(query));
    }
  }

  lemma SearchCandidatesKeeps(s: State, query: string, candidates: seq<CandidateItem>)
    requires Steady(s)
    ensures Keeps(s, HandleSearchCandidates(s, query, candidates))
  {
    HandleSearchCandidatesSpec(s, query, candidates);
    CandidatesKeeps(s, Strip(query), |candidates|);
  }

  lemma RankedKeeps(s: State, selections: seq<RankedItem>)
    requires Steady(s)
    ensures Keeps(s, HandleRanked(s, selections))
  {
    var d := Dedup(RankedPages(selections));
    var ranked := TakeOpt(d, RankLimit(s));
    var batch := TakeOpt(Unannounced(d, s.fetchAnnounced), FetchLimit(s));
    var ended := if s.rankCompleted then []
                 else [StepEnd(RankTitle, "Selected " + NatToString(|ranked|) + " pages for deeper research.")];
    HandleRankedSpec(s, selections);
    BatchFresh(d, s.fetchAnnounced, FetchLimit(s));
    RankedShapeKeeps(s, ended, batch);
  }

  lemma RouteKeeps(s: State, route: Route)
    requires Steady(s)
    ensures Keeps(s, HandleRoute(s, route))
  {
    var r := HandleRoute(s, route);
    HandleRouteSpec(s, route);
    TitlesDistinct();
    assert QuietAll(r.1);
    QuietKeeps(s, r);
  }

  lemma FetchedKeeps(s: State, results: seq<ResultItem>)
    requires Steady(s)
    ensures Keeps(s, HandleFetched(s, results))
  {
    var r := HandleFetched(s, results);
    assert QuietAll(r.1);
    QuietKeeps(s, r);
  }

  lemma ChunkKeeps(s: State, source: string, content: string)
    requires Steady(s)
    ensures Keeps(s, HandleChunk(s, source, content))
  {
    var r := HandleChunk(s, source, content);
    HandleChunkSpec(s, source, content);
    if source in s.sources && content != [] {
      AnswerOpeningQuiet(s);
      QuietAppend((if s.codingOpen then [StepEnd(s.cfg.codingTitle, CodingDoneDescription)] else [])
                  + (if s.answerStarted then [] else [AnswerStart(s.cfg.answerTitle, s.answerDescription)]),
                  [AnswerDelta(s.cfg.answerTitle, content)]);
    }
    QuietKeeps(s, r);
  }

  /** Closing the coding step and starting the answer emit no mark. */
  lemma AnswerOpeningQuiet(s: State)
    requires Steady(s)
    ensures QuietAll((if s.codingOpen then [StepEnd(s.cfg.codingTitle, CodingDoneDescription)] else [])
                     + (if s.answerStarted then [] else [AnswerStart(s.cfg.answerTitle, s.answerDescription)]))
  {
    TitlesDistinct();
    var a := if s.codingOpen then [StepEnd(s.cfg.codingTitle, CodingDoneDescription)] else [];
    var b := if s.answerStarted then [] else [AnswerStart(s.cfg.answerTitle, s.answerDescription)];
    assert QuietAll(a) && QuietAll(b);
    QuietAppend(a, b);
  }

  /** The terminal batch keeps everything: it closes the coding step,
      opens and closes the answer and emits the answer, none of them
      marked. */
  lemma TerminalShapeKeeps(s: State, answer: Msg)
    requires Steady(s) && answer.Answer?
    ensures Keeps(s, (s.(codingOpen := false, answerStarted := true, answerCompleted := true, finished := true),
                      (if s.codingOpen then [StepEnd(s.cfg.codingTitle, CodingDoneDescription)] else [])
                      + (if s.answerStarted then [] else [AnswerStart(s.cfg.answerTitle, s.answerDescription)])
                      + (if s.answerCompleted then [] else [AnswerEnd(s.cfg.answerTitle)])
                      + [answer]))
  {
    var a := (if s.codingOpen then [StepEnd(s.cfg.codingTitle, CodingDoneDescription)] else [])
             + (if s.answerStarted then [] else [AnswerStart(s.cfg.answerTitle, s.answerDescription)]);
    var c := if s.answerCompleted then [] else [AnswerEnd(s.cfg.answerTitle)];
    AnswerOpeningQuiet(s);
    assert QuietAll(c) && QuietAll([answer]);
    QuietAppend(a, c);
    QuietAppend(a + c, [answer]);
    QuietKeeps(s, (s.(codingOpen := false, answerStarted := true, answerCompleted := true, finished := true), a + c + [answer]));
  }

  lemma TerminalKeeps(s: State, history: seq<HistoryItem>)
    requires Steady(s)
    ensures Keeps(s, HandleTerminal(s, history))
  {
    HandleTerminalSpec(s, history);
    TerminalShapeKeeps(s, Answer(FinalAnswer(s.answerChunks, s.fallbackSegments, history, s.sources),
                                 if s.citations == [] then None else Some(s.citations)));
  }

  /** Every signal's batch keeps the marks, the rank order and the fetch
      announcements. */
  lemma ProcessKeeps(v: Variant, s: State, signal: Signal)
    requires Steady(s)
    ensures Keeps(s, Process(v, s, signal))
  {
    match signal
    case RoutePlan(route) =>
      RouteDispatch(v, s, route);
      RouteKeeps(s, route);
    case Plan(plan) =>
      PlanDispatch(v, s, plan);
      HandlePlanSpec(s, plan);
      QuietKeeps(s, HandlePlan(s, plan));
    case SearchQuery(query) =>
      assert Process(v, s, signal) == ProcessSearch(v, s, signal);
      if v == AgentModule {
        SearchQueryKeeps(s, query);
      } else {
        QuietKeeps(s, (s, []));
      }
    case SearchCandidates(query, candidates) =>
      SearchCandidatesDispatch(v, s, query, candidates);
      SearchCandidatesKeeps(s, query, candidates);
    case RankedResults(selections) =>
      RankedDispatch(v, s, selections);
      RankedKeeps(s, selections);
    case FetchedResults(results) =>
      FetchedDispatch(v, s, results);
      FetchedKeeps(s, results);
    case StreamingChunk(source, content) =>
      ChunkDispatch(v, s, source, content);
      ChunkKeeps(s, source, content);
    case TextMessage(source, content) =>
      TextDispatch(v, s, source, content);
      HandleTextSpec(s, source, content);
      QuietKeeps(s, HandleText(s, source, content));
    case TaskResult(history) =>
      TerminalDispatch(v, s, history);
      TerminalKeeps(s, history);
    case Unhandled => QuietKeeps(s, (s, []));
  }

  // A whole run.

  /** A batch followed by a run keeps what each keeps. */
  lemma ComposeKeeps(s: State, s1: State, batch: seq<Msg>, r: (State, seq<Msg>))
    requires Keeps(s, (s1, batch)) && Keeps(s1, r)
    ensures Keeps(s, (r.0, batch + r.1))
  {
    var ms := batch + r.1;
    forall k ensures Tallies(s, (r.0, ms), k) {
      CountAppend(batch, r.1, k);
      assert Tallies(s, (s1, batch), k) && Tallies(s1, r, k);
    }
    ComposeOrdered(s, s1, batch, r);
    ComposeFresh(s, s1, batch, r);
  }

  lemma ComposeOrdered(s: State, s1: State, batch: seq<Msg>, r: (State, seq<Msg>))
    requires Keeps(s, (s1, batch)) && Keeps(s1, r)
    ensures NoStartAfterEnd(batch + r.1)
  {
    var ms := batch + r.1;
    forall i, j | 0 <= i < j < |ms| && Marks(ms[i], RankEndMark) ensures !Marks(ms[j], RankStartMark) {
      if j < |batch| {
        assert ms[i] == batch[i] && ms[j] == batch[j];
      } else if i >= |batch| {
        assert ms[i] == r.1[i - |batch|] && ms[j] == r.1[j - |batch|];
      } else {
        assert ms[i] == batch[i] && ms[j] == r.1[j - |batch|];
        CountPositive(batch, RankEndMark, i);
        assert Tallies(s, (s1, batch), RankEndMark) && Tallies(s1, r, RankStartMark);
        CountZeroNone(r.1, RankStartMark);
      }
    }
  }

  lemma ComposeFresh(s: State, s1: State, batch: seq<Msg>, r: (State, seq<Msg>))
    requires FetchFresh(s, (s1, batch)) && FetchFresh(s1, r)
    ensures FetchFresh(s, (r.0, batch + r.1))
  {
    var ms := batch + r.1;
    forall i | 0 <= i < |ms| && ms[i].FetchStart?
      ensures UrlSet(ms[i].pages) <= r.0.fetchAnnounced && UrlSet(ms[i].pages) !! s.fetchAnnounced
    {
      if i < |batch| {
        assert ms[i] == batch[i];
      } else {
        assert ms[i] == r.1[i - |batch|];
      }
    }
    forall i, j | 0 <= i < j < |ms| && ms[i].FetchStart? && ms[j].FetchStart?
      ensures UrlSet(ms[i].pages) !! UrlSet(ms[j].pages)
    {
      if j < |batch| {
        assert ms[i] == batch[i] && ms[j] == batch[j];
      } else if i >= |batch| {
        assert ms[i] == r.1[i - |batch|] && ms[j] == r.1[j - |batch|];
      } else {
        assert ms[i] == batch[i] && ms[j] == r.1[j - |batch|];
      }
    }
  }

  /** The marks, the rank order and the fetch announcements over a run of
      any length. */
  lemma {:induction false} DriveKeeps(v: Variant, s: State, signals: seq<Signal>)
    requires Steady(s)
    ensures Keeps(s, Drive(v, s, signals))
    decreases |signals|
  {
    if |signals| == 0 {
      QuietKeeps(s, (s, []));
    } else {
      var (s1, batch) := Process(v, s, signals[0]);
      ProcessKeeps(v, s, signals[0]);
      if !s1.finished {
        DriveKeeps(v, s1, signals[1..]);
        ComposeKeeps(s, s1, batch, Drive(v, s1, signals[1..]));
      }
    }
  }

  lemma TurnStartSteady()
    ensures Steady(TurnStartState())
    ensures forall k :: !Flag(TurnStartState(), k)
  {
  }

  /** Over a whole turn the rank step starts exactly once if it starts at
      all, ends at most once, and its end comes after its start. */
  lemma RankStepOnce(v: Variant, signals: seq<Signal>)
    ensures var r := Drive(v, TurnStartState(), signals);
            && Count(r.1, RankStartMark) == (if r.0.rankStarted then 1 else 0)
            && Count(r.1, RankEndMark) == (if r.0.rankCompleted then 1 else 0)
            && (forall i | 0 <= i < |r.1| && Marks(r.1[i], RankEndMark) ::
                  exists j :: 0 <= j < i && Marks(r.1[j], RankStartMark))
  {
    var s := TurnStartState();
    var r := Drive(v, s, signals);
    TurnStartSteady();
    DriveKeeps(v, s, signals);
    assert Tallies(s, r, RankStartMark) && Tallies(s, r, RankEndMark);
    if r.0.rankStarted {
      var j := CountWitness(r.1, RankStartMark);
      StartBeforeEnd(r.1, j);
    } else {
      CountZeroNone(r.1, RankEndMark);
    }
  }

  /** In messages with no rank start after a rank end, every rank end
      comes after a rank start as soon as there is one. */
  lemma StartBeforeEnd(ms: seq<Msg>, j: nat)
    requires NoStartAfterEnd(ms)
    requires j < |ms| && Marks(ms[j], RankStartMark)
    ensures forall i | 0 <= i < |ms| && Marks(ms[i], RankEndMark) ::
              exists j' :: 0 <= j' < i && Marks(ms[j'], RankStartMark)
  {
    forall i | 0 <= i < |ms| && Marks(ms[i], RankEndMark)
      ensures exists j' :: 0 <= j' < i && Marks(ms[j'], RankStartMark)
    {
      OrderAt(ms, i, j);
      assert ms[i].StepEnd? && ms[j].StepStart?;
      assert j < i;
    }
  }

  lemma OrderAt(ms: seq<Msg>, i: nat, j: nat)
    requires NoStartAfterEnd(ms)
    ensures i < j < |ms| && Marks(ms[i], RankEndMark) ==> !Marks(ms[j], RankStartMark)
  {
  }

  /** Over a whole turn each query gets one status line on the search step
      if it was announced and none otherwise, and one end if it was
      completed and none otherwise; the keyless end appears once if the
      step was completed without a query and never otherwise. */
  lemma SearchStepsOnce(v: Variant, signals: seq<Signal>)
    ensures var r := Drive(v, TurnStartState(), signals);
            forall q ::
              && Count(r.1, StatusMark(q)) == (if q in r.0.search.announced then 1 else 0)
              && Count(r.1, EndMark(q))
                 == (if (if q == [] then r.0.search.completedWithoutQuery else q in r.0.search.completed) then 1 else 0)
  {
    var s := TurnStartState();
    var r := Drive(v, s, signals);
    TurnStartSteady();
    DriveKeeps(v, s, signals);
    forall q
      ensures && Count(r.1, StatusMark(q)) == (if q in r.0.search.announced then 1 else 0)
              && Count(r.1, EndMark(q))
                 == (if (if q == [] then r.0.search.completedWithoutQuery else q in r.0.search.completed) then 1 else 0)
    {
      assert Tallies(s, r, StatusMark(q)) && Tallies(s, r, EndMark(q));
    }
  }

  /** Over a whole turn no url is announced in two fetch starts, and every
      announced url is recorded as such. */
  lemma FetchBatchesDisjoint(v: Variant, signals: seq<Signal>)
    ensures var r := Drive(v, TurnStartState(), signals);
            && (forall i, j | 0 <= i < j < |r.1| && r.1[i].FetchStart? && r.1[j].FetchStart? ::
                  UrlSet(r.1[i].pages) !! UrlSet(r.1[j].pages))
            && (forall i | 0 <= i < |r.1| && r.1[i].FetchStart? :: UrlSet(r.1[i].pages) <= r.0.fetchAnnounced)
  {
    TurnStartSteady();
    DriveKeeps(v, TurnStartState(), signals);
  }
}
