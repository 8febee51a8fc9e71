/** The two page-selection loops of the event processor: the ranked-results
    loop (rank cap, fetch cap, turn-wide fetch announcements) and the
    fetched-results loop (fetch cap with early exit). Each loop is written as
    a step function folded over a prefix of the input, exactly as the loop
    body runs, and is then related to a reference definition: deduplicate by
    url, then take a prefix of the allowed length. */
module Selection {
  import opened Wrappers
  import opened Text
  import opened Messages

  /** One search hit as the search agent reports it. */
  datatype CandidateItem = CandidateItem(title: string, url: string, snippet: string, favicon: Option<string>)

  /** One page chosen by the ranking agent. */
  datatype RankedItem = RankedItem(title: string, url: string, snippet: string, reason: string, favicon: Option<string>)

  /** One fetched page with its detail summary. */
  datatype ResultItem = ResultItem(title: string, url: string, favicon: Option<string>, snippet: string, detail: string)

  /** `x.strip() if x else None` for a required string field. */
  function StripIfTruthy(s: string): Option<string> {
    if s == "" then None else Some(Strip(s))
  }

  /** `x.strip() if x else None` for an optional string field. */
  function StripOptional(s: Option<string>): Option<string> {
    if Truthy(s) then Some(Strip(s.value)) else None
  }

  /** The page the ranked-results loop builds for one selection. */
  function RankedPage(item: RankedItem): Option<Page> {
    BuildPage(Strip(item.url), StripIfTruthy(item.title), StripIfTruthy(item.snippet), StripOptional(item.favicon))
  }

  /** The detail text a fetched page is cited with: the detail summary if it
      is non-empty, else the snippet, stripped. */
  function Detail(item: ResultItem): string {
    Strip(if item.detail != "" then item.detail else item.snippet)
  }

  /** The page the fetched-results loop builds for one result. */
  function FetchedPage(item: ResultItem): Option<Page> {
    var detail := Detail(item);
    BuildPage(Strip(item.url), StripIfTruthy(item.title), if detail != "" then Some(detail) else None, StripOptional(item.favicon))
  }

  // Reference definitions.

  function UrlSet(ps: seq<Page>): set<string> {
    set i | 0 <= i < |ps| :: ps[i].url
  }

  predicate DistinctUrls(ps: seq<Page>) {
    forall i, j :: 0 <= i < j < |ps| ==> ps[i].url != ps[j].url
  }

  /** The pages of the selections whose stripped url is non-blank, in order. */
  function RankedPages(items: seq<RankedItem>): (ps: seq<Page>)
    ensures forall p :: p in ps ==> WellFormed(p)
  {
    if |items| == 0 then []
    else
      var p := RankedPage(items[|items| - 1]);
      RankedPages(items[..|items| - 1]) + (if p.Some? then [p.value] else [])
  }

  /** The pages of the results whose stripped url is non-blank, in order. */
  function FetchedPages(items: seq<ResultItem>): (ps: seq<Page>)
    ensures forall p :: p in ps ==> WellFormed(p)
  {
    if |items| == 0 then []
    else
      var p := FetchedPage(items[|items| - 1]);
      FetchedPages(items[..|items| - 1]) + (if p.Some? then [p.value] else [])
  }

  lemma UrlSetSnoc(ps: seq<Page>, p: Page)
    ensures UrlSet(ps + [p]) == UrlSet(ps) + {p.url}
  {
    var q := ps + [p];
    forall u | u in UrlSet(q) ensures u in UrlSet(ps) + {p.url} {
      var i :| 0 <= i < |q| && q[i].url == u;
      if i < |ps| { assert q[i] == ps[i]; }
    }
    forall u | u in UrlSet(ps) ensures u in UrlSet(q) {
      var i :| 0 <= i < |ps| && ps[i].url == u;
      assert q[i] == ps[i];
    }
    assert q[|ps|] == p;
  }

  /** The position of the first page with url `u`. */
  function FirstIndex(ps: seq<Page>, u: string): (i: nat)
    requires u in UrlSet(ps)
    ensures i < |ps| && ps[i].url == u
    ensures forall k :: 0 <= k < i ==> ps[k].url != u
  {
    var n := |ps| - 1;
    assert ps == ps[..n] + [ps[n]];
    UrlSetSnoc(ps[..n], ps[n]);
    if u in UrlSet(ps[..n]) then FirstIndex(ps[..n], u) else n
  }

  /** Every page of `r` is the first page of `ps` with its url. */
  predicate AtFirstPositions(ps: seq<Page>, r: seq<Page>) {
    forall i :: 0 <= i < |r| ==> r[i].url in UrlSet(ps) && r[i] == ps[FirstIndex(ps, r[i].url)]
  }

  /** The pages of `r` come in the order their urls first occur in `ps`. */
  predicate InFirstOrder(ps: seq<Page>, r: seq<Page>) {
    forall i, j | 0 <= i < j < |r| && r[i].url in UrlSet(ps) && r[j].url in UrlSet(ps) ::
      FirstIndex(ps, r[i].url) < FirstIndex(ps, r[j].url)
  }

  /** Keeps the first page of every url, in input order: the result has one
      page per url of the input, each the first input page with that url,
      ordered by where those pages occur in the input. */
  function Dedup(ps: seq<Page>): (r: seq<Page>)
    ensures DistinctUrls(r)
    ensures UrlSet(r) == UrlSet(ps)
    ensures forall p :: p in r ==> p in ps
    ensures forall i :: 0 <= i < |r| ==> r[i].url in UrlSet(ps) && r[i] == ps[FirstIndex(ps, r[i].url)]
    ensures forall i, j :: 0 <= i < j < |r| ==> FirstIndex(ps, r[i].url) < FirstIndex(ps, r[j].url)
  {
    if |ps| == 0 then []
    else
      var n := |ps| - 1;
      var d := Dedup(ps[..n]);
      var p := ps[n];
      assert ps == ps[..n] + [p];
      UrlSetSnoc(ps[..n], p);
      UrlSetSnoc(d, p);
      assert AtFirstPositions(ps[..n], d) && InFirstOrder(ps[..n], d);
      DedupPositions(ps, d);
      if p.url in UrlSet(d) then
        d
      else
        DedupAppend(ps, d);
        d + [p]
  }

  /** The first positions of a prefix's pages do not move when a page is
      appended. */
  lemma DedupPositions(ps: seq<Page>, d: seq<Page>)
    requires |ps| > 0 && AtFirstPositions(ps[..|ps| - 1], d) && InFirstOrder(ps[..|ps| - 1], d)
    ensures AtFirstPositions(ps, d) && InFirstOrder(ps, d)
    ensures forall i :: 0 <= i < |d| ==> d[i].url in UrlSet(ps) && FirstIndex(ps, d[i].url) < |ps| - 1
  {
    var n := |ps| - 1;
    forall i | 0 <= i < |d|
      ensures d[i].url in UrlSet(ps) && FirstIndex(ps, d[i].url) == FirstIndex(ps[..n], d[i].url) < n
    {
      FirstIndexOfPrefix(ps, d[i].url);
    }
    forall i | 0 <= i < |d| ensures d[i] == ps[FirstIndex(ps, d[i].url)] {
      assert d[i] == ps[..n][FirstIndex(ps[..n], d[i].url)];
    }
  }

  /** Appending a page with a new url keeps the first positions and the
      order. */
  lemma DedupAppend(ps: seq<Page>, d: seq<Page>)
    requires |ps| > 0 && UrlSet(d) == UrlSet(ps[..|ps| - 1]) && ps[|ps| - 1].url !in UrlSet(d)
    requires AtFirstPositions(ps, d)
    requires forall i :: 0 <= i < |d| ==> d[i].url in UrlSet(ps) && FirstIndex(ps, d[i].url) < |ps| - 1
    requires InFirstOrder(ps, d)
    ensures var r := d + [ps[|ps| - 1]];
            && (forall i :: 0 <= i < |r| ==> r[i].url in UrlSet(ps) && r[i] == ps[FirstIndex(ps, r[i].url)])
            && (forall i, j :: 0 <= i < j < |r| ==> FirstIndex(ps, r[i].url) < FirstIndex(ps, r[j].url))
  {
    var n := |ps| - 1;
    var p := ps[n];
    var r := d + [p];
    assert p.url in UrlSet(ps);
    FirstIndexOfLast(ps);
    forall i, j | 0 <= i < j < |r| ensures FirstIndex(ps, r[i].url) < FirstIndex(ps, r[j].url) {
      assert r[i] == d[i];
      if j < |d| {
        assert r[j] == d[j];
      }
    }
  }

  /** The last page's url, when it does not occur before, is first found at
      the last position. */
  lemma FirstIndexOfLast(ps: seq<Page>)
    requires |ps| > 0 && ps[|ps| - 1].url !in UrlSet(ps[..|ps| - 1])
    ensures ps[|ps| - 1].url in UrlSet(ps) && FirstIndex(ps, ps[|ps| - 1].url) == |ps| - 1
  {
    assert ps[|ps| - 1].url in UrlSet(ps);
  }

  /** A url of a prefix keeps its first position in the whole sequence. */
  lemma FirstIndexOfPrefix(ps: seq<Page>, u: string)
    requires |ps| > 0 && u in UrlSet(ps[..|ps| - 1])
    ensures u in UrlSet(ps) && FirstIndex(ps, u) == FirstIndex(ps[..|ps| - 1], u) < |ps| - 1
  {
    var n := |ps| - 1;
    var i :| 0 <= i < n && ps[..n][i].url == u;
    assert ps[i].url == u;
  }

  /** The first `limit` pages, or all of them when there is no limit. */
  function TakeOpt(ps: seq<Page>, limit: Option<nat>): (r: seq<Page>)
    ensures r <= ps
    ensures limit.Some? ==> |r| == if |ps| < limit.value then |ps| else limit.value
    ensures limit.None? ==> r == ps
  {
    if limit.None? || |ps| <= limit.value then ps else ps[..limit.value]
  }

  /** The pages whose url is not in `announced`, in order. */
  function Unannounced(ps: seq<Page>, announced: set<string>): (r: seq<Page>)
    ensures forall p :: p in r ==> p in ps && p.url !in announced
  {
    if |ps| == 0 then []
    else
      var p := ps[|ps| - 1];
      Unannounced(ps[..|ps| - 1], announced) + (if p.url in announced then [] else [p])
  }

  // The ranked-results loop.

  /** The loop variables of the ranked-results loop. `announced` is the
      processor's turn-wide set of urls already sent in a fetch start. */
  datatype RankAcc = RankAcc(seen: set<string>, ranked: seq<Page>, batch: seq<Page>, announced: set<string>)

  /** One iteration of the ranked-results loop. */
  function RankStep(a: RankAcc, item: RankedItem, rankLimit: Option<nat>, fetchLimit: Option<nat>): RankAcc {
    var url := Strip(item.url);
    if url == [] || url in a.seen then a
    else
      match RankedPage(item)
      case None => a
      case Some(page) => RankAdd(a, page, rankLimit, fetchLimit)
  }

  /** The rest of the iteration once a new page has been built (its url is
      the stripped selection url). */
  function RankAdd(a: RankAcc, page: Page, rankLimit: Option<nat>, fetchLimit: Option<nat>): RankAcc {
    var url := page.url;
    var ranked := if rankLimit.None? || |a.ranked| < rankLimit.value then a.ranked + [page] else a.ranked;
    if url !in a.announced && (fetchLimit.None? || |a.batch| < fetchLimit.value) then
      RankAcc(a.seen + {url}, ranked, a.batch + [page], a.announced + {url})
    else
      RankAcc(a.seen + {url}, ranked, a.batch, a.announced)
  }

  /** The loop variables after the loop has run over all of `items`. */
  function RankScan(items: seq<RankedItem>, rankLimit: Option<nat>, fetchLimit: Option<nat>, announced: set<string>): (r: RankAcc)
  {
    if |items| == 0 then RankAcc({}, [], [], announced)
    else RankStep(RankScan(items[..|items| - 1], rankLimit, fetchLimit, announced), items[|items| - 1], rankLimit, fetchLimit)
  }

  lemma TakeOptSnoc(ps: seq<Page>, p: Page, limit: Option<nat>)
    ensures TakeOpt(ps + [p], limit)
            == if limit.None? || |ps| < limit.value then ps + [p] else TakeOpt(ps, limit)
  {
    if limit.Some? && |ps| >= limit.value {
      assert (ps + [p])[..limit.value] == TakeOpt(ps, limit);
    }
  }

  lemma UrlSetOfPrefix(ps: seq<Page>, qs: seq<Page>)
    requires forall p :: p in ps ==> p in qs
    ensures UrlSet(ps) <= UrlSet(qs)
  {
    forall u | u in UrlSet(ps) ensures u in UrlSet(qs) {
      var i :| 0 <= i < |ps| && ps[i].url == u;
      assert ps[i] in qs;
    }
  }


  lemma RankedPagesSnoc(items: seq<RankedItem>)
    requires |items| > 0
    ensures RankedPages(items) == RankedPages(items[..|items| - 1])
              + (if Strip(items[|items| - 1].url) == [] then [] else [RankedPage(items[|items| - 1]).value])
  {
  }

  /** The loop invariant of the ranked-results loop against the distinct
      valid pages `d` of the selections seen so far. */
  predicate RankInv(a: RankAcc, d: seq<Page>, rankLimit: Option<nat>, fetchLimit: Option<nat>, announced: set<string>) {
    && a.seen == UrlSet(d)
    && a.ranked == TakeOpt(d, rankLimit)
    && a.batch == TakeOpt(Unannounced(d, announced), fetchLimit)
    && a.announced == announced + UrlSet(a.batch)
  }

  lemma UnannouncedSnoc(d: seq<Page>, p: Page, announced: set<string>)
    ensures Unannounced(d + [p], announced) == Unannounced(d, announced) + (if p.url in announced then [] else [p])
  {
    assert (d + [p])[..|d|] == d;
  }

  lemma RankAddKeepsInv(a: RankAcc, d: seq<Page>, page: Page, rankLimit: Option<nat>, fetchLimit: Option<nat>, announced: set<string>)
    requires RankInv(a, d, rankLimit, fetchLimit, announced)
    requires page.url !in a.seen
    ensures RankInv(RankAdd(a, page, rankLimit, fetchLimit), d + [page], rankLimit, fetchLimit, announced)
  {
    RankAddRanked(a, d, page, rankLimit, fetchLimit);
    RankAddBatch(a, d, page, rankLimit, fetchLimit, announced);
  }

  lemma RankAddRanked(a: RankAcc, d: seq<Page>, page: Page, rankLimit: Option<nat>, fetchLimit: Option<nat>)
    requires a.seen == UrlSet(d) && a.ranked == TakeOpt(d, rankLimit)
    ensures var r := RankAdd(a, page, rankLimit, fetchLimit);
            r.seen == UrlSet(d + [page]) && r.ranked == TakeOpt(d + [page], rankLimit)
  {
    UrlSetSnoc(d, page);
    TakeOptSnoc(d, page, rankLimit);
  }

  lemma RankAddBatch(a: RankAcc, d: seq<Page>, page: Page, rankLimit: Option<nat>, fetchLimit: Option<nat>, announced: set<string>)
    requires a.batch == TakeOpt(Unannounced(d, announced), fetchLimit)
    requires a.announced == announced + UrlSet(a.batch)
    requires page.url !in UrlSet(d)
    ensures var r := RankAdd(a, page, rankLimit, fetchLimit);
            && r.batch == TakeOpt(Unannounced(d + [page], announced), fetchLimit)
            && r.announced == announced + UrlSet(r.batch)
  {
    var u := Unannounced(d, announced);
    var u' := Unannounced(d + [page], announced);
    var r := RankAdd(a, page, rankLimit, fetchLimit);
    assert page.url !in UrlSet(a.batch) by {
      BatchWithin(d, announced, fetchLimit);
      UrlSetOfPrefix(a.batch, d);
    }
    assert u' == u + (if page.url in announced then [] else [page]) by {
      UnannouncedSnoc(d, page, announced);
    }
    if page.url in announced {
      assert r.batch == a.batch && r.announced == a.announced;
      assert u' == u;
    } else if fetchLimit.None? || |a.batch| < fetchLimit.value {
      assert r.batch == a.batch + [page] && r.announced == a.announced + {page.url};
      assert TakeOpt(u', fetchLimit) == a.batch + [page] by {
        TakeOptSnoc(u, page, fetchLimit);
      }
      assert UrlSet(a.batch + [page]) == UrlSet(a.batch) + {page.url} by {
        UrlSetSnoc(a.batch, page);
      }
    } else {
      assert r.batch == a.batch && r.announced == a.announced;
      assert TakeOpt(u', fetchLimit) == a.batch by {
        TakeOptSnoc(u, page, fetchLimit);
      }
    }
  }

  /** The fetch batch is drawn from the pages seen. */
  lemma BatchWithin(d: seq<Page>, announced: set<string>, fetchLimit: Option<nat>)
    ensures forall p | p in TakeOpt(Unannounced(d, announced), fetchLimit) :: p in d
  {
    var u := Unannounced(d, announced);
    var b := TakeOpt(u, fetchLimit);
    forall p | p in b ensures p in d {
      var i :| 0 <= i < |b| && b[i] == p;
      assert u[i] == p;
    }
  }

  /** The ranked-results loop computes: ranked = the first `rankLimit`
      distinct valid pages; batch = the first `fetchLimit` of those not yet
      announced; the announcement set grows by exactly the batch. */
  lemma {:induction false} RankScanSpec(items: seq<RankedItem>, rankLimit: Option<nat>, fetchLimit: Option<nat>, announced: set<string>)
    ensures RankInv(RankScan(items, rankLimit, fetchLimit, announced), Dedup(RankedPages(items)), rankLimit, fetchLimit, announced)
  {
    if |items| > 0 {
      var init := items[..|items| - 1];
      var item := items[|items| - 1];
      RankScanSpec(init, rankLimit, fetchLimit, announced);
      var a := RankScan(init, rankLimit, fetchLimit, announced);
      var r := RankScan(items, rankLimit, fetchLimit, announced);
      assert r == RankStep(a, item, rankLimit, fetchLimit);
      var ps := RankedPages(init);
      var d := Dedup(ps);
      RankedPagesSnoc(items);
      var url := Strip(item.url);
      if url == [] {
        assert r == a;
        assert RankedPages(items) == ps;
      } else {
        var page := RankedPage(item).value;
        assert page.url == url;
        assert RankedPages(items) == ps + [page];
        assert (ps + [page])[..|ps|] == ps;
        if url !in a.seen {
          assert r == RankAdd(a, page, rankLimit, fetchLimit);
          assert Dedup(RankedPages(items)) == d + [page];
          RankAddKeepsInv(a, d, page, rankLimit, fetchLimit, announced);
        } else {
          assert r == a;
          assert Dedup(RankedPages(items)) == d;
        }
      }
    }
  }

  // The fetched-results loop.

  /** The loop variables of the fetched-results loop; `stopped` records that
      the loop has left through one of its `break`s. */
  datatype FetchAcc = FetchAcc(seen: set<string>, pages: seq<Page>, stopped: bool)

  /** One iteration of the fetched-results loop. */
  function FetchStep(a: FetchAcc, item: ResultItem, limit: Option<nat>): FetchAcc {
    if a.stopped then a
    else
      var url := Strip(item.url);
      if url == [] || url in a.seen then a
      else
        match FetchedPage(item)
        case None => a
        case Some(page) => FetchAdd(a, page, limit)
  }

  /** The rest of the iteration once a new page has been built. */
  function FetchAdd(a: FetchAcc, page: Page, limit: Option<nat>): FetchAcc {
    var seen := a.seen + {page.url};
    if limit == Some(0) then FetchAcc(seen, a.pages, true)
    else
      var pages := if limit.None? || |a.pages| < limit.value then a.pages + [page] else a.pages;
      FetchAcc(seen, pages, limit.Some? && |pages| >= limit.value)
  }

  function FetchScan(items: seq<ResultItem>, limit: Option<nat>): (r: FetchAcc)
  {
    if |items| == 0 then FetchAcc({}, [], false)
    else FetchStep(FetchScan(items[..|items| - 1], limit), items[|items| - 1], limit)
  }

  lemma FetchedPagesSnoc(items: seq<ResultItem>)
    requires |items| > 0
    ensures FetchedPages(items) == FetchedPages(items[..|items| - 1])
              + (if Strip(items[|items| - 1].url) == [] then [] else [FetchedPage(items[|items| - 1]).value])
  {
  }

  predicate FetchInv(a: FetchAcc, d: seq<Page>, limit: Option<nat>) {
    && a.pages == TakeOpt(d, limit)
    && (!a.stopped ==> a.seen == UrlSet(d) && (limit.Some? ==> |d| < limit.value || d == []))
    && (a.stopped ==> limit.Some? && |d| >= limit.value)
  }

  lemma FetchAddKeepsInv(a: FetchAcc, d: seq<Page>, page: Page, limit: Option<nat>)
    requires FetchInv(a, d, limit) && !a.stopped && page.url !in a.seen
    ensures FetchInv(FetchAdd(a, page, limit), d + [page], limit)
  {
    UrlSetSnoc(d, page);
    TakeOptSnoc(d, page, limit);
  }

  lemma StoppedKeepsInv(a: FetchAcc, d: seq<Page>, page: Page, limit: Option<nat>)
    requires FetchInv(a, d, limit) && a.stopped
    ensures FetchInv(a, d + [page], limit)
  {
    TakeOptSnoc(d, page, limit);
  }

  lemma {:induction false} FetchScanInvariant(items: seq<ResultItem>, limit: Option<nat>)
    ensures FetchInv(FetchScan(items, limit), Dedup(FetchedPages(items)), limit)
  {
    if |items| > 0 {
      var init := items[..|items| - 1];
      var item := items[|items| - 1];
      FetchScanInvariant(init, limit);
      var a := FetchScan(init, limit);
      var r := FetchScan(items, limit);
      assert r == FetchStep(a, item, limit);
      var ps := FetchedPages(init);
      var d := Dedup(ps);
      FetchedPagesSnoc(items);
      var url := Strip(item.url);
      if url == [] {
        assert FetchedPages(items) == ps;
      } else {
        var page := FetchedPage(item).value;
        assert page.url == url;
        assert FetchedPages(items) == ps + [page];
        assert (ps + [page])[..|ps|] == ps;
        if url in UrlSet(d) {
          assert Dedup(FetchedPages(items)) == d;
        } else {
          assert Dedup(FetchedPages(items)) == d + [page];
          if a.stopped {
            assert r == a;
            StoppedKeepsInv(a, d, page, limit);
          } else {
            assert r == FetchAdd(a, page, limit);
            FetchAddKeepsInv(a, d, page, limit);
          }
        }
      }
    }
  }

  /** The fetched-results loop keeps the first `limit` distinct valid pages
      (all of them without a limit, none for a limit of zero). */
  lemma FetchScanSpec(items: seq<ResultItem>, limit: Option<nat>)
    ensures FetchScan(items, limit).pages == TakeOpt(Dedup(FetchedPages(items)), limit)
  {
    FetchScanInvariant(items, limit);
  }
}
