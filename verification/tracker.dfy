/** `StepProgressTracker`: the open/closed flag of one progress step plus the
    per-query bookkeeping that keeps its start, status and end messages from
    being repeated. Every operation returns the new tracker and the zero or
    one messages it emits. Queries are keyed by their stripped text. */
module Tracker {
  import opened Wrappers
  import opened Text
  import opened Messages

  datatype Tracker = Tracker(
    title: string,
    open: bool,
    started: set<string>,
    announced: set<string>,
    completed: set<string>,
    completedWithoutQuery: bool)

  function New(title: string): (t: Tracker)
    ensures t.title == title && !t.open && !t.completedWithoutQuery
    ensures t.started == t.announced == t.completed == {}
  {
    Tracker(title, false, {}, {}, {}, false)
  }

  /** `start_step`: opens a closed step with one `step.start`; an open step
      stays open and nothing is emitted. */
  function StartStep(t: Tracker, description: string): (r: (Tracker, seq<Msg>))
    ensures r.0 == t.(open := true)
    ensures |r.1| == if t.open then 0 else 1
    ensures forall m :: m in r.1 ==> m == StepStart(t.title, description)
  {
    if t.open then (t, []) else (t.(open := true), [StepStart(t.title, description)])
  }

  /** `record_query`: true exactly when the stripped query is non-blank and
      was not recorded before; it is recorded then. */
  function RecordQuery(t: Tracker, query: string): (r: (Tracker, bool))
    ensures r.1 <==> !IsBlank(query) && Strip(query) !in t.started
    ensures r.0 == t.(started := if IsBlank(query) then t.started else t.started + {Strip(query)})
  {
    var key := Strip(query);
    if key == [] || key in t.started then (t, false)
    else (t.(started := t.started + {key}), true)
  }

  /** `emit_status`: one `step.status` the first time a non-blank stripped
      query is seen, nothing for a blank or already announced one. */
  function EmitStatus(t: Tracker, query: string, description: string): (r: (Tracker, seq<Msg>))
    ensures |r.1| == if !IsBlank(query) && Strip(query) !in t.announced then 1 else 0
    ensures forall m :: m in r.1 ==> m == StepStatus(t.title, description)
    ensures r.0 == t.(announced := if IsBlank(query) then t.announced else t.announced + {Strip(query)})
  {
    var key := Strip(query);
    if key == [] || key in t.announced then (t, [])
    else (t.(announced := t.announced + {key}), [StepStatus(t.title, description)])
  }

  /** The key `complete_step` files a query under: its stripped text, or
      the empty key for `None`. */
  function CompletionKey(query: Option<string>): string {
    match query
    case None => ""
    case Some(q) => Strip(q)
  }

  /** Whether `complete_step` still has an end to emit for this query. */
  predicate CanComplete(t: Tracker, query: Option<string>) {
    var key := CompletionKey(query);
    if key != [] then key !in t.completed else !t.completedWithoutQuery
  }

  /** `complete_step`: at most one `step.end` per stripped query and at most
      one for all keyless calls together; emitting closes the step. */
  function CompleteStep(t: Tracker, query: Option<string>, description: string): (r: (Tracker, seq<Msg>))
    ensures |r.1| == if CanComplete(t, query) then 1 else 0
    ensures forall m :: m in r.1 ==> m == StepEnd(t.title, description)
    ensures !CanComplete(t, query) ==> r.0 == t
    ensures CanComplete(t, query) ==> !r.0.open && !CanComplete(r.0, query)
    ensures r.0.title == t.title && r.0.started == t.started && r.0.announced == t.announced
    ensures r.0.completed == t.completed + (if CompletionKey(query) != [] then {CompletionKey(query)} else {})
    ensures r.0.completedWithoutQuery == (t.completedWithoutQuery || CompletionKey(query) == [])
  {
    var key := CompletionKey(query);
    if key != [] then
      if key in t.completed then (t, [])
      else (t.(completed := t.completed + {key}, open := false), [StepEnd(t.title, description)])
    else
      if t.completedWithoutQuery then (t, [])
      else (t.(completedWithoutQuery := true, open := false), [StepEnd(t.title, description)])
  }

  /** A second start while the step is open emits nothing. */
  lemma StartStepOncePerOpening(t: Tracker, d1: string, d2: string)
    ensures StartStep(StartStep(t, d1).0, d2).1 == []
    ensures !t.open ==> StartStep(t, d1).1 == [StepStart(t.title, d1)]
  {
  }

  /** Whenever a completion is emitted the step is closed, so the next start
      (for a later query) opens it again with one `step.start`. */
  lemma CompleteThenReopen(t: Tracker, query: Option<string>, d: string, d2: string)
    requires CanComplete(t, query)
    ensures StartStep(CompleteStep(t, query, d).0, d2).1 == [StepStart(t.title, d2)]
  {
  }

  // Folds over many calls, and the "at most once per key" laws about them.

  /** The set of keys of the non-blank queries in `qs`. */
  function KeySet(qs: seq<string>): (ks: set<string>)
    ensures forall k :: k in ks ==> k != []
  {
    if |qs| == 0 then {}
    else KeySet(qs[..|qs| - 1]) + (if IsBlank(qs[|qs| - 1]) then {} else {Strip(qs[|qs| - 1])})
  }

  /** The set of non-empty completion keys of `qs`. */
  function CompletionKeySet(qs: seq<Option<string>>): (ks: set<string>)
    ensures forall k :: k in ks ==> k != []
  {
    if |qs| == 0 then {}
    else
      var k := CompletionKey(qs[|qs| - 1]);
      CompletionKeySet(qs[..|qs| - 1]) + (if k != [] then {k} else {})
  }

  /** Whether some call in `qs` has no key (`None` or a blank query). */
  predicate HasKeyless(qs: seq<Option<string>>) {
    |qs| > 0 && (HasKeyless(qs[..|qs| - 1]) || CompletionKey(qs[|qs| - 1]) == [])
  }

  /** Calls `record_query` on each query in turn and counts the `true`s. */
  function RecordAll(t: Tracker, qs: seq<string>): (Tracker, nat) {
    if |qs| == 0 then (t, 0)
    else
      var (t1, n) := RecordAll(t, qs[..|qs| - 1]);
      var (t2, b) := RecordQuery(t1, qs[|qs| - 1]);
      (t2, if b then n + 1 else n)
  }

  /** Calls `emit_status` on each query in turn, collecting the output. */
  function StatusAll(t: Tracker, qs: seq<string>, description: string): (Tracker, seq<Msg>) {
    if |qs| == 0 then (t, [])
    else
      var (t1, ms) := StatusAll(t, qs[..|qs| - 1], description);
      var (t2, m) := EmitStatus(t1, qs[|qs| - 1], description);
      (t2, ms + m)
  }

  /** Calls `complete_step` on each query in turn, collecting the output. */
  function CompleteAll(t: Tracker, qs: seq<Option<string>>, description: string): (Tracker, seq<Msg>) {
    if |qs| == 0 then (t, [])
    else
      var (t1, ms) := CompleteAll(t, qs[..|qs| - 1], description);
      var (t2, m) := CompleteStep(t1, qs[|qs| - 1], description);
      (t2, ms + m)
  }

  lemma CardinalityStep<T>(a: set<T>, b: set<T>, x: T)
    ensures |(a + {x}) - b| == |a - b| + (if x in a || x in b then 0 else 1)
  {
    if x in a || x in b {
      assert (a + {x}) - b == a - b;
    } else {
      assert (a + {x}) - b == (a - b) + {x};
    }
  }

  /** `record_query` answers true once per distinct non-blank key that was
      not recorded before, and never for a blank query. */
  lemma {:induction false} RecordTrueOncePerKey(t: Tracker, qs: seq<string>)
    ensures RecordAll(t, qs).0.started == t.started + KeySet(qs)
    ensures RecordAll(t, qs).1 == |KeySet(qs) - t.started|
  {
    if |qs| > 0 {
      var init := qs[..|qs| - 1];
      RecordTrueOncePerKey(t, init);
      if !IsBlank(qs[|qs| - 1]) {
        CardinalityStep(KeySet(init), t.started, Strip(qs[|qs| - 1]));
      }
    }
  }

  /** Over any sequence of calls, `emit_status` emits exactly one status
      line per distinct non-blank key not announced before. */
  lemma {:induction false} StatusOncePerKey(t: Tracker, qs: seq<string>, description: string)
    ensures StatusAll(t, qs, description).0.announced == t.announced + KeySet(qs)
    ensures |StatusAll(t, qs, description).1| == |KeySet(qs) - t.announced|
  {
    if |qs| > 0 {
      var init := qs[..|qs| - 1];
      StatusOncePerKey(t, init, description);
      if !IsBlank(qs[|qs| - 1]) {
        CardinalityStep(KeySet(init), t.announced, Strip(qs[|qs| - 1]));
      }
    }
  }

  /** Over any sequence of calls, `complete_step` emits one end per distinct
      non-blank key not completed before, plus at most one for all keyless
      calls together. */
  lemma {:induction false} CompleteOncePerKey(t: Tracker, qs: seq<Option<string>>, description: string)
    ensures CompleteAll(t, qs, description).0.completed == t.completed + CompletionKeySet(qs)
    ensures CompleteAll(t, qs, description).0.completedWithoutQuery == (t.completedWithoutQuery || HasKeyless(qs))
    ensures |CompleteAll(t, qs, description).1|
            == |CompletionKeySet(qs) - t.completed| + (if HasKeyless(qs) && !t.completedWithoutQuery then 1 else 0)
  {
    if |qs| > 0 {
      var init := qs[..|qs| - 1];
      var last := qs[|qs| - 1];
      CompleteOncePerKey(t, init, description);
      var prev := CompleteAll(t, init, description);
      assert CompleteAll(t, qs, description).0 == CompleteStep(prev.0, last, description).0;
      assert |CompleteAll(t, qs, description).1| == |prev.1| + |CompleteStep(prev.0, last, description).1|;
      if CompletionKey(last) != [] {
        CardinalityStep(CompletionKeySet(init), t.completed, CompletionKey(last));
      }
    }
  }
}
