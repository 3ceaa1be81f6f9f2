/**
 * What one FeatureDownloader iteration and a whole Query run of
 * SiteSearchCategory do, stated over values.
 *
 * The shared reference list, the progress monitor and the result collector
 * are folded into one SearchState. One worker iteration (pop a reference,
 * then skip, filter, resolve, collect and report it) is taken to be atomic.
 * The downloader threads all run the same code on the same shared objects,
 * so an interleaving of their iterations is fixed by two things only: when
 * the user cancels and when the coordinator's polling loop looks at the
 * monitor. A Schedule supplies both.
 */
module SearchSpec {
  import opened Wrappers

  /** Most downloader threads a query starts. */
  const MaxThreads: nat := 5

  /** An ISiteFeatureReference: its versioned identifier and the names of its categories. */
  datatype FeatureRef = FeatureRef(versionedId: string, categories: seq<string>)

  /** An IFeature (possibly a LiteFeature from an extended site). */
  datatype Feature = Feature(versionedId: string, displayLabel: string)

  /** What resolving a reference gives: a feature, null, or a CoreException. */
  datatype Resolution = Resolved(feature: Feature) | NoFeature | Failed(message: string)

  /** IUpdateSearchFilter: its check on the reference and its check on the resolved feature. */
  datatype Filter = Filter(acceptRef: FeatureRef -> bool, acceptFeature: Feature -> bool)

  /**
   * The configuration a FeatureDownloader runs with. getFeature stands for
   * ISiteFeatureReference.getFeature(null); liteMode holds the lite-feature
   * map exactly when the downloader resolves from that map.
   */
  datatype Downloader = Downloader(
    ignores: set<string>,
    filter: Filter,
    getFeature: FeatureRef -> Resolution,
    liteMode: Option<map<string, Feature>>)

  /** How one popped reference was handled. */
  datatype Outcome =
    | Skipped                          // a category is in the ignore set
    | Rejected                         // filter.accept(reference) was false
    | ResolveFailed                    // a CoreException was caught
    | NullDereference                  // the feature was null: getLabel() throws
    | FeatureRejected(feature: Feature)  // filter.accept(feature) was false
    | Collected(feature: Feature)      // handed to the collector

  /** The shared state of a search. */
  datatype SearchState = SearchState(
    pending: seq<FeatureRef>,   // the shared reference list
    taken: seq<FeatureRef>,     // every reference a worker removed, in removal order
    canceled: bool,             // monitor.isCanceled()
    worked: nat,                // total of monitor.worked(...)
    subTask: string,            // the last monitor.subTask(...)
    collected: seq<Feature>)    // collector.accept(...) calls, in order

  /** The state after one worker iteration and whether that worker goes on. */
  datatype StepResult = StepResult(state: SearchState, alive: bool)

  /**
   * cancelBefore(i): the user has cancelled by the i-th worker iteration;
   * pollBefore(i): the coordinator looks at the monitor just before it.
   */
  datatype Schedule = Schedule(cancelBefore: nat -> bool, pollBefore: nat -> bool)

  /** No cancellation at all. */
  function Quiet(): Schedule
  {
    Schedule((i: nat) => false, (i: nat) => false)
  }

  /** The number of downloader threads started for n references: min(5, n). */
  function ThreadCount(n: nat): (k: nat)
    ensures k <= MaxThreads && k <= n
    ensures k == MaxThreads || k == n
  {
    if n > MaxThreads then MaxThreads else n
  }

  /** Some category of the reference is in the ignore set. */
  predicate Ignored(ignores: set<string>, r: FeatureRef)
  {
    exists j | 0 <= j < |r.categories| :: r.categories[j] in ignores
  }

  /** Resolution: a lookup in the lite map in lite mode, getFeature otherwise. */
  function Resolve(d: Downloader, r: FeatureRef): (res: Resolution)
    ensures d.liteMode.Some? ==> !res.Failed?
    ensures d.liteMode.Some? ==> (res.Resolved? <==> r.versionedId in d.liteMode.value)
    ensures d.liteMode.Some? && res.Resolved? ==> res.feature == d.liteMode.value[r.versionedId]
    ensures d.liteMode.None? ==> res == d.getFeature(r)
  {
    match d.liteMode
    case Some(lite) => if r.versionedId in lite then Resolved(lite[r.versionedId]) else NoFeature
    case None => d.getFeature(r)
  }

  /** How a worker handles one reference it popped while the search was not cancelled. */
  function Process(d: Downloader, r: FeatureRef): (o: Outcome)
    ensures o == Skipped <==> Ignored(d.ignores, r)
    ensures o == Rejected <==> !Ignored(d.ignores, r) && !d.filter.acceptRef(r)
    ensures o.Collected? <==>
      && !Ignored(d.ignores, r) && d.filter.acceptRef(r)
      && Resolve(d, r).Resolved? && d.filter.acceptFeature(Resolve(d, r).feature)
    ensures o.Collected? || o.FeatureRejected? ==> Resolve(d, r) == Resolved(o.feature)
    ensures o == NullDereference <==>
      !Ignored(d.ignores, r) && d.filter.acceptRef(r) && Resolve(d, r) == NoFeature
  {
    if Ignored(d.ignores, r) then Skipped
    else if !d.filter.acceptRef(r) then Rejected
    else
      match Resolve(d, r)
      case Failed(_) => ResolveFailed
      case NoFeature => NullDereference
      case Resolved(f) => if d.filter.acceptFeature(f) then Collected(f) else FeatureRejected(f)
  }

  /** The features an outcome hands to the collector. */
  function CollectedBy(o: Outcome): seq<Feature>
  {
    if o.Collected? then [o.feature] else []
  }

  /** The features collected when every reference of refs is processed, in order. */
  function Accepted(d: Downloader, refs: seq<FeatureRef>): seq<Feature>
  {
    if refs == [] then [] else CollectedBy(Process(d, refs[0])) + Accepted(d, refs[1..])
  }

  /**
   * One iteration of FeatureDownloader.run: pop the head of the list (none
   * when it is empty, and the worker ends), stop without reporting if the
   * monitor is cancelled, otherwise handle the reference and report one unit
   * of work. A null feature makes getLabel() throw a NullPointerException
   * after the finally block reported the unit: the worker thread dies.
   */
  function WorkerStep(d: Downloader, s: SearchState): (r: StepResult)
    ensures s.pending == [] ==> r == StepResult(s, false)
    ensures s.pending != [] ==>
      r.state.pending == s.pending[1..] && r.state.taken == s.taken + [s.pending[0]]
    ensures r.state.canceled == s.canceled
    ensures r.state.worked == if s.pending != [] && !s.canceled then s.worked + 1 else s.worked
    ensures r.state.collected ==
      s.collected + if s.pending != [] && !s.canceled then CollectedBy(Process(d, s.pending[0])) else []
    ensures s.canceled ==> r.state.subTask == s.subTask
    ensures r.alive <==> s.pending != [] && !s.canceled && Process(d, s.pending[0]) != NullDereference
  {
    if s.pending == [] then StepResult(s, false)
    else
      var ref := s.pending[0];
      var popped := s.(pending := s.pending[1..], taken := s.taken + [ref]);
      if s.canceled then StepResult(popped, false)
      else
        var done := popped.(worked := s.worked + 1);
        match Process(d, ref)
        case Skipped => StepResult(done, true)
        case Rejected => StepResult(done, true)
        case ResolveFailed => StepResult(done, true)
        case NullDereference => StepResult(done, false)
        case FeatureRejected(f) => StepResult(done.(subTask := f.displayLabel), true)
        case Collected(f) => StepResult(done.(subTask := f.displayLabel, collected := s.collected + [f]), true)
  }

  /**
   * The iteration as evidently intended: the label update guarded by the
   * null check, so a null feature is reported and the worker goes on.
   */
  function GuardedWorkerStep(d: Downloader, s: SearchState): (r: StepResult)
    ensures r.state == WorkerStep(d, s).state
    ensures r.alive <==> s.pending != [] && !s.canceled
  {
    StepResult(WorkerStep(d, s).state, s.pending != [] && !s.canceled)
  }

  /** A worker iteration as written, or as intended when nullGuard holds. */
  function Step(d: Downloader, s: SearchState, nullGuard: bool): (r: StepResult)
    ensures r.state == WorkerStep(d, s).state
    ensures r.alive ==> s.pending != []
  {
    if nullGuard then GuardedWorkerStep(d, s) else WorkerStep(d, s)
  }

  /**
   * What happens before the i-th iteration: the user may cancel, and the
   * coordinator, if it polls and sees the cancellation, clears the list.
   */
  function Interfere(s: SearchState, i: nat, sched: Schedule): (r: SearchState)
    ensures r.canceled == (s.canceled || sched.cancelBefore(i))
    ensures r.pending == if r.canceled && sched.pollBefore(i) then [] else s.pending
    ensures r.taken == s.taken && r.worked == s.worked && r.subTask == s.subTask && r.collected == s.collected
  {
    var c := s.canceled || sched.cancelBefore(i);
    if c && sched.pollBefore(i) then s.(canceled := c, pending := []) else s.(canceled := c)
  }

  /**
   * The run of a pool of `live` workers from the i-th iteration on, until
   * every worker has ended (the coordinator's activeCount() loop).
   */
  function Drain(d: Downloader, s: SearchState, live: nat, i: nat, sched: Schedule, nullGuard: bool): SearchState
    decreases |s.pending| + live
  {
    if live == 0 then s
    else
      var r := Step(d, Interfere(s, i, sched), nullGuard);
      Drain(d, r.state, if r.alive then live else live - 1, i + 1, sched, nullGuard)
  }

  /** The collected feature f came from a reference taken at index lo or later. */
  ghost predicate CollectedFrom(d: Downloader, taken: seq<FeatureRef>, lo: nat, f: Feature)
  {
    exists j | lo <= j < |taken| :: Process(d, taken[j]) == Collected(f)
  }

  /**
   * References are removed from the front of the list, one at a time and
   * each once: what the run took extends what was taken before by a prefix
   * of the list, and what is left is the rest of the list, or nothing once
   * the coordinator cleared it.
   */
  lemma {:induction false} DrainTakesInOrder(d: Downloader, s: SearchState, live: nat, i: nat, sched: Schedule, nullGuard: bool)
    ensures var r := Drain(d, s, live, i, sched, nullGuard);
      && s.taken <= r.taken <= s.taken + s.pending
      && (r.pending == [] || r.taken + r.pending == s.taken + s.pending)
    decreases |s.pending| + live
  {
    if live > 0 {
      var s1 := Interfere(s, i, sched);
      var sr := Step(d, s1, nullGuard);
      if s1.pending != [] {
        assert sr.state.taken + sr.state.pending == s.taken + s.pending by {
          assert s.pending == [s.pending[0]] + s.pending[1..];
        }
      }
      DrainTakesInOrder(d, sr.state, if sr.alive then live else live - 1, i + 1, sched, nullGuard);
    }
  }

  /**
   * Progress accounting: worked(1) is reported once per reference taken,
   * except that each worker may take one last reference and stop on seeing
   * the cancellation.
   */
  lemma {:induction false} DrainWorkAccounting(d: Downloader, s: SearchState, live: nat, i: nat, sched: Schedule, nullGuard: bool)
    ensures var r := Drain(d, s, live, i, sched, nullGuard);
      && |s.taken| <= |r.taken|
      && s.worked <= r.worked
      && r.worked - s.worked <= |r.taken| - |s.taken| <= r.worked - s.worked + live
    decreases |s.pending| + live
  {
    if live > 0 {
      var st := Step(d, Interfere(s, i, sched), nullGuard);
      DrainWorkAccounting(d, st.state, if st.alive then live else live - 1, i + 1, sched, nullGuard);
    }
  }

  /** The monitor never receives more units of work than there were references. */
  lemma WorkedNeverExceedsReferences(d: Downloader, s: SearchState, live: nat, i: nat, sched: Schedule, nullGuard: bool)
    ensures Drain(d, s, live, i, sched, nullGuard).worked <= s.worked + |s.pending|
  {
    DrainTakesInOrder(d, s, live, i, sched, nullGuard);
    DrainWorkAccounting(d, s, live, i, sched, nullGuard);
  }

  /**
   * The collector only grows, and every feature it receives during the run
   * was collected from a reference the run took: one that was not ignored,
   * passed filter.accept(reference), resolved to that non-null feature and
   * passed filter.accept(feature) (see Process).
   */
  lemma {:induction false} DrainCollectsOnlyAccepted(d: Downloader, s: SearchState, live: nat, i: nat, sched: Schedule, nullGuard: bool)
    ensures var r := Drain(d, s, live, i, sched, nullGuard);
      && s.collected <= r.collected
      && s.taken <= r.taken
      && forall n | |s.collected| <= n < |r.collected| :: CollectedFrom(d, r.taken, |s.taken|, r.collected[n])
    decreases |s.pending| + live
  {
    var r := Drain(d, s, live, i, sched, nullGuard);
    if live > 0 {
      var s1 := Interfere(s, i, sched);
      var st := Step(d, s1, nullGuard).state;
      var live' := if Step(d, s1, nullGuard).alive then live else live - 1;
      assert r == Drain(d, st, live', i + 1, sched, nullGuard);
      DrainCollectsOnlyAccepted(d, st, live', i + 1, sched, nullGuard);
      forall n | |s.collected| <= n < |r.collected|
        ensures CollectedFrom(d, r.taken, |s.taken|, r.collected[n])
      {
        if n < |st.collected| {
          var ref := s1.pending[0];
          assert r.taken[|s.taken|] == st.taken[|s.taken|] == ref;
          assert r.collected[n] == st.collected[n];
          assert Process(d, r.taken[|s.taken|]) == Collected(r.collected[n]);
        } else {
          assert CollectedFrom(d, r.taken, |st.taken|, r.collected[n]);
          var j :| |st.taken| <= j < |r.taken| && Process(d, r.taken[j]) == Collected(r.collected[n]);
          assert |s.taken| <= j;
        }
      }
    }
  }

  /**
   * Cancellation: once the monitor reports cancellation, no reference is
   * resolved any more; no unit of work is reported and nothing is collected
   * or labelled.
   */
  lemma {:induction false} DrainAfterCancel(d: Downloader, s: SearchState, live: nat, i: nat, sched: Schedule, nullGuard: bool)
    requires s.canceled
    ensures var r := Drain(d, s, live, i, sched, nullGuard);
      r.canceled && r.worked == s.worked && r.collected == s.collected && r.subTask == s.subTask
    decreases |s.pending| + live
  {
    if live > 0 {
      var st := Step(d, Interfere(s, i, sched), nullGuard);
      DrainAfterCancel(d, st.state, if st.alive then live else live - 1, i + 1, sched, nullGuard);
    }
  }

  /** No reference of refs resolves to a null feature after passing both checks before it. */
  ghost predicate NoNullFeature(d: Downloader, refs: seq<FeatureRef>)
  {
    forall ref | ref in refs :: Process(d, ref) != NullDereference
  }

  /**
   * Completion: with at least one worker, no cancellation and no reference
   * that resolves to a null feature (or with the null guard), the run
   * takes every reference in order, reports exactly one unit of work for
   * each, and collects exactly the accepted features in list order.
   */
  lemma {:induction false} DrainCompletes(d: Downloader, s: SearchState, live: nat, i: nat, sched: Schedule, nullGuard: bool)
    requires live > 0 || s.pending == []
    requires !s.canceled
    requires forall n :: i <= n ==> !sched.cancelBefore(n)
    requires nullGuard || NoNullFeature(d, s.pending)
    ensures var r := Drain(d, s, live, i, sched, nullGuard);
      && r.pending == [] && !r.canceled
      && r.taken == s.taken + s.pending
      && r.worked == s.worked + |s.pending|
      && r.collected == s.collected + Accepted(d, s.pending)
    decreases |s.pending| + live
  {
    if live > 0 {
      assert !sched.cancelBefore(i);
      assert Interfere(s, i, sched) == s;
      var sr := Step(d, s, nullGuard);
      var live' := if sr.alive then live else live - 1;
      assert Drain(d, s, live, i, sched, nullGuard) == Drain(d, sr.state, live', i + 1, sched, nullGuard);
      if s.pending == [] {
        assert sr.state == s;
      } else {
        CompletingStep(d, s, nullGuard);
      }
      DrainCompletes(d, sr.state, live', i + 1, sched, nullGuard);
    }
  }

  /** One uncancelled iteration on a non-empty list keeps the worker alive and moves one reference from pending to done. */
  lemma CompletingStep(d: Downloader, s: SearchState, nullGuard: bool)
    requires !s.canceled && s.pending != []
    requires nullGuard || NoNullFeature(d, s.pending)
    ensures var st := Step(d, s, nullGuard);
      && st.alive && !st.state.canceled
      && (nullGuard || NoNullFeature(d, st.state.pending))
      && st.state.taken + st.state.pending == s.taken + s.pending
      && st.state.worked + |st.state.pending| == s.worked + |s.pending|
      && st.state.collected + Accepted(d, st.state.pending) == s.collected + Accepted(d, s.pending)
  {
    var p := s.pending;
    var st := Step(d, s, nullGuard).state;
    assert p[0] in p;
    assert st.pending == p[1..];
    assert forall ref | ref in p[1..] :: ref in p;
    assert p == [p[0]] + p[1..];
  }

  /** Every reference of refs resolves to null. */
  ghost predicate AllNull(d: Downloader, refs: seq<FeatureRef>)
  {
    refs == [] || (Process(d, refs[0]) == NullDereference && AllNull(d, refs[1..]))
  }

  /**
   * Workers that each meet a null feature die one by one: `live` such
   * references at the head of the list end the run with the rest untouched.
   */
  lemma {:induction false} NullFeaturesEndRun(d: Downloader, s: SearchState, nulls: seq<FeatureRef>, rest: seq<FeatureRef>, i: nat)
    requires !s.canceled && s.pending == nulls + rest && AllNull(d, nulls)
    ensures Drain(d, s, |nulls|, i, Quiet(), false) ==
      s.(pending := rest, taken := s.taken + nulls, worked := s.worked + |nulls|)
    decreases |nulls|
  {
    if nulls == [] {
      assert s.pending == rest;
    } else {
      assert s.pending[0] == nulls[0];
      var next := NullStep(d, s, |nulls|, i);
      NullHead(d, s, next, nulls, rest);
      NullFeaturesEndRun(d, next, nulls[1..], rest, i + 1);
    }
  }

  /** After the first null reference is popped, the others are still ahead. */
  lemma NullHead(d: Downloader, s: SearchState, next: SearchState, nulls: seq<FeatureRef>, rest: seq<FeatureRef>)
    requires s.pending == nulls + rest && AllNull(d, nulls) && nulls != []
    requires next == s.(pending := s.pending[1..], taken := s.taken + [s.pending[0]], worked := s.worked + 1)
    ensures next.pending == nulls[1..] + rest && AllNull(d, nulls[1..]) && |nulls[1..]| == |nulls| - 1
    ensures next.(pending := rest, taken := next.taken + nulls[1..], worked := next.worked + |nulls[1..]|) ==
      s.(pending := rest, taken := s.taken + nulls, worked := s.worked + |nulls|)
  {
    assert s.pending[1..] == nulls[1..] + rest;
    assert s.taken + [s.pending[0]] + nulls[1..] == s.taken + nulls by {
      assert [nulls[0]] + nulls[1..] == nulls;
    }
  }

  /** A live worker that pops a reference resolving to null reports it and dies. */
  lemma NullStep(d: Downloader, s: SearchState, live: nat, i: nat) returns (next: SearchState)
    requires !s.canceled && s.pending != [] && live > 0
    requires Process(d, s.pending[0]) == NullDereference
    ensures next == s.(pending := s.pending[1..], taken := s.taken + [s.pending[0]], worked := s.worked + 1)
    ensures Drain(d, s, live, i, Quiet(), false) == Drain(d, next, live - 1, i + 1, Quiet(), false)
  {
    assert Interfere(s, i, Quiet()) == s;
    next := s.(pending := s.pending[1..], taken := s.taken + [s.pending[0]], worked := s.worked + 1);
    assert Step(d, s, false) == StepResult(next, false);
  }

  /** A site whose references resolve to null, except the one with identifier "ok". */
  function MostlyNullSite(): Downloader
  {
    Downloader({}, Filter((r: FeatureRef) => true, (f: Feature) => true),
      (r: FeatureRef) => if r.versionedId == "ok" then Resolved(Feature("ok", "OK")) else NoFeature, None)
  }

  /**
   * As written, a null feature kills its worker: five references that
   * resolve to null stop all five threads, and the sixth reference is
   * never processed although nothing was cancelled.
   */
  lemma NullFeatureStrandsReferences()
    ensures
      var gone, ok := FeatureRef("gone", []), FeatureRef("ok", []);
      var s := SearchState([gone, gone, gone, gone, gone, ok], [], false, 0, "", []);
      var r := Drain(MostlyNullSite(), s, ThreadCount(|s.pending|), 0, Quiet(), false);
      r.pending == [ok] && r.worked == 5 && r.collected == []
  {
    var d := MostlyNullSite();
    var gone, ok := FeatureRef("gone", []), FeatureRef("ok", []);
    assert Process(d, gone) == NullDereference;
    assert AllNull(d, [gone]);
    assert AllNull(d, [gone, gone]);
    assert AllNull(d, [gone, gone, gone]);
    assert AllNull(d, [gone, gone, gone, gone]);
    assert AllNull(d, [gone, gone, gone, gone, gone]);
    var s := SearchState([gone, gone, gone, gone, gone, ok], [], false, 0, "", []);
    NullFeaturesEndRun(d, s, [gone, gone, gone, gone, gone], [ok], 0);
  }

  /** With the null guard the same run processes all six references and collects the one feature. */
  lemma GuardedRunCollectsAll()
    ensures
      var gone, ok := FeatureRef("gone", []), FeatureRef("ok", []);
      var s := SearchState([gone, gone, gone, gone, gone, ok], [], false, 0, "", []);
      var r := Drain(MostlyNullSite(), s, ThreadCount(|s.pending|), 0, Quiet(), true);
      r.pending == [] && r.worked == 6 && r.collected == [Feature("ok", "OK")]
  {
    var gone, ok := FeatureRef("gone", []), FeatureRef("ok", []);
    var s := SearchState([gone, gone, gone, gone, gone, ok], [], false, 0, "", []);
    var d := MostlyNullSite();
    DrainCompletes(d, s, 5, 0, Quiet(), true);
    assert Process(d, gone) == NullDereference;
    assert Process(d, ok) == Collected(Feature("ok", "OK"));
    assert Accepted(d, [ok]) == [Feature("ok", "OK")];
    assert Accepted(d, [gone, ok]) == [Feature("ok", "OK")];
    assert Accepted(d, [gone, gone, ok]) == [Feature("ok", "OK")];
    assert Accepted(d, [gone, gone, gone, ok]) == [Feature("ok", "OK")];
    assert Accepted(d, [gone, gone, gone, gone, ok]) == [Feature("ok", "OK")];
    assert Accepted(d, s.pending) == [Feature("ok", "OK")];
  }
}
