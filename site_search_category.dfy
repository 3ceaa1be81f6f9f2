/**
 * SiteSearchCategory's Query and FeatureDownloader over the shared objects
 * they update in place: the reference list, the progress monitor and the
 * result collector. Each method is proved to do what the functions of
 * SearchSpec say, and the properties of the search are proved there.
 */
module SiteSearchCategory {
  import opened Wrappers
  import opened SearchSpec

  /**
   * The update site as the query sees it: its feature references, how a
   * reference resolves (getFeature(null)), whether it is an ExtendedSite,
   * and, for one, what getLiteFeatures() returns.
   */
  datatype Site = Site(
    references: seq<FeatureRef>,
    getFeature: FeatureRef -> Resolution,
    extended: bool,
    liteFeatures: Option<seq<Feature>>)

  /** The shared ArrayList of references; every operation holds its lock. */
  class FeatureList {
    var items: seq<FeatureRef>
    /** Every reference removed by TryPop so far, in order. */
    ghost var taken: seq<FeatureRef>

    constructor (refs: seq<FeatureRef>)
      ensures items == refs && taken == []
    {
      items := refs;
      taken := [];
    }

    function Size(): nat
      reads this
    {
      |items|
    }

    /** Check-then-remove of index 0 under the lock; none when the list is empty. */
    method TryPop() returns (r: Option<FeatureRef>)
      modifies this
      ensures old(items) == [] ==> r == None && items == [] && taken == old(taken)
      ensures old(items) != [] ==>
        r == Some(old(items)[0]) && items == old(items)[1..] && taken == old(taken) + [old(items)[0]]
    {
      if |items| != 0 {
        r := Some(items[0]);
        taken := taken + [items[0]];
        items := items[1..];
      } else {
        r := None;
      }
    }

    /** The coordinator's clear() on cancellation; clearing an empty list changes nothing. */
    method Clear()
      modifies this
      ensures items == [] && taken == old(taken)
    {
      items := [];
    }
  }

  /** IProgressMonitor as far as the search uses it. */
  class ProgressMonitor {
    var total: int
    var worked: nat
    var canceled: bool
    var subTask: string

    constructor ()
      ensures total == 0 && worked == 0 && !canceled && subTask == ""
    {
      total, worked, canceled, subTask := 0, 0, false, "";
    }

    method BeginTask(name: string, totalWork: int)
      modifies this
      ensures total == totalWork
      ensures worked == old(worked) && canceled == old(canceled) && subTask == old(subTask)
    {
      total := totalWork;
    }

    method Worked(work: nat)
      modifies this
      ensures worked == old(worked) + work
      ensures total == old(total) && canceled == old(canceled) && subTask == old(subTask)
    {
      worked := worked + work;
    }

    method SubTask(name: string)
      modifies this
      ensures subTask == name
      ensures total == old(total) && worked == old(worked) && canceled == old(canceled)
    {
      subTask := name;
    }

    /** The user's cancel request. */
    method SetCanceled(value: bool)
      modifies this
      ensures canceled == value
      ensures total == old(total) && worked == old(worked) && subTask == old(subTask)
    {
      canceled := value;
    }

    function IsCanceled(): bool
      reads this
    {
      canceled
    }
  }

  /** IUpdateSearchResultCollector: records what it is given. */
  class ResultCollector {
    var accepted: seq<Feature>

    constructor ()
      ensures accepted == []
    {
      accepted := [];
    }

    method Accept(f: Feature)
      modifies this
      ensures accepted == old(accepted) + [f]
    {
      accepted := accepted + [f];
    }
  }

  /** The shared objects of a search, read as a SearchState. */
  ghost function Observe(list: FeatureList, monitor: ProgressMonitor, collector: ResultCollector): SearchState
    reads list, monitor, collector
  {
    SearchState(list.items, list.taken, monitor.canceled, monitor.worked, monitor.subTask, collector.accepted)
  }

  /** The ignore set: the categories to skip, none when that array is null. */
  ghost function SkipSet(categoriesToSkip: Option<seq<string>>): set<string>
  {
    if categoriesToSkip.None? then {} else set c | c in categoriesToSkip.value
  }

  /** Fills the ignore set from categoriesToSkip. */
  method BuildIgnores(categoriesToSkip: Option<seq<string>>) returns (ignores: set<string>)
    ensures categoriesToSkip.None? ==> ignores == {}
    ensures categoriesToSkip.Some? ==> forall c :: c in ignores <==> c in categoriesToSkip.value
  {
    ignores := {};
    if categoriesToSkip.Some? {
      var cats := categoriesToSkip.value;
      for i := 0 to |cats|
        invariant forall c :: c in ignores <==> c in cats[..i]
      {
        assert cats[..i + 1] == cats[..i] + [cats[i]];
        ignores := ignores + {cats[i]};
      }
      assert cats[..|cats|] == cats;
    }
  }

  /** f is the last feature among the first n with identifier id. */
  ghost predicate LastWithId(features: seq<Feature>, n: nat, id: string, f: Feature)
    requires n <= |features|
  {
    exists i | 0 <= i < n ::
      features[i] == f && f.versionedId == id && forall j | i < j < n :: features[j].versionedId != id
  }

  /**
   * Fills the lite-feature map, keyed by versioned identifier; a later
   * feature with the same identifier replaces an earlier one.
   */
  method BuildLiteFeatures(features: seq<Feature>) returns (lite: map<string, Feature>)
    ensures forall f | f in features :: f.versionedId in lite
    ensures forall id | id in lite :: LastWithId(features, |features|, id, lite[id])
  {
    lite := map[];
    for n := 0 to |features|
      invariant forall k | 0 <= k < n :: features[k].versionedId in lite
      invariant forall id | id in lite :: LastWithId(features, n, id, lite[id])
    {
      var f := features[n];
      forall id | id in lite && id != f.versionedId
        ensures LastWithId(features, n + 1, id, lite[id])
      {
        var i :| 0 <= i < n && features[i] == lite[id] && lite[id].versionedId == id &&
          forall j | i < j < n :: features[j].versionedId != id;
        assert forall j | i < j < n + 1 :: features[j].versionedId != id;
      }
      assert LastWithId(features, n + 1, f.versionedId, f);
      lite := lite[f.versionedId := f];
    }
    assert forall f | f in features :: exists k :: 0 <= k < |features| && features[k] == f;
  }

  /** Whether some category of the reference is in the ignore set (the loop at lines 186-196). */
  method IsIgnored(ignores: set<string>, r: FeatureRef) returns (skip: bool)
    ensures skip <==> Ignored(ignores, r)
  {
    skip := false;
    if |ignores| > 0 {
      var j := 0;
      while j < |r.categories|
        invariant 0 <= j <= |r.categories|
        invariant forall k | 0 <= k < j :: r.categories[k] !in ignores
      {
        if r.categories[j] in ignores {
          skip := true;
          break;
        }
        j := j + 1;
      }
    }
  }

  /** A FeatureDownloader: one worker thread's Runnable. */
  class FeatureDownloader {
    const list: FeatureList
    const collector: ResultCollector
    const filter: Filter
    const ignores: set<string>
    const monitor: ProgressMonitor
    const getFeature: FeatureRef -> Resolution
    const liteFeaturesAreOK: bool
    const liteFeatures: Option<map<string, Feature>>

    /** The five-argument constructor: resolves through getFeature. */
    constructor (list: FeatureList, collector: ResultCollector, filter: Filter, ignores: set<string>,
                 monitor: ProgressMonitor, getFeature: FeatureRef -> Resolution)
      ensures this.list == list && this.collector == collector && this.monitor == monitor
      ensures this.ignores == ignores && this.filter == filter && this.getFeature == getFeature
      ensures !liteFeaturesAreOK && liteFeatures == None
    {
      this.list, this.collector, this.filter, this.ignores := list, collector, filter, ignores;
      this.monitor, this.getFeature := monitor, getFeature;
      this.liteFeaturesAreOK, this.liteFeatures := false, None;
    }

    /** The seven-argument constructor: lite mode only when the map is not null. */
    constructor WithLite(list: FeatureList, collector: ResultCollector, filter: Filter, ignores: set<string>,
                         monitor: ProgressMonitor, getFeature: FeatureRef -> Resolution,
                         liteFeaturesAreOK: bool, liteFeatures: Option<map<string, Feature>>)
      ensures this.list == list && this.collector == collector && this.monitor == monitor
      ensures this.ignores == ignores && this.filter == filter && this.getFeature == getFeature
      ensures this.liteFeaturesAreOK == (liteFeaturesAreOK && liteFeatures.Some?)
      ensures this.liteFeatures == liteFeatures
    {
      this.list, this.collector, this.filter, this.ignores := list, collector, filter, ignores;
      this.monitor, this.getFeature := monitor, getFeature;
      this.liteFeaturesAreOK := liteFeaturesAreOK && liteFeatures.Some?;
      this.liteFeatures := liteFeatures;
    }

    /** What this downloader runs with, as SearchSpec sees it. */
    function Config(): Downloader
    {
      Downloader(ignores, filter, getFeature, if liteFeaturesAreOK then liteFeatures else None)
    }

    /**
     * One pass of the loop in run(): pop, check for cancellation, skip by
     * category, filter, resolve, collect, label, and report one unit of work
     * in the finally block. Returns whether the thread goes on.
     */
    method Step() returns (alive: bool)
      modifies list, monitor, collector
      ensures StepResult(Observe(list, monitor, collector), alive) ==
        WorkerStep(Config(), old(Observe(list, monitor, collector)))
      ensures monitor.total == old(monitor.total)
    {
      var next := list.TryPop();
      if next.None? {
        return false;
      }
      var ref := next.value;
      if monitor.IsCanceled() {
        return false;
      }
      var skipFeature := IsIgnored(ignores, ref);
      if !skipFeature && filter.acceptRef(ref) {
        var feature: Resolution;
        if liteFeaturesAreOK && liteFeatures.Some? {
          var lite := liteFeatures.value;
          feature := if ref.versionedId in lite then Resolved(lite[ref.versionedId]) else NoFeature;
        } else {
          feature := getFeature(ref);
        }
        match feature {
          case Failed(_) =>
            // the CoreException is printed and swallowed
          case NoFeature =>
            // getLabel() on null throws after the finally block ran
            monitor.Worked(1);
            return false;
          case Resolved(f) =>
            if filter.acceptFeature(f) {
              collector.Accept(f);
            }
            monitor.SubTask(f.displayLabel);
        }
      }
      monitor.Worked(1);
      alive := true;
    }

    /** run(): this worker alone drains the list until it is empty, cancelled or the thread dies. */
    method Run()
      modifies list, monitor, collector
      ensures Observe(list, monitor, collector) ==
        Drain(Config(), old(Observe(list, monitor, collector)), 1, 0, Quiet(), false)
    {
      ghost var i: nat := 0;
      var stopped := false;
      while !stopped && list.Size() != 0
        invariant Drain(Config(), Observe(list, monitor, collector), if stopped then 0 else 1, i, Quiet(), false) ==
          Drain(Config(), old(Observe(list, monitor, collector)), 1, 0, Quiet(), false)
        decreases |list.items|
      {
        ghost var before := Observe(list, monitor, collector);
        assert Interfere(before, i, Quiet()) == before;
        var alive := Step();
        stopped := !alive;
        i := i + 1;
      }
      if !stopped {
        ghost var s := Observe(list, monitor, collector);
        assert Interfere(s, i, Quiet()) == s;
        assert WorkerStep(Config(), s) == StepResult(s, false);
      }
    }
  }

  /** IUpdateSearchQuery of a site search. */
  class Query {
    var liteFeaturesAreOK: bool

    constructor ()
      ensures !liteFeaturesAreOK
    {
      liteFeaturesAreOK := false;
    }

    constructor WithLite(liteFeaturesAreOK: bool)
      ensures this.liteFeaturesAreOK == liteFeaturesAreOK
    {
      this.liteFeaturesAreOK := liteFeaturesAreOK;
    }

    /**
     * run(): build the ignore set, copy the references into the shared
     * list, build the lite map for an extended site, call beginTask with
     * the reference count, start min(5, n) downloaders and poll until all
     * have ended, clearing the list once the monitor is cancelled.
     * sched stands for the thread interleaving and for when the user
     * cancels; the shared list is returned so that its final state can be
     * stated.
     */
    method Run(site: Site, categoriesToSkip: Option<seq<string>>, filter: Filter,
               collector: ResultCollector, monitor: ProgressMonitor, sched: Schedule)
      returns (list: FeatureList)
      modifies this, collector, monitor
      ensures fresh(list)
      ensures monitor.total == |site.references|
      ensures liteFeaturesAreOK ==
        (old(liteFeaturesAreOK) && !(site.extended && (site.liteFeatures.None? || site.liteFeatures.value == [])))
      ensures Observe(list, monitor, collector) ==
        Drain(Downloader(SkipSet(categoriesToSkip), filter, site.getFeature, None),
              SearchState(site.references, [], old(monitor.canceled), old(monitor.worked),
                          old(monitor.subTask), old(collector.accepted)),
              ThreadCount(|site.references|), 0, sched, false)
    {
      var refs := site.references;
      var ignores := BuildIgnores(categoriesToSkip);
      assert ignores == SkipSet(categoriesToSkip);
      list := new FeatureList(refs);
      if liteFeaturesAreOK && site.extended {
        if site.liteFeatures.Some? && |site.liteFeatures.value| != 0 {
          var lite := BuildLiteFeatures(site.liteFeatures.value);
          // constructed and never run
          var unused := new FeatureDownloader.WithLite(list, collector, filter, ignores, monitor, site.getFeature, true, Some(lite));
        } else {
          liteFeaturesAreOK := false;
        }
      }
      monitor.BeginTask("", |refs|);
      var workers := StartWorkers(ThreadCount(|refs|), list, collector, filter, ignores, monitor, site.getFeature);
      Coordinate(workers, Downloader(ignores, filter, site.getFeature, None), list, monitor, collector, sched);
    }
  }

  /** Creates the downloaders, all sharing the list, the monitor and the collector. */
  method StartWorkers(n: nat, list: FeatureList, collector: ResultCollector, filter: Filter, ignores: set<string>,
                      monitor: ProgressMonitor, getFeature: FeatureRef -> Resolution)
    returns (workers: seq<FeatureDownloader>)
    ensures |workers| == n
    ensures forall w | w in workers :: w.list == list && w.monitor == monitor && w.collector == collector
    ensures forall w | w in workers :: w.Config() == Downloader(ignores, filter, getFeature, None)
  {
    workers := [];
    for t := 0 to n
      invariant |workers| == t
      invariant forall w | w in workers :: w.list == list && w.monitor == monitor && w.collector == collector
      invariant forall w | w in workers :: w.Config() == Downloader(ignores, filter, getFeature, None)
    {
      var w := new FeatureDownloader(list, collector, filter, ignores, monitor, getFeature);
      workers := workers + [w];
    }
  }

  /**
   * The coordinator's loop while threads are active: before each worker
   * iteration the user may cancel, and on a poll that sees the
   * cancellation the list is cleared; a worker that ends leaves the pool.
   */
  method Coordinate(workers: seq<FeatureDownloader>, d: Downloader, list: FeatureList, monitor: ProgressMonitor,
                    collector: ResultCollector, sched: Schedule)
    requires forall w | w in workers :: w.list == list && w.monitor == monitor && w.collector == collector
    requires forall w | w in workers :: w.Config() == d
    modifies list, monitor, collector
    ensures Observe(list, monitor, collector) == Drain(d, old(Observe(list, monitor, collector)), |workers|, 0, sched, false)
    ensures monitor.total == old(monitor.total)
  {
    var pool: seq<FeatureDownloader> := workers;
    var step: nat := 0;
    while |pool| != 0
      invariant forall w | w in pool :: w.list == list && w.monitor == monitor && w.collector == collector
      invariant forall w | w in pool :: w.Config() == d
      invariant monitor.total == old(monitor.total)
      invariant Drain(d, Observe(list, monitor, collector), |pool|, step, sched, false) ==
        Drain(d, old(Observe(list, monitor, collector)), |workers|, 0, sched, false)
      decreases |list.items| + |pool|
    {
      ghost var before := Observe(list, monitor, collector);
      if sched.cancelBefore(step) {
        monitor.SetCanceled(true);
      }
      if monitor.IsCanceled() && sched.pollBefore(step) {
        list.Clear();
      }
      assert Observe(list, monitor, collector) == Interfere(before, step, sched);
      var alive := pool[0].Step();
      if !alive {
        pool := pool[1..];
      }
      step := step + 1;
    }
  }
}
