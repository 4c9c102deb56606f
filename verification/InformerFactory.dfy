/** The shared informer factory (pkg/client/informers/externalversions/factory.go). */
module InformerFactory {
  import opened Basics

  /** What reflect.TypeOf gives for an API object. */
  type ObjectType = string

  /** An informer that a constructor returned; its identity is a number, and it knows the resync period it was made with. */
  datatype Informer = Informer(id: nat, resync: int)

  type Informers = map<ObjectType, Informer>

  const NAMESPACE_ALL := ""

  /** The functional options; a resync configuration is listed in the order in which it is ranged over. */
  datatype FactoryOption =
    | WithCustomResyncConfig(config: seq<(ObjectType, int)>)
    | WithTweakListOptions(tweak: nat)
    | WithNamespace(namespace: string)

  /** The state that the mutex protects, with what has been done so far: constructor calls, and informers set running. */
  datatype Registry = Registry(
    customResync: map<ObjectType, int>,
    defaultResync: int,
    informers: Informers,
    started: set<ObjectType>,
    constructed: seq<ObjectType>,
    launched: seq<ObjectType>)

  function Merge(resync: map<ObjectType, int>, config: seq<(ObjectType, int)>): map<ObjectType, int>
  {
    if config == [] then resync
    else Merge(resync, config[..|config| - 1])[config[|config| - 1].0 := config[|config| - 1].1]
  }

  function ResyncPeriod(r: Registry, t: ObjectType): int
  {
    if t in r.customResync then r.customResync[t] else r.defaultResync
  }

  /** InformerFor; id is the identity that the constructor would give a new informer. */
  function AfterInformerFor(r: Registry, t: ObjectType, id: nat): Registry
  {
    if t in r.informers then r
    else r.(informers := r.informers[t := Informer(id, ResyncPeriod(r, t))], constructed := r.constructed + [t])
  }

  /** r' is r after a Start: the informers that were not running are launched, each once, in some order. */
  ghost predicate StartedFrom(r: Registry, r': Registry)
  {
    && r' == r.(started := r'.started, launched := r'.launched)
    && r'.started == r.started + r.informers.Keys
    && r.launched <= r'.launched
    && (forall i, j | |r.launched| <= i < j < |r'.launched| :: r'.launched[i] != r'.launched[j])
    && (forall t :: t in r'.launched[|r.launched|..] <==> t in r.informers && t !in r.started)
  }

  /** The informers that a wait covers: those started when it takes its snapshot. */
  function Snapshot(r: Registry): Informers
  {
    map t | t in r.informers && t in r.started :: r.informers[t]
  }

  /** The types whose entry in startedInformers is true. */
  function StartedTypes(startedInformers: map<ObjectType, bool>): set<ObjectType>
  {
    set t | t in startedInformers && startedInformers[t]
  }

  class SharedInformerFactory {
    var namespace: string
    var tweakListOptions: Option<nat>
    const defaultResync: int
    var customResync: map<ObjectType, int>
    var informers: Informers
    var startedInformers: map<ObjectType, bool>
    var constructed: seq<ObjectType>
    var launched: seq<ObjectType>

    function State(): Registry
      reads this
    {
      Registry(customResync, defaultResync, informers,
               StartedTypes(startedInformers), constructed, launched)
    }

    constructor New(defaultResync: int, options: seq<FactoryOption>)
      ensures this.defaultResync == defaultResync
      ensures customResync == ConfiguredResync(options)
      ensures namespace == ConfiguredNamespace(options) && tweakListOptions == ConfiguredTweak(options)
      ensures State() == Registry(ConfiguredResync(options), defaultResync, map[], {}, [], [])
    {
      this.defaultResync := defaultResync;
      namespace, tweakListOptions := NAMESPACE_ALL, None;
      customResync, informers, startedInformers := map[], map[], map[];
      constructed, launched := [], [];
      new;
      for i := 0 to |options|
        invariant namespace == ConfiguredNamespace(options[..i]) && tweakListOptions == ConfiguredTweak(options[..i])
        invariant customResync == ConfiguredResync(options[..i])
        invariant informers == map[] && startedInformers == map[] && constructed == [] && launched == []
      {
        assert options[..i + 1][..i] == options[..i];
        ApplyOption(options[i]);
      }
      assert options[..|options|] == options;
    }

    method ApplyOption(option: FactoryOption)
      modifies this`namespace, this`tweakListOptions, this`customResync
      ensures option.WithNamespace? ==>
                namespace == option.namespace && tweakListOptions == old(tweakListOptions) && customResync == old(customResync)
      ensures option.WithTweakListOptions? ==>
                tweakListOptions == Some(option.tweak) && namespace == old(namespace) && customResync == old(customResync)
      ensures option.WithCustomResyncConfig? ==>
                customResync == Merge(old(customResync), option.config) &&
                namespace == old(namespace) && tweakListOptions == old(tweakListOptions)
    {
      match option
      case WithNamespace(ns) => namespace := ns;
      case WithTweakListOptions(t) => tweakListOptions := Some(t);
      case WithCustomResyncConfig(config) =>
        for i := 0 to |config|
          invariant customResync == Merge(old(customResync), config[..i])
          invariant namespace == old(namespace) && tweakListOptions == old(tweakListOptions)
        {
          customResync := customResync[config[i].0 := config[i].1];
          assert config[..i + 1][..i] == config[..i];
        }
        assert config[..|config|] == config;
    }

    method InformerFor(t: ObjectType, id: nat) returns (informer: Informer)
      modifies this`informers, this`constructed
      ensures State() == AfterInformerFor(old(State()), t, id)
      ensures t in informers && informer == informers[t]
    {
      if t in informers {
        return informers[t];
      }
      var resyncPeriod := if t in customResync then customResync[t] else defaultResync;
      informer := Informer(id, resyncPeriod);
      constructed := constructed + [t];
      informers := informers[t := informer];
    }

    method Start()
      modifies this`startedInformers, this`launched
      ensures StartedFrom(old(State()), State())
    {
      var todo := informers.Keys;
      var before := State();
      while todo != {}
        invariant todo <= informers.Keys
        invariant before == old(State())
        invariant StartedTypes(startedInformers) == before.started + (informers.Keys - todo)
        invariant before.launched <= launched
        invariant forall i, j | |before.launched| <= i < j < |launched| :: launched[i] != launched[j]
        invariant forall u :: u in launched[|before.launched|..] <==> u in informers.Keys - todo && u !in before.started
        decreases todo
      {
        var t :| t in todo;
        var was, wasStarted := launched, StartedTypes(startedInformers);
        if !(t in startedInformers && startedInformers[t]) {
          launched := launched + [t];
          startedInformers := startedInformers[t := true];
          assert launched[|before.launched|..] == was[|before.launched|..] + [t];
        }
        assert StartedTypes(startedInformers) == wasStarted + {t};
        todo := todo - {t};
      }
    }

    /** The first phase of WaitForCacheSync, under the lock. */
    method TakeSnapshot() returns (snapshot: Informers)
      ensures snapshot == Snapshot(State())
    {
      snapshot := map[];
      var todo := informers.Keys;
      while todo != {}
        invariant todo <= informers.Keys
        invariant snapshot == map t | t in informers.Keys - todo && t in StartedTypes(startedInformers) :: informers[t]
        decreases todo
      {
        var t :| t in todo;
        if t in startedInformers && startedInformers[t] {
          snapshot := snapshot[t := informers[t]];
        }
        todo := todo - {t};
      }
    }

    /** The second phase, without the lock: one answer for each informer of the snapshot. synced are those whose caches fill up. */
    method Wait(snapshot: Informers, synced: set<Informer>) returns (res: map<ObjectType, bool>)
      ensures res.Keys == snapshot.Keys
      ensures forall t | t in res :: res[t] <==> snapshot[t] in synced
    {
      res := map[];
      var todo := snapshot.Keys;
      while todo != {}
        invariant todo <= snapshot.Keys
        invariant res.Keys == snapshot.Keys - todo
        invariant forall t | t in res :: res[t] <==> snapshot[t] in synced
        decreases todo
      {
        var t :| t in todo;
        res := res[t := snapshot[t] in synced];
        todo := todo - {t};
      }
    }
  }

  // ----- Options -----

  function ConfiguredNamespace(options: seq<FactoryOption>): string
  {
    if options == [] then NAMESPACE_ALL
    else
      var last := options[|options| - 1];
      if last.WithNamespace? then last.namespace else ConfiguredNamespace(options[..|options| - 1])
  }

  function ConfiguredTweak(options: seq<FactoryOption>): Option<nat>
  {
    if options == [] then None
    else
      var last := options[|options| - 1];
      if last.WithTweakListOptions? then Some(last.tweak) else ConfiguredTweak(options[..|options| - 1])
  }

  function ConfiguredResync(options: seq<FactoryOption>): map<ObjectType, int>
  {
    if options == [] then map[]
    else
      var last := options[|options| - 1];
      var front := ConfiguredResync(options[..|options| - 1]);
      if last.WithCustomResyncConfig? then Merge(front, last.config) else front
  }

  /** The last WithNamespace decides the namespace; without one, all namespaces are watched. */
  lemma {:induction false} LastNamespaceWins(options: seq<FactoryOption>)
    ensures forall i, ns | 0 <= i < |options| && options[i] == WithNamespace(ns)
                          && (forall j | i < j < |options| :: !options[j].WithNamespace?) :: ConfiguredNamespace(options) == ns
    ensures (forall i | 0 <= i < |options| :: !options[i].WithNamespace?) ==> ConfiguredNamespace(options) == ""
  {
    if options != [] {
      var front := options[..|options| - 1];
      LastNamespaceWins(front);
      assert forall j | 0 <= j < |front| :: front[j] == options[j];
    }
  }

  /** The last WithTweakListOptions decides the filter; without one, there is none. */
  lemma {:induction false} LastTweakWins(options: seq<FactoryOption>)
    ensures forall i, t: nat | 0 <= i < |options| && options[i] == WithTweakListOptions(t)
                         && (forall j | i < j < |options| :: !options[j].WithTweakListOptions?) ::
              ConfiguredTweak(options) == Some(t)
    ensures (forall i | 0 <= i < |options| :: !options[i].WithTweakListOptions?) ==> ConfiguredTweak(options) == None
  {
    if options != [] {
      var front := options[..|options| - 1];
      LastTweakWins(front);
      assert forall j | 0 <= j < |front| :: front[j] == options[j];
    }
  }

  predicate Mentions(config: seq<(ObjectType, int)>, t: ObjectType)
  {
    exists k :: 0 <= k < |config| && config[k].0 == t
  }

  /** Entry k of option i is the last one for t, over all the options. */
  predicate LastEntry(options: seq<FactoryOption>, t: ObjectType, i: nat, k: nat)
  {
    && i < |options| && options[i].WithCustomResyncConfig? && k < |options[i].config| && options[i].config[k].0 == t
    && (forall l | k < l < |options[i].config| :: options[i].config[l].0 != t)
    && (forall j | i < j < |options| && options[j].WithCustomResyncConfig? :: !Mentions(options[j].config, t))
  }

  /** The last entry for a type, over all the options, decides its resync period. */
  lemma {:induction false} LastResyncEntryWins(options: seq<FactoryOption>, t: ObjectType, i: nat, k: nat)
    requires LastEntry(options, t, i, k)
    ensures t in ConfiguredResync(options) && ConfiguredResync(options)[t] == options[i].config[k].1
  {
    var front := options[..|options| - 1];
    var last := options[|options| - 1];
    if i == |options| - 1 {
      MergeSets(ConfiguredResync(front), last.config, t, k);
    } else {
      assert LastEntry(front, t, i, k);
      LastResyncEntryWins(front, t, i, k);
      if last.WithCustomResyncConfig? {
        MergeKeeps(ConfiguredResync(front), last.config, t);
      }
    }
  }

  /** A type is configured exactly if some option has an entry for it, and then there is a last one. */
  lemma {:induction false} MentionedIff(options: seq<FactoryOption>, t: ObjectType)
    ensures t in ConfiguredResync(options) <==>
            exists i :: 0 <= i < |options| && options[i].WithCustomResyncConfig? && Mentions(options[i].config, t)
    ensures t in ConfiguredResync(options) ==> exists i: nat, k: nat :: LastEntry(options, t, i, k)
  {
    if options != [] {
      var front := options[..|options| - 1];
      var last := options[|options| - 1];
      assert forall j | 0 <= j < |front| :: front[j] == options[j];
      MentionedIff(front, t);
      if last.WithCustomResyncConfig? && Mentions(last.config, t) {
        var k := LastMention(last.config, t);
        MergeSets(ConfiguredResync(front), last.config, t, k);
        assert LastEntry(options, t, |options| - 1, k);
      } else {
        if last.WithCustomResyncConfig? {
          MergeKeeps(ConfiguredResync(front), last.config, t);
        }
        if t in ConfiguredResync(front) {
          var i: nat, k: nat :| LastEntry(front, t, i, k);
          assert LastEntry(options, t, i, k);
        }
      }
    }
  }

  /** What a new informer's resync period comes down to: the last entry for its type, or the default without one. */
  lemma ResyncOfNewInformer(r: Registry, options: seq<FactoryOption>, t: ObjectType, id: nat)
    requires r.customResync == ConfiguredResync(options) && t !in r.informers
    ensures var made := AfterInformerFor(r, t, id).informers;
            t in made && made[t].id == id &&
            if exists i: nat, k: nat :: LastEntry(options, t, i, k) then
              forall i: nat, k: nat | LastEntry(options, t, i, k) :: made[t].resync == options[i].config[k].1
            else made[t].resync == r.defaultResync
  {
    MentionedIff(options, t);
    forall i: nat, k: nat | LastEntry(options, t, i, k)
      ensures t in ConfiguredResync(options) && ConfiguredResync(options)[t] == options[i].config[k].1
    {
      LastResyncEntryWins(options, t, i, k);
    }
  }

  lemma {:induction false} LastMention(config: seq<(ObjectType, int)>, t: ObjectType) returns (k: nat)
    requires Mentions(config, t)
    ensures k < |config| && config[k].0 == t && forall l | k < l < |config| :: config[l].0 != t
  {
    var n := |config| - 1;
    if config[n].0 == t {
      k := n;
    } else {
      k := LastMention(config[..n], t);
      assert forall l | 0 <= l < n :: config[..n][l] == config[l];
    }
  }

  lemma {:induction false} MergeKeeps(resync: map<ObjectType, int>, config: seq<(ObjectType, int)>, t: ObjectType)
    requires forall k | 0 <= k < |config| :: config[k].0 != t
    ensures t in Merge(resync, config) <==> t in resync
    ensures t in resync ==> Merge(resync, config)[t] == resync[t]
  {
    if config != [] {
      MergeKeeps(resync, config[..|config| - 1], t);
    }
  }

  lemma {:induction false} MergeSets(resync: map<ObjectType, int>, config: seq<(ObjectType, int)>, t: ObjectType, i: nat)
    requires i < |config| && config[i].0 == t && forall k | i < k < |config| :: config[k].0 != t
    ensures t in Merge(resync, config) && Merge(resync, config)[t] == config[i].1
  {
    if i < |config| - 1 {
      MergeSets(resync, config[..|config| - 1], t, i);
    }
  }
}

/** Any number of threads calling the factory: each step is one critical section, or the part of a wait outside it. */
module InformerThreads {
  import opened InformerFactory

  type ThreadId = nat

  datatype System = System(registry: Registry, waits: map<ThreadId, Informers>)

  /** Start carries the order in which it ranges over the informers; a report carries what it returned. */
  datatype Step =
    | InformerFor(objectType: ObjectType, id: nat, returned: Informer)
    | Start(after: Registry)
    | BeginWait(thread: ThreadId)
    | EndWait(thread: ThreadId, synced: set<Informer>, result: map<ObjectType, bool>)

  ghost predicate Valid(s: System, step: Step)
  {
    match step
    case InformerFor(t, id, returned) =>
      var r := AfterInformerFor(s.registry, t, id);
      t in r.informers && returned == r.informers[t]
    case Start(after) => StartedFrom(s.registry, after)
    case BeginWait(i) => i !in s.waits
    case EndWait(i, synced, result) =>
      i in s.waits && result.Keys == s.waits[i].Keys && forall t | t in result :: result[t] <==> s.waits[i][t] in synced
  }

  ghost function Next(s: System, step: Step): System
    requires Valid(s, step)
  {
    match step
    case InformerFor(t, id, _) => s.(registry := AfterInformerFor(s.registry, t, id))
    case Start(after) => s.(registry := after)
    case BeginWait(i) => s.(waits := s.waits[i := Snapshot(s.registry)])
    case EndWait(i, _, _) => s.(waits := s.waits - {i})
  }

  ghost predicate ValidRun(s: System, run: seq<Step>)
    decreases |run|
  {
    run == [] || (Valid(s, run[0]) && ValidRun(Next(s, run[0]), run[1..]))
  }

  ghost function Final(s: System, run: seq<Step>): System
    requires ValidRun(s, run)
    decreases |run|
  {
    if run == [] then s else Final(Next(s, run[0]), run[1..])
  }

  predicate NoDuplicates<T(==)>(xs: seq<T>)
  {
    forall i, j | 0 <= i < j < |xs| :: xs[i] != xs[j]
  }

  /**
   Constructors and launches happen once per type; what is registered was constructed, what is started is registered
   and running, and each informer has the resync period configured for its type.
   */
  ghost predicate Invariant(r: Registry)
  {
    && NoDuplicates(r.constructed) && NoDuplicates(r.launched)
    && (forall t :: t in r.constructed <==> t in r.informers)
    && (forall t :: t in r.launched <==> t in r.started)
    && r.started <= r.informers.Keys
    && (forall t | t in r.informers :: r.informers[t].resync == ResyncPeriod(r, t))
  }

  /** Informers are never replaced or forgotten, nor stopped, and the configuration stays. */
  ghost predicate Extends(r: Registry, r': Registry)
  {
    && (forall t | t in r.informers :: t in r'.informers && r'.informers[t] == r.informers[t])
    && r.started <= r'.started
    && r'.customResync == r.customResync && r'.defaultResync == r.defaultResync
  }

  lemma NoDuplicatesConcat<T>(xs: seq<T>, ys: seq<T>)
    requires NoDuplicates(xs) && NoDuplicates(ys) && forall x | x in xs :: x !in ys
    ensures NoDuplicates(xs + ys)
  {
    var zs := xs + ys;
    forall i, j | 0 <= i < j < |zs| ensures zs[i] != zs[j] {
      if i < |xs| <= j {
        assert zs[i] in xs && zs[j] in ys;
      }
    }
  }

  lemma StartKeeps(r: Registry, r': Registry)
    requires Invariant(r) && StartedFrom(r, r')
    ensures Invariant(r') && Extends(r, r')
    ensures forall t | t in r.informers :: t in r'.started && t in r'.launched
  {
    var n := |r.launched|;
    var new_ := r'.launched[n..];
    assert r'.launched == r.launched + new_;
    assert NoDuplicates(new_) by {
      forall i, j | 0 <= i < j < |new_| ensures new_[i] != new_[j] {
        assert new_[i] == r'.launched[n + i] && new_[j] == r'.launched[n + j];
      }
    }
    NoDuplicatesConcat(r.launched, new_);
    hide NoDuplicates;
  }

  lemma StepKeeps(s: System, step: Step)
    requires Invariant(s.registry) && Valid(s, step)
    ensures Invariant(Next(s, step).registry) && Extends(s.registry, Next(s, step).registry)
    ensures step.Start? ==> s.registry.informers.Keys <= Next(s, step).registry.started
  {
    if step.Start? {
      StartKeeps(s.registry, step.after);
    }
  }

  /** The registry's invariant holds after every interleaving, and nothing registered is ever lost. */
  lemma {:induction false} RunKeeps(s: System, run: seq<Step>)
    requires Invariant(s.registry) && ValidRun(s, run)
    ensures Invariant(Final(s, run).registry) && Extends(s.registry, Final(s, run).registry)
    decreases |run|
  {
    if run != [] {
      hide Invariant;
      StepKeeps(s, run[0]);
      RunKeeps(Next(s, run[0]), run[1..]);
    }
  }

  /** All calls for one type return the same informer, whatever happens in between. */
  lemma {:induction false} SameInformer(s: System, run: seq<Step>, i: nat, j: nat)
    requires Invariant(s.registry) && ValidRun(s, run) && i <= j < |run|
    requires run[i].InformerFor? && run[j].InformerFor? && run[i].objectType == run[j].objectType
    ensures run[i].returned == run[j].returned
    decreases |run|
  {
    StepKeeps(s, run[0]);
    if i > 0 {
      SameInformer(Next(s, run[0]), run[1..], i - 1, j - 1);
    } else if j > 0 {
      ReturnedLater(Next(s, run[0]), run[1..], run[0].objectType, j - 1);
    }
  }

  lemma {:induction false} ReturnedLater(s: System, run: seq<Step>, t: ObjectType, j: nat)
    requires Invariant(s.registry) && ValidRun(s, run) && t in s.registry.informers
    requires j < |run| && run[j].InformerFor? && run[j].objectType == t
    ensures run[j].returned == s.registry.informers[t]
    decreases |run|
  {
    if j > 0 {
      StepKeeps(s, run[0]);
      ReturnedLater(Next(s, run[0]), run[1..], t, j - 1);
    }
  }

  /**
   No informer is set running twice, exactly as long as the constructors give different types different informers:
   the factory's bookkeeping is by type.
   */
  lemma LaunchedOnce(r: Registry)
    requires Invariant(r)
    ensures NoDuplicates(seq(|r.launched|, i requires 0 <= i < |r.launched| && r.launched[i] in r.informers => r.informers[r.launched[i]])) <==>
            forall t, u | t in r.started && u in r.started && t != u :: r.informers[t] != r.informers[u]
  {
    var running := seq(|r.launched|, i requires 0 <= i < |r.launched| && r.launched[i] in r.informers => r.informers[r.launched[i]]);
    if NoDuplicates(running) {
      forall t, u | t in r.started && u in r.started && t != u ensures r.informers[t] != r.informers[u] {
        var i :| 0 <= i < |r.launched| && r.launched[i] == t;
        var j :| 0 <= j < |r.launched| && r.launched[j] == u;
        assert running[i] == r.informers[t] && running[j] == r.informers[u];
      }
    }
  }

  // ----- Waiting -----

  /** The wait of a thread that step i begins and step j ends, with no other wait of the thread in between. */
  ghost predicate OneWait(run: seq<Step>, i: nat, j: nat, thread: ThreadId)
  {
    && i < j < |run|
    && run[i] == BeginWait(thread)
    && run[j].EndWait? && run[j].thread == thread
    && forall k | i < k < j :: run[k].BeginWait? || run[k].EndWait? ==> run[k].thread != thread
  }

  lemma {:induction false} WaitStands(s: System, run: seq<Step>, thread: ThreadId, j: nat)
    requires ValidRun(s, run) && thread in s.waits && j < |run| && run[j].EndWait? && run[j].thread == thread
    requires forall k | 0 <= k < j :: run[k].BeginWait? || run[k].EndWait? ==> run[k].thread != thread
    ensures run[j].result.Keys == s.waits[thread].Keys
    ensures forall t | t in run[j].result :: run[j].result[t] <==> s.waits[thread][t] in run[j].synced
    decreases |run|
  {
    if j > 0 {
      assert forall k | 0 <= k < j - 1 :: run[1..][k] == run[k + 1];
      WaitStands(Next(s, run[0]), run[1..], thread, j - 1);
    }
  }

  /**
   A wait reports exactly the types that were started when it took its snapshot, however the registry moves on before
   it returns, and reports for each whether that informer's cache synced.
   */
  lemma {:induction false} WaitReportsSnapshot(s: System, run: seq<Step>, i: nat, j: nat, thread: ThreadId)
    requires Invariant(s.registry) && ValidRun(s, run) && OneWait(run, i, j, thread)
    ensures ValidRun(s, run[..i])
    ensures var r := Final(s, run[..i]).registry;
            && run[j].result.Keys == r.started
            && forall t | t in run[j].result :: t in r.informers && (run[j].result[t] <==> r.informers[t] in run[j].synced)
    decreases |run|
  {
    if i == 0 {
      assert forall k | 0 <= k < j - 1 :: run[1..][k] == run[k + 1];
      WaitStands(Next(s, run[0]), run[1..], thread, j - 1);
      assert Snapshot(s.registry).Keys == s.registry.started;
    } else {
      StepKeeps(s, run[0]);
      assert run[1..][..i - 1] == run[..i][1..];
      assert OneWait(run[1..], i - 1, j - 1, thread) by {
        assert forall k | i - 1 < k < j - 1 :: run[1..][k] == run[k + 1];
      }
      WaitReportsSnapshot(Next(s, run[0]), run[1..], i - 1, j - 1, thread);
    }
  }
}
