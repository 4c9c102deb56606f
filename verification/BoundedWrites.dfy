/** How often the controller writes, over any run. */
module BoundedWrites {
  import opened Kubernetes
  import opened KinesisTypes
  import opened StatusHistory
  import opened ApiServer
  import opened ChangeDetection
  import opened Reconciler
  import opened ReconcileLaws
  import opened ReconcileRuns

  // ----- What is counted -----

  /** Writes made for uid in a step that took effect, reported as errors or not. */
  ghost function Effective(w: World, s: Step, uid: string): nat
    requires Valid(w, s)
  {
    if s.Reconcile? && s.uid == uid && Outcome(w, s).applied then 1 else 0
  }

  /** The pod spec that uid should have at present. */
  function Expected(w: World, uid: string): PodSpec
    requires uid in w.sources && uid in w.sinks
  {
    ExpectedPod(w.sources[uid], w.image, w.sinks[uid])
  }

  /** Such a write when, of what it sent, the server stored a flag other than sent. */
  ghost function Misstored(w: World, s: Step, uid: string): nat
    requires Valid(w, s)
  {
    if Effective(w, s, uid) == 1 && !SamePodFlags(Expected(w, uid), Kept(Expected(w, uid), s.choices)) then 1 else 0
  }

  /** The adapters that src can find. */
  ghost function Adapters(deps: Deployments, src: KinesisSource): set<string>
  {
    set n | n in deps && Findable(deps, src, n)
  }

  /** Such a write when it creates an adapter although one could be found at that moment. */
  ghost function Blind(w: World, s: Step, uid: string): nat
    requires Valid(w, s)
  {
    if Effective(w, s, uid) == 0 then 0
    else
      var src, now := w.sources[uid], ApplyOthers(w.deps, s.choices.others);
      if Target(w.deps, src, s.choices) !in now && Adapters(now, src) != {} then 1 else 0
  }

  /** One when somebody else changes an adapter that src can find, or makes it possible or impossible to find one. */
  ghost function TouchCost(deps: Deployments, o: OutsideStep, src: KinesisSource): nat
  {
    var after := ApplyOutside(deps, o);
    if after != deps && (Findable(deps, src, o.name) || Findable(after, src, o.name)) then 1 else 0
  }

  ghost function TouchCosts(deps: Deployments, steps: seq<OutsideStep>, src: KinesisSource): nat
    decreases |steps|
  {
    if steps == [] then 0
    else TouchCost(deps, steps[0], src) + TouchCosts(ApplyOutside(deps, steps[0]), steps[1..], src)
  }

  /**
   What the changes in a step may cost in writes for uid: one for each adapter that somebody else touches; and a change of
   the spec, the sink or the image may make all adapters that can be found write-worthy.
   */
  ghost function Cost(w: World, s: Step, uid: string): nat
    requires Valid(w, s)
  {
    if uid !in w.sources then 0
    else
      var src := w.sources[uid];
      match s
      case Reconcile(_, _, c) => if Outcome(w, s).call then TouchCosts(w.deps, c.others, src) else 0
      case Outside(o) => TouchCost(w.deps, o, src)
      case EditSpec(u, _) => if u == uid then |Adapters(w.deps, src)| else 0
      case MoveSink(u, _) => if u == uid then |Adapters(w.deps, src)| else 0
      case ChangeImage(_) => |Adapters(w.deps, src)|
      case _ => 0
  }

  ghost function TotalEffective(w: World, run: seq<Step>, uid: string): nat
    requires ValidRun(w, run)
    decreases |run|
  {
    if run == [] then 0 else Effective(w, run[0], uid) + TotalEffective(Next(w, run[0]), run[1..], uid)
  }

  ghost function TotalCost(w: World, run: seq<Step>, uid: string): nat
    requires ValidRun(w, run)
    decreases |run|
  {
    if run == [] then 0 else Cost(w, run[0], uid) + TotalCost(Next(w, run[0]), run[1..], uid)
  }

  ghost function TotalMisstored(w: World, run: seq<Step>, uid: string): nat
    requires ValidRun(w, run)
    decreases |run|
  {
    if run == [] then 0 else Misstored(w, run[0], uid) + TotalMisstored(Next(w, run[0]), run[1..], uid)
  }

  ghost function TotalBlind(w: World, run: seq<Step>, uid: string): nat
    requires ValidRun(w, run)
    decreases |run|
  {
    if run == [] then 0 else Blind(w, run[0], uid) + TotalBlind(Next(w, run[0]), run[1..], uid)
  }

  // ----- The writes that are outstanding -----

  ghost function Stale(deps: Deployments, src: KinesisSource, pod: PodSpec): set<string>
  {
    set n | n in deps && Findable(deps, src, n) && !PodUnchanged(deps[n].Pod(), pod)
  }

  /** One for each adapter that is out of date, or one for the first adapter. */
  function Outstanding(adapters: set<string>, stale: set<string>): nat
  {
    if adapters == {} then 1 else |stale|
  }

  ghost function DebtOf(deps: Deployments, src: KinesisSource, pod: PodSpec): nat
  {
    Outstanding(Adapters(deps, src), Stale(deps, src, pod))
  }

  ghost function Debt(w: World, uid: string): nat
  {
    if uid in w.retired then 0
    else if uid in w.sources && uid in w.sinks then DebtOf(w.deps, w.sources[uid], Expected(w, uid))
    else 1
  }

  /** Nothing is outstanding exactly in a settled cluster. */
  lemma NoDebtIffSettled(w: World, uid: string)
    requires WellFormed(w) && uid in w.sources
    ensures Debt(w, uid) == 0 <==> Settled(w.deps, w.sources[uid], w.image, w.sinks[uid])
  {
    hide PodUnchanged, ExpectedPod, Findable, Consistent;
    var src, pod := w.sources[uid], Expected(w, uid);
    assert forall n | Findable(w.deps, src, n) :: n in w.deps by { FindablePresent(w.deps, src); }
    if Settled(w.deps, src, w.image, w.sinks[uid]) {
      var n :| Findable(w.deps, src, n);
      assert n in Adapters(w.deps, src);
      assert Stale(w.deps, src, pod) == {};
    } else if Debt(w, uid) == 0 {
      var n :| n in Adapters(w.deps, src);
      assert forall k | Findable(w.deps, src, k) :: k !in Stale(w.deps, src, pod);
    }
  }

  lemma FindablePresent(deps: Deployments, src: KinesisSource)
    ensures forall n | Findable(deps, src, n) :: n in deps
  {
  }

  lemma SmallerSet(a: set<string>, b: set<string>)
    requires a <= b
    ensures |a| <= |b|
  {
    assert a + (b - a) == b;
  }

  /** Two sets of adapters, and the stale ones among them, that agree on all names but n. */
  lemma OneMemberChanged(a: set<string>, x: set<string>, b: set<string>, y: set<string>, n: string)
    requires x <= a && y <= b && a - {n} == b - {n} && x - {n} == y - {n}
    ensures Outstanding(b, y) <= Outstanding(a, x) + 1
    ensures n !in a && n !in b ==> a == b && x == y
    ensures n in b && n !in y ==> Outstanding(b, y) <= Outstanding(a, x)
    ensures n in b && (n in x || a == {}) ==> 1 <= Outstanding(a, x) && Outstanding(b, y) <= Outstanding(a, x)
    ensures n in b && (n in x || a == {}) && n !in y ==> Outstanding(b, y) < Outstanding(a, x)
  {
    var rest := x - {n};
    assert x == if n in x then rest + {n} else rest;
    assert y == if n in y then rest + {n} else rest;
    if n !in a && n !in b {
      assert a == a - {n} && b == b - {n};
    }
  }

  /** Changing one name, in any way: what it can do to the debt. */
  lemma OneNameChanged(deps: Deployments, after: Deployments, src: KinesisSource, pod: PodSpec, n: string)
    requires after - {n} == deps - {n}
    ensures DebtOf(after, src, pod) <= DebtOf(deps, src, pod) + 1
    ensures !Findable(deps, src, n) && !Findable(after, src, n) ==>
              DebtOf(after, src, pod) == DebtOf(deps, src, pod) && Adapters(after, src) == Adapters(deps, src)
    ensures Findable(after, src, n) && PodUnchanged(after[n].Pod(), pod) ==> DebtOf(after, src, pod) <= DebtOf(deps, src, pod)
    ensures Findable(after, src, n) && (n in Stale(deps, src, pod) || Adapters(deps, src) == {}) ==>
              && DebtOf(deps, src, pod) >= 1
              && DebtOf(after, src, pod) <= DebtOf(deps, src, pod)
              && (PodUnchanged(after[n].Pod(), pod) ==> DebtOf(after, src, pod) < DebtOf(deps, src, pod))
  {
    hide PodUnchanged, Matches, GetLabels;
    forall k | k != n
      ensures (k in deps <==> k in after) && (k in deps ==> deps[k] == after[k])
      ensures Findable(deps, src, k) <==> Findable(after, src, k)
    {
      assert k in deps <==> k in deps - {n};
      assert k in after <==> k in after - {n};
    }
    FindablePresent(deps, src);
    FindablePresent(after, src);
    hide Findable;
    OneMemberChanged(Adapters(deps, src), Stale(deps, src, pod), Adapters(after, src), Stale(after, src, pod), n);
  }

  lemma OutsideDebt(deps: Deployments, o: OutsideStep, src: KinesisSource, pod: PodSpec)
    ensures DebtOf(ApplyOutside(deps, o), src, pod) <= DebtOf(deps, src, pod) + TouchCost(deps, o, src)
    ensures TouchCost(deps, o, src) == 0 ==> Adapters(ApplyOutside(deps, o), src) == Adapters(deps, src)
  {
    hide PodUnchanged, Findable, DebtOf, Adapters;
    assert ApplyOutside(deps, o) - {o.name} == deps - {o.name};
    OneNameChanged(deps, ApplyOutside(deps, o), src, pod, o.name);
  }

  lemma {:induction false} OthersDebt(deps: Deployments, steps: seq<OutsideStep>, src: KinesisSource, pod: PodSpec)
    ensures DebtOf(ApplyOthers(deps, steps), src, pod) <= DebtOf(deps, src, pod) + TouchCosts(deps, steps, src)
    ensures TouchCosts(deps, steps, src) == 0 ==> Adapters(ApplyOthers(deps, steps), src) == Adapters(deps, src)
    decreases |steps|
  {
    if steps != [] {
      hide TouchCost, DebtOf, Adapters, ApplyOutside;
      OutsideDebt(deps, steps[0], src, pod);
      OthersDebt(ApplyOutside(deps, steps[0]), steps[1..], src, pod);
    }
  }

  // ----- The budget -----

  lemma ExpectedKept(src: KinesisSource, src': KinesisSource, image: string, uri: string)
    requires src' == src.(finalizers := src'.finalizers, status := src'.status, deleting := src'.deleting)
    ensures ExpectedPod(src', image, uri) == ExpectedPod(src, image, uri)
  {
  }

  /** What can be found depends on the namespace, the name and the UID of a source only. */
  lemma AdaptersKept(deps: Deployments, src: KinesisSource, src': KinesisSource)
    requires (src.namespace, src.name, src.uid) == (src'.namespace, src'.name, src'.uid)
    ensures Adapters(deps, src') == Adapters(deps, src)
    ensures forall pod :: Stale(deps, src', pod) == Stale(deps, src, pod)
  {
    assert forall n :: Findable(deps, src', n) <==> Findable(deps, src, n);
    hide PodUnchanged, Findable;
  }

  lemma StaleAreAdapters(deps: Deployments, src: KinesisSource, pod: PodSpec)
    ensures |Stale(deps, src, pod)| <= |Adapters(deps, src)|
  {
    hide Findable, PodUnchanged;
    SmallerSet(Stale(deps, src, pod), Adapters(deps, src));
  }

  lemma StoredAsSent(w: World, s: Step)
    requires WellFormed(w) && Valid(w, s) && s.Reconcile? && s.resolves
    ensures var sent := Expected(w, s.uid); PodUnchanged(Kept(sent, s.choices), sent) <==> SamePodFlags(sent, Kept(sent, s.choices))
  {
    KeptFills(Expected(w, s.uid), s.choices);
    StoredUnchangedIff(Expected(w, s.uid), Kept(Expected(w, s.uid), s.choices));
    hide PodUnchanged, SamePodFlags, ServerFills, ExpectedPod, Kept;
  }

  /** A write for uid, in the cluster that it meets. */
  lemma OwnWriteBudget(w: World, s: Step, uid: string)
    requires WellFormed(w) && Valid(w, s) && s.Reconcile? && s.uid == uid && Outcome(w, s).applied
    ensures var src, r, base, pod := w.sources[uid], Outcome(w, s), ApplyOthers(w.deps, s.choices.others), Expected(w, uid);
            && 1 <= DebtOf(base, src, pod) + Blind(w, s, uid)
            && 1 + DebtOf(r.deps, src, pod) <= DebtOf(base, src, pod) + Misstored(w, s, uid) + Blind(w, s, uid)
  {
    hide PodUnchanged, ExpectedPod, Consistent, ReconcileSource, ValidChoices, SamePodFlags, ApplyOthers, Settled,
      Findable, Target, DebtOf, Adapters;
    var src, r, base, pod := w.sources[uid], Outcome(w, s), ApplyOthers(w.deps, s.choices.others), Expected(w, uid);
    var n := ReconcileEffect(src, w.deps, w.image, ResolvedSink(w, uid, s.resolves), s.choices);
    StoredAsSent(w, s);
    assert r.deps - {n} == base - {n};
    OneNameChanged(base, r.deps, src, pod, n);
    if n in base {
      StillFindable(src, pod, Kept(pod, s.choices), w.deps, base, r.deps, n);
    }
  }

  lemma StillFindable(src: KinesisSource, pod: PodSpec, stored: PodSpec, listed: Deployments, base: Deployments,
                      after: Deployments, n: string)
    requires Written(src, pod, stored, listed, base, after, n) && n in base
    ensures n in Stale(base, src, pod)
  {
    hide PodUnchanged, SameFrame, GetLabels, Selects;
  }

  /** A write for another source does not concern uid. */
  lemma OtherWriteBudget(w: World, s: Step, uid: string)
    requires WellFormed(w) && Valid(w, s) && s.Reconcile? && s.uid != uid && uid in w.sources && Outcome(w, s).applied
    ensures var src, pod := w.sources[uid], Expected(w, uid);
            DebtOf(Outcome(w, s).deps, src, pod) == DebtOf(ApplyOthers(w.deps, s.choices.others), src, pod)
  {
    hide PodUnchanged, ExpectedPod, Consistent, ReconcileSource, ValidChoices, ApplyOthers, Settled, Target, DebtOf,
      Adapters, GetLabels, Selects, Stale, SameFrame;
    var r, base := Outcome(w, s), ApplyOthers(w.deps, s.choices.others);
    var n := ReconcileEffect(w.sources[s.uid], w.deps, w.image, ResolvedSink(w, s.uid, s.resolves), s.choices);
    assert r.deps - {n} == base - {n};
    OneNameChanged(base, r.deps, w.sources[uid], Expected(w, uid), n);
  }

  lemma ReconcileBudget(w: World, s: Step, uid: string)
    requires WellFormed(w) && Valid(w, s) && s.Reconcile? && uid in w.sources
    ensures Effective(w, s, uid) <= Debt(w, uid) + Cost(w, s, uid) + Blind(w, s, uid)
    ensures Effective(w, s, uid) + Debt(Next(w, s), uid)
            <= Debt(w, uid) + Cost(w, s, uid) + Misstored(w, s, uid) + Blind(w, s, uid)
  {
    hide PodUnchanged, ExpectedPod, Consistent, ReconcileSource, ValidChoices, ApplyOthers, Settled, Target, DebtOf,
      Findable, SamePodFlags, Adapters, Stale, TouchCosts;
    var r := Outcome(w, s);
    var src := w.sources[uid];
    SourceKept(w.sources[s.uid], w.deps, w.image, ResolvedSink(w, s.uid, s.resolves), s.choices);
    var src' := Next(w, s).sources[uid];
    ExpectedKept(src, src', w.image, w.sinks[uid]);
    DebtKept(r.deps, src, src', Expected(w, uid));
    var n := ReconcileEffect(w.sources[s.uid], w.deps, w.image, ResolvedSink(w, s.uid, s.resolves), s.choices);
    if r.call {
      OthersDebt(w.deps, s.choices.others, src, Expected(w, uid));
    }
    if r.applied {
      if s.uid == uid {
        OwnWriteBudget(w, s, uid);
      } else {
        OtherWriteBudget(w, s, uid);
      }
    }
  }

  lemma DebtKept(deps: Deployments, src: KinesisSource, src': KinesisSource, pod: PodSpec)
    requires (src.namespace, src.name, src.uid) == (src'.namespace, src'.name, src'.uid)
    ensures DebtOf(deps, src', pod) == DebtOf(deps, src, pod)
  {
    AdaptersKept(deps, src, src');
    hide PodUnchanged, Findable;
  }

  /** When the expected pod spec changes, at most all adapters become write-worthy. */
  lemma NewPodDebt(deps: Deployments, src: KinesisSource, src': KinesisSource, pod: PodSpec, pod': PodSpec)
    requires (src.namespace, src.name, src.uid) == (src'.namespace, src'.name, src'.uid)
    ensures DebtOf(deps, src', pod') <= DebtOf(deps, src, pod) + |Adapters(deps, src)|
  {
    AdaptersKept(deps, src, src');
    StaleAreAdapters(deps, src, pod');
    hide PodUnchanged, Findable;
  }

  /** A new source has no adapter yet. */
  lemma NewDebt(deps: Deployments, src: KinesisSource, pod: PodSpec)
    requires Owned(deps, src.uid) == map[]
    ensures DebtOf(deps, src, pod) == 1
  {
    assert forall n :: n !in Owned(deps, src.uid);
    hide PodUnchanged;
    assert Adapters(deps, src) == {};
  }

  /**
   The budget of a step, whatever the environment does: an effective write uses up a debt, unless it is misstored or blind;
   and a debt is only made by a change, within its cost.
   */
  lemma StepBudget(w: World, s: Step, uid: string)
    requires WellFormed(w) && Valid(w, s)
    ensures Effective(w, s, uid) <= Debt(w, uid) + Cost(w, s, uid) + Blind(w, s, uid)
    ensures Effective(w, s, uid) + Debt(Next(w, s), uid)
            <= Debt(w, uid) + Cost(w, s, uid) + Misstored(w, s, uid) + Blind(w, s, uid)
  {
    hide PodUnchanged, ExpectedPod, Consistent, ReconcileSource, ValidChoices, DebtOf, Adapters, Findable, SamePodFlags;
    if uid !in w.sources {
      if s.CreateSource? && s.uid == uid {
        NewDebt(w.deps, Next(w, s).sources[uid], Expected(Next(w, s), uid));
      }
    } else if s.Reconcile? {
      ReconcileBudget(w, s, uid);
    } else if s.Outside? {
      OutsideDebt(w.deps, s.step, w.sources[uid], Expected(w, uid));
    } else if uid in Next(w, s).sources {
      var src, src' := w.sources[uid], Next(w, s).sources[uid];
      NewPodDebt(w.deps, src, src', Expected(w, uid), Expected(Next(w, s), uid));
      DebtKept(w.deps, src, src', Expected(w, uid));
      if !s.EditSpec? {
        ExpectedKept(src, src', w.image, w.sinks[uid]);
      }
    }
  }

  /**
   The writes of any run, whatever others do, and whatever the server answers and stores: those that took effect number at
   most the debt at the start, plus what changes cost, plus the writes that were misstored, plus the blind ones.
   */
  lemma {:induction false} WritesBounded(w: World, run: seq<Step>, uid: string)
    requires WellFormed(w) && ValidRun(w, run)
    ensures TotalEffective(w, run, uid) + Debt(Final(w, run), uid)
            <= Debt(w, uid) + TotalCost(w, run, uid) + TotalMisstored(w, run, uid) + TotalBlind(w, run, uid)
    decreases |run|
  {
    if run != [] {
      hide Next, WellFormed, Valid, Effective, Cost, Misstored, Blind, Debt;
      StepBudget(w, run[0], uid);
      NextWellFormed(w, run[0]);
      WritesBounded(Next(w, run[0]), run[1..], uid);
    }
  }

  // ----- Honest runs with one adapter -----

  /** Changes in a step that concern uid: its spec, its sink, the image, and what others do to deployments it controls. */
  ghost function Changes(w: World, s: Step, uid: string): nat
    requires Valid(w, s)
  {
    match s
    case Reconcile(_, _, c) => if Outcome(w, s).call then Touching(w.deps, c.others, uid) else 0
    case Outside(o) => if Touches(w.deps, o, uid) then 1 else 0
    case EditSpec(u, _) => if u == uid then 1 else 0
    case MoveSink(u, _) => if u == uid then 1 else 0
    case ChangeImage(_) => 1
    case _ => 0
  }

  ghost function TotalChanges(w: World, run: seq<Step>, uid: string): nat
    requires ValidRun(w, run)
    decreases |run|
  {
    if run == [] then 0 else Changes(w, run[0], uid) + TotalChanges(Next(w, run[0]), run[1..], uid)
  }

  lemma TouchIsChange(deps: Deployments, o: OutsideStep, src: KinesisSource)
    requires KeepsIdentity(deps, o, src.uid)
    ensures TouchCost(deps, o, src) <= if Touches(deps, o, src.uid) then 1 else 0
  {
    hide Selects, GetLabels;
  }

  lemma {:induction false} TouchesAreChanges(deps: Deployments, steps: seq<OutsideStep>, src: KinesisSource)
    requires AllKeepIdentity(deps, steps, src.uid)
    ensures TouchCosts(deps, steps, src) <= Touching(deps, steps, src.uid)
    decreases |steps|
  {
    if steps != [] {
      hide TouchCost, Touches, KeepsIdentity, ApplyOutside;
      TouchIsChange(deps, steps[0], src);
      TouchesAreChanges(ApplyOutside(deps, steps[0]), steps[1..], src);
    }
  }

  lemma OneAdapterCost(deps: Deployments, src: KinesisSource, pod: PodSpec)
    requires AtMostOne(Owned(deps, src.uid))
    ensures |Adapters(deps, src)| <= 1 && DebtOf(deps, src, pod) <= 1
  {
    var a := Adapters(deps, src);
    assert forall m, n | m in a && n in a :: m in Owned(deps, src.uid) && n in Owned(deps, src.uid);
    StaleAreAdapters(deps, src, pod);
    hide PodUnchanged, Findable, Owned;
    if n :| n in a {
      assert a == {n};
    }
  }

  /** With one adapter at most, that can be found, no change costs more than one write, and no write is blind. */
  lemma HonestCost(w: World, s: Step, uid: string)
    requires WellFormed(w) && Valid(w, s) && Honest(w, s, uid) && OneAdapter(w, uid)
    ensures Cost(w, s, uid) <= Changes(w, s, uid) && Blind(w, s, uid) == 0 && Debt(w, uid) <= 1
  {
    hide PodUnchanged, ExpectedPod, Consistent, ReconcileSource, ValidChoices, ApplyOthers, AllKeepIdentity,
      TouchCosts, Touching, Matches, GetLabels, Target, AtMostOne, DebtOf, Adapters, Doubles, GiftFree, KeepsIdentity,
      Touches, TouchCost;
    if uid in w.sources {
      OneAdapterCost(w.deps, w.sources[uid], Expected(w, uid));
    }
    if s.Reconcile? {
      if uid in w.sources && Outcome(w, s).call {
        TouchesAreChanges(w.deps, s.choices.others, w.sources[uid]);
      }
      HonestNeverDoubles(w, s, uid);
      NoBlindWrite(w, s, uid);
    } else if s.Outside? && uid in w.sources {
      TouchIsChange(w.deps, s.step, w.sources[uid]);
    }
  }

  /** A blind write doubles the adapter. */
  lemma NoBlindWrite(w: World, s: Step, uid: string)
    requires WellFormed(w) && Valid(w, s) && s.Reconcile? && !Doubles(w, s, uid)
    ensures Blind(w, s, uid) == 0
  {
    hide PodUnchanged, ExpectedPod, Consistent, ReconcileSource, ValidChoices, ApplyOthers, Target, DoublesAdapter,
      Matches, GetLabels;
    if Effective(w, s, uid) == 1 {
      CreatedIff(w.sources[uid], w.deps, w.image, ResolvedSink(w, uid, s.resolves), s.choices);
      var now := ApplyOthers(w.deps, s.choices.others);
      if n :| n in Adapters(now, w.sources[uid]) {
        assert n in Owned(now, uid);
      }
    }
  }

  /** In an honest run, the writes that took effect number at most one plus the changes, plus the misstored ones. */
  lemma {:induction false} HonestWritesBounded(w: World, run: seq<Step>, uid: string)
    requires WellFormed(w) && ValidRun(w, run) && HonestRun(w, run, uid) && OneAdapter(w, uid)
    ensures TotalCost(w, run, uid) <= TotalChanges(w, run, uid) && TotalBlind(w, run, uid) == 0
    ensures TotalEffective(w, run, uid) <= 1 + TotalChanges(w, run, uid) + TotalMisstored(w, run, uid)
    decreases |run|
  {
    hide Next, Honest, OneAdapter, WellFormed, Valid, Effective, Cost, Changes, Misstored, Blind, Debt;
    if run != [] {
      HonestCost(w, run[0], uid);
      OneAdapterStep(w, run[0], uid);
      NextWellFormed(w, run[0]);
      HonestWritesBounded(Next(w, run[0]), run[1..], uid);
    }
    WritesBounded(w, run, uid);
    DebtAtMostOne(w, uid);
  }

  lemma DebtAtMostOne(w: World, uid: string)
    requires WellFormed(w) && OneAdapter(w, uid)
    ensures Debt(w, uid) <= 1
  {
    hide PodUnchanged, ExpectedPod, Consistent, DebtOf, Matches, GetLabels;
    if uid in w.sources {
      OneAdapterCost(w.deps, w.sources[uid], Expected(w, uid));
    }
  }

  // ----- Settled clusters -----

  /** No list call made for uid fails with NotFound. */
  predicate ListsAnswer(run: seq<Step>, uid: string)
  {
    forall i | 0 <= i < |run| && run[i].Reconcile? && run[i].uid == uid :: run[i].choices.list != ListFails(NotFound)
  }

  lemma SettledStep(w: World, s: Step, uid: string)
    requires WellFormed(w) && Valid(w, s) && Debt(w, uid) == 0 && ListsAnswer([s], uid)
    ensures Effective(w, s, uid) == 0 && Blind(w, s, uid) == 0 && Misstored(w, s, uid) == 0
  {
    hide PodUnchanged, ExpectedPod, Consistent, ReconcileSource, ValidChoices, ApplyOthers, Settled, Debt;
    if Effective(w, s, uid) == 1 {
      assert [s][0] == s;
      var n := ReconcileEffect(w.sources[uid], w.deps, w.image, ResolvedSink(w, uid, s.resolves), s.choices);
      ReachedByListing(w, s);
      NoDebtIffSettled(w, uid);
    }
  }

  /**
   A settled cluster stays settled, without a write, over every run in which no change costs anything and no list call for the
   source fails with NotFound, whatever else fails.
   */
  lemma {:induction false} StaysSettled(w: World, run: seq<Step>, uid: string)
    requires WellFormed(w) && ValidRun(w, run) && ListsAnswer(run, uid)
    requires Debt(w, uid) == 0 && TotalCost(w, run, uid) == 0
    ensures TotalEffective(w, run, uid) == 0 && Debt(Final(w, run), uid) == 0
    decreases |run|
  {
    if run != [] {
      hide Next, WellFormed, Valid, Cost, Debt, Effective, Misstored, Blind;
      SettledStep(w, run[0], uid);
      StepBudget(w, run[0], uid);
      NextWellFormed(w, run[0]);
      assert forall i | 0 <= i < |run[1..]| :: run[1..][i] == run[i + 1];
      StaysSettled(Next(w, run[0]), run[1..], uid);
    }
  }

  // ----- Write loops -----

  /** All that happens is that uid is reconciled, with a server that stores the same pod spec each time it is sent one. */
  predicate OnlyReconciles(run: seq<Step>, uid: string, stored: PodSpec)
  {
    forall i | 0 <= i < |run| :: run[i].Reconcile? && run[i].uid == uid && run[i].choices.stored == stored
  }

  ghost function Longest(s: set<string>): (n: nat)
    ensures forall x | x in s :: |x| <= n
  {
    if s == {} then 0
    else
      var x :| x in s;
      var n := Longest(s - {x});
      if |x| <= n then n else |x|
  }

  lemma FreshName(s: set<string>) returns (name: string)
    ensures name !in s
  {
    name := seq(Longest(s) + 1, i => 'x');
  }

  /** A source that gets as far as the adapter, and what the server would store of it. */
  ghost predicate Accepted(w: World, uid: string, stored: PodSpec)
  {
    WellFormed(w) && uid in w.sources && Proceeds(w.sources[uid]) && ServerFills(Expected(w, uid), stored)
  }

  lemma ExpectedStays(w: World, s: Step, uid: string)
    requires WellFormed(w) && Valid(w, s) && s.Reconcile? && s.uid == uid
    ensures var w' := Next(w, s);
            && WellFormed(w') && uid in w'.sources && Expected(w', uid) == Expected(w, uid)
            && (Proceeds(w.sources[uid]) ==> Proceeds(w'.sources[uid]))
  {
    hide ReconcileSource, ValidChoices, SamePodFlags, ExpectedPod, Consistent, EncodeDecode.CredentialsConfigured;
    SourceKept(w.sources[uid], w.deps, w.image, ResolvedSink(w, uid, s.resolves), s.choices);
    ExpectedKept(w.sources[uid], Outcome(w, s).src, w.image, w.sinks[uid]);
    NextWellFormed(w, s);
  }

  /** Without faults: a reconcile in a cluster that is not settled writes, and leaves it so if a flag is misstored. */
  lemma MisstoredTurn(w: World, uid: string, stored: PodSpec) returns (s: Step)
    requires Accepted(w, uid, stored) && !SamePodFlags(Expected(w, uid), stored)
    requires !Settled(w.deps, w.sources[uid], w.image, w.sinks[uid])
    ensures Valid(w, s) && OnlyReconciles([s], uid, stored) && ListsAnswer([s], uid)
    ensures Effective(w, s, uid) == 1 && Cost(w, s, uid) == 0
    ensures var w' := Next(w, s); uid in w'.sources && uid in w'.sinks && !Settled(w'.deps, w'.sources[uid], w'.image, w'.sinks[uid])
  {
    hide PodUnchanged, ExpectedPod, Consistent, ReconcileSource, SamePodFlags, ServerFills,
      EncodeDecode.CredentialsConfigured;
    var src, uri := w.sources[uid], w.sinks[uid];
    var order := UnsettledOrder(src, w.deps, w.image, uri);
    var name := FreshName(w.deps.Keys);
    s := Reconcile(uid, true, Choices(Lists(order), [], true, Applied, name, stored));
    assert Valid(w, s);
    NeededWriteApplies(src, w.deps, w.image, uri, s.choices);
    ExpectedStays(w, s, uid);
    StoredAsSent(w, s);
    StillUnsettled(w, s, uid);
  }

  lemma StillUnsettled(w: World, s: Step, uid: string)
    requires WellFormed(w) && Valid(w, s) && s.Reconcile? && s.uid == uid && Outcome(w, s).applied
    requires !PodUnchanged(Kept(Expected(w, uid), s.choices), Expected(w, uid))
    ensures var w' := Next(w, s); uid in w'.sources && !Settled(w'.deps, w'.sources[uid], w'.image, w'.sinks[uid])
  {
    hide PodUnchanged, ExpectedPod, Consistent, ReconcileSource, ValidChoices, ApplyOthers, Target;
    var src := w.sources[uid];
    var n := ReconcileEffect(src, w.deps, w.image, ResolvedSink(w, uid, s.resolves), s.choices);
    SourceKept(src, w.deps, w.image, ResolvedSink(w, uid, s.resolves), s.choices);
    SettledKept(src, Outcome(w, s).src, Outcome(w, s).deps, w.image, w.sinks[uid]);
    ExpectedStays(w, s, uid);
    assert Findable(Outcome(w, s).deps, src, n);
  }

  /** A list call that fails with NotFound, and no other fault: the reconcile creates an adapter, whatever is there. */
  lemma NotFoundTurn(w: World, uid: string, stored: PodSpec) returns (s: Step)
    requires Accepted(w, uid, stored)
    ensures Valid(w, s) && OnlyReconciles([s], uid, stored) && Effective(w, s, uid) == 1 && Cost(w, s, uid) == 0
  {
    hide PodUnchanged, ExpectedPod, Consistent, ReconcileSource, SamePodFlags, ServerFills,
      EncodeDecode.CredentialsConfigured;
    var name := FreshName(w.deps.Keys);
    s := Reconcile(uid, true, Choices(ListFails(NotFound), [], true, Applied, name, stored));
    assert Valid(w, s);
    NotFoundCreates(w.sources[uid], w.deps, w.image, w.sinks[uid], s.choices);
  }

  lemma LongerRun(w: World, s: Step, rest: seq<Step>, uid: string, stored: PodSpec)
    requires OnlyReconciles([s], uid, stored) && OnlyReconciles(rest, uid, stored)
    requires Valid(w, s) && ValidRun(Next(w, s), rest)
    ensures OnlyReconciles([s] + rest, uid, stored) && ValidRun(w, [s] + rest)
    ensures TotalEffective(w, [s] + rest, uid) == Effective(w, s, uid) + TotalEffective(Next(w, s), rest, uid)
    ensures TotalCost(w, [s] + rest, uid) == Cost(w, s, uid) + TotalCost(Next(w, s), rest, uid)
    ensures ListsAnswer([s], uid) && ListsAnswer(rest, uid) ==> ListsAnswer([s] + rest, uid)
  {
    hide Next, Valid, Cost, Effective;
    assert [s][0] == s && ([s] + rest)[1..] == rest;
  }

  /**
   With a server that keeps storing a flag other than sent, there are runs of any length in which each reconcile writes the
   adapter, although nothing changes and no call fails.
   */
  lemma {:induction false} MisstoredLoop(w: World, uid: string, stored: PodSpec, n: nat) returns (run: seq<Step>)
    requires Accepted(w, uid, stored) && !SamePodFlags(Expected(w, uid), stored)
    requires !Settled(w.deps, w.sources[uid], w.image, w.sinks[uid])
    ensures |run| == n && OnlyReconciles(run, uid, stored) && ValidRun(w, run) && ListsAnswer(run, uid)
    ensures TotalEffective(w, run, uid) == n && TotalCost(w, run, uid) == 0
    decreases n
  {
    run := [];
    if n > 0 {
      hide Next, Valid, Cost, Effective, ValidRun, TotalEffective, TotalCost, OnlyReconciles, ListsAnswer, Settled,
        SamePodFlags, ServerFills, Proceeds, ExpectedPod, Consistent;
      var s := MisstoredTurn(w, uid, stored);
      IsReconcile(s, uid, stored);
      ExpectedStays(w, s, uid);
      var rest := MisstoredLoop(Next(w, s), uid, stored, n - 1);
      LongerRun(w, s, rest, uid, stored);
      run := [s] + rest;
    }
  }

  lemma IsReconcile(s: Step, uid: string, stored: PodSpec)
    requires OnlyReconciles([s], uid, stored)
    ensures s.Reconcile? && s.uid == uid
  {
    assert [s][0] == s;
  }

  /**
   With list calls that keep failing with NotFound, there are runs of any length in which each reconcile creates one more
   adapter, although nothing changes, whatever the server stores, and wherever the run begins.
   */
  lemma {:induction false} NotFoundLoop(w: World, uid: string, stored: PodSpec, n: nat) returns (run: seq<Step>)
    requires Accepted(w, uid, stored)
    ensures |run| == n && OnlyReconciles(run, uid, stored) && ValidRun(w, run)
    ensures TotalEffective(w, run, uid) == n && TotalCost(w, run, uid) == 0
    decreases n
  {
    run := [];
    if n > 0 {
      hide Next, Valid, Cost, Effective, ValidRun, TotalEffective, TotalCost, OnlyReconciles, ServerFills, Proceeds,
        ExpectedPod, Consistent;
      var s := NotFoundTurn(w, uid, stored);
      IsReconcile(s, uid, stored);
      ExpectedStays(w, s, uid);
      var rest := NotFoundLoop(Next(w, s), uid, stored, n - 1);
      LongerRun(w, s, rest, uid, stored);
      run := [s] + rest;
    }
  }

  lemma {:induction false} NothingMisstored(w: World, run: seq<Step>, uid: string, stored: PodSpec)
    requires WellFormed(w) && ValidRun(w, run) && OnlyReconciles(run, uid, stored) && uid in w.sources
    requires SamePodFlags(Expected(w, uid), stored)
    ensures TotalMisstored(w, run, uid) == 0
    decreases |run|
  {
    if run != [] {
      hide Next, Valid, Effective, SamePodFlags, ExpectedPod, Consistent;
      ExpectedStays(w, run[0], uid);
      assert forall i | 0 <= i < |run[1..]| :: run[1..][i] == run[i + 1];
      NothingMisstored(Next(w, run[0]), run[1..], uid, stored);
    }
  }

  /** A write is only blind after a NotFound, or when others make an adapter appear after the listing. */
  lemma BlindStep(w: World, s: Step, uid: string)
    requires WellFormed(w) && Valid(w, s) && ListsAnswer([s], uid) && Cost(w, s, uid) == 0
    ensures Blind(w, s, uid) == 0
  {
    hide PodUnchanged, ExpectedPod, Consistent, ReconcileSource, ValidChoices, ApplyOthers, Settled, Target, TouchCosts;
    if Effective(w, s, uid) == 1 {
      assert [s][0] == s;
      var src := w.sources[uid];
      var n := ReconcileEffect(src, w.deps, w.image, ResolvedSink(w, uid, s.resolves), s.choices);
      ReachedByListing(w, s);
      OthersDebt(w.deps, s.choices.others, src, Expected(w, uid));
      if n !in ApplyOthers(w.deps, s.choices.others) {
        assert Adapters(w.deps, src) == {};
      }
    }
  }

  lemma {:induction false} NothingBlind(w: World, run: seq<Step>, uid: string)
    requires WellFormed(w) && ValidRun(w, run) && ListsAnswer(run, uid) && TotalCost(w, run, uid) == 0
    ensures TotalBlind(w, run, uid) == 0
    decreases |run|
  {
    if run != [] {
      hide Next, Valid, WellFormed, Blind, Cost;
      BlindStep(w, run[0], uid);
      NextWellFormed(w, run[0]);
      assert forall i | 0 <= i < |run[1..]| :: run[1..][i] == run[i + 1];
      NothingBlind(Next(w, run[0]), run[1..], uid);
    }
  }

  /**
   Reconciles alone, without any change that costs something, write b times at most, however many there are; notFound says
   whether list calls may fail with NotFound.
   */
  ghost predicate WritesAtMost(w: World, uid: string, stored: PodSpec, notFound: bool, b: nat)
  {
    forall run | && ValidRun(w, run) && OnlyReconciles(run, uid, stored) && TotalCost(w, run, uid) == 0
                 && (notFound || ListsAnswer(run, uid)) :: TotalEffective(w, run, uid) <= b
  }

  /**
   The exact condition under which there is no write loop: no list call fails with NotFound, and the server stores the flags
   as sent or the cluster is settled to begin with. Then the debt at the start is a bound, and otherwise there is none.
   */
  lemma NoLoopIff(w: World, uid: string, stored: PodSpec, notFound: bool)
    requires Accepted(w, uid, stored)
    ensures var harmless := !notFound && (SamePodFlags(Expected(w, uid), stored)
                                          || Settled(w.deps, w.sources[uid], w.image, w.sinks[uid]));
            && (harmless ==> WritesAtMost(w, uid, stored, notFound, Debt(w, uid)))
            && (!harmless ==> forall b: nat :: !WritesAtMost(w, uid, stored, notFound, b))
  {
    hide ValidRun, TotalCost, TotalEffective, SamePodFlags, ServerFills, Consistent, ExpectedPod, Settled,
      OnlyReconciles, ListsAnswer, Debt, Proceeds;
    if notFound {
      forall b: nat ensures !WritesAtMost(w, uid, stored, notFound, b) {
        var run := NotFoundLoop(w, uid, stored, b + 1);
      }
    } else if SamePodFlags(Expected(w, uid), stored) || Settled(w.deps, w.sources[uid], w.image, w.sinks[uid]) {
      forall run | ValidRun(w, run) && OnlyReconciles(run, uid, stored) && TotalCost(w, run, uid) == 0 && ListsAnswer(run, uid)
        ensures TotalEffective(w, run, uid) <= Debt(w, uid)
      {
        BoundedByDebt(w, run, uid, stored);
      }
    } else {
      forall b: nat ensures !WritesAtMost(w, uid, stored, notFound, b) {
        var run := MisstoredLoop(w, uid, stored, b + 1);
      }
    }
  }

  lemma BoundedByDebt(w: World, run: seq<Step>, uid: string, stored: PodSpec)
    requires WellFormed(w) && uid in w.sources
    requires ValidRun(w, run) && OnlyReconciles(run, uid, stored) && TotalCost(w, run, uid) == 0 && ListsAnswer(run, uid)
    requires SamePodFlags(Expected(w, uid), stored) || Settled(w.deps, w.sources[uid], w.image, w.sinks[uid])
    ensures TotalEffective(w, run, uid) <= Debt(w, uid)
  {
    hide ValidRun, TotalCost, TotalEffective, SamePodFlags, ExpectedPod, Settled, OnlyReconciles, ListsAnswer, Debt,
      Consistent;
    NoDebtIffSettled(w, uid);
    if Settled(w.deps, w.sources[uid], w.image, w.sinks[uid]) {
      StaysSettled(w, run, uid);
    } else {
      NothingMisstored(w, run, uid, stored);
      NothingBlind(w, run, uid);
      WritesBounded(w, run, uid);
    }
  }
}
