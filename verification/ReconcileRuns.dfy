/** Runs: reconciles of many sources, interleaved with everything that the rest of the world may do. */
module ReconcileRuns {
  import opened Basics
  import opened Kubernetes
  import opened KinesisTypes
  import opened StatusHistory
  import opened ApiServer
  import opened ChangeDetection
  import opened Reconciler
  import opened ReconcileLaws

  /**
   sources and sinks are indexed by the UID of the source; sinks holds the URI that its sink resolves to at present.
   retired are the UIDs of sources that are gone: a source that is created again under the same name gets a new one.
   */
  datatype World = World(
    deps: Deployments,
    sources: map<string, KinesisSource>,
    sinks: map<string, string>,
    image: string,
    retired: set<string>)

  datatype Step =
    | Reconcile(uid: string, resolves: bool, choices: Choices)
    | Outside(step: OutsideStep)
    | EditSpec(uid: string, spec: KinesisSourceSpec)
    | RequestDeletion(uid: string)
    | SetFinalizers(uid: string, finalizers: seq<string>)
    | MoveSink(uid: string, uri: string)
    | ChangeImage(image: string)
    | CreateSource(uid: string, namespace: string, name: string, spec: KinesisSourceSpec, uri: string)
    | RemoveSource(uid: string)

  function ResolvedSink(w: World, uid: string, resolves: bool): Option<string>
    requires uid in w.sinks
  {
    if resolves then Some(w.sinks[uid]) else None
  }

  ghost function Outcome(w: World, s: Step): ReconcileResult
    requires s.Reconcile? && s.uid in w.sources && s.uid in w.sinks
  {
    ReconcileSource(w.sources[s.uid], w.deps, w.image, ResolvedSink(w, s.uid, s.resolves), s.choices)
  }

  ghost predicate Valid(w: World, s: Step)
  {
    match s
    case Reconcile(uid, resolves, c) =>
      uid in w.sources && uid in w.sinks &&
      ValidChoices(w.deps, c)
    case Outside(_) => true
    case ChangeImage(_) => true
    case CreateSource(uid, _, _, _, _) => uid !in w.sources && uid !in w.retired && Owned(w.deps, uid) == map[]
    case _ => s.uid in w.sources
  }

  ghost function Next(w: World, s: Step): World
    requires Valid(w, s)
  {
    match s
    case Reconcile(uid, _, _) =>
      var r := Outcome(w, s);
      w.(deps := r.deps, sources := w.sources[uid := r.src])
    case Outside(o) => w.(deps := ApplyOutside(w.deps, o))
    case EditSpec(uid, spec) => w.(sources := w.sources[uid := w.sources[uid].(spec := spec)])
    case RequestDeletion(uid) => w.(sources := w.sources[uid := w.sources[uid].(deleting := true)])
    case SetFinalizers(uid, fs) => w.(sources := w.sources[uid := w.sources[uid].(finalizers := fs)])
    case MoveSink(uid, uri) => w.(sinks := w.sinks[uid := uri])
    case ChangeImage(image) => w.(image := image)
    case CreateSource(uid, ns, name, spec, uri) =>
      w.(sources := w.sources[uid := KinesisSource(ns, name, uid, [], false, spec, Fresh)], sinks := w.sinks[uid := uri])
    case RemoveSource(uid) => w.(sources := w.sources - {uid}, retired := w.retired + {uid})
  }

  ghost predicate ValidRun(w: World, run: seq<Step>)
    decreases |run|
  {
    run == [] || (Valid(w, run[0]) && ValidRun(Next(w, run[0]), run[1..]))
  }

  ghost function Final(w: World, run: seq<Step>): World
    requires ValidRun(w, run)
    decreases |run|
  {
    if run == [] then w else Final(Next(w, run[0]), run[1..])
  }

  /** What every world keeps; a world without sources and deployments has it. */
  ghost predicate WellFormed(w: World)
  {
    forall u | u in w.sources ::
      w.sources[u].uid == u && u in w.sinks && u !in w.retired && Consistent(w.sources[u].status.conditions)
  }

  // ----- What one reconcile does to the source -----

  /** Namespace, name, UID, deletion mark and spec are never touched; statuses stay consistent. */
  lemma SourceKept(src: KinesisSource, deps: Deployments, image: string, sink: Option<string>, c: Choices)
    ensures var r := ReconcileSource(src, deps, image, sink, c);
            && r.src == src.(finalizers := r.src.finalizers, status := r.src.status)
            && r.src.finalizers == (if src.deleting then WithoutFinalizer(src.finalizers) else WithFinalizer(src.finalizers))
            && (src.deleting ==> r.src.status == src.status && r.deps == deps && !r.call)
            && (Consistent(src.status.conditions) ==> Consistent(r.src.status.conditions))
  {
    hide CreateAdapter, Consistent, Apply;
    if !src.deleting && Consistent(src.status.conditions) {
      var s1 := Apply(src.status, InitializeConditions);
      ApplyKeepsConsistent(src.status, InitializeConditions);
      ApplyKeepsConsistent(s1, MarkNoSink);
      if sink.Some? {
        ApplyKeepsConsistent(s1, MarkSink(sink.value));
        ApplyKeepsConsistent(Apply(s1, MarkSink(sink.value)), MarkDeployed);
      }
    }
  }

  lemma NextWellFormed(w: World, s: Step)
    requires WellFormed(w) && Valid(w, s)
    ensures WellFormed(Next(w, s))
  {
    hide ReconcileSource, ValidChoices, Consistent, ApplyOutside, Owned;
    if s.Reconcile? {
      SourceKept(w.sources[s.uid], w.deps, w.image, ResolvedSink(w, s.uid, s.resolves), s.choices);
    } else if s.CreateSource? {
      assert Consistent(Fresh.conditions) by { HistoryConsistent([]); }
    }
  }

  lemma {:induction false} FinalWellFormed(w: World, run: seq<Step>)
    requires WellFormed(w) && ValidRun(w, run)
    ensures WellFormed(Final(w, run))
    decreases |run|
  {
    if run != [] {
      NextWellFormed(w, run[0]);
      FinalWellFormed(Next(w, run[0]), run[1..]);
    }
  }

  // ----- Outsiders -----

  /** Where a deployment lives, how it is labelled, and who controls it. */
  predicate SameIdentity(d: Deployment, d': Deployment)
  {
    d.namespace == d'.namespace && d.labels == d'.labels && d.controller == d'.controller
  }

  /** The step leaves alone who controls what, where it lives and how it is labelled, as far as uid is concerned. */
  predicate KeepsIdentity(deps: Deployments, s: OutsideStep, uid: string)
  {
    match s
    case Edit(n, d) => n in deps && (ControlledBy(deps[n], uid) || ControlledBy(d, uid)) ==> SameIdentity(deps[n], d)
    case Delete(_) => true
    case Add(_, d) => !ControlledBy(d, uid)
  }

  predicate Touches(deps: Deployments, s: OutsideStep, uid: string)
  {
    (s.Edit? || s.Delete?) && s.name in Owned(deps, uid)
  }

  predicate AllKeepIdentity(deps: Deployments, steps: seq<OutsideStep>, uid: string)
    decreases |steps|
  {
    steps == [] || (KeepsIdentity(deps, steps[0], uid) && AllKeepIdentity(ApplyOutside(deps, steps[0]), steps[1..], uid))
  }

  function Touching(deps: Deployments, steps: seq<OutsideStep>, uid: string): nat
    decreases |steps|
  {
    if steps == [] then 0
    else (if Touches(deps, steps[0], uid) then 1 else 0) + Touching(ApplyOutside(deps, steps[0]), steps[1..], uid)
  }

  ghost predicate AllMatch(owned: Deployments, namespace: string, selector: Labels)
  {
    forall n | n in owned :: Matches(owned[n], namespace, selector)
  }

  lemma OutsideStepKeeps(deps: Deployments, s: OutsideStep, uid: string, namespace: string, selector: Labels)
    requires KeepsIdentity(deps, s, uid)
    ensures var before, after := Owned(deps, uid), Owned(ApplyOutside(deps, s), uid);
            && (AtMostOne(before) ==> AtMostOne(after))
            && (AllMatch(before, namespace, selector) ==> AllMatch(after, namespace, selector))
            && (!Touches(deps, s, uid) ==> after == before)
  {
    hide Selects;
    var before, after := Owned(deps, uid), Owned(ApplyOutside(deps, s), uid);
    assert after.Keys <= before.Keys;
    if AllMatch(before, namespace, selector) {
      forall n | n in after ensures Matches(after[n], namespace, selector) {
        assert Matches(before[n], namespace, selector);
      }
    }
  }

  lemma {:induction false} OthersKeep(deps: Deployments, steps: seq<OutsideStep>, uid: string, namespace: string, selector: Labels)
    requires AllKeepIdentity(deps, steps, uid)
    ensures var before, after := Owned(deps, uid), Owned(ApplyOthers(deps, steps), uid);
            && (AtMostOne(before) ==> AtMostOne(after))
            && (AllMatch(before, namespace, selector) ==> AllMatch(after, namespace, selector))
            && (Touching(deps, steps, uid) == 0 ==> after == before)
    decreases |steps|
  {
    if steps != [] {
      hide KeepsIdentity, Touches, Owned, AllMatch, AtMostOne, ApplyOutside;
      OutsideStepKeeps(deps, steps[0], uid, namespace, selector);
      OthersKeep(ApplyOutside(deps, steps[0]), steps[1..], uid, namespace, selector);
    }
  }

  /** The step gives uid a deployment that it did not control before. */
  predicate Gives(deps: Deployments, s: OutsideStep, uid: string)
  {
    match s
    case Edit(n, d) => n in deps && ControlledBy(d, uid) && !ControlledBy(deps[n], uid)
    case Delete(_) => false
    case Add(n, d) => n !in deps && ControlledBy(d, uid)
  }

  predicate NoneGives(deps: Deployments, steps: seq<OutsideStep>, uid: string)
    decreases |steps|
  {
    steps == [] || (!Gives(deps, steps[0], uid) && NoneGives(ApplyOutside(deps, steps[0]), steps[1..], uid))
  }

  lemma {:induction false} NothingGiven(deps: Deployments, steps: seq<OutsideStep>, uid: string)
    requires NoneGives(deps, steps, uid)
    ensures Owned(ApplyOthers(deps, steps), uid).Keys <= Owned(deps, uid).Keys
    decreases |steps|
  {
    if steps != [] {
      assert Owned(ApplyOutside(deps, steps[0]), uid).Keys <= Owned(deps, uid).Keys;
      NothingGiven(ApplyOutside(deps, steps[0]), steps[1..], uid);
    }
  }

  /**
   The environment that the invariants of a source rely on: nobody else relabels, moves or hands over deployments that
   the source controls, and no list call made for the source fails with NotFound.
   */
  ghost predicate Honest(w: World, s: Step, uid: string)
    requires Valid(w, s)
  {
    match s
    case Reconcile(u, _, c) =>
      && (Outcome(w, s).call ==> AllKeepIdentity(w.deps, c.others, uid))
      && (u == uid ==> c.list != ListFails(NotFound))
    case Outside(o) => KeepsIdentity(w.deps, o, uid)
    case _ => true
  }

  ghost predicate HonestRun(w: World, run: seq<Step>, uid: string)
    requires ValidRun(w, run)
    decreases |run|
  {
    run == [] || (Honest(w, run[0], uid) && HonestRun(Next(w, run[0]), run[1..], uid))
  }

  lemma OwnedAfterPut(deps: Deployments, n: string, d: Deployment, owner: string, uid: string)
    requires ControlledBy(d, owner) && (n in deps ==> ControlledBy(deps[n], owner))
    ensures Owned(deps[n := d], uid) == if uid == owner then Owned(deps, uid)[n := d] else Owned(deps, uid)
  {
  }

  /** A write for one source leaves what another controls alone, and moves its own adapter only. */
  lemma OwnedAfterWrite(src: KinesisSource, expected: PodSpec, stored: PodSpec, listed: Deployments, base: Deployments,
                        after: Deployments, n: string, uid: string)
    requires Written(src, expected, stored, listed, base, after, n)
    ensures uid != src.uid ==> Owned(after, uid) == Owned(base, uid)
    ensures uid == src.uid ==> Owned(after, uid) == Owned(base, uid)[n := after[n]]
    ensures uid == src.uid && n in base ==> n in Owned(base, uid)
  {
    hide PodUnchanged, Matches, GetLabels, SameFrame;
    OwnedAfterPut(base, n, after[n], src.uid, uid);
  }

  // ----- At most one adapter per source, exactly -----

  /** Nobody but the controller gives uid a deployment in this step. */
  ghost predicate GiftFree(w: World, s: Step, uid: string)
    requires Valid(w, s)
  {
    match s
    case Reconcile(_, _, c) => Outcome(w, s).call ==> NoneGives(w.deps, c.others, uid)
    case Outside(o) => !Gives(w.deps, o, uid)
    case _ => true
  }

  ghost predicate GiftFreeRun(w: World, run: seq<Step>, uid: string)
    requires ValidRun(w, run)
    decreases |run|
  {
    run == [] || (GiftFree(w, run[0], uid) && GiftFreeRun(Next(w, run[0]), run[1..], uid))
  }

  /** The step reconciles uid and creates a second adapter. */
  ghost predicate Doubles(w: World, s: Step, uid: string)
    requires Valid(w, s)
  {
    s.Reconcile? && s.uid == uid && DoublesAdapter(w.deps, w.sources[uid], ResolvedSink(w, uid, s.resolves), s.choices)
  }

  ghost predicate NeverDoubles(w: World, run: seq<Step>, uid: string)
    requires ValidRun(w, run)
    decreases |run|
  {
    run == [] || (!Doubles(w, run[0], uid) && NeverDoubles(Next(w, run[0]), run[1..], uid))
  }

  /** At every point of the run, uid controls one deployment at most. */
  ghost predicate AlwaysAtMostOne(w: World, run: seq<Step>, uid: string)
    requires ValidRun(w, run)
    decreases |run|
  {
    AtMostOne(Owned(w.deps, uid)) && (run != [] ==> AlwaysAtMostOne(Next(w, run[0]), run[1..], uid))
  }

  /** Exactly these steps lead from one adapter at most to more. */
  lemma DoublesIff(w: World, s: Step, uid: string)
    requires WellFormed(w) && Valid(w, s) && GiftFree(w, s, uid) && AtMostOne(Owned(w.deps, uid))
    ensures AtMostOne(Owned(Next(w, s).deps, uid)) <==> !Doubles(w, s, uid)
  {
    if s.Reconcile? {
      ReconcileDoublesIff(w, s, uid);
    } else {
      hide ReconcileSource, ValidChoices, Consistent, DoublesAdapter;
      assert Owned(Next(w, s).deps, uid).Keys <= Owned(w.deps, uid).Keys;
    }
  }

  lemma ReconcileDoublesIff(w: World, s: Step, uid: string)
    requires WellFormed(w) && Valid(w, s) && GiftFree(w, s, uid) && AtMostOne(Owned(w.deps, uid)) && s.Reconcile?
    ensures AtMostOne(Owned(Next(w, s).deps, uid)) <==> !Doubles(w, s, uid)
  {
    hide ReconcileSource, Matches, PodUnchanged, ExpectedPod, Consistent, ValidChoices, ApplyOthers, NoneGives,
      Settled, SameFrame, DoublesAdapter, Target, Owned, Findable;
    var src, sink, c := w.sources[s.uid], ResolvedSink(w, s.uid, s.resolves), s.choices;
    var r := Outcome(w, s);
    if r.call {
      NothingGiven(w.deps, c.others, uid);
      assert AtMostOne(Owned(ApplyOthers(w.deps, c.others), uid));
      if s.uid == uid {
        DuplicateIff(src, w.deps, w.image, sink, c);
      } else {
        var n := ReconcileEffect(src, w.deps, w.image, sink, c);
        if r.applied {
          var pod := ExpectedPod(src, w.image, sink.value);
          OwnedAfterWrite(src, pod, Kept(pod, c), w.deps, ApplyOthers(w.deps, c.others), r.deps, n, uid);
        }
      }
    } else {
      var n := ReconcileEffect(src, w.deps, w.image, sink, c);
      if s.uid == uid {
        CreatedIff(src, w.deps, w.image, sink, c);
      }
    }
  }

  /**
   At most one adapter, exactly: as long as nobody else gives the source a deployment, it controls one at most at every point
   of a run if and only if no reconcile of the run doubles it. Others may relabel, move and delete its deployments, and list
   calls may fail with NotFound.
   */
  lemma {:induction false} OneAdapterIff(w: World, run: seq<Step>, uid: string)
    requires WellFormed(w) && ValidRun(w, run) && GiftFreeRun(w, run, uid) && AtMostOne(Owned(w.deps, uid))
    ensures AlwaysAtMostOne(w, run, uid) <==> NeverDoubles(w, run, uid)
    decreases |run|
  {
    if run != [] {
      hide Next, Valid, WellFormed, GiftFree, Doubles, AtMostOne;
      DoublesIff(w, run[0], uid);
      NextWellFormed(w, run[0]);
      if Doubles(w, run[0], uid) {
        assert !AlwaysAtMostOne(Next(w, run[0]), run[1..], uid);
      } else {
        OneAdapterIff(Next(w, run[0]), run[1..], uid);
      }
    }
  }

  // ----- An environment in which there is always one at most -----

  ghost predicate OneAdapter(w: World, uid: string)
  {
    && AtMostOne(Owned(w.deps, uid))
    && (uid in w.sources ==> AllMatch(Owned(w.deps, uid), w.sources[uid].namespace, GetLabels(w.sources[uid])))
  }

  lemma OneAdapterStep(w: World, s: Step, uid: string)
    requires WellFormed(w) && Valid(w, s) && Honest(w, s, uid) && OneAdapter(w, uid)
    ensures OneAdapter(Next(w, s), uid)
  {
    if s.Reconcile? {
      OneAdapterReconcile(w, s, uid);
    } else if s.Outside? {
      if uid in w.sources {
        OutsideStepKeeps(w.deps, s.step, uid, w.sources[uid].namespace, GetLabels(w.sources[uid]));
      } else {
        OutsideStepKeeps(w.deps, s.step, uid, "", map[]);
      }
    } else {
      hide ReconcileSource, Consistent, Matches;
    }
  }

  /** What keeps labels, places and controllers gives nothing. */
  lemma {:induction false} KeepersGiveNone(deps: Deployments, steps: seq<OutsideStep>, uid: string)
    requires AllKeepIdentity(deps, steps, uid)
    ensures NoneGives(deps, steps, uid)
    decreases |steps|
  {
    if steps != [] {
      KeepersGiveNone(ApplyOutside(deps, steps[0]), steps[1..], uid);
    }
  }

  /** With an adapter that can be found, a listing that succeeds finds it. */
  lemma HonestNeverDoubles(w: World, s: Step, uid: string)
    requires WellFormed(w) && Valid(w, s) && Honest(w, s, uid) && OneAdapter(w, uid)
    ensures GiftFree(w, s, uid) && !Doubles(w, s, uid)
  {
    hide ReconcileSource, Matches, PodUnchanged, ExpectedPod, Consistent, ValidChoices, ApplyOthers, AllKeepIdentity,
      NoneGives, Target;
    if s.Reconcile? {
      var src, c := w.sources[s.uid], s.choices;
      if Outcome(w, s).call {
        KeepersGiveNone(w.deps, c.others, uid);
      }
      if Doubles(w, s, uid) {
        CreatedIff(src, w.deps, w.image, ResolvedSink(w, uid, s.resolves), c);
        var n := ReconcileEffect(src, w.deps, w.image, ResolvedSink(w, uid, s.resolves), c);
        assert forall m | m in Owned(w.deps, uid) :: Findable(w.deps, src, m);
        OthersOwnNothing(w.deps, c.others, uid);
      }
    }
  }

  lemma OneAdapterReconcile(w: World, s: Step, uid: string)
    requires WellFormed(w) && Valid(w, s) && Honest(w, s, uid) && OneAdapter(w, uid) && s.Reconcile?
    ensures OneAdapter(Next(w, s), uid)
  {
    hide ReconcileSource, Matches, PodUnchanged, ExpectedPod, Consistent, ValidChoices, ApplyOthers, AllKeepIdentity,
      Settled, Doubles, GiftFree, GetLabels;
    var src, c := w.sources[s.uid], s.choices;
    var r := Outcome(w, s);
    HonestNeverDoubles(w, s, uid);
    DoublesIff(w, s, uid);
    SourceKept(src, w.deps, w.image, ResolvedSink(w, s.uid, s.resolves), c);
    var n := ReconcileEffect(src, w.deps, w.image, ResolvedSink(w, s.uid, s.resolves), c);
    if uid in w.sources {
      if r.call {
        OthersKeep(w.deps, c.others, uid, w.sources[uid].namespace, GetLabels(w.sources[uid]));
      }
      if r.applied {
        var base := ApplyOthers(w.deps, c.others);
        var pod := ExpectedPod(src, w.image, w.sinks[s.uid]);
        OwnedAfterWrite(src, pod, Kept(pod, c), w.deps, base, r.deps, n, uid);
      }
      assert GetLabels(r.src) == GetLabels(src) by { LabelsKept(src, r.src); }
    }
  }

  lemma LabelsKept(src: KinesisSource, src': KinesisSource)
    requires src'.name == src.name
    ensures GetLabels(src') == GetLabels(src)
  {
  }

  /** A call that is reached although no list call fails with NotFound was reached by way of a listing. */
  lemma ReachedByListing(w: World, s: Step)
    requires Valid(w, s) && s.Reconcile? && Outcome(w, s).call && s.choices.list != ListFails(NotFound)
    ensures s.choices.list.Lists?
  {
    hide PodUnchanged, ExpectedPod, OwnedAdapter, Find, AfterCreate, AfterUpdate, Apply, ValidChoices;
  }

  lemma {:induction false} OthersOwnNothing(deps: Deployments, steps: seq<OutsideStep>, uid: string)
    requires AllKeepIdentity(deps, steps, uid) && Owned(deps, uid) == map[]
    ensures Owned(ApplyOthers(deps, steps), uid) == map[]
    decreases |steps|
  {
    if steps != [] {
      OutsideStepKeeps(deps, steps[0], uid, "", map[]);
      assert !Touches(deps, steps[0], uid);
      OthersOwnNothing(ApplyOutside(deps, steps[0]), steps[1..], uid);
    }
  }

  /** In every honest run a source controls one deployment at most, at every point, and can find the one it controls. */
  lemma {:induction false} OneAdapterAlways(w: World, run: seq<Step>, uid: string)
    requires WellFormed(w) && ValidRun(w, run) && HonestRun(w, run, uid) && OneAdapter(w, uid)
    ensures OneAdapter(Final(w, run), uid)
    decreases |run|
  {
    if run != [] {
      OneAdapterStep(w, run[0], uid);
      NextWellFormed(w, run[0]);
      OneAdapterAlways(Next(w, run[0]), run[1..], uid);
    }
  }
}
