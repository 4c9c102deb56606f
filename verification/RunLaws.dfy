/** What reconciles never touch. */
module Isolation {
  import opened Kubernetes
  import opened StatusHistory
  import opened ApiServer
  import opened ChangeDetection
  import opened Reconciler
  import opened ReconcileLaws
  import opened ReconcileRuns

  /** Nobody but the controller acts on the deployment called n in this step. */
  predicate Spares(s: Step, n: string)
  {
    match s
    case Outside(o) => o.name != n
    case Reconcile(_, _, c) => forall i | 0 <= i < |c.others| :: c.others[i].name != n
    case _ => true
  }

  lemma {:induction false} OthersSpare(deps: Deployments, steps: seq<OutsideStep>, n: string)
    requires forall i | 0 <= i < |steps| :: steps[i].name != n
    ensures n in ApplyOthers(deps, steps) <==> n in deps
    ensures n in deps ==> ApplyOthers(deps, steps)[n] == deps[n]
    decreases |steps|
  {
    if steps != [] {
      OthersSpare(ApplyOutside(deps, steps[0]), steps[1..], n);
    }
  }

  /** A step keeps everything about a deployment but its pod spec, and that too unless it reconciles the controller. */
  lemma StepKeepsDeployment(w: World, s: Step, n: string)
    requires WellFormed(w) && Valid(w, s) && Spares(s, n) && n in w.deps
    ensures var w' := Next(w, s);
            && n in w'.deps && SameFrame(w.deps[n], w'.deps[n])
            && (!(s.Reconcile? && ControlledBy(w.deps[n], s.uid)) ==> w'.deps[n] == w.deps[n])
  {
    hide PodUnchanged, ExpectedPod, Matches, Consistent, ReconcileSource, ValidChoices, Settled, GetLabels, ApplyOthers;
    if s.Reconcile? {
      var src, c := w.sources[s.uid], s.choices;
      var r := Outcome(w, s);
      var m := ReconcileEffect(src, w.deps, w.image, ResolvedSink(w, s.uid, s.resolves), c);
      OthersSpare(w.deps, c.others, n);
    }
  }

  /**
   Over any interleaving of reconciles for any sources, also with one deleted and created again under the same name, a
   deployment keeps its namespace, labels, controller, selector, template labels and template annotations as first
   written; and it changes only if a source with the UID that controls it is reconciled.
   */
  lemma {:induction false} DeploymentsIsolated(w: World, run: seq<Step>, n: string)
    requires WellFormed(w) && ValidRun(w, run) && n in w.deps
    requires forall i | 0 <= i < |run| :: Spares(run[i], n)
    ensures n in Final(w, run).deps && SameFrame(w.deps[n], Final(w, run).deps[n])
    ensures (forall i | 0 <= i < |run| :: !(run[i].Reconcile? && ControlledBy(w.deps[n], run[i].uid))) ==>
              Final(w, run).deps[n] == w.deps[n]
    decreases |run|
  {
    if run != [] {
      hide Next, WellFormed, Valid;
      StepKeepsDeployment(w, run[0], n);
      NextWellFormed(w, run[0]);
      assert forall i | 0 <= i < |run[1..]| :: run[1..][i] == run[i + 1];
      DeploymentsIsolated(Next(w, run[0]), run[1..], n);
    }
  }
}

/** What Ready means over a run. */
module ReadyMeaning {
  import opened Basics
  import opened Kubernetes
  import opened KinesisTypes
  import opened StatusHistory
  import opened ApiServer
  import opened ChangeDetection
  import opened Reconciler
  import opened ReconcileLaws
  import opened ReconcileRuns

  predicate IsDeployed(w: World, uid: string)
  {
    uid in w.sources && Is(w.sources[uid].status.conditions, Deployed, True)
  }

  predicate IsReady(w: World, uid: string)
  {
    uid in w.sources && w.sources[uid].status.IsReady()
  }

  /** A reconcile of uid that finds it not deleted. */
  predicate Live(w: World, s: Step, uid: string)
  {
    s.Reconcile? && s.uid == uid && uid in w.sources && !w.sources[uid].deleting
  }

  /** Whether the last such reconcile of the run resolved a non-empty sink; None when there was none. */
  ghost function LastResolution(w: World, run: seq<Step>, uid: string): Option<bool>
    requires ValidRun(w, run)
    decreases |run|
  {
    if run == [] then None
    else
      match LastResolution(Next(w, run[0]), run[1..], uid)
      case Some(b) => Some(b)
      case None => if Live(w, run[0], uid) then Some(run[0].resolves && w.sinks[uid] != "") else None
  }

  /**
   The status after a reconcile. The sink condition is that of the URI. Deployed becomes True if the server accepted the write,
   or none was needed, and is otherwise what it was. Ready is True if both are, False if the sink did not resolve, and
   otherwise at most as good as it was.
   */
  lemma StatusAfterReconcile(src: KinesisSource, deps: Deployments, image: string, sink: Option<string>, c: Choices)
    requires !src.deleting && Consistent(src.status.conditions)
    ensures var r := ReconcileSource(src, deps, image, sink, c);
            var before, cs := src.status.conditions, r.src.status.conditions;
            var succeeded := if r.call then r.applied && c.write == Applied
                             else Proceeds(src) && sink.Some? && FoundUpToDate(deps, src, image, sink.value, c);
            && Consistent(cs) && {SinkProvided, Deployed, Ready} <= cs.Keys
            && cs[SinkProvided] == (if sink == None then False else if sink.value == "" then Unknown else True)
            && cs[Deployed] == (if succeeded then True else if Deployed in before then before[Deployed] else Unknown)
            && cs[Ready] == (if sink == None then False
                             else if cs[SinkProvided] == True && cs[Deployed] == True then True
                             else if sink.value == "" then (if Is(before, Deployed, False) then False else Unknown)
                             else if Ready in before then before[Ready] else Unknown)
            && r.src.status.sinkURI == (if sink.Some? then sink.value else src.status.sinkURI)
            && (r.err == None <==> succeeded)
  {
    SourceKept(src, deps, image, sink, c);
    ErrorsExactly(src, deps, image, sink, c);
    StatusByError(src, deps, image, sink, c);
    hide ReconcileSource, Consistent, FoundUpToDate;
  }

  lemma StatusByError(src: KinesisSource, deps: Deployments, image: string, sink: Option<string>, c: Choices)
    requires !src.deleting && Consistent(src.status.conditions)
    ensures var r := ReconcileSource(src, deps, image, sink, c);
            var before, cs := src.status.conditions, r.src.status.conditions;
            && {SinkProvided, Deployed, Ready} <= cs.Keys
            && cs[SinkProvided] == (if sink == None then False else if sink.value == "" then Unknown else True)
            && cs[Deployed] == (if r.err == None then True else if Deployed in before then before[Deployed] else Unknown)
            && cs[Ready] == (if sink == None then False
                             else if cs[SinkProvided] == True && cs[Deployed] == True then True
                             else if sink.value == "" then (if Is(before, Deployed, False) then False else Unknown)
                             else if Ready in before then before[Ready] else Unknown)
            && r.src.status.sinkURI == (if sink.Some? then sink.value else src.status.sinkURI)
  {
    hide CreateAdapter, WithFinalizer;
  }

  lemma {:induction false} GoneStaysGone(w: World, run: seq<Step>, uid: string)
    requires ValidRun(w, run) && uid in w.retired && uid !in w.sources
    ensures uid !in Final(w, run).sources
    decreases |run|
  {
    if run != [] {
      hide ReconcileSource, ValidChoices;
      GoneStaysGone(Next(w, run[0]), run[1..], uid);
    }
  }

  /** One step moves Deployed from False or Unknown to True at most, and never back. */
  lemma DeployedStep(w: World, s: Step, uid: string)
    requires WellFormed(w) && Valid(w, s) && IsDeployed(w, uid)
    ensures IsDeployed(Next(w, s), uid) || s == RemoveSource(uid)
  {
    hide ReconcileSource, ValidChoices, Consistent;
    if s.Reconcile? && s.uid == uid {
      var src, sink := w.sources[uid], ResolvedSink(w, uid, s.resolves);
      SourceKept(src, w.deps, w.image, sink, s.choices);
      if !src.deleting {
        StatusAfterReconcile(src, w.deps, w.image, sink, s.choices);
      }
    }
  }

  /** Deployed never leaves True for as long as the source exists. */
  lemma {:induction false} DeployedSticks(w: World, run: seq<Step>, uid: string)
    requires WellFormed(w) && ValidRun(w, run) && IsDeployed(w, uid) && uid in Final(w, run).sources
    ensures IsDeployed(Final(w, run), uid)
    decreases |run|
  {
    if run != [] {
      hide Valid, WellFormed;
      if run[0] == RemoveSource(uid) {
        GoneStaysGone(Next(w, run[0]), run[1..], uid);
      } else {
        DeployedStep(w, run[0], uid);
        NextWellFormed(w, run[0]);
        DeployedSticks(Next(w, run[0]), run[1..], uid);
      }
    }
  }

  /** Only a live reconcile changes the status. */
  lemma StatusStep(w: World, s: Step, uid: string)
    requires WellFormed(w) && Valid(w, s) && uid in w.sources && uid in Next(w, s).sources
    ensures !Live(w, s, uid) ==> Next(w, s).sources[uid].status == w.sources[uid].status
    ensures Live(w, s, uid) ==> (IsReady(Next(w, s), uid) <==>
              IsDeployed(Next(w, s), uid) && s.resolves && w.sinks[uid] != "")
  {
    hide ReconcileSource, ValidChoices;
    if s.Reconcile? && s.uid == uid {
      var src, sink := w.sources[uid], ResolvedSink(w, uid, s.resolves);
      SourceKept(src, w.deps, w.image, sink, s.choices);
      if !src.deleting {
        StatusAfterReconcile(src, w.deps, w.image, sink, s.choices);
      }
    }
  }

  /**
   The meaning of Ready, exactly: once a source that is not deleted has been reconciled, it is ready if and only if it
   is deployed and the last such reconcile resolved a non-empty sink. Before, Ready is what it was.
   */
  lemma {:induction false} ReadyExactly(w: World, run: seq<Step>, uid: string)
    requires WellFormed(w) && ValidRun(w, run) && uid in w.sources && uid in Final(w, run).sources
    ensures match LastResolution(w, run, uid)
            case Some(b) => IsReady(Final(w, run), uid) <==> IsDeployed(Final(w, run), uid) && b
            case None => Final(w, run).sources[uid].status == w.sources[uid].status
    decreases |run|
  {
    if run != [] {
      hide Valid, WellFormed, Next;
      if uid !in Next(w, run[0]).sources {
        Removed(w, run[0], uid);
        GoneStaysGone(Next(w, run[0]), run[1..], uid);
      } else {
        StatusStep(w, run[0], uid);
        NextWellFormed(w, run[0]);
        ReadyExactly(Next(w, run[0]), run[1..], uid);
      }
    }
  }

  lemma Removed(w: World, s: Step, uid: string)
    requires Valid(w, s) && uid in w.sources && uid !in Next(w, s).sources
    ensures uid in Next(w, s).retired
  {
    hide ReconcileSource, ValidChoices;
  }

  // ----- Ready and the existence of an adapter -----

  /** Nobody else takes a deployment away from uid in this step. */
  predicate LeavesAdapters(deps: Deployments, s: OutsideStep, uid: string)
  {
    s.name in Owned(deps, uid) ==> !s.Delete? && (s.Edit? ==> ControlledBy(s.edited, uid))
  }

  predicate AllLeaveAdapters(deps: Deployments, steps: seq<OutsideStep>, uid: string)
    decreases |steps|
  {
    steps == [] || (LeavesAdapters(deps, steps[0], uid) && AllLeaveAdapters(ApplyOutside(deps, steps[0]), steps[1..], uid))
  }

  ghost predicate NoTakeover(w: World, run: seq<Step>, uid: string)
    requires ValidRun(w, run)
    decreases |run|
  {
    run == [] ||
    (&& (run[0].Outside? ==> LeavesAdapters(w.deps, run[0].step, uid))
     && (run[0].Reconcile? && Outcome(w, run[0]).call ==> AllLeaveAdapters(w.deps, run[0].choices.others, uid))
     && NoTakeover(Next(w, run[0]), run[1..], uid))
  }

  lemma {:induction false} OthersLeave(deps: Deployments, steps: seq<OutsideStep>, uid: string)
    requires AllLeaveAdapters(deps, steps, uid)
    ensures Owned(deps, uid).Keys <= Owned(ApplyOthers(deps, steps), uid).Keys
    decreases |steps|
  {
    if steps != [] {
      assert Owned(deps, uid).Keys <= Owned(ApplyOutside(deps, steps[0]), uid).Keys;
      OthersLeave(ApplyOutside(deps, steps[0]), steps[1..], uid);
    }
  }

  /** Deployed is backed by a deployment. */
  predicate Backed(w: World, uid: string)
  {
    IsDeployed(w, uid) ==> Owned(w.deps, uid) != map[]
  }

  lemma BackedByReconcile(w: World, s: Step, uid: string)
    requires WellFormed(w) && Valid(w, s) && s.Reconcile? && Backed(w, uid)
    requires Outcome(w, s).call ==> AllLeaveAdapters(w.deps, s.choices.others, uid)
    ensures Backed(Next(w, s), uid)
  {
    hide ReconcileSource, ValidChoices, Consistent, PodUnchanged, ExpectedPod, Matches, Settled, ApplyOthers,
      GetLabels, CreateAdapter;
    var src, sink, c := w.sources[s.uid], ResolvedSink(w, s.uid, s.resolves), s.choices;
    var r := Outcome(w, s);
    var base := Base(w.deps, r.call, c);
    var n := ReconcileEffect(src, w.deps, w.image, sink, c);
    SourceKept(src, w.deps, w.image, sink, c);
    if r.call {
      OthersLeave(w.deps, c.others, uid);
    }
    assert Owned(w.deps, uid).Keys <= Owned(base, uid).Keys;
    if r.applied {
      var pod := ExpectedPod(src, w.image, sink.value);
      OwnedAfterWrite(src, pod, Kept(pod, c), w.deps, base, r.deps, n, uid);
    }
    assert Owned(w.deps, uid).Keys <= Owned(r.deps, uid).Keys;
    if s.uid == uid && !src.deleting {
      StatusAfterReconcile(src, w.deps, w.image, sink, c);
      if r.err == None {
        SuccessLeavesAdapter(src, w.deps, w.image, sink, c);
      }
    }
  }

  /** A reconcile without an error leaves a controlled deployment, unless others removed it before it answered. */
  lemma SuccessLeavesAdapter(src: KinesisSource, deps: Deployments, image: string, sink: Option<string>, c: Choices)
    requires ValidChoices(deps, c) && !src.deleting
    requires ReconcileSource(src, deps, image, sink, c).err == None
    ensures Owned(ReconcileSource(src, deps, image, sink, c).deps, src.uid) != map[]
  {
    hide PodUnchanged, ExpectedPod, OwnedAdapter, ServerFills, GetLabels, Matches, Find, Apply, WithFinalizer, Settled,
      EncodeDecode.CredentialsConfigured, Selects, AfterCreate, AfterUpdate, ApplyOthers;
    var n := ReconcileEffect(src, deps, image, sink, c);
    var src2 := SourceAtAdapter(src, sink.value);
    if c.list.Lists? {
      FindComplete(deps, src2, c.list.order);
    }
    var r := ReconcileSource(src, deps, image, sink, c);
    if r.applied {
      assert n in Owned(r.deps, src.uid);
    } else {
      var found := Find(deps, src2, c.list.order);
      assert found.value.0 in Owned(r.deps, src.uid);
    }
  }

  lemma BackedStep(w: World, s: Step, uid: string)
    requires WellFormed(w) && Valid(w, s) && Backed(w, uid)
    requires s.Outside? ==> LeavesAdapters(w.deps, s.step, uid)
    requires s.Reconcile? && Outcome(w, s).call ==> AllLeaveAdapters(w.deps, s.choices.others, uid)
    ensures Backed(Next(w, s), uid)
  {
    hide ReconcileSource, ValidChoices, Consistent;
    if s.Reconcile? {
      BackedByReconcile(w, s, uid);
    } else if s.Outside? {
      assert Owned(w.deps, uid).Keys <= Owned(ApplyOutside(w.deps, s.step), uid).Keys;
    }
  }

  /** If nobody else takes its deployments away, a source that is ready has one now. */
  lemma {:induction false} ReadyImpliesAdapter(w: World, run: seq<Step>, uid: string)
    requires WellFormed(w) && ValidRun(w, run) && NoTakeover(w, run, uid) && Backed(w, uid)
    ensures Backed(Final(w, run), uid)
    ensures IsReady(Final(w, run), uid) ==> exists n :: n in Final(w, run).deps && ControlledBy(Final(w, run).deps[n], uid)
    decreases |run|
  {
    if run != [] {
      hide Valid, WellFormed, Next, Backed;
      BackedStep(w, run[0], uid);
      NextWellFormed(w, run[0]);
      ReadyImpliesAdapter(Next(w, run[0]), run[1..], uid);
    } else if IsReady(w, uid) {
      var n :| n in Owned(w.deps, uid);
    }
  }
}

/** What one reconcile without faults is worth later on. */
module Stability {
  import opened Basics
  import opened StatusHistory
  import opened ChangeDetection
  import opened Reconciler
  import opened ReconcileLaws
  import opened ReconcileRuns
  import opened BoundedWrites
  import opened ReadyMeaning

  /** A reconcile of uid without faults, which gets as far as the adapter and leaves a settled cluster. */
  ghost predicate Settles(w: World, s: Step, uid: string)
    requires WellFormed(w) && Valid(w, s)
  {
    && s.Reconcile? && s.uid == uid && s.resolves && w.sinks[uid] != ""
    && Proceeds(w.sources[uid]) && FaultFree(w.deps, s.choices)
    && LeavesSettled(w.sources[uid], w.deps, w.image, w.sinks[uid], s.choices, Outcome(w, s).applied)
  }

  /** The world right after it: settled, deployed and ready. */
  lemma Established(w: World, s: Step, uid: string)
    requires WellFormed(w) && Valid(w, s) && Settles(w, s, uid)
    ensures var w' := Next(w, s); WellFormed(w') && Debt(w', uid) == 0 && IsDeployed(w', uid) && IsReady(w', uid)
  {
    hide PodUnchanged, ExpectedPod, ReconcileSource, Consistent, Debt, Settled, LeavesSettled, AdapterAfter,
      WithFinalizer;
    var src, uri := w.sources[uid], w.sinks[uid];
    var r := Outcome(w, s);
    NextWellFormed(w, s);
    var n := ConvergesTo(src, w.deps, w.image, uri, s.choices);
    SettledAfter(src, w.deps, w.image, uri, s.choices);
    SettledKept(src, r.src, r.deps, w.image, uri);
    SuccessStatusIsReady(src.status, uri);
    NoDebtIffSettled(Next(w, s), uid);
    hide SuccessStatus;
  }

  /**
   After one fault-free reconcile that leaves a settled cluster, and for as long as no change costs anything and no list call
   for the source fails with NotFound, nothing that fails does harm: the cluster stays settled, nothing is written, the source
   stays deployed, and it is ready unless the last reconcile could not resolve its sink.
   */
  lemma StaysConverged(w: World, s: Step, run: seq<Step>, uid: string)
    requires WellFormed(w) && Valid(w, s) && Settles(w, s, uid)
    requires ValidRun(Next(w, s), run) && ListsAnswer(run, uid) && TotalCost(Next(w, s), run, uid) == 0
    ensures TotalEffective(Next(w, s), run, uid) == 0
    ensures var f := Final(Next(w, s), run);
            uid in f.sources && uid in f.sinks ==>
              && Settled(f.deps, f.sources[uid], f.image, f.sinks[uid])
              && IsDeployed(f, uid)
              && (IsReady(f, uid) <==> LastResolution(Next(w, s), run, uid) != Some(false))
  {
    hide Next, Settled, Valid, Settles, Debt;
    Established(w, s, uid);
    var w' := Next(w, s);
    var f := Final(w', run);
    StaysSettled(w', run, uid);
    FinalWellFormed(w', run);
    if uid in f.sources {
      DeployedSticks(w', run, uid);
      ReadyExactly(w', run, uid);
      NoDebtIffSettled(f, uid);
    }
  }
}

/** Finalizers and deletion over a run. */
module FinalizerRuns {
  import opened StringSets
  import opened Reconciler
  import opened ReconcileLaws
  import opened ReconcileRuns
  import opened ReadyMeaning
  import opened BoundedWrites

  /** What the others last set the finalizers of uid to in the run, or else what they were. */
  function LastSet(run: seq<Step>, uid: string, initial: seq<string>): seq<string>
  {
    if run == [] then initial
    else LastSet(run[1..], uid, if run[0].SetFinalizers? && run[0].uid == uid then run[0].finalizers else initial)
  }

  lemma FinalizerStep(w: World, s: Step, uid: string, f: string)
    requires Valid(w, s) && uid in w.sources && uid in Next(w, s).sources
    ensures var before, after := w.sources[uid], Next(w, s).sources[uid];
            && (before.deleting ==> after.deleting)
            && (!(s.SetFinalizers? && s.uid == uid) && f != FINALIZER_NAME ==> (f in after.finalizers <==> f in before.finalizers))
            && (s.Reconcile? && s.uid == uid ==> (FINALIZER_NAME in after.finalizers <==> !before.deleting))
            && (s.SetFinalizers? && s.uid == uid ==> after.finalizers == s.finalizers)
            && (!(s.Reconcile? && s.uid == uid) && !(s.SetFinalizers? && s.uid == uid) ==> after.finalizers == before.finalizers)
  {
    hide ReconcileSource, ValidChoices;
    if s.Reconcile? && s.uid == uid {
      var src := w.sources[uid];
      SourceKept(src, w.deps, w.image, ResolvedSink(w, uid, s.resolves), s.choices);
      assert f in src.finalizers <==> f in Elements(src.finalizers);
      var after := Next(w, s).sources[uid].finalizers;
      assert f in after <==> f in Elements(after);
      assert FINALIZER_NAME in after <==> FINALIZER_NAME in Elements(after);
    }
  }

  /** Over any run, another party's finalizer is present exactly when the other parties left it so. */
  lemma {:induction false} OthersFinalizersKept(w: World, run: seq<Step>, uid: string, f: string)
    requires ValidRun(w, run) && uid in w.sources && uid in Final(w, run).sources && f != FINALIZER_NAME
    ensures f in Final(w, run).sources[uid].finalizers <==> f in LastSet(run, uid, w.sources[uid].finalizers)
    decreases |run|
  {
    if run != [] {
      hide Valid;
      if uid !in Next(w, run[0]).sources {
        Removed(w, run[0], uid);
        GoneStaysGone(Next(w, run[0]), run[1..], uid);
      } else {
        FinalizerStep(w, run[0], uid, f);
        OthersFinalizersKept(Next(w, run[0]), run[1..], uid, f);
        LastSetAgrees(run[1..], uid, Next(w, run[0]).sources[uid].finalizers,
                      if run[0].SetFinalizers? && run[0].uid == uid then run[0].finalizers else w.sources[uid].finalizers, f);
      }
    }
  }

  lemma {:induction false} LastSetAgrees(run: seq<Step>, uid: string, xs: seq<string>, ys: seq<string>, f: string)
    requires f in xs <==> f in ys
    ensures f in LastSet(run, uid, xs) <==> f in LastSet(run, uid, ys)
  {
    if run != [] {
      if !(run[0].SetFinalizers? && run[0].uid == uid) {
        LastSetAgrees(run[1..], uid, xs, ys, f);
      }
    }
  }

  lemma {:induction false} GoneNeverWrites(w: World, run: seq<Step>, uid: string)
    requires ValidRun(w, run) && uid in w.retired && uid !in w.sources
    ensures TotalEffective(w, run, uid) == 0
    decreases |run|
  {
    if run != [] {
      hide ReconcileSource, ValidChoices;
      GoneNeverWrites(Next(w, run[0]), run[1..], uid);
    }
  }

  /** Once deletion is marked, it stays marked, and nothing is ever written to the cluster for the source. */
  lemma {:induction false} DeletionStopsWrites(w: World, run: seq<Step>, uid: string)
    requires WellFormed(w) && ValidRun(w, run) && uid in w.sources && w.sources[uid].deleting
    ensures uid in Final(w, run).sources ==> Final(w, run).sources[uid].deleting
    ensures TotalEffective(w, run, uid) == 0
    decreases |run|
  {
    if run != [] {
      hide ReconcileSource, ValidChoices;
      if uid !in Next(w, run[0]).sources {
        Removed(w, run[0], uid);
        GoneStaysGone(Next(w, run[0]), run[1..], uid);
        GoneNeverWrites(Next(w, run[0]), run[1..], uid);
      } else {
        if run[0].Reconcile? && run[0].uid == uid {
          SourceKept(w.sources[uid], w.deps, w.image, ResolvedSink(w, uid, run[0].resolves), run[0].choices);
        }
        NextWellFormed(w, run[0]);
        DeletionStopsWrites(Next(w, run[0]), run[1..], uid);
      }
    }
  }

  /** Whether the controller's finalizer is held on a source that is marked for deletion, by the last step that decides it. */
  predicate Held(run: seq<Step>, uid: string, initially: bool)
  {
    if run == [] then initially
    else
      var now := match run[0]
                 case Reconcile(u, _, _) => u != uid && initially
                 case SetFinalizers(u, fs) => if u == uid then FINALIZER_NAME in fs else initially
                 case _ => initially;
      Held(run[1..], uid, now)
  }

  /**
   Once deletion is marked, the next reconcile removes the controller's finalizer, and only others can put it back: at the
   end of any run it is there exactly when they set it, or it was there at the start, and no reconcile came later.
   */
  lemma {:induction false} DeletionReleases(w: World, run: seq<Step>, uid: string)
    requires WellFormed(w) && ValidRun(w, run) && uid in w.sources && w.sources[uid].deleting && uid in Final(w, run).sources
    ensures FINALIZER_NAME in Final(w, run).sources[uid].finalizers <==>
            Held(run, uid, FINALIZER_NAME in w.sources[uid].finalizers)
    decreases |run|
  {
    if run != [] {
      hide Valid, WellFormed, ReconcileSource;
      if uid !in Next(w, run[0]).sources {
        Removed(w, run[0], uid);
        GoneStaysGone(Next(w, run[0]), run[1..], uid);
      } else {
        FinalizerStep(w, run[0], uid, FINALIZER_NAME);
        NextWellFormed(w, run[0]);
        DeletionReleases(Next(w, run[0]), run[1..], uid);
      }
    }
  }
}
