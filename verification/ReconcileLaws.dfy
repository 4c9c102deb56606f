/** What one call of Reconcile achieves, keeps and leaves alone. */
module ReconcileLaws {
  import opened Basics
  import opened StringSets
  import opened Kubernetes
  import opened KinesisTypes
  import opened ApiServer
  import opened EncodeDecode
  import opened ChangeDetection
  import opened Reconciler

  // ----- Finalizers -----

  /** Adding and removing give the one sorted, duplicate-free sequence for the set that is meant. */
  lemma FinalizersCanonical(fs: seq<string>, ys: seq<string>)
    ensures ys == WithFinalizer(fs) <==> Sorted(ys) && Elements(ys) == Elements(fs) + {FINALIZER_NAME}
    ensures ys == WithoutFinalizer(fs) <==> Sorted(ys) && Elements(ys) == Elements(fs) - {FINALIZER_NAME}
    ensures FINALIZER_NAME == "aws-kinesis-source-controller"
  {
    if Sorted(ys) && Elements(ys) == Elements(fs) + {FINALIZER_NAME} {
      SortedListingUnique(ys, WithFinalizer(fs));
    }
    if Sorted(ys) && Elements(ys) == Elements(fs) - {FINALIZER_NAME} {
      SortedListingUnique(ys, WithoutFinalizer(fs));
    }
  }

  lemma FinalizerLaws(fs: seq<string>)
    ensures WithFinalizer(WithFinalizer(fs)) == WithFinalizer(fs)
    ensures WithoutFinalizer(WithoutFinalizer(fs)) == WithoutFinalizer(fs)
    ensures WithoutFinalizer(WithFinalizer(fs)) == WithoutFinalizer(fs)
    ensures WithFinalizer(WithoutFinalizer(fs)) == WithFinalizer(fs)
  {
    var x := {FINALIZER_NAME};
    assert Elements(fs) + x + x == Elements(fs) + x && Elements(fs) - x - x == Elements(fs) - x;
    assert Elements(fs) + x - x == Elements(fs) - x && Elements(fs) - x + x == Elements(fs) + x;
    FinalizersCanonical(WithFinalizer(fs), WithFinalizer(fs));
    FinalizersCanonical(WithoutFinalizer(fs), WithoutFinalizer(fs));
    FinalizersCanonical(WithFinalizer(fs), WithoutFinalizer(fs));
    FinalizersCanonical(WithoutFinalizer(fs), WithFinalizer(fs));
  }

  // ----- Looking the adapter up -----

  /** An order of listing names every deployment (and nothing forbids it to name others, which are skipped). */
  ghost predicate ValidOrder(deps: Deployments, order: seq<string>)
  {
    forall n | n in deps :: n in order
  }

  /** What a correct API server may answer to a list call. */
  ghost predicate ValidChoices(deps: Deployments, c: Choices)
  {
    c.list.Lists? ==> ValidOrder(deps, c.list.order)
  }

  lemma KeptFills(sent: PodSpec, c: Choices)
    ensures ServerFills(sent, Kept(sent, c))
  {
    ServerFillsItself(sent);
    hide ServerFills;
  }

  /** The deployments that a source controls. */
  function Owned(deps: Deployments, uid: string): Deployments
  {
    map n | n in deps && ControlledBy(deps[n], uid) :: deps[n]
  }

  /** Name n is an adapter that the source can find: controlled, in its namespace, and with its labels. */
  predicate Findable(deps: Deployments, src: KinesisSource, n: string)
  {
    n in Owned(deps, src.uid) && Matches(deps[n], src.namespace, GetLabels(src))
  }

  lemma {:induction false} ListingContents(deps: Deployments, namespace: string, selector: Labels, order: seq<string>)
    ensures forall n, d :: (n, d) in Listing(deps, namespace, selector, order) <==>
              n in order && n in deps && deps[n] == d && Matches(d, namespace, selector)
  {
    if order != [] {
      ListingContents(deps, namespace, selector, order[1..]);
    }
  }

  lemma {:induction false} FirstControlledFinds(items: seq<(string, Deployment)>, uid: string)
    ensures FirstControlled(items, uid) == None <==> forall x | x in items :: !ControlledBy(x.1, uid)
    ensures forall x :: FirstControlled(items, uid) == Some(x) ==> x in items && ControlledBy(x.1, uid)
  {
    if items != [] {
      FirstControlledFinds(items[1..], uid);
    }
  }

  /** The lookup finds an adapter exactly when there is one to be found, whatever the order of the listing. */
  lemma FindComplete(deps: Deployments, src: KinesisSource, order: seq<string>)
    requires ValidOrder(deps, order)
    ensures Find(deps, src, order) == None <==> forall n :: !Findable(deps, src, n)
    ensures forall n, d :: Find(deps, src, order) == Some((n, d)) ==> Findable(deps, src, n) && deps[n] == d
  {
    var items := Listing(deps, src.namespace, GetLabels(src), order);
    ListingContents(deps, src.namespace, GetLabels(src), order);
    FirstControlledFinds(items, src.uid);
    forall n | Findable(deps, src, n) ensures Find(deps, src, order) != None {
      assert (n, deps[n]) in items;
    }
    forall x | x in items && ControlledBy(x.1, src.uid) ensures Findable(deps, src, x.0) {
      assert (x.0, x.1) in items;
    }
  }

  /** n is the first name in the order that the source can find. */
  ghost predicate FirstAt(deps: Deployments, src: KinesisSource, order: seq<string>, n: string, d: Deployment)
  {
    exists i :: 0 <= i < |order| && order[i] == n && Findable(deps, src, n) && deps[n] == d
                && forall j | 0 <= j < i :: !Findable(deps, src, order[j])
  }

  /** The one that is found is the first in the order of the listing that the source controls. */
  lemma {:induction false} FindFirst(deps: Deployments, src: KinesisSource, order: seq<string>)
    ensures forall n, d :: Find(deps, src, order) == Some((n, d)) <==> FirstAt(deps, src, order, n, d)
  {
    hide Matches, GetLabels;
    if order != [] {
      var rest := order[1..];
      FindFirst(deps, src, rest);
      FindSplit(deps, src, order);
      hide Find, Findable;
      forall n, d ensures Find(deps, src, order) == Some((n, d)) <==> FirstAt(deps, src, order, n, d) {
        FirstAtSplit(deps, src, order, n, d);
      }
    }
  }

  lemma FirstAtSplit(deps: Deployments, src: KinesisSource, order: seq<string>, n: string, d: Deployment)
    requires order != []
    ensures FirstAt(deps, src, order, n, d) <==>
            if Findable(deps, src, order[0]) then n == order[0] && deps[n] == d else FirstAt(deps, src, order[1..], n, d)
  {
    var rest := order[1..];
    hide Findable;
    assert forall j | 0 <= j < |rest| :: rest[j] == order[j + 1];
    if i :| 0 <= i < |rest| && rest[i] == n && Findable(deps, src, n) && deps[n] == d
            && forall j | 0 <= j < i :: !Findable(deps, src, rest[j]) {
      assert order[i + 1] == n;
      assert !Findable(deps, src, order[0]) ==> forall j | 0 <= j < i + 1 :: !Findable(deps, src, order[j]);
    }
    if i :| 0 < i < |order| && order[i] == n && Findable(deps, src, n) && deps[n] == d
            && forall j | 0 <= j < i :: !Findable(deps, src, order[j]) {
      assert rest[i - 1] == n && !Findable(deps, src, order[0]);
    }
  }

  lemma FindSplit(deps: Deployments, src: KinesisSource, order: seq<string>)
    requires order != []
    ensures Find(deps, src, order) ==
            if Findable(deps, src, order[0]) then Some((order[0], deps[order[0]])) else Find(deps, src, order[1..])
  {
    hide Matches, GetLabels;
  }

  /** Any adapter that can be found is found under some order. */
  lemma FindUnderOrder(deps: Deployments, src: KinesisSource, n: string, rest: seq<string>)
    requires Findable(deps, src, n)
    ensures Find(deps, src, [n] + rest) == Some((n, deps[n]))
  {
    assert ([n] + rest)[1..] == rest;
  }

  /** What the lookup of a source selects: its namespace, and the two labels that name the controller and the source. */
  lemma SelectedLabels(d: Deployment, src: KinesisSource)
    ensures Matches(d, src.namespace, GetLabels(src)) <==>
            && d.namespace == src.namespace
            && "knative-eventing-source" in d.labels
            && d.labels["knative-eventing-source"] == "aws-kinesis-source-controller"
            && "knative-eventing-source-name" in d.labels
            && d.labels["knative-eventing-source-name"] == src.name
  {
    var labels := GetLabels(src);
    assert "knative-eventing-source" in labels && "knative-eventing-source-name" in labels;
  }

  /** What is generated depends on neither the finalizers nor the status, and the lookup selects it. */
  lemma GeneratedAdapter(src: KinesisSource, src': KinesisSource, image: string, uri: string)
    requires src' == src.(finalizers := src'.finalizers, status := src'.status)
    ensures ExpectedPod(src', image, uri) == ExpectedPod(src, image, uri)
    ensures OwnedAdapter(src', image, uri) == OwnedAdapter(src, image, uri)
    ensures var d := OwnedAdapter(src, image, uri);
            ControlledBy(d, src.uid) && Matches(d, src.namespace, GetLabels(src)) && d.Pod() == ExpectedPod(src, image, uri)
    ensures forall deps, n :: Findable(deps, src', n) == Findable(deps, src, n)
  {
  }

  /** The deployment of a source runs one pod, selects it, and selects no pod of a source with another name. */
  lemma AdapterSelectsItsPod(src: KinesisSource, src': KinesisSource, image: string, image': string, uri: string, uri': string)
    ensures var d, d' := OwnedAdapter(src, image, uri), OwnedAdapter(src', image', uri');
            && d.spec.replicas == 1
            && (Selects(d.spec.selector, d'.spec.template.labels) <==> src.name == src'.name)
  {
    assert GetLabels(src)["knative-eventing-source-name"] == src.name;
    assert GetLabels(src')["knative-eventing-source-name"] == src'.name;
  }

  // ----- The effect of one reconcile on the cluster -----

  /** The reconcile gets as far as the adapter. */
  predicate Proceeds(src: KinesisSource)
  {
    !src.deleting && CredentialsConfigured(src.spec)
  }

  /** The source as createReceiveAdapter receives it. */
  function SourceAtAdapter(src: KinesisSource, uri: string): KinesisSource
  {
    src.(finalizers := WithFinalizer(src.finalizers),
         status := Apply(Apply(src.status, InitializeConditions), MarkSink(uri)))
  }

  /** The name that a write of a reconcile goes to: that of the adapter it found, or else the one generated for a new one. */
  function Target(deps: Deployments, src: KinesisSource, c: Choices): string
  {
    if c.list.Lists? && Find(deps, src, c.list.order).Some? then Find(deps, src, c.list.order).value.0 else c.generatedName
  }

  /** The state that a write call of the controller meets. */
  function Base(deps: Deployments, call: bool, c: Choices): Deployments
  {
    if call then ApplyOthers(deps, c.others) else deps
  }

  /**
   A write of the controller took the cluster from base to after: it either replaced the pod spec of a deployment that
   this source controls, that was the same when it was listed and that had changed, or it added one that the source
   controls, with the labels and the namespace that the lookup selects. n is the name written, and stored what the server
   keeps of the pod spec that it was sent.
   */
  ghost predicate Written(src: KinesisSource, expected: PodSpec, stored: PodSpec, listed: Deployments, base: Deployments,
                          after: Deployments, n: string)
  {
    && n in after && after == base[n := after[n]]
    && Findable(after, src, n)
    && after[n].Pod() == stored
    && (n in base ==>
          && Findable(listed, src, n) && listed[n] == base[n]
          && SameFrame(base[n], after[n])
          && !PodUnchanged(base[n].Pod(), expected))
  }

  lemma UpdateWritesOrNot(src: KinesisSource, expected: PodSpec, deps: Deployments, n: string, c: Choices)
    requires Findable(deps, src, n) && !PodUnchanged(deps[n].Pod(), expected)
    ensures var (after, effect) := AfterUpdate(deps, n, deps[n], deps[n].WithPod(expected), c);
            var base := ApplyOthers(deps, c.others);
            if effect then Written(src, expected, Kept(expected, c), deps, base, after, n) && n in base else after == base
  {
    hide PodUnchanged, ApplyOthers, GetLabels, Selects, Kept;
  }

  lemma CreateWritesOrNot(src: KinesisSource, expected: PodSpec, d: Deployment, deps: Deployments, c: Choices)
    requires ControlledBy(d, src.uid) && Matches(d, src.namespace, GetLabels(src)) && d.Pod() == expected
    ensures var (after, effect) := AfterCreate(deps, d, c);
            var base := ApplyOthers(deps, c.others);
            if effect then Written(src, expected, Kept(expected, c), deps, base, after, c.generatedName) && c.generatedName !in base
            else after == base
  {
    hide PodUnchanged, ApplyOthers, GetLabels, Selects, Kept;
  }

  /** There is an adapter, and every adapter that a lookup might return is up to date. */
  ghost predicate Settled(deps: Deployments, src: KinesisSource, image: string, uri: string)
  {
    && (exists n :: Findable(deps, src, n))
    && forall n | Findable(deps, src, n) :: PodUnchanged(deps[n].Pod(), ExpectedPod(src, image, uri))
  }

  /**
   Everything that createReceiveAdapter can do to the cluster: nothing, or one write, which it only attempts when the
   cluster was not settled.
   */
  lemma AdapterEffect(src: KinesisSource, deps: Deployments, image: string, uri: string, c: Choices) returns (n: string)
    requires c.list.Lists? ==> ValidOrder(deps, c.list.order)
    ensures var r := CreateAdapter(deps, src, image, uri, c);
            var base := Base(deps, r.call, c);
            && (!r.applied ==> r.deps == base)
            && (r.applied ==>
                  r.call && var pod := ExpectedPod(src, image, uri); Written(src, pod, Kept(pod, c), deps, base, r.deps, n))
            && (r.call && c.list.Lists? ==> !Settled(deps, src, image, uri))
            && (r.applied && c.list.Lists? && n !in base ==> forall m :: !Findable(deps, src, m))
            && n == Target(deps, src, c)
  {
    hide PodUnchanged, ExpectedPod, OwnedAdapter, ServerFills, GetLabels, Findable, Written, Find,
      CredentialsConfigured, AfterUpdate, AfterCreate, ApplyOthers, SameFrame, Selects;
    var expected := ExpectedPod(src, image, uri);
    var r := CreateAdapter(deps, src, image, uri, c);
    var found := if c.list.Lists? then Find(deps, src, c.list.order) else None;
    if c.list.Lists? {
      FindComplete(deps, src, c.list.order);
    }
    GeneratedAdapter(src, src, image, uri);
    n := if found.Some? then found.value.0 else c.generatedName;
    if r.call && found.Some? {
      UpdateWritesOrNot(src, expected, deps, n, c);
    } else if r.call {
      CreateWritesOrNot(src, expected, OwnedAdapter(src, image, uri), deps, c);
    }
  }

  lemma TargetKept(src: KinesisSource, src': KinesisSource, deps: Deployments, c: Choices)
    requires src' == src.(finalizers := src'.finalizers, status := src'.status)
    ensures Target(deps, src', c) == Target(deps, src, c)
  {
  }

  /** The effect of a whole reconcile; only a source that is not deleted and has a sink reaches the adapter. */
  lemma ReconcileEffect(src: KinesisSource, deps: Deployments, image: string, sink: Option<string>, c: Choices) returns (n: string)
    requires ValidChoices(deps, c)
    ensures var r := ReconcileSource(src, deps, image, sink, c);
            var base := Base(deps, r.call, c);
            && (!r.applied ==> r.deps == base)
            && (r.call ==> Proceeds(src) && sink.Some?)
            && (r.applied ==>
                  r.call && var pod := ExpectedPod(src, image, sink.value); Written(src, pod, Kept(pod, c), deps, base, r.deps, n))
            && (r.call && c.list.Lists? ==> !Settled(deps, src, image, sink.value))
            && (r.applied && c.list.Lists? && n !in base ==> forall m :: !Findable(deps, src, m))
            && n == Target(deps, src, c)
  {
    hide PodUnchanged, ExpectedPod, OwnedAdapter, ServerFills, Apply, WithFinalizer, AfterCreate, AfterUpdate, Find,
      Selects, CredentialsConfigured;
    n := Target(deps, src, c);
    if !src.deleting && sink.Some? {
      var uri := sink.value;
      var src2 := SourceAtAdapter(src, uri);
      GeneratedAdapter(src, src2, image, uri);
      TargetKept(src, src2, deps, c);
      n := AdapterEffect(src2, deps, image, uri, c);
      assert Settled(deps, src, image, uri) ==> Settled(deps, src2, image, uri);
    }
  }

  /**
   Whatever a reconcile wrote, reported as an error or not, the next listing finds: for this source, whatever has become of
   its spec, finalizers and status, and in any order.
   */
  lemma WrittenIsFound(src: KinesisSource, deps: Deployments, image: string, sink: Option<string>, c: Choices,
                       later: KinesisSource, order: seq<string>)
    requires ValidChoices(deps, c) && ReconcileSource(src, deps, image, sink, c).applied
    requires (later.namespace, later.name, later.uid) == (src.namespace, src.name, src.uid)
    requires ValidOrder(ReconcileSource(src, deps, image, sink, c).deps, order)
    ensures Find(ReconcileSource(src, deps, image, sink, c).deps, later, order) != None
  {
    var n := ReconcileEffect(src, deps, image, sink, c);
    FindComplete(ReconcileSource(src, deps, image, sink, c).deps, later, order);
    hide ReconcileSource, Find, PodUnchanged, ExpectedPod, ServerFills, Selects;
    assert Findable(ReconcileSource(src, deps, image, sink, c).deps, later, n);
  }

  // ----- What a write puts into the cluster -----

  /**
   The deployment is the adapter of the source, from its name and owner down to its pod: one pod that it selects, with the
   annotations of its kind of credentials.
   */
  predicate AdapterOf(d: Deployment, src: KinesisSource, image: string, uri: string)
  {
    var template := d.spec.template;
    && d.namespace == src.namespace && d.generateName == "kinesis-" + src.name + "-" && d.controller == Some(src.uid)
    && d.labels == map["knative-eventing-source" := "aws-kinesis-source-controller", "knative-eventing-source-name" := src.name]
    && d.spec.replicas == 1 && d.spec.selector == d.labels && template.labels == d.labels
    && RunsFor(d.Pod(), src, image, uri)
    && template.annotations ==
       if RunningConfig(d.Pod()).value.credsFile != "" then map["sidecar.istio.io/inject" := "true"]
       else map["sidecar.istio.io/inject" := "true", "iam.amazonaws.com/role" := src.spec.kiamOptions.assignedIAMRole]
  }

  lemma GeneratedIsAdapter(src: KinesisSource, image: string, uri: string, pod: PodSpec)
    requires ServerFills(ExpectedPod(src, image, uri), pod)
    ensures AdapterOf(OwnedAdapter(src, image, uri).WithPod(pod), src, image, uri)
  {
    StoredRunsAsIntended(ExpectedArgs(src, image, uri), pod);
    hide RunsFor, ServerFills, Pod;
    FileIffSecret(src, image, uri, pod);
  }

  lemma FileIffSecret(src: KinesisSource, image: string, uri: string, pod: PodSpec)
    requires RunsFor(pod, src, image, uri)
    ensures RunningConfig(pod).Ok? && (RunningConfig(pod).value.credsFile != "" <==> ReceiveAdapter.UsesSecret(src.spec))
  {
    hide RunningConfig, MountsSecret;
  }

  lemma CreatedDeployment(src: KinesisSource, deps: Deployments, image: string, sink: Option<string>, c: Choices)
    requires ReconcileSource(src, deps, image, sink, c).applied && sink.Some?
    requires Target(deps, src, c) !in ApplyOthers(deps, c.others)
    ensures var n, after := Target(deps, src, c), ReconcileSource(src, deps, image, sink, c).deps;
            n in after && after[n] == OwnedAdapter(src, image, sink.value).WithPod(Kept(ExpectedPod(src, image, sink.value), c))
  {
    hide PodUnchanged, ExpectedPod, OwnedAdapter, Apply, WithFinalizer, CredentialsConfigured, Find, ApplyOthers, Kept,
      GetLabels, Selects;
    var src2 := SourceAtAdapter(src, sink.value);
    GeneratedAdapter(src, src2, image, sink.value);
    TargetKept(src, src2, deps, c);
  }

  /** What a reconcile creates is the adapter of the source, reported as an error or not. */
  lemma CreatedIsAdapter(src: KinesisSource, deps: Deployments, image: string, sink: Option<string>, c: Choices)
    requires ValidChoices(deps, c) && ReconcileSource(src, deps, image, sink, c).applied
    requires Target(deps, src, c) !in ApplyOthers(deps, c.others)
    ensures var n, after := Target(deps, src, c), ReconcileSource(src, deps, image, sink, c).deps;
            n in after && sink.Some? && AdapterOf(after[n], src, image, sink.value)
  {
    hide ReconcileSource, AdapterOf, ServerFills, Target, ApplyOthers, Written, OwnedAdapter;
    var n := ReconcileEffect(src, deps, image, sink, c);
    CreatedDeployment(src, deps, image, sink, c);
    KeptFills(ExpectedPod(src, image, sink.value), c);
    GeneratedIsAdapter(src, image, sink.value, Kept(ExpectedPod(src, image, sink.value), c));
  }

  /**
   After every write, also one that replaces a pod spec, the deployment runs for the source; everything else of a deployment
   that was there before is as it was.
   */
  lemma WrittenRuns(src: KinesisSource, deps: Deployments, image: string, sink: Option<string>, c: Choices)
    requires ValidChoices(deps, c) && ReconcileSource(src, deps, image, sink, c).applied
    ensures var n, base, after := Target(deps, src, c), ApplyOthers(deps, c.others), ReconcileSource(src, deps, image, sink, c).deps;
            && n in after && sink.Some? && RunsFor(after[n].Pod(), src, image, sink.value)
            && (n in base ==> SameFrame(base[n], after[n]))
            && after == base[n := after[n]]
  {
    hide ReconcileSource, RunsFor, ServerFills, Target, ApplyOthers, Findable, Kept, PodUnchanged;
    var n := ReconcileEffect(src, deps, image, sink, c);
    var args := ExpectedArgs(src, image, sink.value);
    KeptFills(Pod(args), c);
    StoredRunsAsIntended(args, Kept(Pod(args), c));
    hide Pod;
  }

  // ----- The calls of one reconcile, and its error -----

  /** The adapter that the listing brings up, if it succeeds and there is one. */
  function Found(deps: Deployments, src: KinesisSource, c: Choices): Option<(string, Deployment)>
  {
    if c.list.Lists? then Find(deps, src, c.list.order) else None
  }

  /** The adapter was found, and is up to date. */
  ghost predicate FoundUpToDate(deps: Deployments, src: KinesisSource, image: string, uri: string, c: Choices)
  {
    Found(deps, src, c).Some? && PodUnchanged(Found(deps, src, c).value.1.Pod(), ExpectedPod(src, image, uri))
  }

  /**
   When a write call is made: for a source that gets as far as the adapter, if the one that is found is out of date; or if
   none is found, a NotFound included, and its owner reference can be built. When it takes effect: unless it is refused, or
   what is to be written has changed, or the name of what is to be created is taken.
   */
  lemma CallsExactly(src: KinesisSource, deps: Deployments, image: string, sink: Option<string>, c: Choices)
    ensures var r, found := ReconcileSource(src, deps, image, sink, c), Found(deps, src, c);
            && (r.call <==>
                  && Proceeds(src) && sink.Some? && c.list != ListFails(Other)
                  && (if found.Some? then !FoundUpToDate(deps, src, image, sink.value, c) else c.ownerRefBuilt))
            && (r.applied <==>
                  && r.call && c.write != Refused
                  && var n, now := Target(deps, src, c), ApplyOthers(deps, c.others);
                     if found.Some? then n in now && now[n] == found.value.1 else n !in now)
  {
    hide PodUnchanged, ExpectedPod, OwnedAdapter, Apply, WithFinalizer, CredentialsConfigured, Find, ApplyOthers, Kept;
    if !src.deleting && sink.Some? {
      var src2 := SourceAtAdapter(src, sink.value);
      GeneratedAdapter(src, src2, image, sink.value);
      TargetKept(src, src2, deps, c);
      FoundKept(src, src2, deps, c);
    }
  }

  lemma FoundKept(src: KinesisSource, src': KinesisSource, deps: Deployments, c: Choices)
    requires src' == src.(finalizers := src'.finalizers, status := src'.status)
    ensures Found(deps, src', c) == Found(deps, src, c)
  {
  }

  /**
   The error of a reconcile, exactly. A write call that takes effect but reports an error is an error; and without a write call
   there is none only for a source marked for deletion, or if the adapter was found up to date.
   */
  lemma ErrorsExactly(src: KinesisSource, deps: Deployments, image: string, sink: Option<string>, c: Choices)
    ensures var r, found := ReconcileSource(src, deps, image, sink, c), Found(deps, src, c);
            && (r.call ==> (r.err == None <==> r.applied && c.write == Applied))
            && (!r.call ==> (r.err == None <==>
                  src.deleting || (Proceeds(src) && sink.Some? && FoundUpToDate(deps, src, image, sink.value, c))))
            && (r.err == Some(SinkError) <==> !src.deleting && sink == None)
            && (r.err == Some(ListError) <==> !src.deleting && sink.Some? && c.list == ListFails(Other))
            && (r.err == Some(ConfigurationError) <==>
                  !src.deleting && sink.Some? && c.list != ListFails(Other) && !CredentialsConfigured(src.spec))
            && (r.err == Some(UpdateError) ==> r.call && found.Some?)
            && (r.err == Some(CreateError) ==> r.call && found == None)
            && (r.err == Some(OwnerRefError) ==> !r.call && !c.ownerRefBuilt)
  {
    hide PodUnchanged, ExpectedPod, OwnedAdapter, Apply, WithFinalizer, CredentialsConfigured, Find, AfterCreate,
      AfterUpdate;
    if !src.deleting && sink.Some? {
      var src2 := SourceAtAdapter(src, sink.value);
      GeneratedAdapter(src, src2, image, sink.value);
      FoundKept(src, src2, deps, c);
    }
  }

  // ----- Convergence -----

  /** No two names. */
  predicate AtMostOne(owned: Deployments)
  {
    forall m, n | m in owned && n in owned :: m == n
  }


  ghost predicate FaultFree(deps: Deployments, c: Choices)
  {
    c.list.Lists? && c.others == [] && c.ownerRefBuilt && c.write == Applied && c.generatedName !in deps
  }

  /** All the conditions are True. */
  predicate AllTrue(cs: Conditions)
  {
    Is(cs, SinkProvided, True) && Is(cs, Deployed, True) && Is(cs, Ready, True)
  }

  /** The status that a reconcile without an error leaves behind. */
  function SuccessStatus(s: Status, uri: string): Status
  {
    Apply(Apply(Apply(s, InitializeConditions), MarkSink(uri)), MarkDeployed)
  }

  lemma SuccessStatusIsReady(s: Status, uri: string)
    requires uri != ""
    ensures AllTrue(SuccessStatus(s, uri).conditions) && SuccessStatus(s, uri).sinkURI == uri
  {
  }

  lemma SuccessStatusIsStable(s: Status, uri: string)
    requires uri != "" && AllTrue(s.conditions) && s.sinkURI == uri
    ensures SuccessStatus(s, uri) == s
  {
    var cs := s.conditions;
    assert Initialize(cs) == cs;
    assert cs[SinkProvided := True] == cs;
    assert cs[Ready := True] == cs;
    assert cs[Deployed := True] == cs;
    hide Initialize;
    assert MarkTrue(cs, SinkProvided) == cs;
    assert MarkTrue(cs, Deployed) == cs;
  }

  lemma SinkStatusIsStable(s: Status, uri: string)
    requires uri != "" && AllTrue(s.conditions) && s.sinkURI == uri
    ensures Apply(Apply(s, InitializeConditions), MarkSink(uri)) == s
  {
    var cs := s.conditions;
    assert Initialize(cs) == cs;
    assert cs[SinkProvided := True] == cs;
    assert cs[Ready := True] == cs;
    hide Initialize;
    assert MarkTrue(cs, SinkProvided) == cs;
  }

  lemma SourceAfterSuccess(src: KinesisSource, deps: Deployments, image: string, uri: string, c: Choices)
    requires !src.deleting && ReconcileSource(src, deps, image, Some(uri), c).err == None
    ensures ReconcileSource(src, deps, image, Some(uri), c).src ==
            src.(finalizers := WithFinalizer(src.finalizers), status := SuccessStatus(src.status, uri))
  {
    hide CreateAdapter, Apply, WithFinalizer;
  }

  /** Name n is the adapter after a reconcile: as the server stored it, if it was written, and up to date otherwise. */
  ghost predicate AdapterAfter(src: KinesisSource, image: string, uri: string, deps: Deployments, applied: bool,
                               stored: PodSpec, n: string)
  {
    && Findable(deps, src, n)
    && (if applied then deps[n].Pod() == stored else PodUnchanged(deps[n].Pod(), ExpectedPod(src, image, uri)))
  }

  /** Without faults the adapter is there afterwards and no error is reported. */
  lemma AdapterConverges(src: KinesisSource, deps: Deployments, image: string, uri: string, c: Choices) returns (n: string)
    requires CredentialsConfigured(src.spec) && FaultFree(deps, c) && ValidOrder(deps, c.list.order)
    ensures var r := CreateAdapter(deps, src, image, uri, c);
            && r.err == None && n == Target(deps, src, c)
            && AdapterAfter(src, image, uri, r.deps, r.applied, Kept(ExpectedPod(src, image, uri), c), n)
  {
    n := AdapterEffect(src, deps, image, uri, c);
    FindComplete(deps, src, c.list.order);
    hide PodUnchanged, ExpectedPod, OwnedAdapter, CredentialsConfigured, GetLabels, Findable, Settled, Find;
    var r := CreateAdapter(deps, src, image, uri, c);
    var found := Find(deps, src, c.list.order);
    if !r.applied {
      assert found.Some? && Findable(r.deps, src, found.value.0);
    }
  }

  /** The cluster after one fault-free reconcile. */
  lemma AdapterIsThere(src: KinesisSource, deps: Deployments, image: string, uri: string, c: Choices) returns (n: string)
    requires Proceeds(src) && FaultFree(deps, c) && ValidChoices(deps, c)
    ensures var r := ReconcileSource(src, deps, image, Some(uri), c);
            && r.err == None && n == Target(deps, src, c)
            && AdapterAfter(src, image, uri, r.deps, r.applied, Kept(ExpectedPod(src, image, uri), c), n)
  {
    var src2 := SourceAtAdapter(src, uri);
    GeneratedAdapter(src, src2, image, uri);
    TargetKept(src, src2, deps, c);
    n := AdapterConverges(src2, deps, image, uri, c);
    hide PodUnchanged, ExpectedPod, Apply, WithFinalizer, CreateAdapter, Findable, ServerFills, Find;
  }

  /** The cluster, the status and the finalizers after one fault-free reconcile. */
  lemma ConvergesTo(src: KinesisSource, deps: Deployments, image: string, uri: string, c: Choices) returns (n: string)
    requires Proceeds(src) && uri != ""
    requires FaultFree(deps, c) && ValidChoices(deps, c)
    ensures var r := ReconcileSource(src, deps, image, Some(uri), c);
            && r.err == None
            && r.src == src.(finalizers := WithFinalizer(src.finalizers), status := SuccessStatus(src.status, uri))
            && n == Target(deps, src, c)
            && AdapterAfter(src, image, uri, r.deps, r.applied, Kept(ExpectedPod(src, image, uri), c), n)
  {
    n := AdapterIsThere(src, deps, image, uri, c);
    SourceAfterSuccess(src, deps, image, uri, c);
    hide AdapterAfter, ReconcileSource;
  }

  /**
   The source is ready for this sink, and it has an adapter in the cluster that runs for it. The adapter derives from the
   expected spec, unless it was written just now and the server stored another flag.
   */
  ghost predicate Converged(r: ReconcileResult, src: KinesisSource, image: string, uri: string, stored: PodSpec)
  {
    && r.err == None
    && r.src.status.IsReady() && r.src.status.sinkURI == uri
    && FINALIZER_NAME in r.src.finalizers
    && (exists n ::
          && Findable(r.deps, src, n)
          && RunsFor(r.deps[n].Pod(), src, image, uri)
          && (PodUnchanged(r.deps[n].Pod(), ExpectedPod(src, image, uri)) <==>
              (r.applied ==> SamePodFlags(ExpectedPod(src, image, uri), stored))))
  }

  /** From any cluster and any status, one fault-free reconcile of a source with credentials and a sink converges. */
  lemma Converges(src: KinesisSource, deps: Deployments, image: string, uri: string, c: Choices)
    requires Proceeds(src) && uri != ""
    requires FaultFree(deps, c) && ValidChoices(deps, c)
    ensures Converged(ReconcileSource(src, deps, image, Some(uri), c), src, image, uri, Kept(ExpectedPod(src, image, uri), c))
  {
    var n := ConvergesTo(src, deps, image, uri, c);
    SuccessStatusIsReady(src.status, uri);
    assert FINALIZER_NAME in Elements(WithFinalizer(src.finalizers));
    var r := ReconcileSource(src, deps, image, Some(uri), c);
    var args := ExpectedArgs(src, image, uri);
    if r.applied {
      KeptFills(Pod(args), c);
      StoredUnchangedIff(Pod(args), Kept(Pod(args), c));
      StoredRunsAsIntended(args, Kept(Pod(args), c));
    } else {
      UnchangedRunsAsIntended(r.deps[n].Pod(), args);
    }
    hide ReconcileSource, PodUnchanged, Apply, WithFinalizer, Findable, ServerFills, RunsFor, Pod,
      SamePodFlags;
  }

  /** A sequence of all names in a set. */
  ghost function Enumerate(s: set<string>): (r: seq<string>)
    ensures forall x :: x in s <==> x in r
  {
    if s == {} then [] else var x :| x in s; [x] + Enumerate(s - {x})
  }

  /** In a settled cluster there is nothing to write, and no error either. */
  lemma SettledIsQuiet(src: KinesisSource, deps: Deployments, image: string, uri: string, c: Choices)
    requires Settled(deps, src, image, uri) && CredentialsConfigured(src.spec)
    requires c.list.Lists? && ValidOrder(deps, c.list.order)
    ensures CreateAdapter(deps, src, image, uri, c) == AdapterResult(deps, None, false, false)
  {
    FindComplete(deps, src, c.list.order);
    hide PodUnchanged, ExpectedPod, Find, Findable, CredentialsConfigured;
  }

  /** In a cluster that is not settled some order of the listing finds nothing, or an adapter that is out of date. */
  lemma UnsettledOrder(src: KinesisSource, deps: Deployments, image: string, uri: string) returns (order: seq<string>)
    requires !Settled(deps, src, image, uri)
    ensures ValidOrder(deps, order)
    ensures var found := Find(deps, src, order);
            found == None || !PodUnchanged(found.value.1.Pod(), ExpectedPod(src, image, uri))
  {
    hide PodUnchanged, ExpectedPod, Find;
    order := Enumerate(deps.Keys);
    if n :| Findable(deps, src, n) && !PodUnchanged(deps[n].Pod(), ExpectedPod(src, image, uri)) {
      FindUnderOrder(deps, src, n, order);
      order := [n] + order;
    } else {
      FindComplete(deps, src, order);
    }
  }

  /** Such an order leads to a write call. */
  lemma UnsettledWrites(src: KinesisSource, deps: Deployments, image: string, uri: string) returns (order: seq<string>)
    requires !Settled(deps, src, image, uri) && CredentialsConfigured(src.spec)
    ensures ValidOrder(deps, order)
    ensures forall c: Choices | c.list == Lists(order) && c.ownerRefBuilt :: CreateAdapter(deps, src, image, uri, c).call
  {
    order := UnsettledOrder(src, deps, image, uri);
    hide PodUnchanged, ExpectedPod, Find, Settled, CredentialsConfigured, OwnedAdapter, AfterCreate, AfterUpdate;
  }

  lemma SettledKept(src: KinesisSource, src': KinesisSource, deps: Deployments, image: string, uri: string)
    requires src' == src.(finalizers := src'.finalizers, status := src'.status)
    ensures Settled(deps, src', image, uri) <==> Settled(deps, src, image, uri)
  {
    GeneratedAdapter(src, src', image, uri);
    hide PodUnchanged, ExpectedPod;
  }

  lemma CallOfAdapter(src: KinesisSource, deps: Deployments, image: string, uri: string, c: Choices)
    requires !src.deleting
    ensures var r, a := ReconcileSource(src, deps, image, Some(uri), c), CreateAdapter(deps, SourceAtAdapter(src, uri), image, uri, c);
            r.call == a.call && r.applied == a.applied
  {
    hide CreateAdapter, Apply, WithFinalizer;
  }

  lemma SettledReconcileIsQuiet(src: KinesisSource, deps: Deployments, image: string, uri: string, c: Choices)
    requires Proceeds(src) && Settled(deps, src, image, uri)
    requires c.list.Lists? && ValidChoices(deps, c)
    ensures !ReconcileSource(src, deps, image, Some(uri), c).call
  {
    hide PodUnchanged, ExpectedPod, ServerFills, Apply, WithFinalizer, ReconcileSource, CreateAdapter,
      CredentialsConfigured, Settled;
    SettledKept(src, SourceAtAdapter(src, uri), deps, image, uri);
    SettledIsQuiet(SourceAtAdapter(src, uri), deps, image, uri, c);
    CallOfAdapter(src, deps, image, uri, c);
  }

  lemma UnsettledReconcileWrites(src: KinesisSource, deps: Deployments, image: string, uri: string) returns (c: Choices)
    requires Proceeds(src) && !Settled(deps, src, image, uri)
    ensures c.list.Lists? && ValidChoices(deps, c)
    ensures ReconcileSource(src, deps, image, Some(uri), c).call
  {
    hide PodUnchanged, ExpectedPod, PodTree, Apply, WithFinalizer, ReconcileSource, CreateAdapter,
      CredentialsConfigured, Settled;
    SettledKept(src, SourceAtAdapter(src, uri), deps, image, uri);
    var order := UnsettledWrites(SourceAtAdapter(src, uri), deps, image, uri);
    var expected := ExpectedPod(src, image, uri);
    c := Choices(Lists(order), [], true, Applied, "", expected);
    CallOfAdapter(src, deps, image, uri, c);
  }

  /** No further write call can happen exactly when the cluster is settled, however the server orders its listings. */
  lemma QuietIffSettled(src: KinesisSource, deps: Deployments, image: string, uri: string)
    requires Proceeds(src)
    ensures Settled(deps, src, image, uri) <==>
            forall c: Choices | c.list.Lists? && ValidChoices(deps, c) ::
              !ReconcileSource(src, deps, image, Some(uri), c).call
  {
    hide ReconcileSource, Settled, ValidChoices, Proceeds;
    if Settled(deps, src, image, uri) {
      forall c: Choices | c.list.Lists? && ValidChoices(deps, c)
        ensures !ReconcileSource(src, deps, image, Some(uri), c).call
      {
        SettledReconcileIsQuiet(src, deps, image, uri, c);
      }
    } else {
      var c := UnsettledReconcileWrites(src, deps, image, uri);
    }
  }

  /** In a cluster where adapters can be found, but only such as are out of date, there is a write call. */
  lemma StaleIsWritten(src: KinesisSource, deps: Deployments, image: string, uri: string, c: Choices, n: string)
    requires Findable(deps, src, n) && !PodUnchanged(deps[n].Pod(), ExpectedPod(src, image, uri))
    requires forall k | Findable(deps, src, k) :: k == n
    requires CredentialsConfigured(src.spec) && c.list.Lists? && ValidOrder(deps, c.list.order)
    ensures CreateAdapter(deps, src, image, uri, c).call
  {
    FindComplete(deps, src, c.list.order);
    hide PodUnchanged, ExpectedPod, Find, Findable, CredentialsConfigured, OwnedAdapter, AfterCreate, AfterUpdate;
  }

  /** Without faults a needed write takes effect: the listing brings up no adapter, or one that is out of date. */
  lemma NeededWriteApplies(src: KinesisSource, deps: Deployments, image: string, uri: string, c: Choices)
    requires Proceeds(src) && FaultFree(deps, c) && ValidChoices(deps, c)
    requires var found := Find(deps, src, c.list.order);
             found == None || !PodUnchanged(found.value.1.Pod(), ExpectedPod(src, image, uri))
    ensures ReconcileSource(src, deps, image, Some(uri), c).applied
  {
    var src2 := SourceAtAdapter(src, uri);
    GeneratedAdapter(src, src2, image, uri);
    FindComplete(deps, src2, c.list.order);
    assert Find(deps, src2, c.list.order) == Find(deps, src, c.list.order);
    CallOfAdapter(src, deps, image, uri, c);
    hide PodUnchanged, ExpectedPod, Find, Findable, CredentialsConfigured, OwnedAdapter, ReconcileSource, ServerFills;
  }

  lemma NotFoundCreates(src: KinesisSource, deps: Deployments, image: string, uri: string, c: Choices)
    requires Proceeds(src) && c.list == ListFails(NotFound) && FaultFree(deps, c.(list := Lists([])))
    ensures ReconcileSource(src, deps, image, Some(uri), c).applied
  {
    CallOfAdapter(src, deps, image, uri, c);
    hide PodUnchanged, ExpectedPod, Find, CredentialsConfigured, OwnedAdapter, ReconcileSource;
  }

  /** A fault-free reconcile leaves the name of its target findable, and every other name as it was. */
  lemma OthersAfter(src: KinesisSource, deps: Deployments, image: string, uri: string, c: Choices)
    requires Proceeds(src) && FaultFree(deps, c) && ValidChoices(deps, c)
    ensures var after := ReconcileSource(src, deps, image, Some(uri), c).deps;
            && Target(deps, src, c) in after && after == deps[Target(deps, src, c) := after[Target(deps, src, c)]]
            && forall k | k != Target(deps, src, c) ::
                 (Findable(after, src, k) <==> Findable(deps, src, k)) && (k in deps ==> after[k] == deps[k])
  {
    hide PodUnchanged, ExpectedPod, ReconcileSource, ServerFills, Matches, GetLabels, Find;
    var r := ReconcileSource(src, deps, image, Some(uri), c);
    var n := ReconcileEffect(src, deps, image, Some(uri), c);
    var m := AdapterIsThere(src, deps, image, uri, c);
  }

  /**
   Exactly when a fault-free reconcile, from any cluster, leaves a settled one: what it wrote, if anything, was stored with
   the flags as sent, and all other adapters that can be found were up to date already.
   */
  lemma SettledAfter(src: KinesisSource, deps: Deployments, image: string, uri: string, c: Choices)
    requires Proceeds(src) && FaultFree(deps, c) && ValidChoices(deps, c)
    ensures var r := ReconcileSource(src, deps, image, Some(uri), c);
            Settled(r.deps, src, image, uri) <==> LeavesSettled(src, deps, image, uri, c, r.applied)
  {
    hide PodUnchanged, ExpectedPod, ReconcileSource, SamePodFlags, ServerFills, Findable, Target;
    var n := AdapterIsThere(src, deps, image, uri, c);
    OthersAfter(src, deps, image, uri, c);
    KeptFills(ExpectedPod(src, image, uri), c);
    StoredUnchangedIff(ExpectedPod(src, image, uri), Kept(ExpectedPod(src, image, uri), c));
  }

  ghost predicate LeavesSettled(src: KinesisSource, deps: Deployments, image: string, uri: string, c: Choices, applied: bool)
  {
    && (applied ==> SamePodFlags(ExpectedPod(src, image, uri), Kept(ExpectedPod(src, image, uri), c)))
    && forall k | Findable(deps, src, k) && k != Target(deps, src, c) ::
         PodUnchanged(deps[k].Pod(), ExpectedPod(src, image, uri))
  }

  /** A reconcile of a source that its calls on the status leave alone, and without anything to write. */
  lemma QuietReconcile(src: KinesisSource, deps: Deployments, image: string, uri: string, c: Choices)
    requires !src.deleting && SourceAtAdapter(src, uri) == src && Apply(src.status, MarkDeployed) == src.status
    requires CreateAdapter(deps, src, image, uri, c) == AdapterResult(deps, None, false, false)
    ensures ReconcileSource(src, deps, image, Some(uri), c) == ReconcileResult(src, deps, None, false, false)
  {
    hide CreateAdapter, Apply, WithFinalizer;
  }

  lemma SourceIsStable(src: KinesisSource, uri: string)
    requires uri != ""
    ensures var after := src.(finalizers := WithFinalizer(src.finalizers), status := SuccessStatus(src.status, uri));
            SourceAtAdapter(after, uri) == after && Apply(after.status, MarkDeployed) == after.status
  {
    var s := SuccessStatus(src.status, uri);
    SuccessStatusIsReady(src.status, uri);
    SuccessStatusIsStable(s, uri);
    SinkStatusIsStable(s, uri);
    FinalizerLaws(src.finalizers);
    hide Apply, WithFinalizer;
  }

  lemma QuietAfter(src: KinesisSource, deps: Deployments, image: string, uri: string, c: Choices, c': Choices)
    requires Proceeds(src) && uri != "" && FaultFree(deps, c) && ValidChoices(deps, c)
    requires var r := ReconcileSource(src, deps, image, Some(uri), c);
             Settled(r.deps, src, image, uri) && c'.list.Lists? && ValidChoices(r.deps, c')
    ensures var r := ReconcileSource(src, deps, image, Some(uri), c);
            ReconcileSource(r.src, r.deps, image, Some(uri), c') == ReconcileResult(r.src, r.deps, None, false, false)
  {
    hide PodUnchanged, ExpectedPod, CreateAdapter, ReconcileSource, CredentialsConfigured, Settled, ServerFills,
      Findable, SuccessStatus, SourceAtAdapter;
    var r := ReconcileSource(src, deps, image, Some(uri), c);
    var n := ConvergesTo(src, deps, image, uri, c);
    SourceIsStable(src, uri);
    SettledKept(src, r.src, r.deps, image, uri);
    SettledIsQuiet(r.src, r.deps, image, uri, c');
    QuietReconcile(r.src, r.deps, image, uri, c');
  }

  /**
   The fixpoint, exactly, from any cluster: after one fault-free reconcile a second one changes nothing at all, source
   included, however the server orders its listing and whatever it does, if and only if the first one left a settled cluster.
   */
  lemma FixpointIff(src: KinesisSource, deps: Deployments, image: string, uri: string, c: Choices)
    requires Proceeds(src) && uri != "" && FaultFree(deps, c) && ValidChoices(deps, c)
    ensures var r := ReconcileSource(src, deps, image, Some(uri), c);
            LeavesSettled(src, deps, image, uri, c, r.applied) <==>
            forall c': Choices | c'.list.Lists? && ValidChoices(r.deps, c') ::
              ReconcileSource(r.src, r.deps, image, Some(uri), c') == ReconcileResult(r.src, r.deps, None, false, false)
  {
    hide ReconcileSource, Settled, ValidChoices, LeavesSettled, CredentialsConfigured, SuccessStatus, WithFinalizer,
      AdapterAfter;
    var r := ReconcileSource(src, deps, image, Some(uri), c);
    SettledAfter(src, deps, image, uri, c);
    var n := ConvergesTo(src, deps, image, uri, c);
    SettledKept(src, r.src, r.deps, image, uri);
    if Settled(r.deps, src, image, uri) {
      forall c': Choices | c'.list.Lists? && ValidChoices(r.deps, c')
        ensures ReconcileSource(r.src, r.deps, image, Some(uri), c') == ReconcileResult(r.src, r.deps, None, false, false)
      {
        QuietAfter(src, deps, image, uri, c, c');
      }
    } else {
      var c' := UnsettledReconcileWrites(r.src, r.deps, image, uri);
    }
  }

  /** With one adapter at most, that is the target, and a fault-free reconcile finds or creates no other. */
  lemma OnlyTarget(src: KinesisSource, deps: Deployments, image: string, uri: string, c: Choices)
    requires Proceeds(src) && AtMostOne(Owned(deps, src.uid))
    requires FaultFree(deps, c) && ValidChoices(deps, c)
    ensures forall k | Findable(deps, src, k) :: k == Target(deps, src, c)
    ensures forall k | Findable(ReconcileSource(src, deps, image, Some(uri), c).deps, src, k) :: k == Target(deps, src, c)
  {
    hide PodUnchanged, ExpectedPod, ReconcileSource, ServerFills, Matches, GetLabels, Find;
    FindComplete(deps, src, c.list.order);
    OthersAfter(src, deps, image, uri, c);
  }

  /**
   What a second reconcile does for a source that controlled one deployment at most, whatever the order of the listing: it
   makes a write call exactly when the first one wrote and the server stored a flag other than sent.
   */
  lemma SecondReconcile(src: KinesisSource, deps: Deployments, image: string, uri: string, c: Choices, c': Choices)
    requires Proceeds(src) && uri != "" && AtMostOne(Owned(deps, src.uid))
    requires FaultFree(deps, c) && ValidChoices(deps, c)
    requires var r := ReconcileSource(src, deps, image, Some(uri), c);
             c'.list.Lists? && ValidChoices(r.deps, c')
    ensures var r := ReconcileSource(src, deps, image, Some(uri), c);
            var r' := ReconcileSource(r.src, r.deps, image, Some(uri), c');
            && (r'.call <==> r.applied && !SamePodFlags(ExpectedPod(src, image, uri), Kept(ExpectedPod(src, image, uri), c)))
            && (!r'.call ==> r' == ReconcileResult(r.src, r.deps, None, false, false))
  {
    hide PodUnchanged, ExpectedPod, Apply, WithFinalizer, CreateAdapter, ReconcileSource, CredentialsConfigured,
      Settled, SamePodFlags, ServerFills, Findable, SuccessStatus, Owned, AtMostOne, SourceAtAdapter, Target;
    var r := ReconcileSource(src, deps, image, Some(uri), c);
    var n := ConvergesTo(src, deps, image, uri, c);
    SettledAfter(src, deps, image, uri, c);
    OnlyTarget(src, deps, image, uri, c);
    if Settled(r.deps, src, image, uri) {
      QuietAfter(src, deps, image, uri, c, c');
    } else {
      SourceIsStable(src, uri);
      CallOfAdapter(r.src, r.deps, image, uri, c');
      GeneratedAdapter(src, r.src, image, uri);
      KeptFills(ExpectedPod(src, image, uri), c);
      StoredUnchangedIff(ExpectedPod(src, image, uri), Kept(ExpectedPod(src, image, uri), c));
      StaleIsWritten(r.src, r.deps, image, uri, c', n);
    }
  }

  // ----- Duplicates -----

  /** No adapter that the source controls can be found. */
  ghost predicate Hidden(deps: Deployments, src: KinesisSource)
  {
    forall n | n in Owned(deps, src.uid) :: !Findable(deps, src, n)
  }

  /**
   The inputs under which a reconcile creates a second adapter. There is one when the create arrives. The list call failed
   with NotFound; or it succeeded without an adapter, because the labels or the namespace of the one there was are not those
   that are looked up, or because somebody only added it after the listing. And the create works.
   */
  ghost predicate DoublesAdapter(deps: Deployments, src: KinesisSource, sink: Option<string>, c: Choices)
  {
    var now := ApplyOthers(deps, c.others);
    && Owned(now, src.uid) != map[]
    && (c.list == ListFails(NotFound) || (c.list.Lists? && Hidden(deps, src)))
    && Proceeds(src) && sink.Some? && c.ownerRefBuilt
    && c.write != Refused && c.generatedName !in now
  }

  /** Where the source has an adapter already, these are the cases in which a create takes effect. */
  lemma CreatedIff(src: KinesisSource, deps: Deployments, image: string, sink: Option<string>, c: Choices)
    requires ValidChoices(deps, c)
    ensures var r, now := ReconcileSource(src, deps, image, sink, c), ApplyOthers(deps, c.others);
            DoublesAdapter(deps, src, sink, c) <==> Owned(now, src.uid) != map[] && r.applied && Target(deps, src, c) !in now
  {
    hide PodUnchanged, ExpectedPod, Apply, WithFinalizer, CredentialsConfigured, OwnedAdapter, Find, Matches,
      GetLabels, ServerFills, ApplyOthers;
    if !src.deleting && sink.Some? {
      var src2 := SourceAtAdapter(src, sink.value);
      GeneratedAdapter(src, src2, image, sink.value);
      TargetKept(src, src2, deps, c);
      if c.list.Lists? {
        FindComplete(deps, src2, c.list.order);
      }
    }
  }

  /**
   A source that controls one deployment at most, when the controller lists and when it writes, controls two after a
   reconcile exactly in these cases. In particular, a create that takes effect but reports an error does not lead to a second
   one.
   */
  lemma DuplicateIff(src: KinesisSource, deps: Deployments, image: string, sink: Option<string>, c: Choices)
    requires AtMostOne(Owned(deps, src.uid)) && AtMostOne(Owned(ApplyOthers(deps, c.others), src.uid))
    requires ValidChoices(deps, c)
    ensures AtMostOne(Owned(ReconcileSource(src, deps, image, sink, c).deps, src.uid)) <==>
            !DoublesAdapter(deps, src, sink, c)
  {
    hide ReconcileSource, PodUnchanged, ExpectedPod, Matches, Settled, ValidChoices, DoublesAdapter, GetLabels, Target,
      ApplyOthers, SameFrame;
    var r := ReconcileSource(src, deps, image, sink, c);
    var n := ReconcileEffect(src, deps, image, sink, c);
    CreatedIff(src, deps, image, sink, c);
    if r.applied {
      AtMostOneMore(ApplyOthers(deps, c.others), r.deps, src.uid, n);
    }
  }

  lemma AtMostOneMore(base: Deployments, after: Deployments, uid: string, n: string)
    requires AtMostOne(Owned(base, uid)) && n in Owned(after, uid) && after == base[n := after[n]]
    requires n in base ==> n in Owned(base, uid)
    ensures AtMostOne(Owned(after, uid)) <==> n in base || Owned(base, uid) == map[]
  {
    if n !in base && Owned(base, uid) != map[] {
      var m :| m in Owned(base, uid);
      assert m in Owned(after, uid);
    }
    assert forall m | m in Owned(after, uid) :: m == n || m in Owned(base, uid);
  }

  datatype Cause = ListNotFound | Relabelled | AddedMeanwhile

  /**
   Each cause can double the adapter of any source that gets that far: the list call fails with NotFound although the adapter
   is as it was created; nothing fails, but somebody removed the labels of the adapter; or there was none, and somebody else
   adds one between the listing and the create.
   */
  lemma AdapterCanBeDoubled(src: KinesisSource, image: string, uri: string, cause: Cause)
    returns (deps: Deployments, c: Choices)
    requires Proceeds(src)
    ensures AtMostOne(Owned(deps, src.uid)) && AtMostOne(Owned(ApplyOthers(deps, c.others), src.uid))
    ensures match cause
            case ListNotFound => !Hidden(deps, src) && c.list == ListFails(NotFound) && c.others == []
            case Relabelled => Owned(deps, src.uid) != map[] && FaultFree(deps, c)
            case AddedMeanwhile => Owned(deps, src.uid) == map[] && FaultFree(deps, c.(others := []))
    ensures ValidChoices(deps, c)
    ensures !AtMostOne(Owned(ReconcileSource(src, deps, image, Some(uri), c).deps, src.uid))
  {
    hide ReconcileSource, OwnedAdapter, ExpectedPod, PodTree, CredentialsConfigured, ServerFills;
    GeneratedAdapter(src, src, image, uri);
    var d := OwnedAdapter(src, image, uri);
    deps := match cause
            case ListNotFound => map["a" := d]
            case Relabelled => map["a" := d.(labels := map[])]
            case AddedMeanwhile => map[];
    var list := if cause == ListNotFound then ListFails(NotFound) else Lists(["a"]);
    var others := if cause == AddedMeanwhile then [Add("a", d)] else [];
    c := Choices(list, others, true, Applied, "b", ExpectedPod(src, image, uri));
    
    var now := ApplyOthers(deps, c.others);
    if cause == AddedMeanwhile {
      assert c.others[1..] == [];
      assert now == ApplyOthers(ApplyOutside(deps, c.others[0]), []);
    }
    assert "a" in Owned(now, src.uid) && AtMostOne(Owned(now, src.uid));
    assert "knative-eventing-source" in GetLabels(src);
    DuplicateIff(src, deps, image, Some(uri), c);
  }
}
