/**
 The API server as the controller sees it: the deployments, three calls that can fail in every way, and
 everybody else, who may act between two calls of the controller.
 */
module ApiServer {
  import opened Basics
  import opened Kubernetes

  type Deployments = map<string, Deployment>

  datatype ApiError = NotFound | Other

  /** Something that anybody but this controller does to the deployments. */
  datatype OutsideStep =
    | Edit(name: string, edited: Deployment)
    | Delete(name: string)
    | Add(name: string, added: Deployment)

  function ApplyOutside(deps: Deployments, s: OutsideStep): Deployments
  {
    match s
    case Edit(name, d) => if name in deps then deps[name := d] else deps
    case Delete(name) => deps - {name}
    case Add(name, d) => if name in deps then deps else deps[name := d]
  }

  function ApplyOthers(deps: Deployments, steps: seq<OutsideStep>): Deployments
    decreases |steps|
  {
    if steps == [] then deps else ApplyOthers(ApplyOutside(deps, steps[0]), steps[1..])
  }

  /** What becomes of a write: it takes effect or not, and an error may be reported in either case. */
  datatype WriteReply = Applied | AppliedButErrored | Refused

  datatype ListReply = Lists(order: seq<string>) | ListFails(error: ApiError)

  /**
   All the choices that the server and the others make during one reconcile: how the list call goes and in
   which order it returns the deployments, what the others do before the write call arrives, whether the
   owner reference can be built, how the write goes, the name that a create generates, and the pod spec that the
   server stores, if that is what a server may make of the one that it is sent.
   */
  datatype Choices = Choices(
    list: ListReply,
    others: seq<OutsideStep>,
    ownerRefBuilt: bool,
    write: WriteReply,
    generatedName: string,
    stored: PodSpec)

  predicate Selects(selector: Labels, labels: Labels)
  {
    forall k | k in selector :: k in labels && labels[k] == selector[k]
  }

  predicate Matches(d: Deployment, namespace: string, selector: Labels)
  {
    d.namespace == namespace && Selects(selector, d.labels)
  }

  /** The listing of the matching deployments, in the given order of names. */
  function Listing(deps: Deployments, namespace: string, selector: Labels, order: seq<string>): seq<(string, Deployment)>
  {
    if order == [] then []
    else
      var rest := Listing(deps, namespace, selector, order[1..]);
      if order[0] in deps && Matches(deps[order[0]], namespace, selector)
      then [(order[0], deps[order[0]])] + rest
      else rest
  }

  /** What the server stores of a pod spec that it is sent: its choice, if that fills in fields only, or else the spec as it is. */
  function Kept(sent: PodSpec, c: Choices): PodSpec
  {
    if ServerFills(sent, c.stored) then c.stored else sent
  }

  /** The deployments after a create call, and whether it took effect: a name in use is refused. */
  function AfterCreate(deps: Deployments, sent: Deployment, c: Choices): (Deployments, bool)
  {
    var now := ApplyOthers(deps, c.others);
    if c.write == Refused || c.generatedName in now then (now, false)
    else (now[c.generatedName := sent.WithPod(Kept(sent.Pod(), c))], true)
  }

  /**
   The deployments after an update call that replaces an object as it was listed by the one that is sent, and whether it took
   effect: an object that is not as it was listed is refused (its resource version has moved on).
   */
  function AfterUpdate(deps: Deployments, name: string, listed: Deployment, sent: Deployment, c: Choices): (Deployments, bool)
  {
    var now := ApplyOthers(deps, c.others);
    if c.write == Refused || name !in now || now[name] != listed then (now, false)
    else (now[name := sent.WithPod(Kept(sent.Pod(), c))], true)
  }

  class Client {
    var deployments: Deployments

    constructor (deployments: Deployments)
      ensures this.deployments == deployments
    {
      this.deployments := deployments;
    }

    method List(namespace: string, selector: Labels, reply: ListReply)
      returns (r: Result<seq<(string, Deployment)>, ApiError>)
      ensures reply.ListFails? ==> r == Err(reply.error)
      ensures reply.Lists? ==> r == Ok(Listing(deployments, namespace, selector, reply.order))
    {
      match reply
      case ListFails(e) => r := Err(e);
      case Lists(order) =>
        var items := [];
        var i := |order|;
        while i > 0
          invariant 0 <= i <= |order|
          invariant items == Listing(deployments, namespace, selector, order[i..])
        {
          i := i - 1;
          assert order[i..][1..] == order[i + 1..];
          if order[i] in deployments && Matches(deployments[order[i]], namespace, selector) {
            items := [(order[i], deployments[order[i]])] + items;
          }
        }
        assert order[0..] == order;
        r := Ok(items);
    }

    method Create(d: Deployment, c: Choices) returns (err: Option<ApiError>)
      modifies this
      ensures deployments == AfterCreate(old(deployments), d, c).0
      ensures err == None <==> AfterCreate(old(deployments), d, c).1 && c.write == Applied
    {
      var (now, effect) := AfterCreate(deployments, d, c);
      deployments := now;
      err := if effect && c.write == Applied then None else Some(Other);
    }

    method Update(name: string, listed: Deployment, sent: Deployment, c: Choices) returns (err: Option<ApiError>)
      modifies this
      ensures deployments == AfterUpdate(old(deployments), name, listed, sent, c).0
      ensures err == None <==> AfterUpdate(old(deployments), name, listed, sent, c).1 && c.write == Applied
    {
      var (now, effect) := AfterUpdate(deployments, name, listed, sent, c);
      deployments := now;
      err := if effect && c.write == Applied then None else Some(Other);
    }
  }
}

/** The controller: pkg/reconciler/kinesissource.go. */
module Reconciler {
  import opened Basics
  import opened StringSets
  import opened Kubernetes
  import opened KinesisTypes
  import opened ApiServer
  import opened ReceiveAdapter
  import opened EncodeDecode
  import opened ChangeDetection

  const CONTROLLER_AGENT_NAME := "aws-kinesis-source-controller"
  const FINALIZER_NAME := CONTROLLER_AGENT_NAME

  // ----- Finalizers -----

  function WithFinalizer(finalizers: seq<string>): seq<string>
  {
    Insert(NewSet(finalizers), FINALIZER_NAME)
  }

  function WithoutFinalizer(finalizers: seq<string>): seq<string>
  {
    StringSets.Delete(NewSet(finalizers), FINALIZER_NAME)
  }

  // ----- Labels and the lookup of the adapter -----

  function GetLabels(src: KinesisSource): Labels
  {
    map["knative-eventing-source" := CONTROLLER_AGENT_NAME, "knative-eventing-source-name" := src.name]
  }

  predicate ControlledBy(d: Deployment, uid: string)
  {
    d.controller == Some(uid)
  }

  /** The first deployment of a listing that the source controls. */
  function FirstControlled(items: seq<(string, Deployment)>, uid: string): Option<(string, Deployment)>
  {
    if items == [] then None
    else if ControlledBy(items[0].1, uid) then Some(items[0])
    else FirstControlled(items[1..], uid)
  }

  function Find(deps: Deployments, src: KinesisSource, order: seq<string>): Option<(string, Deployment)>
  {
    FirstControlled(Listing(deps, src.namespace, GetLabels(src), order), src.uid)
  }

  // ----- One reconcile as a function of the state and of everybody's choices -----

  datatype ReconcileError = SinkError | ListError | ConfigurationError | OwnerRefError | UpdateError | CreateError

  /**
   What createReceiveAdapter leaves behind. call says whether it reached its write call, and applied whether
   that write took effect.
   */
  datatype AdapterResult = AdapterResult(deps: Deployments, err: Option<ReconcileError>, call: bool, applied: bool)

  function ExpectedArgs(src: KinesisSource, image: string, sinkURI: string): Args
  {
    Args(image, src, GetLabels(src), sinkURI)
  }

  function ExpectedPod(src: KinesisSource, image: string, sinkURI: string): PodSpec
  {
    Pod(ExpectedArgs(src, image, sinkURI))
  }

  /** The deployment as it is created: generated, with the source as its controller. */
  function OwnedAdapter(src: KinesisSource, image: string, sinkURI: string): Deployment
  {
    MakeReceiveAdapter(ExpectedArgs(src, image, sinkURI)).(controller := Some(src.uid))
  }

  ghost function CreateAdapter(deps: Deployments, src: KinesisSource, image: string, sinkURI: string, c: Choices): AdapterResult
  {
    var found := if c.list.Lists? then Find(deps, src, c.list.order) else None;
    if c.list.ListFails? && c.list.error != NotFound then
      AdapterResult(deps, Some(ListError), false, false)
    else if !CredentialsConfigured(src.spec) then
      AdapterResult(deps, Some(ConfigurationError), false, false)
    else
      match found
      case Some((name, listed)) =>
        if PodUnchanged(listed.Pod(), ExpectedPod(src, image, sinkURI)) then
          AdapterResult(deps, None, false, false)
        else
          var (deps', effect) := AfterUpdate(deps, name, listed, listed.WithPod(ExpectedPod(src, image, sinkURI)), c);
          AdapterResult(deps', if effect && c.write == Applied then None else Some(UpdateError), true, effect)
      case None =>
        if !c.ownerRefBuilt then
          AdapterResult(deps, Some(OwnerRefError), false, false)
        else
          var (deps', effect) := AfterCreate(deps, OwnedAdapter(src, image, sinkURI), c);
          AdapterResult(deps', if effect && c.write == Applied then None else Some(CreateError), true, effect)
  }

  datatype ReconcileResult = ReconcileResult(src: KinesisSource, deps: Deployments, err: Option<ReconcileError>, call: bool, applied: bool)

  /** sink is what GetSinkURI returns: a URI, or None for an error. */
  ghost function ReconcileSource(src: KinesisSource, deps: Deployments, image: string, sink: Option<string>, c: Choices): ReconcileResult
  {
    if src.deleting then
      ReconcileResult(src.(finalizers := WithoutFinalizer(src.finalizers)), deps, None, false, false)
    else
      var src1 := src.(finalizers := WithFinalizer(src.finalizers), status := Apply(src.status, InitializeConditions));
      match sink
      case None =>
        ReconcileResult(src1.(status := Apply(src1.status, MarkNoSink)), deps, Some(SinkError), false, false)
      case Some(uri) =>
        var src2 := src1.(status := Apply(src1.status, MarkSink(uri)));
        var r := CreateAdapter(deps, src2, image, uri, c);
        if r.err.Some? then ReconcileResult(src2, r.deps, r.err, r.call, r.applied)
        else ReconcileResult(src2.(status := Apply(src2.status, MarkDeployed)), r.deps, None, r.call, r.applied)
  }

  // ----- The objects -----

  /** The in-memory source object that a reconcile works on; it is persisted whatever the outcome. */
  class SourceObject {
    const namespace: string
    const name: string
    const uid: string
    const status: KinesisSourceStatus
    var finalizers: seq<string>
    var deleting: bool
    var spec: KinesisSourceSpec

    constructor (namespace: string, name: string, uid: string, spec: KinesisSourceSpec)
      ensures State() == KinesisSource(namespace, name, uid, [], false, spec, Fresh)
      ensures fresh(status)
    {
      this.namespace, this.name, this.uid, this.spec := namespace, name, uid, spec;
      finalizers, deleting := [], false;
      status := new KinesisSourceStatus();
    }

    function State(): KinesisSource
      reads this, status
    {
      KinesisSource(namespace, name, uid, finalizers, deleting, spec, status.Value())
    }
  }

  class Reconciler {
    const client: Client
    const receiveAdapterImage: string

    constructor (client: Client, receiveAdapterImage: string)
      ensures this.client == client && this.receiveAdapterImage == receiveAdapterImage
    {
      this.client, this.receiveAdapterImage := client, receiveAdapterImage;
    }

    method AddFinalizer(s: SourceObject)
      modifies s`finalizers
      ensures Sorted(s.finalizers) && Elements(s.finalizers) == Elements(old(s.finalizers)) + {FINALIZER_NAME}
      ensures s.finalizers == WithFinalizer(old(s.finalizers))
    {
      var finalizers := NewSet(s.finalizers);
      finalizers := Insert(finalizers, FINALIZER_NAME);
      s.finalizers := finalizers;
    }

    method RemoveFinalizer(s: SourceObject)
      modifies s`finalizers
      ensures Sorted(s.finalizers) && Elements(s.finalizers) == Elements(old(s.finalizers)) - {FINALIZER_NAME}
      ensures s.finalizers == WithoutFinalizer(old(s.finalizers))
    {
      var finalizers := NewSet(s.finalizers);
      finalizers := StringSets.Delete(finalizers, FINALIZER_NAME);
      s.finalizers := finalizers;
    }

    method GetReceiveAdapter(src: KinesisSource, reply: ListReply) returns (r: Result<(string, Deployment), ApiError>)
      ensures reply.ListFails? ==> r == Err(reply.error)
      ensures reply.Lists? ==>
                r == match Find(client.deployments, src, reply.order) case Some(x) => Ok(x) case None => Err(NotFound)
    {
      var list := client.List(src.namespace, GetLabels(src), reply);
      if list.Err? {
        return Err(list.error);
      }
      var items := list.value;
      for i := 0 to |items|
        invariant FirstControlled(items, src.uid) == FirstControlled(items[i..], src.uid)
      {
        if ControlledBy(items[i].1, src.uid) {
          return Ok(items[i]);
        }
        assert items[i..][1..] == items[i + 1..];
      }
      return Err(NotFound);
    }

    method CreateReceiveAdapter(src: KinesisSource, sinkURI: string, c: Choices) returns (err: Option<ReconcileError>)
      modifies client
      ensures var r := CreateAdapter(old(client.deployments), src, receiveAdapterImage, sinkURI, c);
              client.deployments == r.deps && err == r.err
    {
      var ra := GetReceiveAdapter(src, c.list);
      if ra.Err? && ra.error != NotFound {
        return Some(ListError);
      }
      if !CredentialsConfigured(src.spec) {
        return Some(ConfigurationError);
      }
      var expected := MakeReceiveAdapter(ExpectedArgs(src, receiveAdapterImage, sinkURI));
      if ra.Ok? {
        var (name, listed) := ra.value;
        var changed := PodSpecChanged(listed.Pod(), expected.Pod());
        if changed {
          var updated := listed.WithPod(expected.Pod());
          var e := client.Update(name, listed, updated, c);
          if e.Some? {
            return Some(UpdateError);
          }
        }
        return None;
      }
      if !c.ownerRefBuilt {
        return Some(OwnerRefError);
      }
      expected := expected.(controller := Some(src.uid));
      var e := client.Create(expected, c);
      if e.Some? {
        return Some(CreateError);
      }
      return None;
    }

    /** obj is null when what the manager hands over is not a KinesisSource: nothing happens then. */
    method Reconcile(obj: SourceObject?, sink: Option<string>, c: Choices) returns (err: Option<ReconcileError>)
      modifies obj, client, if obj == null then {} else {obj.status}
      ensures obj == null ==> err == None && client.deployments == old(client.deployments)
      ensures obj != null ==>
                var r := ReconcileSource(old(obj.State()), old(client.deployments), receiveAdapterImage, sink, c);
                obj.State() == r.src && client.deployments == r.deps && err == r.err
    {
      hide CreateAdapter, Apply, WithFinalizer, WithoutFinalizer;
      if obj == null {
        return None;
      }
      var src: SourceObject := obj;
      if src.deleting {
        RemoveFinalizer(src);
        return None;
      }
      AddFinalizer(src);
      src.status.InitializeConditions();
      if sink == None {
        src.status.MarkNoSink();
        return Some(SinkError);
      }
      var sinkURI := sink.value;
      src.status.MarkSink(sinkURI);
      err := CreateReceiveAdapter(src.State(), sinkURI, c);
      if err.Some? {
        return err;
      }
      src.status.MarkDeployed();
      return None;
    }
  }
}
