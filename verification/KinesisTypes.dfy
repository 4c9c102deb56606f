/** The KinesisSource API type and its status conditions (pkg/apis/sources/v1alpha1/kinesis_types.go). */
module KinesisTypes {
  import opened Basics

  datatype SecretKeySelector = SecretKeySelector(name: string, key: string)

  datatype KiamOptions = KiamOptions(assignedIAMRole: string, kclIAMRoleARN: string)

  datatype ObjectReference = ObjectReference(kind: string, namespace: string, name: string, apiVersion: string)

  datatype KinesisSourceSpec = KinesisSourceSpec(
    streamName: string,
    region: string,
    awsCredsSecret: SecretKeySelector,
    kiamOptions: KiamOptions,
    sink: Option<ObjectReference>,
    serviceAccountName: string)

  datatype ConditionType = Ready | SinkProvided | Deployed

  datatype ConditionStatus = True | False | Unknown

  /** The conditions that are present; a type without an entry has never been set. */
  type Conditions = map<ConditionType, ConditionStatus>

  datatype Status = Status(conditions: Conditions, sinkURI: string)
  {
    predicate IsReady() { Is(conditions, Ready, True) }
  }

  datatype KinesisSource = KinesisSource(
    namespace: string,
    name: string,
    uid: string,
    finalizers: seq<string>,
    deleting: bool,
    spec: KinesisSourceSpec,
    status: Status)

  // ----- The living condition set Ready <- {SinkProvided, Deployed} -----

  predicate Is(cs: Conditions, t: ConditionType, s: ConditionStatus)
  {
    t in cs && cs[t] == s
  }

  function Initialize(cs: Conditions): Conditions
  {
    map[SinkProvided := Unknown, Deployed := Unknown, Ready := Unknown] + cs
  }

  function MarkTrue(cs: Conditions, t: ConditionType): Conditions
  {
    var cs' := cs[t := True];
    if Is(cs', SinkProvided, True) && Is(cs', Deployed, True) then cs'[Ready := True] else cs'
  }

  function MarkUnknown(cs: Conditions, t: ConditionType): Conditions
  {
    var cs' := cs[t := Unknown];
    if Is(cs', SinkProvided, False) || Is(cs', Deployed, False) then cs' else cs'[Ready := Unknown]
  }

  function MarkFalse(cs: Conditions, t: ConditionType): Conditions
  {
    cs[t := False][Ready := False]
  }

  // ----- What each method of KinesisSourceStatus does -----

  datatype Call =
    | InitializeConditions
    | MarkSink(uri: string)
    | MarkNoSink
    | MarkDeployed
    | MarkDeploying
    | MarkNotDeployed

  const Fresh := Status(map[], "")

  function Apply(s: Status, c: Call): Status
  {
    match c
    case InitializeConditions => s.(conditions := Initialize(s.conditions))
    case MarkSink(uri) =>
      Status(if uri != "" then MarkTrue(s.conditions, SinkProvided) else MarkUnknown(s.conditions, SinkProvided), uri)
    case MarkNoSink => s.(conditions := MarkFalse(s.conditions, SinkProvided))
    case MarkDeployed => s.(conditions := MarkTrue(s.conditions, Deployed))
    case MarkDeploying => s.(conditions := MarkUnknown(s.conditions, Deployed))
    case MarkNotDeployed => s.(conditions := MarkFalse(s.conditions, Deployed))
  }

  /** The status object, updated in place. */
  class KinesisSourceStatus {
    var conditions: Conditions
    var sinkURI: string

    function Value(): Status
      reads this
    {
      Status(conditions, sinkURI)
    }

    constructor ()
      ensures Value() == Fresh
    {
      conditions, sinkURI := map[], "";
    }

    method GetCondition(t: ConditionType) returns (r: Option<ConditionStatus>)
      ensures r.Some? <==> t in conditions
      ensures forall s :: r == Some(s) <==> Is(conditions, t, s)
    {
      r := if t in conditions then Some(conditions[t]) else None;
    }

    method IsReady() returns (r: bool)
      ensures r == Value().IsReady()
    {
      var c := GetCondition(Ready);
      r := c == Some(True);
    }

    method InitializeConditions()
      modifies this
      ensures Value() == Apply(old(Value()), Call.InitializeConditions)
      ensures {SinkProvided, Deployed, Ready} <= conditions.Keys
      ensures forall t | t in conditions :: conditions[t] == if t in old(conditions) then old(conditions)[t] else Unknown
      ensures sinkURI == old(sinkURI)
    {
      conditions := Initialize(conditions);
    }

    method MarkSink(uri: string)
      modifies this
      ensures Value() == Apply(old(Value()), Call.MarkSink(uri))
      ensures sinkURI == uri && Is(conditions, SinkProvided, if uri == "" then Unknown else True)
      ensures Deployed in conditions <==> Deployed in old(conditions)
      ensures Deployed in conditions ==> conditions[Deployed] == old(conditions[Deployed])
    {
      sinkURI := uri;
      if uri != "" {
        conditions := MarkTrue(conditions, SinkProvided);
      } else {
        conditions := MarkUnknown(conditions, SinkProvided);
      }
    }

    method MarkNoSink()
      modifies this
      ensures Value() == Apply(old(Value()), Call.MarkNoSink)
      ensures sinkURI == old(sinkURI) && Is(conditions, SinkProvided, False) && Is(conditions, Ready, False)
    {
      conditions := MarkFalse(conditions, SinkProvided);
    }

    method MarkDeployed()
      modifies this
      ensures Value() == Apply(old(Value()), Call.MarkDeployed)
      ensures sinkURI == old(sinkURI) && Is(conditions, Deployed, True)
      ensures Is(conditions, SinkProvided, True) ==> Is(conditions, Ready, True)
    {
      conditions := MarkTrue(conditions, Deployed);
    }

    method MarkDeploying()
      modifies this
      ensures Value() == Apply(old(Value()), Call.MarkDeploying)
      ensures sinkURI == old(sinkURI) && Is(conditions, Deployed, Unknown)
      ensures !Is(conditions, SinkProvided, False) ==> Is(conditions, Ready, Unknown)
    {
      conditions := MarkUnknown(conditions, Deployed);
    }

    method MarkNotDeployed()
      modifies this
      ensures Value() == Apply(old(Value()), Call.MarkNotDeployed)
      ensures sinkURI == old(sinkURI) && Is(conditions, Deployed, False) && Is(conditions, Ready, False)
    {
      conditions := MarkFalse(conditions, Deployed);
    }
  }
}

/**
 What a history of status calls adds up to. The reference is a specification by last events: it looks at
 the last call about the sink and the last call about the deployment, and at nothing in between.
 */
module StatusHistory {
  import opened Basics
  import opened KinesisTypes

  function Run(calls: seq<Call>): Status
  {
    if calls == [] then Fresh else Apply(Run(calls[..|calls| - 1]), calls[|calls| - 1])
  }

  predicate AboutSink(c: Call) { c.MarkSink? || c.MarkNoSink? }

  predicate MarksSink(c: Call) { c.MarkSink? }

  predicate AboutDeployment(c: Call) { c.MarkDeployed? || c.MarkDeploying? || c.MarkNotDeployed? }

  /** The last call of the history that satisfies p. */
  function LastCall(calls: seq<Call>, p: Call -> bool): Option<Call>
  {
    if calls == [] then None
    else
      var n := |calls| - 1;
      if p(calls[n]) then Some(calls[n]) else LastCall(calls[..n], p)
  }

  /** LastCall finds the last index that satisfies p, or none when there is none (i == -1). */
  lemma {:induction false} LastCallAt(calls: seq<Call>, p: Call -> bool) returns (i: int)
    ensures -1 <= i < |calls|
    ensures LastCall(calls, p) == if i == -1 then None else Some(calls[i])
    ensures i != -1 ==> p(calls[i])
    ensures forall j | i < j < |calls| :: !p(calls[j])
  {
    if calls == [] {
      i := -1;
    } else if p(calls[|calls| - 1]) {
      i := |calls| - 1;
    } else {
      i := LastCallAt(calls[..|calls| - 1], p);
    }
  }

  /** The condition that a single call leaves behind, whatever came before. */
  function Verdict(c: Call): ConditionStatus
  {
    match c
    case MarkSink(uri) => if uri == "" then Unknown else True
    case MarkNoSink => False
    case MarkDeployed => True
    case MarkDeploying => Unknown
    case MarkNotDeployed => False
    case InitializeConditions => Unknown
  }

  /** The state of a dependent condition by last events: initialization shows only where no call came. */
  function DependentSpec(calls: seq<Call>, p: Call -> bool): Option<ConditionStatus>
  {
    match LastCall(calls, p)
    case Some(c) => Some(Verdict(c))
    case None => if InitializeConditions in calls then Some(Unknown) else None
  }

  function MarkedURI(c: Option<Call>): string
  {
    match c case Some(MarkSink(uri)) => uri case _ => ""
  }

  function Lookup(cs: Conditions, t: ConditionType): Option<ConditionStatus>
  {
    if t in cs then Some(cs[t]) else None
  }

  lemma Snoc(front: seq<Call>, c: Call, p: Call -> bool)
    ensures Run(front + [c]) == Apply(Run(front), c)
    ensures LastCall(front + [c], p) == if p(c) then Some(c) else LastCall(front, p)
    ensures InitializeConditions in front + [c] <==> InitializeConditions in front || c == InitializeConditions
  {
    assert (front + [c])[..|front|] == front;
  }

  /** The state of the status by last events. */
  predicate FollowsLastCalls(calls: seq<Call>)
  {
    && Lookup(Run(calls).conditions, SinkProvided) == DependentSpec(calls, AboutSink)
    && Lookup(Run(calls).conditions, Deployed) == DependentSpec(calls, AboutDeployment)
    && Run(calls).sinkURI == MarkedURI(LastCall(calls, MarksSink))
  }

  /** Each dependent condition is decided by the last call about it, and the URI by the last MarkSink. */
  lemma {:induction false} StatusFollowsLastCalls(calls: seq<Call>)
    ensures FollowsLastCalls(calls)
  {
    if calls != [] {
      var front, c := calls[..|calls| - 1], calls[|calls| - 1];
      StatusFollowsLastCalls(front);
      Snoc(front, c, AboutSink);
      Snoc(front, c, AboutDeployment);
      Snoc(front, c, MarksSink);
      assert calls == front + [c];
      hide Run, LastCall;
    }
  }

  /** Ready is True exactly when both dependents are, and False whenever one of them is. */
  predicate Consistent(cs: Conditions)
  {
    && (Is(cs, Ready, True) <==> Is(cs, SinkProvided, True) && Is(cs, Deployed, True))
    && (Is(cs, SinkProvided, False) || Is(cs, Deployed, False) ==> Is(cs, Ready, False))
  }

  lemma ApplyKeepsConsistent(s: Status, c: Call)
    requires Consistent(s.conditions)
    ensures Consistent(Apply(s, c).conditions)
  {
    match c case _ =>
  }

  /** Ready agrees with its dependents at every point of every history. */
  lemma {:induction false} HistoryConsistent(calls: seq<Call>)
    ensures Consistent(Run(calls).conditions)
  {
    if calls != [] {
      var n := |calls| - 1;
      HistoryConsistent(calls[..n]);
      ApplyKeepsConsistent(Run(calls[..n]), calls[n]);
    }
  }

  /**
   The step-by-step machine refines the specification by last events: the source is ready exactly when the last
   sink call was MarkSink with a non-empty URI and the last deployment call was MarkDeployed.
   */
  lemma ReadyIffLastCalls(calls: seq<Call>)
    ensures Run(calls).IsReady() <==>
            && LastCall(calls, AboutDeployment) == Some(MarkDeployed)
            && (exists uri :: uri != "" && LastCall(calls, AboutSink) == Some(MarkSink(uri)))
  {
    HistoryConsistent(calls);
    StatusFollowsLastCalls(calls);
    var i := LastCallAt(calls, AboutSink);
    var j := LastCallAt(calls, AboutDeployment);
  }

  // ----- The value of Ready, by events -----

  /** The calls that set Ready to False. */
  predicate Fails(c: Call) { c.MarkNoSink? || c.MarkNotDeployed? }

  /**
   Call j of a history moves Ready away from False, judging by the last calls before it about the other dependent: it makes
   both dependents True, or it makes its own Unknown while the other is not False.
   */
  predicate Recovers(calls: seq<Call>, j: nat)
    requires j < |calls|
  {
    var sink, deployment := LastCall(calls[..j], AboutSink), LastCall(calls[..j], AboutDeployment);
    match calls[j]
    case MarkSink(uri) => if uri != "" then deployment == Some(MarkDeployed) else deployment != Some(MarkNotDeployed)
    case MarkDeployed => MarkedURI(sink) != ""
    case MarkDeploying => sink != Some(MarkNoSink)
    case _ => false
  }

  /** Call i failed, and no later call recovered. */
  ghost predicate FailedAt(calls: seq<Call>, i: nat)
  {
    i < |calls| && Fails(calls[i]) && forall j | i < j < |calls| :: !Recovers(calls, j)
  }

  lemma FailedAtSnoc(front: seq<Call>, c: Call)
    ensures var calls := front + [c];
            (exists i :: FailedAt(calls, i)) <==> Fails(c) || (!Recovers(calls, |front|) && exists i :: FailedAt(front, i))
  {
    var calls := front + [c];
    assert forall j: nat | j < |front| :: calls[..j] == front[..j] && calls[j] == front[j];
    assert forall j: nat | j < |front| :: Recovers(calls, j) <==> Recovers(front, j);
    hide Recovers;
    if Fails(c) {
      assert FailedAt(calls, |front|);
    } else if i :| FailedAt(calls, i) {
      assert FailedAt(front, i);
    } else if i :| FailedAt(front, i) {
      assert Recovers(calls, |front|) || FailedAt(calls, i);
    }
  }

  /** Each dependent condition by the last call about it. */
  lemma ByLastCalls(calls: seq<Call>)
    ensures var cs, sink, deployment := Run(calls).conditions, LastCall(calls, AboutSink), LastCall(calls, AboutDeployment);
            && (Is(cs, SinkProvided, True) <==> MarkedURI(sink) != "")
            && (Is(cs, SinkProvided, False) <==> sink == Some(MarkNoSink))
            && (Is(cs, Deployed, True) <==> deployment == Some(MarkDeployed))
            && (Is(cs, Deployed, False) <==> deployment == Some(MarkNotDeployed))
  {
    hide Run, LastCall;
    StatusFollowsLastCalls(calls);
    var i := LastCallAt(calls, AboutSink);
    var j := LastCallAt(calls, AboutDeployment);
  }

  lemma FalseStep(s: Status, c: Call)
    requires Consistent(s.conditions)
    ensures var cs := s.conditions;
            var recovers :=
              match c
              case MarkSink(uri) => if uri != "" then Is(cs, Deployed, True) else !Is(cs, Deployed, False)
              case MarkDeployed => Is(cs, SinkProvided, True)
              case MarkDeploying => !Is(cs, SinkProvided, False)
              case _ => false;
            Is(Apply(s, c).conditions, Ready, False) <==> Fails(c) || (!recovers && Is(cs, Ready, False))
  {
    match c case _ =>
  }

  /** One more call on a history leaves Ready False exactly if it fails, or Ready was False and the call does not recover. */
  lemma ReadyFalseStep(front: seq<Call>, c: Call)
    ensures Is(Run(front + [c]).conditions, Ready, False) <==>
            Fails(c) || (!Recovers(front + [c], |front|) && Is(Run(front).conditions, Ready, False))
  {
    hide Run, LastCall, Apply, Consistent;
    assert (front + [c])[..|front|] == front;
    ByLastCalls(front);
    HistoryConsistent(front);
    Snoc(front, c, AboutSink);
    FalseStep(Run(front), c);
  }

  /** Ready is False exactly when some call failed and none has recovered since. */
  lemma {:induction false} ReadyFalseIff(calls: seq<Call>)
    ensures Is(Run(calls).conditions, Ready, False) <==> exists i :: FailedAt(calls, i)
  {
    if calls != [] {
      var front, c := calls[..|calls| - 1], calls[|calls| - 1];
      ReadyFalseIff(front);
      ReadyFalseStep(front, c);
      FailedAtSnoc(front, c);
      assert calls == front + [c];
      hide Run, Recovers, FailedAt;
    }
  }

  predicate FindsSink(c: Call) { c.MarkSink? && c.uri != "" }

  predicate Deploys(c: Call) { c.MarkDeployed? }

  ghost predicate All(calls: seq<Call>, p: Call -> bool)
  {
    forall c | c in calls :: p(c)
  }

  lemma UnsetStep(s: Status, c: Call)
    requires Consistent(s.conditions)
    ensures Ready !in Apply(s, c).conditions <==>
            && Ready !in s.conditions
            && ((FindsSink(c) && !Is(s.conditions, Deployed, True)) || (Deploys(c) && !Is(s.conditions, SinkProvided, True)))
  {
    match c case _ =>
  }

  lemma OneKind(calls: seq<Call>)
    ensures var cs := Run(calls).conditions;
            && (All(calls, FindsSink) ==> !Is(cs, Deployed, True) && (calls != [] ==> Is(cs, SinkProvided, True)))
            && (All(calls, Deploys) ==> !Is(cs, SinkProvided, True) && (calls != [] ==> Is(cs, Deployed, True)))
  {
    hide Run, LastCall;
    ByLastCalls(calls);
    var i := LastCallAt(calls, AboutSink);
    var j := LastCallAt(calls, AboutDeployment);
    assert calls != [] ==> calls[|calls| - 1] in calls;
    assert i != -1 ==> calls[i] in calls;
    assert j != -1 ==> calls[j] in calls;
  }

  /** Ready is unset exactly as long as nothing but a sink was found, or nothing but the adapter was deployed. */
  lemma {:induction false} ReadyUnsetIff(calls: seq<Call>)
    ensures Ready !in Run(calls).conditions <==> All(calls, FindsSink) || All(calls, Deploys)
  {
    if calls != [] {
      var front, c := calls[..|calls| - 1], calls[|calls| - 1];
      assert calls == front + [c];
      hide LastCall, Apply;
      ReadyUnsetIff(front);
      HistoryConsistent(front);
      UnsetStep(Run(front), c);
      OneKind(front);
      AllSnoc(front, c, FindsSink);
      AllSnoc(front, c, Deploys);
    }
  }

  lemma AllSnoc(front: seq<Call>, c: Call, p: Call -> bool)
    ensures All(front + [c], p) <==> All(front, p) && p(c)
  {
    assert forall d | d in front :: d in front + [c];
  }

  ghost function ReadySpec(calls: seq<Call>): Option<ConditionStatus>
  {
    if LastCall(calls, AboutDeployment) == Some(MarkDeployed) && MarkedURI(LastCall(calls, AboutSink)) != "" then Some(True)
    else if exists i :: FailedAt(calls, i) then Some(False)
    else if All(calls, FindsSink) || All(calls, Deploys) then None
    else Some(Unknown)
  }

  /** The full value of Ready after any history, by events. */
  lemma ReadyFollowsEvents(calls: seq<Call>)
    ensures Lookup(Run(calls).conditions, Ready) == ReadySpec(calls)
  {
    hide Run, LastCall, FailedAt, All;
    ByLastCalls(calls);
    HistoryConsistent(calls);
    ReadyFalseIff(calls);
    ReadyUnsetIff(calls);
  }

  /**
   A False Ready outlives its cause: when the sink was missing and is found again, Ready stays False, and not Unknown,
   unless the last call about the deployment was MarkDeployed.
   */
  lemma FalseReadySticks(calls: seq<Call>, uri: string)
    requires uri != ""
    ensures var cs := Run(calls + [MarkNoSink, MarkSink(uri)]).conditions;
            Is(cs, SinkProvided, True) && (Is(cs, Ready, False) <==> LastCall(calls, AboutDeployment) != Some(MarkDeployed))
  {
    var middle := calls + [MarkNoSink];
    assert calls + [MarkNoSink, MarkSink(uri)] == middle + [MarkSink(uri)];
    assert (middle + [MarkSink(uri)])[..|middle|] == middle;
    hide Run, LastCall;
    ByLastCalls(middle + [MarkSink(uri)]);
    ReadyFalseStep(calls, MarkNoSink);
    ReadyFalseStep(middle, MarkSink(uri));
    Snoc(calls, MarkNoSink, AboutDeployment);
    Snoc(middle, MarkSink(uri), AboutSink);
  }
}
