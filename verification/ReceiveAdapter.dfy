/**
 Generation of the receive adapter's deployment (pkg/reconciler/resources/receive_adapter.go): an encoder
 whose decoder is the adapter binary, by way of environment variables.
 */
module ReceiveAdapter {
  import opened Basics
  import opened KinesisTypes
  import opened Kubernetes

  datatype Args = Args(image: string, source: KinesisSource, labels: Labels, sinkURI: string)

  const CREDS_VOLUME := "aws-credentials"
  const CREDS_MOUNT_PATH := "/var/secrets/aws"

  /** Both halves of the secret reference are needed. */
  predicate UsesSecret(spec: KinesisSourceSpec)
  {
    spec.awsCredsSecret.name != "" && spec.awsCredsSecret.key != ""
  }

  function Var(name: string, value: string): EnvVar
  {
    EnvVar(name, value, None)
  }

  function MakeDeploymentSpec(args: Args): DeploymentSpec
  {
    var spec := args.source.spec;
    if UsesSecret(spec) then
      var credsFile := CREDS_MOUNT_PATH + "/" + spec.awsCredsSecret.key;
      DeploymentSpec(
        args.labels, 1,
        PodTemplate(
          map["sidecar.istio.io/inject" := "true"],
          args.labels,
          PodSpec(
            spec.serviceAccountName,
            [Container(
               "receive-adapter", args.image,
               [Var("AWS_APPLICATION_CREDENTIALS", credsFile),
                Var("STREAM_NAME", spec.streamName),
                Var("REGION", spec.region),
                Var("SINK_URI", args.sinkURI),
                Var("CONSUMER_NAME", args.source.name)],
               [VolumeMount(CREDS_VOLUME, CREDS_MOUNT_PATH, false, None)],
               NO_TTY, None)],
            [Volume(CREDS_VOLUME, Some(SecretVolumeSource(spec.awsCredsSecret.name, None)), None)],
            OWN_HOST, None)))
    else
      DeploymentSpec(
        args.labels, 1,
        PodTemplate(
          map["sidecar.istio.io/inject" := "true", "iam.amazonaws.com/role" := spec.kiamOptions.assignedIAMRole],
          args.labels,
          PodSpec(
            spec.serviceAccountName,
            [Container(
               "receive-adapter", args.image,
               [Var("STREAM_NAME", spec.streamName),
                Var("KCL_IAM_ROLE_ARN", spec.kiamOptions.kclIAMRoleARN),
                Var("REGION", spec.region),
                Var("SINK_URI", args.sinkURI),
                Var("CONSUMER_NAME", args.source.name)],
               [],
               NO_TTY, None)],
            [],
            OWN_HOST, None)))
  }

  function MakeReceiveAdapter(args: Args): Deployment
  {
    Deployment(args.source.namespace, "kinesis-" + args.source.name + "-", args.labels, None, MakeDeploymentSpec(args))
  }

  function Env(args: Args): seq<EnvVar>
  {
    MakeReceiveAdapter(args).Pod().containers[0].env
  }
}

/** What the adapter binary makes of a generated deployment. */
module EncodeDecode {
  import opened Basics
  import opened KinesisTypes
  import opened Kubernetes
  import opened ReceiveAdapter
  import Adapter

  /**
   The process environment of a container: a later entry overrides an earlier one with the same name.
   Entries whose value comes from elsewhere (rest) are not part of this model.
   */
  function Environ(env: seq<EnvVar>): Adapter.Environment
  {
    if env == [] then map[]
    else
      var last := env[|env| - 1];
      var front := Environ(env[..|env| - 1]);
      if last.rest == None then front[last.name := last.value] else front
  }

  predicate DistinctNames(env: seq<EnvVar>)
  {
    forall i, j | 0 <= i < j < |env| :: env[i].name != env[j].name
  }

  /** Looking a name up finds its entry, and nothing else. */
  lemma {:induction false} EnvironLookup(env: seq<EnvVar>)
    requires DistinctNames(env) && forall i | 0 <= i < |env| :: env[i].rest == None
    ensures forall i | 0 <= i < |env| :: env[i].name in Environ(env) && Environ(env)[env[i].name] == env[i].value
    ensures forall name | name in Environ(env) :: exists i :: 0 <= i < |env| && env[i].name == name
  {
    if env != [] {
      EnvironLookup(env[..|env| - 1]);
    }
  }

  /** The configuration that the adapter should end up with. */
  function Intended(args: Args): Adapter.Config
  {
    var spec := args.source.spec;
    Adapter.Config(
      if UsesSecret(spec) then "" else spec.kiamOptions.kclIAMRoleARN,
      if UsesSecret(spec) then "/var/secrets/aws/" + spec.awsCredsSecret.key else "",
      spec.streamName, spec.region, args.sinkURI, args.source.name)
  }

  /** The configuration is that of the source for this sink: its stream, region and name, and one of its credentials. */
  predicate Serves(config: Adapter.Config, src: KinesisSource, uri: string)
  {
    var secret := src.spec.awsCredsSecret;
    && config.streamName == src.spec.streamName && config.region == src.spec.region
    && config.sinkURI == uri && config.consumerName == src.name
    && (if secret.name != "" && secret.key != ""
        then config.credsFile == "/var/secrets/aws/" + secret.key && config.kclIAMRoleARN == ""
        else config.credsFile == "" && config.kclIAMRoleARN == src.spec.kiamOptions.kclIAMRoleARN)
  }

  lemma RoundTripSecret(args: Args)
    requires UsesSecret(args.source.spec)
    ensures Adapter.Construct(Environ(Env(args))) == Ok(Intended(args))
  {
    var env := Env(args);
    EnvironLookup(env);
    hide Environ;
    var e := Environ(env);
    assert env[0].name in e && env[1].name in e && env[2].name in e && env[3].name in e && env[4].name in e;
    assert Adapter.ENV_KCL_IAM_ROLE_ARN !in e;
    assert env[0].value == "/var/secrets/aws/" + args.source.spec.awsCredsSecret.key;
  }

  lemma RoundTripRole(args: Args)
    requires !UsesSecret(args.source.spec)
    ensures Adapter.Construct(Environ(Env(args))) == Ok(Intended(args))
  {
    var env := Env(args);
    EnvironLookup(env);
    hide Environ;
    var e := Environ(env);
    assert env[0].name in e && env[1].name in e && env[2].name in e && env[3].name in e && env[4].name in e;
    assert Adapter.ENV_CREDS_FILE !in e;
  }

  /**
   The binary finds every required variable in the generated environment and rebuilds the stream, region,
   sink URI and name of the source, in both branches and whatever the strings are.
   */
  lemma RoundTrip(args: Args)
    ensures Adapter.Construct(Environ(Env(args))) == Ok(Intended(args))
    ensures Serves(Intended(args), args.source, args.sinkURI)
  {
    if UsesSecret(args.source.spec) {
      RoundTripSecret(args);
    } else {
      RoundTripRole(args);
    }
  }

  /** The check the controller makes before it generates anything (pkg/reconciler/kinesissource.go:149-152). */
  predicate CredentialsConfigured(spec: KinesisSourceSpec)
  {
    !(|spec.awsCredsSecret.name| == 0 && |spec.awsCredsSecret.key| == 0 &&
      |spec.kiamOptions.assignedIAMRole| == 0 && |spec.kiamOptions.kclIAMRoleARN| == 0)
  }

  function DecodedMode(args: Args): (mode: Option<Adapter.CredentialMode>)
  {
    match Adapter.Construct(Environ(Env(args)))
    case Ok(config) => Some(Adapter.ChooseCredentials(config))
    case Err(_) => None
  }

  /** Which credentials the running adapter uses, from the source's spec alone. */
  lemma EndToEndCredentials(args: Args)
    ensures var s := args.source.spec;
            var both := s.awsCredsSecret.name != "" && s.awsCredsSecret.key != "";
            && (DecodedMode(args) == Some(Adapter.CredentialsFile) <==> both)
            && (DecodedMode(args) == Some(Adapter.AssumedRole) <==> !both && s.kiamOptions.kclIAMRoleARN != "")
            && (DecodedMode(args) == Some(Adapter.NoCredentials) <==> !both && s.kiamOptions.kclIAMRoleARN == "")
  {
    RoundTrip(args);
  }

  /**
   The controller accepts every source whose adapter can start, and more: the exact excess is an assigned role
   or one half of a secret, without a role ARN.
   */
  lemma AcceptanceVersusStart(args: Args)
    ensures var s := args.source.spec;
            var starts := DecodedMode(args) != Some(Adapter.NoCredentials);
            && (starts ==> CredentialsConfigured(s))
            && (CredentialsConfigured(s) && !starts <==>
                s.kiamOptions.kclIAMRoleARN == "" &&
                (if s.awsCredsSecret.name == "" then s.awsCredsSecret.key != "" || s.kiamOptions.assignedIAMRole != ""
                 else s.awsCredsSecret.key == ""))
  {
    EndToEndCredentials(args);
  }
}

/** How the rest of a generated deployment fits what the binary decodes from its Env. */
module GeneratedDeployment {
  import opened Basics
  import opened Kubernetes
  import opened ReceiveAdapter
  import opened EncodeDecode

  /** The credentials file that the adapter reads lies in a mount m of a volume v that holds the source's secret. */
  predicate Mounted(args: Args, config: Adapter.Config, m: VolumeMount, v: Volume)
  {
    && m in MakeReceiveAdapter(args).Pod().containers[0].volumeMounts && v in MakeReceiveAdapter(args).Pod().volumes
    && m.name == v.name
    && v.secret.Some? && v.secret.value.secretName == args.source.spec.awsCredsSecret.name
    && config.credsFile == m.mountPath + "/" + args.source.spec.awsCredsSecret.key
  }

  /**
   The adapter uses a credentials file exactly when the pod mounts one, and then it is the one that it decoded; otherwise the
   pod mounts nothing.
   */
  lemma CredentialsAreMounted(args: Args)
    ensures DecodedMode(args) == Some(Adapter.CredentialsFile) <==>
            exists config, m, v :: Adapter.Construct(Environ(Env(args))) == Ok(config) && Mounted(args, config, m, v)
    ensures DecodedMode(args) != Some(Adapter.CredentialsFile) ==>
              var pod := MakeReceiveAdapter(args).Pod(); pod.volumes == [] && pod.containers[0].volumeMounts == []
  {
    RoundTrip(args);
    EndToEndCredentials(args);
    if UsesSecret(args.source.spec) {
      var pod := MakeReceiveAdapter(args).Pod();
      assert Mounted(args, Intended(args), pod.containers[0].volumeMounts[0], pod.volumes[0]);
    }
  }

  /** The pod asks for the assigned role exactly when its adapter does not use a credentials file. */
  lemma RoleIsRequested(args: Args)
    ensures var annotations := MakeReceiveAdapter(args).spec.template.annotations;
            && ("iam.amazonaws.com/role" in annotations <==> DecodedMode(args) != Some(Adapter.CredentialsFile))
            && (DecodedMode(args) != Some(Adapter.CredentialsFile) ==>
                  annotations["iam.amazonaws.com/role"] == args.source.spec.kiamOptions.assignedIAMRole)
  {
    EndToEndCredentials(args);
  }
}

/** Change detection between pod specs (pkg/reconciler/kinesissource.go:186-199). */
module ChangeDetection {
  import opened Basics
  import opened DeepValue
  import opened KinesisTypes
  import opened Kubernetes
  import opened ReceiveAdapter
  import EncodeDecode
  import Adapter

  /** The verdict "no change": the stored spec derives from the new one, and Env is equal container by container. */
  ghost predicate PodUnchanged(oldPodSpec: PodSpec, newPodSpec: PodSpec)
  {
    && Derives(PodTree(newPodSpec), PodTree(oldPodSpec))
    && |oldPodSpec.containers| == |newPodSpec.containers|
    && forall i | 0 <= i < |newPodSpec.containers| :: SameEnv(newPodSpec.containers[i], oldPodSpec.containers[i])
  }

  predicate SameEnv(c: Container, d: Container)
  {
    SemanticEqual(EnvTree(c.env), EnvTree(d.env))
  }

  method PodSpecChanged(oldPodSpec: PodSpec, newPodSpec: PodSpec) returns (changed: bool)
    ensures changed <==> !PodUnchanged(oldPodSpec, newPodSpec)
  {
    if !Derives(PodTree(newPodSpec), PodTree(oldPodSpec)) {
      return true;
    }
    if |oldPodSpec.containers| != |newPodSpec.containers| {
      return true;
    }
    for i := 0 to |newPodSpec.containers|
      invariant forall j | 0 <= j < i :: SameEnv(newPodSpec.containers[j], oldPodSpec.containers[j])
    {
      if !SemanticEqual(EnvTree(newPodSpec.containers[i].env), EnvTree(oldPodSpec.containers[i].env)) {
        return true;
      }
    }
    return false;
  }

  function Pod(args: Args): PodSpec
  {
    MakeReceiveAdapter(args).Pod()
  }

  /** Two generated environments are equal exactly when the same credentials, stream, region, sink and name went in. */
  lemma EnvInjective(a: Args, b: Args)
    ensures Env(a) == Env(b) <==>
            var s, t := a.source.spec, b.source.spec;
            && UsesSecret(s) == UsesSecret(t)
            && (if UsesSecret(s) then s.awsCredsSecret.key == t.awsCredsSecret.key
                else s.kiamOptions.kclIAMRoleARN == t.kiamOptions.kclIAMRoleARN)
            && s.streamName == t.streamName && s.region == t.region
            && a.sinkURI == b.sinkURI && a.source.name == b.source.name
  {
    if Env(a) == Env(b) {
      EncodeDecode.RoundTrip(a);
      EncodeDecode.RoundTrip(b);
      var prefix := "/var/secrets/aws/";
      var ka, kb := a.source.spec.awsCredsSecret.key, b.source.spec.awsCredsSecret.key;
      assert (prefix + ka)[|prefix|..] == ka && (prefix + kb)[|prefix|..] == kb;
    }
  }

  /** Exactly when a deployment generated from old counts as unchanged against one generated from new. */
  lemma UnchangedOnGenerated(old_: Args, new_: Args)
    ensures PodUnchanged(Pod(old_), Pod(new_)) <==>
            && Env(old_) == Env(new_)
            && (UsesSecret(new_.source.spec) ==>
                  new_.source.spec.awsCredsSecret.name == old_.source.spec.awsCredsSecret.name)
            && (new_.image == "" || new_.image == old_.image)
            && (new_.source.spec.serviceAccountName == "" ||
                new_.source.spec.serviceAccountName == old_.source.spec.serviceAccountName)
  {
    OnePlainContainer(old_);
    OnePlainContainer(new_);
    hide Derives, PodTree, EnvTree, SemanticEqual, PodAgrees, UsesSecret, Pod, Env, SamePodFlags;
    var p, q := Pod(old_), Pod(new_);
    PodDerives(q, p);
    GeneratedFlags(old_, new_);
    EnvInjective(old_, new_);
    PlainEnvEqual(Env(new_), Env(old_));
    assert PodUnchanged(p, q) <==> PodAgrees(q, p) && SameEnv(q.containers[0], p.containers[0]);
    if Env(old_) == Env(new_) {
      SameEnvAgrees(old_, new_);
    }
  }

  lemma OnePlainContainer(args: Args)
    ensures |Pod(args).containers| == 1 && Pod(args).containers[0].env == Env(args)
    ensures Pod(args).serviceAccountName == args.source.spec.serviceAccountName && Pod(args).rest == None
    ensures forall i | 0 <= i < |Env(args)| :: Env(args)[i].rest == None
  {
  }

  lemma GeneratedFlags(a: Args, b: Args)
    ensures SamePodFlags(Pod(b), Pod(a))
  {
  }

  lemma SameContainerAgrees(old_: Args, new_: Args)
    requires Env(old_) == Env(new_) && UsesSecret(old_.source.spec) == UsesSecret(new_.source.spec)
    ensures ContainerAgrees(Pod(new_).containers[0], Pod(old_).containers[0]) <==> StrAgrees(new_.image, old_.image)
  {
    var c, d := Pod(new_).containers[0], Pod(old_).containers[0];
    assert c.env == d.env && c.volumeMounts == d.volumeMounts;
  }

  lemma SameVolumesAgree(old_: Args, new_: Args)
    requires UsesSecret(old_.source.spec) == UsesSecret(new_.source.spec)
    ensures var p, q := Pod(old_), Pod(new_);
            && |q.volumes| == |p.volumes|
            && ((forall i | 0 <= i < |q.volumes| :: VolumeAgrees(q.volumes[i], p.volumes[i])) <==>
                (UsesSecret(new_.source.spec) ==>
                   new_.source.spec.awsCredsSecret.name == old_.source.spec.awsCredsSecret.name))
  {
    if UsesSecret(new_.source.spec) {
      assert VolumeAgrees(Pod(new_).volumes[0], Pod(old_).volumes[0]) <==>
        new_.source.spec.awsCredsSecret.name == old_.source.spec.awsCredsSecret.name;
    }
  }

  lemma SameEnvAgrees(old_: Args, new_: Args)
    requires Env(old_) == Env(new_) && UsesSecret(old_.source.spec) == UsesSecret(new_.source.spec)
    ensures PodAgrees(Pod(new_), Pod(old_)) <==>
            && (UsesSecret(new_.source.spec) ==>
                  new_.source.spec.awsCredsSecret.name == old_.source.spec.awsCredsSecret.name)
            && StrAgrees(new_.image, old_.image)
            && StrAgrees(new_.source.spec.serviceAccountName, old_.source.spec.serviceAccountName)
  {
    OnePlainContainer(old_);
    OnePlainContainer(new_);
    SameContainerAgrees(old_, new_);
    SameVolumesAgree(old_, new_);
    hide ContainerAgrees, VolumeAgrees, StrAgrees, Env, Pod, UsesSecret;
  }

  /** A no-change verdict between generated deployments means adapters that behave the same. */
  lemma UnchangedMeansSameAdapter(old_: Args, new_: Args)
    requires PodUnchanged(Pod(old_), Pod(new_))
    ensures Adapter.Construct(EncodeDecode.Environ(Env(old_))) == Ok(EncodeDecode.Intended(new_))
    ensures UsesSecret(old_.source.spec) == UsesSecret(new_.source.spec)
  {
    UnchangedOnGenerated(old_, new_);
    EnvInjective(old_, new_);
    EncodeDecode.RoundTrip(new_);
  }

  /** The adapter that a pod with one container runs, as its binary decodes it. */
  function RunningConfig(p: PodSpec): Result<Adapter.Config, string>
    requires |p.containers| == 1
  {
    Adapter.Construct(EncodeDecode.Environ(p.containers[0].env))
  }

  /** The file that the configuration names lies in a mount of the volume with the source's secret. */
  predicate MountsSecret(pod: PodSpec, c: Container, secret: SecretKeySelector, file: string)
  {
    exists m, v ::
      && m in c.volumeMounts && v in pod.volumes && m.name == v.name == "aws-credentials"
      && v.secret.Some? && v.secret.value.secretName == secret.name
      && file == m.mountPath + "/" + secret.key
  }

  function Names(env: seq<EnvVar>): seq<string>
  {
    seq(|env|, i requires 0 <= i < |env| => env[i].name)
  }

  /**
   The pod runs the adapter of the source: one container of that name, with the given image, under the source's service
   account; its binary decodes the source's configuration for this sink, and finds its credentials file. An image or a service
   account that is not given is up to the server. The order of the variables matters to the comparison of Env.
   */
  predicate RunsFor(pod: PodSpec, src: KinesisSource, image: string, uri: string)
  {
    && |pod.containers| == 1
    && pod.containers[0].name == "receive-adapter"
    && (image != "" ==> pod.containers[0].image == image)
    && (src.spec.serviceAccountName != "" ==> pod.serviceAccountName == src.spec.serviceAccountName)
    && RunningConfig(pod).Ok?
    && var config := RunningConfig(pod).value;
       && EncodeDecode.Serves(config, src, uri)
       && Names(pod.containers[0].env) ==
          (if config.credsFile != "" then ["AWS_APPLICATION_CREDENTIALS", "STREAM_NAME", "REGION", "SINK_URI", "CONSUMER_NAME"]
           else ["STREAM_NAME", "KCL_IAM_ROLE_ARN", "REGION", "SINK_URI", "CONSUMER_NAME"])
       && (config.credsFile != "" ==> MountsSecret(pod, pod.containers[0], src.spec.awsCredsSecret, config.credsFile))
  }

  /** What agrees with a generated pod spec, flags aside, and has its one container with its Env, runs the adapter. */
  lemma AgreesRuns(stored: PodSpec, args: Args)
    requires PodAgrees(Pod(args), stored) && |stored.containers| == 1 && stored.containers[0].env == Env(args)
    ensures RunsFor(stored, args.source, args.image, args.sinkURI)
  {
    EncodeDecode.RoundTrip(args);
    hide EncodeDecode.Environ;
    assert ContainerAgrees(Pod(args).containers[0], stored.containers[0]);
    if UsesSecret(args.source.spec) {
      var m, v := stored.containers[0].volumeMounts[0], stored.volumes[0];
      assert VolumeMountAgrees(Pod(args).containers[0].volumeMounts[0], m) && VolumeAgrees(Pod(args).volumes[0], v);
      assert m in stored.containers[0].volumeMounts && v in stored.volumes;
    }
  }

  /** Whatever is stored, and by whomever: if it counts as unchanged, it runs the intended adapter. */
  lemma UnchangedRunsAsIntended(stored: PodSpec, args: Args)
    requires PodUnchanged(stored, Pod(args))
    ensures RunsFor(stored, args.source, args.image, args.sinkURI)
    ensures stored.containers[0].env == Env(args)
  {
    assert SameEnv(Pod(args).containers[0], stored.containers[0]);
    PlainEnvEqual(Env(args), stored.containers[0].env);
    PodDerives(Pod(args), stored);
    AgreesRuns(stored, args);
    hide PodAgrees, RunsFor, PodTree, Derives, SemanticEqual;
  }

  // ----- Arbitrary stored specs -----

  /** A copy of a pod spec with another Env for container i. */
  function WithEnv(p: PodSpec, i: nat, env: seq<EnvVar>): PodSpec
    requires i < |p.containers|
  {
    p.(containers := p.containers[i := p.containers[i].(env := env)])
  }

  lemma SelfAgrees(p: PodSpec)
    ensures PodAgrees(p, p) && SamePodFlags(p, p)
  {
    DerivesReflexive(PodTree(p));
    PodDerives(p, p);
  }

  /** The derivative order alone would miss variables that the new spec no longer has; the Env comparison catches them. */
  lemma OrderMissesRemovedVariables(p: PodSpec, i: nat, k: nat)
    requires i < |p.containers| && k < |p.containers[i].env|
    ensures var shorter := WithEnv(p, i, p.containers[i].env[..k]);
            Derives(PodTree(shorter), PodTree(p)) && !PodUnchanged(p, shorter)
  {
    var env := p.containers[i].env;
    var shorter := WithEnv(p, i, env[..k]);
    SelfAgrees(p);
    PodDerives(shorter, p);
    hide Derives, PodTree, EnvVarTree;
    assert ContainerAgrees(p.containers[i], p.containers[i]);
    assert PodAgrees(shorter, p);
    assert shorter.containers[i].env == env[..k];
    assert !SameEnv(shorter.containers[i], p.containers[i]);
  }

  /** It would miss containers that the new spec does not have; the comparison of their number catches them. */
  lemma OrderMissesExtraContainers(p: PodSpec, k: nat)
    requires k < |p.containers|
    ensures var fewer := p.(containers := p.containers[..k]);
            Derives(PodTree(fewer), PodTree(p)) && !PodUnchanged(p, fewer)
  {
    var fewer := p.(containers := p.containers[..k]);
    SelfAgrees(p);
    PodDerives(fewer, p);
    hide Derives, PodTree, ContainerAgrees, SameFlags;
    assert PodAgrees(fewer, p) && SamePodFlags(fewer, p);
  }

  /** It would miss one whose value was cleared as well. */
  lemma OrderMissesClearedVariable(p: PodSpec, i: nat, k: nat)
    requires i < |p.containers| && k < |p.containers[i].env|
    ensures var env := p.containers[i].env;
            var cleared := WithEnv(p, i, env[k := env[k].(value := "")]);
            Derives(PodTree(cleared), PodTree(p)) && (PodUnchanged(p, cleared) <==> env[k].value == "")
  {
    var env := p.containers[i].env;
    var cleared := WithEnv(p, i, env[k := env[k].(value := "")]);
    SelfAgrees(p);
    PodDerives(cleared, p);
    UnchangedPreorder(p, p, p);
    hide Derives, PodTree;
    assert ContainerAgrees(p.containers[i], p.containers[i]);
    assert PodAgrees(cleared, p);
    if env[k].value == "" {
      assert env[k := env[k].(value := "")] == env;
      assert cleared == p by { assert p.containers[i := p.containers[i].(env := env)] == p.containers; }
    } else {
      var x, y := EnvTree(cleared.containers[i].env).elems, EnvTree(env).elems;
      assert !SemanticEqual(x[k].fields[1], y[k].fields[1]);
      assert !SemanticEqual(x[k], y[k]);
      assert !SameEnv(cleared.containers[i], p.containers[i]);
    }
  }

  /**
   No change is a preorder: what was written and not touched since is never written again. Two specs that are unchanged
   from each other differ in nil against empty at most.
   */
  lemma UnchangedPreorder(a: PodSpec, b: PodSpec, c: PodSpec)
    ensures PodUnchanged(a, a)
    ensures PodUnchanged(a, b) && PodUnchanged(b, c) ==> PodUnchanged(a, c)
    ensures PodUnchanged(a, b) && PodUnchanged(b, a) ==> SemanticEqual(PodTree(a), PodTree(b))
  {
    DerivesReflexive(PodTree(a));
    forall i | 0 <= i < |a.containers| ensures SameEnv(a.containers[i], a.containers[i]) {
      SemanticEqualReflexive(EnvTree(a.containers[i].env));
    }
    if PodUnchanged(a, b) && PodUnchanged(b, c) {
      DerivesTransitive(PodTree(c), PodTree(b), PodTree(a));
      forall i | 0 <= i < |a.containers| ensures SameEnv(c.containers[i], a.containers[i]) {
        assert SameEnv(c.containers[i], b.containers[i]) && SameEnv(b.containers[i], a.containers[i]);
        SemanticEqualTransitive(EnvTree(c.containers[i].env), EnvTree(b.containers[i].env), EnvTree(a.containers[i].env));
      }
    }
    if PodUnchanged(a, b) && PodUnchanged(b, a) {
      DerivesBothWays(PodTree(a), PodTree(b));
    }
  }

  /**
   What a filling server stores for a spec counts as that spec, unchanged, exactly when it stores all flags as they were
   sent: a flag is never taken for unset.
   */
  lemma StoredUnchangedIff(sent: PodSpec, stored: PodSpec)
    requires ServerFills(sent, stored)
    ensures PodUnchanged(stored, sent) <==> SamePodFlags(sent, stored)
  {
    PodDerives(sent, stored);
    forall i | 0 <= i < |sent.containers| ensures SameEnv(sent.containers[i], stored.containers[i]) {
      SemanticEqualReflexive(EnvTree(sent.containers[i].env));
    }
    hide PodAgrees, SamePodFlags, PodTree, Derives;
  }

  /** Whether it counts as unchanged or not, it runs the intended adapter. */
  lemma StoredRunsAsIntended(args: Args, stored: PodSpec)
    requires ServerFills(Pod(args), stored)
    ensures RunsFor(stored, args.source, args.image, args.sinkURI)
  {
    AgreesRuns(stored, args);
    hide PodAgrees, RunsFor;
  }

  /** What a filling server stores for a generated spec counts as unchanged exactly if it sets no flag. */
  lemma UnchangedIffNoFlag(args: Args, stored: PodSpec)
    requires ServerFills(Pod(args), stored)
    ensures PodUnchanged(stored, Pod(args)) <==>
            && !stored.host.network && !stored.host.pid && !stored.host.ipc
            && var c := stored.containers[0];
               && !c.tty.stdin && !c.tty.stdinOnce && !c.tty.tty
               && (args.source.spec.awsCredsSecret.name != "" && args.source.spec.awsCredsSecret.key != "" ==>
                     !c.volumeMounts[0].readOnly)
  {
    hide PodUnchanged;
    StoredUnchangedIff(Pod(args), stored);
    var c, d := Pod(args).containers[0], stored.containers[0];
    assert ContainerAgrees(c, d);
    assert SamePodFlags(Pod(args), stored) <==> stored.host == OWN_HOST && SameFlags(c, d);
    if UsesSecret(args.source.spec) {
      assert SameFlags(c, d) <==> d.tty == NO_TTY && d.volumeMounts[0].readOnly == c.volumeMounts[0].readOnly;
    }
  }

  /** Any generated spec stored with one more flag runs the intended adapter, and counts as changed all the same. */
  lemma FlagCountsAsChange(args: Args) returns (stored: PodSpec)
    ensures ServerFills(Pod(args), stored) && !PodUnchanged(stored, Pod(args))
  {
    var sent := Pod(args);
    stored := sent.(host := sent.host.(network := true));
    ServerFillsItself(sent);
    assert ServerFills(sent, stored);
    StoredUnchangedIff(sent, stored);
  }
}
