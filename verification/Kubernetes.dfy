/**
 The Kubernetes objects the controller reads and writes. Named are the fields that the controller sets, and the plain
 booleans (flags) beside them, which no comparison takes for unset. All other fields of the API types can be unset; they
 are one optional value (rest), which the controller leaves unset. A nil slice and an empty one are the same empty
 sequence here: both comparisons of DeepValue treat them alike on the side where the controller produces them.
 */
module Kubernetes {
  import opened Basics
  import opened DeepValue

  datatype EnvVar = EnvVar(name: string, value: string, rest: Option<Value>)

  datatype VolumeMount = VolumeMount(name: string, mountPath: string, readOnly: bool, rest: Option<Value>)

  datatype Tty = Tty(stdin: bool, stdinOnce: bool, tty: bool)

  datatype Container = Container(
    name: string, image: string, env: seq<EnvVar>, volumeMounts: seq<VolumeMount>, tty: Tty, rest: Option<Value>)

  datatype SecretVolumeSource = SecretVolumeSource(secretName: string, rest: Option<Value>)

  datatype Volume = Volume(name: string, secret: Option<SecretVolumeSource>, rest: Option<Value>)

  datatype Host = Host(network: bool, pid: bool, ipc: bool)

  datatype PodSpec = PodSpec(
    serviceAccountName: string, containers: seq<Container>, volumes: seq<Volume>, host: Host, rest: Option<Value>)

  /** No flag set. */
  const NO_TTY := Tty(false, false, false)
  const OWN_HOST := Host(false, false, false)

  type Labels = map<string, string>

  datatype PodTemplate = PodTemplate(annotations: map<string, string>, labels: Labels, spec: PodSpec)

  datatype DeploymentSpec = DeploymentSpec(selector: Labels, replicas: int, template: PodTemplate)

  /** controller is the UID in the owner reference whose Controller flag is set, if there is one. */
  datatype Deployment = Deployment(
    namespace: string, generateName: string, labels: Labels, controller: Option<string>, spec: DeploymentSpec)
  {
    function Pod(): PodSpec { spec.template.spec }

    function WithPod(pod: PodSpec): Deployment
    {
      this.(spec := spec.(template := spec.template.(spec := pod)))
    }
  }

  /** Everything about a deployment except its pod spec. */
  predicate SameFrame(d: Deployment, d': Deployment)
  {
    d' == d.WithPod(d'.Pod())
  }

  // ----- The value trees that the two comparisons walk -----

  function RestTree(rest: Option<Value>): Value
  {
    match rest case None => NilPtr case Some(v) => Ptr(v)
  }

  function EnvVarTree(e: EnvVar): Value
  {
    Struct([Str(e.name), Str(e.value), RestTree(e.rest)])
  }

  function EnvTree(env: seq<EnvVar>): Value
  {
    Slice(seq(|env|, i requires 0 <= i < |env| => EnvVarTree(env[i])))
  }

  function VolumeMountTree(m: VolumeMount): Value
  {
    Struct([Str(m.name), Str(m.mountPath), Bool(m.readOnly), RestTree(m.rest)])
  }

  function MountsTree(ms: seq<VolumeMount>): Value
  {
    Slice(seq(|ms|, i requires 0 <= i < |ms| => VolumeMountTree(ms[i])))
  }

  function TtyTree(t: Tty): Value
  {
    Struct([Bool(t.stdin), Bool(t.stdinOnce), Bool(t.tty)])
  }

  function HostTree(h: Host): Value
  {
    Struct([Bool(h.network), Bool(h.pid), Bool(h.ipc)])
  }

  function ContainerTree(c: Container): Value
  {
    Struct([Str(c.name), Str(c.image),
            EnvTree(c.env),
            MountsTree(c.volumeMounts),
            TtyTree(c.tty),
            RestTree(c.rest)])
  }

  function SecretTree(s: Option<SecretVolumeSource>): Value
  {
    match s
    case None => NilPtr
    case Some(x) => Ptr(Struct([Str(x.secretName), RestTree(x.rest)]))
  }

  function VolumeTree(v: Volume): Value
  {
    Struct([Str(v.name), SecretTree(v.secret), RestTree(v.rest)])
  }

  function ContainersTree(cs: seq<Container>): Value
  {
    Slice(seq(|cs|, i requires 0 <= i < |cs| => ContainerTree(cs[i])))
  }

  function VolumesTree(vs: seq<Volume>): Value
  {
    Slice(seq(|vs|, i requires 0 <= i < |vs| => VolumeTree(vs[i])))
  }

  function PodTree(p: PodSpec): Value
  {
    Struct([Str(p.serviceAccountName),
            ContainersTree(p.containers),
            VolumesTree(p.volumes),
            HostTree(p.host),
            RestTree(p.rest)])
  }

  /** Env entries without further fields are equal to the comparison exactly when they are equal. */
  lemma PlainEnvEqual(a: seq<EnvVar>, b: seq<EnvVar>)
    requires forall i | 0 <= i < |a| :: a[i].rest == None
    ensures SemanticEqual(EnvTree(a), EnvTree(b)) <==> a == b
  {
    var x, y := EnvTree(a).elems, EnvTree(b).elems;
    if SemanticEqual(EnvTree(a), EnvTree(b)) {
      forall i | 0 <= i < |a| ensures a[i] == b[i] {
        assert SemanticEqual(x[i], y[i]);
        var f, g := x[i].fields, y[i].fields;
        assert SemanticEqual(f[0], g[0]) && SemanticEqual(f[1], g[1]) && SemanticEqual(f[2], g[2]);
      }
    }
    if a == b {
      SemanticEqualReflexive(EnvTree(a));
    }
  }

  // ----- The derivative order on each kind of object, read off its tree -----

  predicate StrAgrees(a: string, b: string) { a == "" || a == b }

  predicate RestAgrees(a: Option<Value>, b: Option<Value>)
  {
    a.Some? ==> b.Some? && Derives(a.value, b.value)
  }

  lemma StrDerives(a: string, b: string)
    ensures Derives(Str(a), Str(b)) <==> StrAgrees(a, b)
  {
  }

  lemma RestDerives(a: Option<Value>, b: Option<Value>)
    ensures Derives(RestTree(a), RestTree(b)) <==> RestAgrees(a, b)
  {
  }

  lemma StructDerives(x: seq<Value>, y: seq<Value>)
    requires |x| == |y|
    ensures Derives(Struct(x), Struct(y)) <==> forall i | 0 <= i < |x| :: Derives(x[i], y[i])
  {
  }

  predicate EnvVarAgrees(a: EnvVar, b: EnvVar)
  {
    StrAgrees(a.name, b.name) && StrAgrees(a.value, b.value) && RestAgrees(a.rest, b.rest)
  }

  lemma EnvVarDerives(a: EnvVar, b: EnvVar)
    ensures Derives(EnvVarTree(a), EnvVarTree(b)) <==> EnvVarAgrees(a, b)
  {
    var x, y := EnvVarTree(a).fields, EnvVarTree(b).fields;
    assert Derives(Struct(x), Struct(y)) <==> Derives(x[0], y[0]) && Derives(x[1], y[1]) && Derives(x[2], y[2]);
  }

  /** Everything but the flag. */
  predicate VolumeMountAgrees(a: VolumeMount, b: VolumeMount)
  {
    StrAgrees(a.name, b.name) && StrAgrees(a.mountPath, b.mountPath) && RestAgrees(a.rest, b.rest)
  }

  lemma VolumeMountDerives(a: VolumeMount, b: VolumeMount)
    ensures Derives(VolumeMountTree(a), VolumeMountTree(b)) <==> VolumeMountAgrees(a, b) && a.readOnly == b.readOnly
  {
    var x, y := VolumeMountTree(a).fields, VolumeMountTree(b).fields;
    assert Derives(Struct(x), Struct(y)) <==>
      Derives(x[0], y[0]) && Derives(x[1], y[1]) && Derives(x[2], y[2]) && Derives(x[3], y[3]);
  }

  predicate SecretAgrees(a: Option<SecretVolumeSource>, b: Option<SecretVolumeSource>)
  {
    a.Some? ==> b.Some? && StrAgrees(a.value.secretName, b.value.secretName) && RestAgrees(a.value.rest, b.value.rest)
  }

  predicate VolumeAgrees(a: Volume, b: Volume)
  {
    StrAgrees(a.name, b.name) && SecretAgrees(a.secret, b.secret) && RestAgrees(a.rest, b.rest)
  }

  lemma VolumeDerives(a: Volume, b: Volume)
    ensures Derives(VolumeTree(a), VolumeTree(b)) <==> VolumeAgrees(a, b)
  {
    var x, y := VolumeTree(a).fields, VolumeTree(b).fields;
    assert Derives(Struct(x), Struct(y)) <==> Derives(x[0], y[0]) && Derives(x[1], y[1]) && Derives(x[2], y[2]);
    if a.secret.Some? && b.secret.Some? {
      var f, g := x[1].target.fields, y[1].target.fields;
      assert Derives(Struct(f), Struct(g)) <==> Derives(f[0], g[0]) && Derives(f[1], g[1]);
    }
  }

  /** Everything but the flags of the container and of its mounts. */
  predicate ContainerAgrees(a: Container, b: Container)
  {
    && StrAgrees(a.name, b.name)
    && StrAgrees(a.image, b.image)
    && |a.env| <= |b.env|
    && (forall i | 0 <= i < |a.env| :: EnvVarAgrees(a.env[i], b.env[i]))
    && |a.volumeMounts| <= |b.volumeMounts|
    && (forall i | 0 <= i < |a.volumeMounts| :: VolumeMountAgrees(a.volumeMounts[i], b.volumeMounts[i]))
    && RestAgrees(a.rest, b.rest)
  }

  predicate SameFlags(a: Container, b: Container)
  {
    && a.tty == b.tty
    && forall i | 0 <= i < |a.volumeMounts| && i < |b.volumeMounts| :: a.volumeMounts[i].readOnly == b.volumeMounts[i].readOnly
  }

  lemma EnvDerives(a: seq<EnvVar>, b: seq<EnvVar>)
    ensures Derives(EnvTree(a), EnvTree(b)) <==> |a| <= |b| && forall i | 0 <= i < |a| :: EnvVarAgrees(a[i], b[i])
  {
    forall i | 0 <= i < |a| && i < |b|
      ensures Derives(EnvTree(a).elems[i], EnvTree(b).elems[i]) <==> EnvVarAgrees(a[i], b[i])
    {
      EnvVarDerives(a[i], b[i]);
    }
    hide EnvVarTree, EnvVarAgrees;
  }

  lemma MountsDerive(a: seq<VolumeMount>, b: seq<VolumeMount>)
    ensures Derives(MountsTree(a), MountsTree(b)) <==>
            |a| <= |b| && forall i | 0 <= i < |a| :: VolumeMountAgrees(a[i], b[i]) && a[i].readOnly == b[i].readOnly
  {
    forall i | 0 <= i < |a| && i < |b|
      ensures Derives(MountsTree(a).elems[i], MountsTree(b).elems[i]) <==>
              VolumeMountAgrees(a[i], b[i]) && a[i].readOnly == b[i].readOnly
    {
      VolumeMountDerives(a[i], b[i]);
    }
    hide VolumeMountTree, VolumeMountAgrees;
  }

  lemma FlagsDerive(a0: bool, a1: bool, a2: bool, b0: bool, b1: bool, b2: bool)
    ensures Derives(Struct([Bool(a0), Bool(a1), Bool(a2)]), Struct([Bool(b0), Bool(b1), Bool(b2)])) <==>
            a0 == b0 && a1 == b1 && a2 == b2
  {
    var x, y := [Bool(a0), Bool(a1), Bool(a2)], [Bool(b0), Bool(b1), Bool(b2)];
    assert Derives(Struct(x), Struct(y)) <==> Derives(x[0], y[0]) && Derives(x[1], y[1]) && Derives(x[2], y[2]);
  }

  lemma ContainerDerives(a: Container, b: Container)
    ensures Derives(ContainerTree(a), ContainerTree(b)) <==> ContainerAgrees(a, b) && SameFlags(a, b)
  {
    hide Derives, EnvVarAgrees, VolumeMountAgrees, EnvTree, MountsTree, RestTree, RestAgrees, StrAgrees;
    StrDerives(a.name, b.name);
    StrDerives(a.image, b.image);
    EnvDerives(a.env, b.env);
    MountsDerive(a.volumeMounts, b.volumeMounts);
    FlagsDerive(a.tty.stdin, a.tty.stdinOnce, a.tty.tty, b.tty.stdin, b.tty.stdinOnce, b.tty.tty);
    RestDerives(a.rest, b.rest);
    var x, y := ContainerTree(a).fields, ContainerTree(b).fields;
    StructDerives(x, y);
    assert Derives(Struct(x), Struct(y)) <==>
      && Derives(x[0], y[0]) && Derives(x[1], y[1]) && Derives(x[2], y[2])
      && Derives(x[3], y[3]) && Derives(x[4], y[4]) && Derives(x[5], y[5]);
  }

  /** b agrees with everything that a sets, flags aside. */
  predicate PodAgrees(a: PodSpec, b: PodSpec)
  {
    && StrAgrees(a.serviceAccountName, b.serviceAccountName)
    && |a.containers| <= |b.containers|
    && (forall i | 0 <= i < |a.containers| :: ContainerAgrees(a.containers[i], b.containers[i]))
    && |a.volumes| <= |b.volumes|
    && (forall i | 0 <= i < |a.volumes| :: VolumeAgrees(a.volumes[i], b.volumes[i]))
    && RestAgrees(a.rest, b.rest)
  }

  /** The flags of the pod, its containers and their mounts are the same, as far as a has these. */
  predicate SamePodFlags(a: PodSpec, b: PodSpec)
  {
    && a.host == b.host
    && forall i | 0 <= i < |a.containers| && i < |b.containers| :: SameFlags(a.containers[i], b.containers[i])
  }

  lemma ContainersDerive(a: seq<Container>, b: seq<Container>)
    ensures Derives(ContainersTree(a), ContainersTree(b)) <==>
            |a| <= |b| && forall i | 0 <= i < |a| :: ContainerAgrees(a[i], b[i]) && SameFlags(a[i], b[i])
  {
    forall i | 0 <= i < |a| && i < |b|
      ensures Derives(ContainersTree(a).elems[i], ContainersTree(b).elems[i]) <==>
              ContainerAgrees(a[i], b[i]) && SameFlags(a[i], b[i])
    {
      ContainerDerives(a[i], b[i]);
    }
    hide ContainerTree, ContainerAgrees, SameFlags;
  }

  lemma VolumesDerive(a: seq<Volume>, b: seq<Volume>)
    ensures Derives(VolumesTree(a), VolumesTree(b)) <==> |a| <= |b| && forall i | 0 <= i < |a| :: VolumeAgrees(a[i], b[i])
  {
    forall i | 0 <= i < |a| && i < |b|
      ensures Derives(VolumesTree(a).elems[i], VolumesTree(b).elems[i]) <==> VolumeAgrees(a[i], b[i])
    {
      VolumeDerives(a[i], b[i]);
    }
    hide VolumeTree, VolumeAgrees;
  }

  /** The derivative order on pod specs, field by field: what a leaves unset is ignored, but no flag is. */
  lemma PodDerives(a: PodSpec, b: PodSpec)
    ensures Derives(PodTree(a), PodTree(b)) <==> PodAgrees(a, b) && SamePodFlags(a, b)
  {
    hide Derives, ContainerAgrees, VolumeAgrees, SameFlags, ContainersTree, VolumesTree, RestTree, RestAgrees,
      StrAgrees;
    StrDerives(a.serviceAccountName, b.serviceAccountName);
    ContainersDerive(a.containers, b.containers);
    VolumesDerive(a.volumes, b.volumes);
    FlagsDerive(a.host.network, a.host.pid, a.host.ipc, b.host.network, b.host.pid, b.host.ipc);
    RestDerives(a.rest, b.rest);
    var x, y := PodTree(a).fields, PodTree(b).fields;
    StructDerives(x, y);
    assert Derives(Struct(x), Struct(y)) <==>
      Derives(x[0], y[0]) && Derives(x[1], y[1]) && Derives(x[2], y[2]) && Derives(x[3], y[3]) && Derives(x[4], y[4]);
  }

  // ----- The server -----

  /**
   What a server that fills in fields, and leaves Env and the number of containers alone, may store when it is sent a pod
   spec: it keeps everything that the spec sets. A flag is set if it is true, so one that is false may be stored as true.
   */
  predicate ServerFills(sent: PodSpec, stored: PodSpec)
  {
    && PodAgrees(sent, stored)
    && |stored.containers| == |sent.containers|
    && (forall i | 0 <= i < |sent.containers| :: stored.containers[i].env == sent.containers[i].env)
    && KeepsSetFlags(sent, stored)
  }

  predicate KeepsSetFlags(sent: PodSpec, stored: PodSpec)
  {
    && (sent.host.network ==> stored.host.network) && (sent.host.pid ==> stored.host.pid)
    && (sent.host.ipc ==> stored.host.ipc)
    && forall i | 0 <= i < |sent.containers| && i < |stored.containers| ::
         var c, d := sent.containers[i], stored.containers[i];
         && (c.tty.stdin ==> d.tty.stdin) && (c.tty.stdinOnce ==> d.tty.stdinOnce) && (c.tty.tty ==> d.tty.tty)
         && forall j | 0 <= j < |c.volumeMounts| && j < |d.volumeMounts| ::
              c.volumeMounts[j].readOnly ==> d.volumeMounts[j].readOnly
  }

  lemma ServerFillsItself(p: PodSpec)
    ensures ServerFills(p, p)
  {
    DerivesReflexive(PodTree(p));
    PodDerives(p, p);
    hide PodAgrees, PodTree, SamePodFlags;
  }
}
