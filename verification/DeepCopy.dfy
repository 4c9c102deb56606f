/**
 Deep copies of sources and lists of sources (pkg/apis/sources/v1alpha1/zz_generated.deepcopy.go). Structs that Go
 embeds are values here, and what Go reaches through a pointer or a slice is a heap object, so that an assignment of a
 struct shares its objects, as it does in Go.
 */
module DeepCopy {
  import opened Basics
  import opened KinesisTypes

  /** A corev1.ObjectReference on the heap. */
  class Reference {
    var value: ObjectReference

    constructor (value: ObjectReference)
      ensures this.value == value
    {
      this.value := value;
    }
  }

  datatype SpecStruct = SpecStruct(
    streamName: string,
    region: string,
    awsCredsSecret: SecretKeySelector,
    kiamOptions: KiamOptions,
    sink: Reference?,
    serviceAccountName: string)

  datatype Condition = Condition(kind: ConditionType, status: ConditionStatus)

  datatype StatusStruct = StatusStruct(conditions: array?<Condition>, sinkURI: string)

  datatype SourceStruct = SourceStruct(
    namespace: string,
    name: string,
    uid: string,
    finalizers: array?<string>,
    spec: SpecStruct,
    status: StatusStruct)

  class SourceList {
    var apiVersion: string
    var resourceVersion: string
    var items: array?<SourceStruct>

    constructor (apiVersion: string, resourceVersion: string, items: array?<SourceStruct>)
      ensures this.apiVersion == apiVersion && this.resourceVersion == resourceVersion && this.items == items
    {
      this.apiVersion, this.resourceVersion, this.items := apiVersion, resourceVersion, items;
    }
  }

  // ----- Reachable objects and structural value -----

  function ArrayObjects<T>(a: array?<T>): set<object>
  {
    if a == null then {} else {a}
  }

  function SinkObjects(sink: Reference?): set<object>
  {
    if sink == null then {} else {sink}
  }

  /** The mutable objects behind a struct. */
  function Objects(s: SourceStruct): set<object>
  {
    ArrayObjects(s.finalizers) + SinkObjects(s.spec.sink) + ArrayObjects(s.status.conditions)
  }

  ghost function AllObjects(ss: seq<SourceStruct>): set<object>
  {
    set i, o | 0 <= i < |ss| && o in Objects(ss[i]) :: o
  }

  /** Everything that a list can change. */
  ghost function Reach(list: SourceList): set<object>
    reads list, list.items
  {
    {list} + ArrayObjects(list.items) + (if list.items == null then {} else AllObjects(list.items[..]))
  }

  datatype SourceValue = SourceValue(
    namespace: string,
    name: string,
    uid: string,
    finalizers: Option<seq<string>>,
    spec: KinesisSourceSpec,
    conditions: Option<seq<Condition>>,
    sinkURI: string)

  function ArrayValue<T>(a: array?<T>): Option<seq<T>>
    reads a
  {
    if a == null then None else Some(a[..])
  }

  function SpecValue(s: SpecStruct): KinesisSourceSpec
    reads s.sink
  {
    KinesisSourceSpec(s.streamName, s.region, s.awsCredsSecret, s.kiamOptions,
                      if s.sink == null then None else Some(s.sink.value), s.serviceAccountName)
  }

  function Value(s: SourceStruct): SourceValue
    reads Objects(s)
  {
    SourceValue(s.namespace, s.name, s.uid, ArrayValue(s.finalizers), SpecValue(s.spec),
                ArrayValue(s.status.conditions), s.status.sinkURI)
  }

  ghost function Values(ss: seq<SourceStruct>): seq<SourceValue>
    reads AllObjects(ss)
  {
    seq(|ss|, i requires 0 <= i < |ss| reads AllObjects(ss) => assert forall o | o in Objects(ss[i]) :: o in AllObjects(ss); Value(ss[i]))
  }

  datatype ListValue = ListValue(apiVersion: string, resourceVersion: string, items: Option<seq<SourceValue>>)

  ghost function ValueOfList(list: SourceList): ListValue
    reads Reach(list)
  {
    ListValue(list.apiVersion, list.resourceVersion, if list.items == null then None else Some(Values(list.items[..])))
  }

  predicate SameArray<T(==)>(a: array?<T>, b: array?<T>)
    reads a, b
  {
    if a == null || b == null then a == b else a[..] == b[..]
  }

  /** Two sources have the same value exactly if all their fields agree, and what they point to. */
  lemma SameValueIff(s: SourceStruct, t: SourceStruct)
    ensures Value(s) == Value(t) <==>
            && s.namespace == t.namespace && s.name == t.name && s.uid == t.uid
            && SameArray(s.finalizers, t.finalizers)
            && s.spec.(sink := null) == t.spec.(sink := null)
            && (if s.spec.sink == null || t.spec.sink == null then s.spec.sink == t.spec.sink
                else s.spec.sink.value == t.spec.sink.value)
            && SameArray(s.status.conditions, t.status.conditions) && s.status.sinkURI == t.status.sinkURI
  {
  }

  /** Two lists do exactly if their metadata agree, and they have the same items, one by one. */
  lemma SameListIff(a: SourceList, b: SourceList)
    ensures ValueOfList(a) == ValueOfList(b) <==>
            && a.apiVersion == b.apiVersion && a.resourceVersion == b.resourceVersion
            && (a.items == null <==> b.items == null)
            && (a.items != null && b.items != null ==>
                  && a.items.Length == b.items.Length
                  && forall i | 0 <= i < a.items.Length :: Value(a.items[i]) == Value(b.items[i]))
  {
    hide Value, Objects;
    if a.items != null && b.items != null {
      var xs, ys := Values(a.items[..]), Values(b.items[..]);
      assert |xs| == a.items.Length && |ys| == b.items.Length;
      assert forall i | 0 <= i < |xs| :: xs[i] == Value(a.items[..][i]);
      assert forall i | 0 <= i < |ys| :: ys[i] == Value(b.items[..][i]);
      if a.items.Length == b.items.Length && forall i | 0 <= i < a.items.Length :: Value(a.items[i]) == Value(b.items[i]) {
        assert xs == ys;
      }
      if xs == ys {
        forall i | 0 <= i < a.items.Length ensures Value(a.items[i]) == Value(b.items[i]) {
          assert xs[i] == ys[i];
        }
      }
    }
  }

  // ----- The generated methods -----

  method CopyArray<T>(a: array?<T>) returns (r: array?<T>)
    ensures a == null <==> r == null
    ensures a != null ==> fresh(r) && r[..] == a[..]
  {
    if a == null {
      return null;
    }
    r := new T[a.Length](i requires 0 <= i < a.Length reads a => a[i]);
    assert r[..] == a[..];
  }

  method CopySpec(s: SpecStruct) returns (out: SpecStruct)
    ensures SpecValue(out) == SpecValue(s)
    ensures out.sink != null ==> fresh(out.sink)
  {
    out := s;
    if s.sink != null {
      var sink := new Reference(s.sink.value);
      out := out.(sink := sink);
    }
  }

  /** Copies one source into slot i: first the struct as it is, sharing its objects, then a copy of each of them. */
  method CopySourceInto(s: SourceStruct, out: array<SourceStruct>, i: nat)
    requires i < out.Length && out !in Objects(s)
    modifies out
    ensures out[..] == old(out[..])[i := out[i]]
    ensures fresh(Objects(out[i])) && Value(out[i]) == Value(s) && Value(s) == old(Value(s))
  {
    out[i] := s;
    var finalizers := CopyArray(s.finalizers);
    out[i] := out[i].(finalizers := finalizers);
    var spec := CopySpec(s.spec);
    out[i] := out[i].(spec := spec);
    var conditions := CopyArray(s.status.conditions);
    out[i] := out[i].(status := out[i].status.(conditions := conditions));
  }

  /** No object is reachable from two items. */
  ghost predicate Separated(ss: seq<SourceStruct>)
  {
    forall i, j | 0 <= i < j < |ss| :: Objects(ss[i]) !! Objects(ss[j])
  }

  /** The structs have the given values, their objects are among made, and no two of them share one. */
  ghost predicate Copied(ss: seq<SourceStruct>, values: seq<SourceValue>, made: set<object>)
    reads AllObjects(ss)
  {
    && Values(ss) == values
    && AllObjects(ss) <= made
    && Separated(ss)
  }

  lemma CopiedOneMore(ss: seq<SourceStruct>, values: seq<SourceValue>, made: set<object>, s: SourceStruct)
    requires Copied(ss, values, made) && Objects(s) !! made
    ensures Copied(ss + [s], values + [Value(s)], made + Objects(s))
    ensures AllObjects(ss + [s]) <= made + Objects(s)
  {
    hide Objects, Value;
    var tt := ss + [s];
    assert forall i | 0 <= i < |ss| :: Values(ss)[i] == Value(ss[i]) && Objects(ss[i]) <= AllObjects(ss);
    assert Values(tt) == Values(ss) + [Value(s)];
  }

  /** One turn of the loop below: copies item i behind the i copies that are there already. */
  method CopyNext(items: array<SourceStruct>, out: array<SourceStruct>, i: nat, ghost values: seq<SourceValue>, ghost made: set<object>)
    requires items != out && i < items.Length == out.Length
    requires out !in made && out !in Objects(items[i])
    requires AllObjects(out[..i]) <= made && Copied(out[..i], values, made)
    modifies out
    ensures Copied(out[..i + 1], values + [old(Value(items[i]))], made + Objects(out[i]))
    ensures AllObjects(out[..i + 1]) <= made + Objects(out[i])
    ensures fresh(Objects(out[i]))
  {
    hide Objects, Value, AllObjects, Copied;
    ghost var before := out[..i];
    CopySourceInto(items[i], out, i);
    assert out[..i] == before;
    CopiedOneMore(before, values, made, out[i]);
    assert out[..i + 1] == before + [out[i]];
  }

  /** Fills a new array with copies, from the first item to the last. */
  method CopyAll(items: array<SourceStruct>, out: array<SourceStruct>)
    requires items != out && items.Length == out.Length && out !in AllObjects(items[..])
    modifies out
    ensures fresh(AllObjects(out[..])) && Separated(out[..])
    ensures Values(out[..]) == old(Values(items[..]))
  {
    ghost var originals := items[..];
    ObjectsAllocated(originals);
    ghost var values := Values(originals);
    ghost var made: set<object> := {};
    assert |values| == items.Length;
    CopiedNone();
    hide Objects, Value, AllObjects, Values, Separated, Copied;
    assert out[..0] == [];
    for i := 0 to items.Length
      invariant fresh(made) && out !in made
      invariant items[..] == originals && Values(originals) == values
      invariant forall o | o in AllObjects(originals) :: allocated(o) && o != out
      invariant AllObjects(out[..i]) <= made && Copied(out[..i], values[..i], made)
    {
      ValuesAt(originals, i);
      CopyNext(items, out, i, values[..i], made);
      assert values[..i + 1] == values[..i] + [values[i]];
      made := made + Objects(out[i]);
    }
    assert out[..items.Length] == out[..] && values[..items.Length] == values;
    CopiedMeans(out[..], values, made);
  }

  method CopyItems(items: array<SourceStruct>) returns (out: array<SourceStruct>)
    ensures fresh(out) && fresh(AllObjects(out[..]))
    ensures Values(out[..]) == Values(items[..])
    ensures Separated(out[..])
  {
    ObjectsAllocated(items[..]);
    hide Objects, Value, AllObjects, Values, Separated;
    var blank := SourceStruct("", "", "", null, SpecStruct("", "", SecretKeySelector("", ""), KiamOptions("", ""), null, ""), StatusStruct(null, ""));
    out := new SourceStruct[items.Length](_ => blank);
    CopyAll(items, out);
  }

  lemma CopiedNone()
    ensures Copied([], [], {}) && AllObjects([]) == {}
  {
  }

  lemma CopiedMeans(ss: seq<SourceStruct>, values: seq<SourceValue>, made: set<object>)
    requires Copied(ss, values, made)
    ensures AllObjects(ss) <= made && Values(ss) == values && Separated(ss)
  {
  }

  lemma ValuesAt(ss: seq<SourceStruct>, i: nat)
    requires i < |ss|
    ensures Values(ss)[i] == Value(ss[i])
    ensures Objects(ss[i]) <= AllObjects(ss)
  {
  }

  lemma ObjectsAllocated(ss: seq<SourceStruct>)
    ensures forall o | o in AllObjects(ss) :: allocated(o)
  {
    forall o | o in AllObjects(ss) ensures allocated(o) {
      var i :| 0 <= i < |ss| && o in Objects(ss[i]);
    }
  }

  lemma ReachAllocated(list: SourceList)
    ensures forall o | o in Reach(list) :: allocated(o)
  {
    if list.items != null {
      ObjectsAllocated(list.items[..]);
    }
  }

  /** nil is copied to nil; otherwise the copy is equal, and it shares nothing with the original or among its items. */
  method DeepCopyList(list: SourceList?) returns (out: SourceList?)
    ensures list == null <==> out == null
    ensures list != null ==> fresh(Reach(out)) && ValueOfList(out) == ValueOfList(list) && Reach(out) !! Reach(list)
    ensures list != null && out.items != null ==> Separated(out.items[..])
  {
    if list == null {
      return null;
    }
    ReachAllocated(list);
    hide AllObjects, Values, Separated;
    out := new SourceList(list.apiVersion, list.resourceVersion, list.items);
    if list.items != null {
      var items := CopyItems(list.items);
      out.items := items;
    }
  }

  // ----- Independence -----

  /** A write through a list: to the list, to an item, or to an object behind an item. */
  datatype Write =
    | SetResourceVersion(version: string)
    | DropItems
    | SetStreamName(i: nat, streamName: string)
    | SetSink(i: nat, sink: ObjectReference)
    | ReplaceSink(i: nat, sink: ObjectReference)
    | SetFinalizer(i: nat, k: nat, finalizer: string)
    | SetCondition(i: nat, k: nat, condition: Condition)

  method Perform(list: SourceList, w: Write)
    modifies Reach(list)
    ensures fresh(Reach(list) - old(Reach(list)))
  {
    if w.SetResourceVersion? {
      list.resourceVersion := w.version;
    } else if w.DropItems? {
      list.items := null;
    } else if list.items != null && w.i < list.items.Length {
      var item := list.items[w.i];
      assert forall o | o in Objects(item) :: o in AllObjects(list.items[..]) by { assert list.items[..][w.i] == item; }
      match w {
        case SetStreamName(i, streamName) => PutItem(list, i, item.(spec := item.spec.(streamName := streamName)));
        case SetSink(i, sink) => if item.spec.sink != null { item.spec.sink.value := sink; }
        case ReplaceSink(i, sink) =>
          var reference := new Reference(sink);
          PutItem(list, i, item.(spec := item.spec.(sink := reference)));
        case SetFinalizer(i, k, f) =>
          if item.finalizers != null && k < item.finalizers.Length { item.finalizers[k] := f; }
        case SetCondition(i, k, c) =>
          if item.status.conditions != null && k < item.status.conditions.Length { item.status.conditions[k] := c; }
        case _ =>
      }
    }
  }

  method PutItem(list: SourceList, i: nat, item: SourceStruct)
    requires list.items != null && i < list.items.Length
    modifies list.items
    ensures Reach(list) <= old(Reach(list)) + Objects(item)
  {
    ghost var before := list.items[..];
    list.items[i] := item;
    forall o | o in AllObjects(list.items[..]) ensures o in AllObjects(before) + Objects(item) {
      var j :| 0 <= j < list.items.Length && o in Objects(list.items[..][j]);
      assert j != i ==> o in Objects(before[j]);
    }
  }

  method PerformAll(list: SourceList, writes: seq<Write>)
    modifies Reach(list)
    ensures fresh(Reach(list) - old(Reach(list)))
  {
    if writes != [] {
      Perform(list, writes[0]);
      PerformAll(list, writes[1..]);
    }
  }

  /**
   Any writes through a list leave a list that shares nothing with it as it was, and the two stay apart: so writes to a
   copy and to its original can follow one another in any order without one showing in the other.
   */
  method WritesStayApart(written: SourceList, other: SourceList, writes: seq<Write>)
    requires Reach(written) !! Reach(other)
    modifies Reach(written)
    ensures ValueOfList(other) == old(ValueOfList(other)) && Reach(other) == old(Reach(other))
    ensures Reach(written) !! Reach(other)
  {
    ghost var objects := Reach(other);
    ReachAllocated(other);
    hide ValueOfList, AllObjects;
    PerformAll(written, writes);
    assert Reach(other) == objects;
    assert forall o | o in objects :: unchanged(o);
  }

  /** Writes through a copy do not show in the original. */
  method WriteToCopy(list: SourceList, writes: seq<Write>) returns (copy: SourceList)
    ensures ValueOfList(list) == old(ValueOfList(list)) && Reach(list) == old(Reach(list))
    ensures Reach(copy) !! Reach(list)
  {
    ReachAllocated(list);
    hide AllObjects, ValueOfList;
    copy := DeepCopyList(list);
    WritesStayApart(copy, list, writes);
  }

  /** Writes through the original do not show in the copy: it keeps the value of the moment it was taken. */
  method WriteToOriginal(list: SourceList, writes: seq<Write>) returns (copy: SourceList)
    modifies Reach(list)
    ensures ValueOfList(copy) == old(ValueOfList(list))
    ensures Reach(copy) !! Reach(list)
  {
    ReachAllocated(list);
    hide AllObjects, ValueOfList;
    copy := DeepCopyList(list);
    WritesStayApart(list, copy, writes);
  }
}
