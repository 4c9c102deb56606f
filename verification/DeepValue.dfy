/**
 The two comparisons of apimachinery's equality.Semantic, over a tree of Go values: DeepDerivative (Derives), which
 ignores what its first argument leaves unset, and DeepEqual (SemanticEqual), which only identifies a nil slice or map
 with an empty one. Unset means an empty string, a nil pointer, or a nil or empty slice or map. There is no unset
 integer or boolean: zero and false are compared like any other value.
 */
module DeepValue {

  datatype Value =
    | Str(s: string)
    | Int(n: int)
    | Bool(b: bool)
    | NilPtr
    | Ptr(target: Value)
    | NilSlice
    | Slice(elems: seq<Value>)
    | NilMap
    | Map(entries: map<string, Value>)
    | Struct(fields: seq<Value>)

  predicate IsPtr(v: Value) { v.NilPtr? || v.Ptr? }

  predicate IsSlice(v: Value) { v.NilSlice? || v.Slice? }

  predicate IsMap(v: Value) { v.NilMap? || v.Map? }

  /** DeepDerivative(a, b): b agrees with everything that a sets. */
  predicate Derives(a: Value, b: Value)
  {
    match a
    case Str(s) => b.Str? && (s == "" || s == b.s)
    case Int(_) => b == a
    case Bool(_) => b == a
    case NilPtr => IsPtr(b)
    case Ptr(x) => b.Ptr? && Derives(x, b.target)
    case NilSlice => IsSlice(b)
    case Slice(xs) =>
      IsSlice(b) &&
      (xs == [] || (b.Slice? && |xs| <= |b.elems| && forall i | 0 <= i < |xs| :: Derives(xs[i], b.elems[i])))
    case NilMap => IsMap(b)
    case Map(m) =>
      IsMap(b) &&
      (m == map[] || (b.Map? && forall k | k in m :: k in b.entries && Derives(m[k], b.entries[k])))
    case Struct(fs) =>
      b.Struct? && |fs| == |b.fields| && forall i | 0 <= i < |fs| :: Derives(fs[i], b.fields[i])
  }

  /** DeepEqual(a, b). */
  predicate SemanticEqual(a: Value, b: Value)
  {
    match a
    case Str(_) => b == a
    case Int(_) => b == a
    case Bool(_) => b == a
    case NilPtr => b.NilPtr?
    case Ptr(x) => b.Ptr? && SemanticEqual(x, b.target)
    case NilSlice => b == NilSlice || b == Slice([])
    case Slice(xs) =>
      (xs == [] && b == NilSlice) ||
      (b.Slice? && |xs| == |b.elems| && forall i | 0 <= i < |xs| :: SemanticEqual(xs[i], b.elems[i]))
    case NilMap => b == NilMap || b == Map(map[])
    case Map(m) =>
      (m == map[] && b == NilMap) ||
      (b.Map? && m.Keys == b.entries.Keys && forall k | k in m :: SemanticEqual(m[k], b.entries[k]))
    case Struct(fs) =>
      b.Struct? && |fs| == |b.fields| && forall i | 0 <= i < |fs| :: SemanticEqual(fs[i], b.fields[i])
  }

  lemma {:induction false} DerivesReflexive(a: Value)
    ensures Derives(a, a)
  {
    match a
    case Ptr(x) => DerivesReflexive(x);
    case Slice(xs) => forall i | 0 <= i < |xs| ensures Derives(xs[i], xs[i]) { DerivesReflexive(xs[i]); }
    case Map(m) => forall k | k in m ensures Derives(m[k], m[k]) { DerivesReflexive(m[k]); }
    case Struct(fs) => forall i | 0 <= i < |fs| ensures Derives(fs[i], fs[i]) { DerivesReflexive(fs[i]); }
    case _ =>
  }

  /** Values of one Go type: of one kind, and field by field for structs. */
  predicate SameType(a: Value, b: Value)
  {
    match a
    case Str(_) => b.Str?
    case Int(_) => b.Int?
    case Bool(_) => b.Bool?
    case NilPtr => IsPtr(b)
    case Ptr(_) => IsPtr(b)
    case NilSlice => IsSlice(b)
    case Slice(_) => IsSlice(b)
    case NilMap => IsMap(b)
    case Map(_) => IsMap(b)
    case Struct(fs) => b.Struct? && |fs| == |b.fields| && forall i | 0 <= i < |fs| :: SameType(fs[i], b.fields[i])
  }

  /** Unset: an empty string, a nil pointer, a nil or empty slice or map, or a struct of unset fields; never a number. */
  predicate Unset(a: Value)
  {
    match a
    case Str(s) => s == ""
    case Int(_) => false
    case Bool(_) => false
    case NilPtr => true
    case Ptr(_) => false
    case NilSlice => true
    case Slice(xs) => xs == []
    case NilMap => true
    case Map(m) => m == map[]
    case Struct(fs) => forall i | 0 <= i < |fs| :: Unset(fs[i])
  }

  lemma {:induction false} SameTypeReflexive(a: Value)
    ensures SameType(a, a)
  {
    if a.Struct? {
      forall i | 0 <= i < |a.fields| ensures SameType(a.fields[i], a.fields[i]) { SameTypeReflexive(a.fields[i]); }
    }
  }

  lemma {:induction false} UnsetIgnored(a: Value, b: Value)
    requires Unset(a) && SameType(a, b)
    ensures Derives(a, b)
  {
    if a.Struct? {
      forall i | 0 <= i < |a.fields| ensures Derives(a.fields[i], b.fields[i]) { UnsetIgnored(a.fields[i], b.fields[i]); }
    }
  }

  lemma {:induction false} SetCompared(a: Value) returns (b: Value)
    requires !Unset(a)
    ensures SameType(a, b) && !Derives(a, b)
  {
    match a
    case Str(_) => b := Str("");
    case Int(n) => b := Int(n + 1);
    case Bool(x) => b := Bool(!x);
    case Ptr(_) => b := NilPtr;
    case Slice(_) => b := NilSlice;
    case Map(_) => b := NilMap;
    case Struct(fs) =>
      var i :| 0 <= i < |fs| && !Unset(fs[i]);
      var x := SetCompared(fs[i]);
      b := Struct(fs[i := x]);
      forall j | 0 <= j < |fs| ensures SameType(fs[j], b.fields[j]) { SameTypeReflexive(fs[j]); }
      assert b.fields[i] == x;
  }

  /** The derivative order ignores a value, whatever it is compared with, exactly if it is unset. */
  lemma IgnoredIffUnset(a: Value)
    ensures (forall b | SameType(a, b) :: Derives(a, b)) <==> Unset(a)
  {
    if Unset(a) {
      forall b | SameType(a, b) ensures Derives(a, b) { UnsetIgnored(a, b); }
    } else {
      var b := SetCompared(a);
    }
  }

  lemma {:induction false} DerivesTransitive(a: Value, b: Value, c: Value)
    requires Derives(a, b) && Derives(b, c)
    ensures Derives(a, c)
  {
    match a
    case Ptr(x) => DerivesTransitive(x, b.target, c.target);
    case Slice(xs) =>
      if xs != [] {
        forall i | 0 <= i < |xs| ensures Derives(xs[i], c.elems[i]) {
          DerivesTransitive(xs[i], b.elems[i], c.elems[i]);
        }
      }
    case Map(m) =>
      if m != map[] {
        forall k | k in m ensures c.Map? && k in c.entries && Derives(m[k], c.entries[k]) {
          assert k in b.entries;
          DerivesTransitive(m[k], b.entries[k], c.entries[k]);
        }
      }
    case Struct(fs) =>
      forall i | 0 <= i < |fs| ensures Derives(fs[i], c.fields[i]) {
        DerivesTransitive(fs[i], b.fields[i], c.fields[i]);
      }
    case _ =>
  }

  /** Whether two values derive from each other exactly if they are semantically equal. */
  predicate Antisymmetric(a: Value, b: Value)
  {
    Derives(a, b) && Derives(b, a) <==> SemanticEqual(a, b)
  }

  lemma SeqsBothWays(xs: seq<Value>, ys: seq<Value>)
    requires |xs| == |ys| && forall i | 0 <= i < |xs| :: Antisymmetric(xs[i], ys[i])
    ensures Antisymmetric(Slice(xs), Slice(ys)) && Antisymmetric(Struct(xs), Struct(ys))
  {
    assert forall i | 0 <= i < |xs| :: Derives(xs[i], ys[i]) && Derives(ys[i], xs[i]) <==> SemanticEqual(xs[i], ys[i]);
  }

  lemma PtrsBothWays(x: Value, y: Value)
    requires Antisymmetric(x, y)
    ensures Antisymmetric(Ptr(x), Ptr(y))
  {
  }

  lemma MapsBothWays(m: map<string, Value>, n: map<string, Value>)
    requires forall k | k in m && k in n :: Antisymmetric(m[k], n[k])
    ensures Antisymmetric(Map(m), Map(n))
  {
    if Derives(Map(m), Map(n)) && Derives(Map(n), Map(m)) {
      assert m.Keys <= n.Keys && n.Keys <= m.Keys;
    }
    if SemanticEqual(Map(m), Map(n)) {
      assert forall k | k in n :: k in m.Keys;
    }
  }

  /** Values of different kinds, or lists of different lengths, are neither. */
  lemma ApartBothWays(a: Value, b: Value)
    requires match a
             case Slice(xs) => !b.Slice? || |b.elems| != |xs|
             case Struct(fs) => !b.Struct? || |b.fields| != |fs|
             case Map(_) => !b.Map?
             case Ptr(_) => !b.Ptr?
             case _ => true
    ensures Antisymmetric(a, b)
  {
  }

  /** The derivative order is antisymmetric up to nil versus empty, and exactly so. */
  lemma {:induction false} DerivesBothWays(a: Value, b: Value)
    ensures Antisymmetric(a, b)
  {
    hide Derives, SemanticEqual;
    if a.Ptr? && b.Ptr? {
      DerivesBothWays(a.target, b.target);
      PtrsBothWays(a.target, b.target);
    } else if a.Slice? && b.Slice? && |a.elems| == |b.elems| {
      forall i | 0 <= i < |a.elems| ensures Antisymmetric(a.elems[i], b.elems[i]) {
        DerivesBothWays(a.elems[i], b.elems[i]);
      }
      hide Antisymmetric;
      SeqsBothWays(a.elems, b.elems);
    } else if a.Map? && b.Map? {
      forall k | k in a.entries && k in b.entries ensures Antisymmetric(a.entries[k], b.entries[k]) {
        DerivesBothWays(a.entries[k], b.entries[k]);
      }
      hide Antisymmetric;
      MapsBothWays(a.entries, b.entries);
    } else if a.Struct? && b.Struct? && |a.fields| == |b.fields| {
      forall i | 0 <= i < |a.fields| ensures Antisymmetric(a.fields[i], b.fields[i]) {
        DerivesBothWays(a.fields[i], b.fields[i]);
      }
      hide Antisymmetric;
      SeqsBothWays(a.fields, b.fields);
    } else {
      ApartBothWays(a, b);
    }
  }

  lemma SemanticEqualReflexive(a: Value)
    ensures SemanticEqual(a, a)
  {
    DerivesReflexive(a);
    DerivesBothWays(a, a);
  }

  lemma SemanticEqualTransitive(a: Value, b: Value, c: Value)
    requires SemanticEqual(a, b) && SemanticEqual(b, c)
    ensures SemanticEqual(a, c) && SemanticEqual(c, a)
  {
    DerivesBothWays(a, b);
    DerivesBothWays(b, c);
    DerivesTransitive(a, b, c);
    DerivesTransitive(c, b, a);
    DerivesBothWays(a, c);
    DerivesBothWays(c, a);
  }
}
