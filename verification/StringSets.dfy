/**
 The string sets of apimachinery (sets.String), kept as the sorted list their List() method returns.
 Strings are ordered as Go orders them: lexicographically, element by element.
 */
module StringSets {

  predicate Less(a: string, b: string)
  {
    if b == "" then false
    else if a == "" then true
    else a[0] < b[0] || (a[0] == b[0] && Less(a[1..], b[1..]))
  }

  /** a comes before b: it is a proper prefix of b, or the character at the first difference is smaller. */
  lemma {:induction false} LessMeans(a: string, b: string)
    ensures Less(a, b) <==>
            || a < b
            || exists k :: 0 <= k < |a| && k < |b| && a[..k] == b[..k] && a[k] < b[k]
  {
    if a != "" && b != "" {
      if a[0] == b[0] {
        var x, y := a[1..], b[1..];
        LessMeans(x, y);
        assert a == [a[0]] + x && b == [b[0]] + y;
        if k :| 0 <= k < |x| && k < |y| && x[..k] == y[..k] && x[k] < y[k] {
          assert a[..k + 1] == [a[0]] + x[..k] && b[..k + 1] == [b[0]] + y[..k];
        }
        if k :| 0 <= k < |a| && k < |b| && a[..k] == b[..k] && a[k] < b[k] {
          assert k > 0;
          assert x[..k - 1] == a[..k][1..] && y[..k - 1] == b[..k][1..];
        }
      } else {
        assert a[..0] == b[..0];
        if k :| 0 < k < |a| && k < |b| && a[..k] == b[..k] {
          assert a[..k][0] == b[..k][0];
        }
        assert !(a < b);
      }
    }
  }

  lemma {:induction false} LessTransitive(a: string, b: string, c: string)
    requires Less(a, b) && Less(b, c)
    ensures Less(a, c)
  {
    if a != "" && a[0] == b[0] && b[0] == c[0] {
      LessTransitive(a[1..], b[1..], c[1..]);
    }
  }

  lemma {:induction false} LessTrichotomy(a: string, b: string)
    ensures a == b ==> !Less(a, b)
    ensures a != b ==> Less(a, b) != Less(b, a)
  {
    if a != "" && b != "" && a[0] == b[0] {
      LessTrichotomy(a[1..], b[1..]);
      assert a == [a[0]] + a[1..] && b == [b[0]] + b[1..];
    }
  }

  /** Strictly increasing, hence without duplicates. */
  ghost predicate Sorted(xs: seq<string>)
  {
    forall i, j | 0 <= i < j < |xs| :: Less(xs[i], xs[j])
  }

  function Elements(xs: seq<string>): set<string>
  {
    set x | x in xs
  }

  lemma NoElements(xs: seq<string>)
    ensures Elements(xs) == {} <==> xs == []
  {
    if xs != [] {
      assert xs[0] in Elements(xs);
    }
  }

  lemma ElementsCons(x: string, xs: seq<string>)
    ensures Elements([x] + xs) == {x} + Elements(xs)
  {
    assert forall y | y in xs :: y in [x] + xs;
  }

  /** Insert: adds x at its place unless it is there already. */
  function Insert(xs: seq<string>, x: string): (r: seq<string>)
    requires Sorted(xs)
    ensures Sorted(r) && Elements(r) == Elements(xs) + {x}
  {
    if xs == [] then [x]
    else if x == xs[0] then assert Elements(xs) == Elements(xs) + {x}; xs
    else if Less(x, xs[0]) then
      assert forall i | 0 <= i < |xs| :: Less(x, xs[i]) by {
        forall i | 0 < i < |xs| ensures Less(x, xs[i]) { LessTransitive(x, xs[0], xs[i]); }
      }
      [x] + xs
    else
      var rest := Insert(xs[1..], x);
      assert Elements(xs) == {xs[0]} + Elements(xs[1..]);
      assert forall i | 0 <= i < |rest| :: Less(xs[0], rest[i]) by {
        LessTrichotomy(x, xs[0]);
        forall i | 0 <= i < |rest| ensures Less(xs[0], rest[i]) {
          assert rest[i] in Elements(rest);
          if rest[i] != x {
            var j :| 1 <= j < |xs| && xs[j] == rest[i];
          }
        }
      }
      ElementsCons(xs[0], rest);
      [xs[0]] + rest
  }

  /** Delete: drops x if it is there. */
  function Delete(xs: seq<string>, x: string): (r: seq<string>)
    requires Sorted(xs)
    ensures Sorted(r) && Elements(r) == Elements(xs) - {x}
  {
    if xs == [] then []
    else
      var rest := Delete(xs[1..], x);
      assert Elements(xs) == {xs[0]} + Elements(xs[1..]);
      assert xs[0] !in Elements(xs[1..]) by { NotInTail(xs); }
      assert forall i | 0 <= i < |rest| :: Less(xs[0], rest[i]) by {
        forall i | 0 <= i < |rest| ensures Less(xs[0], rest[i]) {
          assert rest[i] in Elements(rest);
          var j :| 1 <= j < |xs| && xs[j] == rest[i];
        }
      }
      ElementsCons(xs[0], rest);
      if x == xs[0] then rest else [xs[0]] + rest
  }

  lemma NotInTail(xs: seq<string>)
    requires Sorted(xs) && xs != []
    ensures xs[0] !in xs[1..]
  {
    if xs[0] in xs[1..] {
      var j :| 1 <= j < |xs| && xs[j] == xs[0];
      LessTrichotomy(xs[0], xs[j]);
    }
  }

  /** NewString(xs...).List(): the set of xs as a sorted list. */
  function NewSet(xs: seq<string>): (r: seq<string>)
    ensures Sorted(r) && Elements(r) == Elements(xs)
  {
    if xs == [] then []
    else
      assert Elements(xs) == {xs[0]} + Elements(xs[1..]);
      Insert(NewSet(xs[1..]), xs[0])
  }

  /** A set of strings has one sorted listing. */
  lemma {:induction false} SortedListingUnique(xs: seq<string>, ys: seq<string>)
    requires Sorted(xs) && Sorted(ys) && Elements(xs) == Elements(ys)
    ensures xs == ys
  {
    NoElements(xs);
    NoElements(ys);
    if xs != [] {
      SortedHeadLeast(xs, ys);
      NotInTail(xs);
      NotInTail(ys);
      assert Elements(xs[1..]) == Elements(xs) - {xs[0]};
      assert Elements(ys[1..]) == Elements(ys) - {ys[0]};
      SortedListingUnique(xs[1..], ys[1..]);
      assert xs == [xs[0]] + xs[1..] && ys == [ys[0]] + ys[1..];
    }
  }

  lemma SortedHeadLeast(xs: seq<string>, ys: seq<string>)
    requires Sorted(xs) && Sorted(ys) && Elements(xs) == Elements(ys) && xs != [] && ys != []
    ensures xs[0] == ys[0]
  {
    assert xs[0] in Elements(ys) && ys[0] in Elements(xs);
    var i :| 0 <= i < |ys| && ys[i] == xs[0];
    var j :| 0 <= j < |xs| && xs[j] == ys[0];
    LessTrichotomy(xs[0], ys[0]);
  }
}
