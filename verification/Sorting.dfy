/** Stable sorting by a strict order, as Python's `sorted` does it with a key. */
module Sorting {

  /** Puts `x` after everything it is not below. */
  function Insert<T>(x: T, s: seq<T>, less: (T, T) -> bool): seq<T> {
    if s == [] || less(x, s[0]) then [x] + s else [s[0]] + Insert(x, s[1..], less)
  }

  function Sort<T>(s: seq<T>, less: (T, T) -> bool): seq<T> {
    if s == [] then [] else Insert(s[|s| - 1], Sort(s[..|s| - 1], less), less)
  }

  ghost predicate StrictOrder<T(!new)>(less: (T, T) -> bool) {
    && (forall x, y, z :: less(x, y) && less(y, z) ==> less(x, z))
    && (forall x, y :: less(x, y) ==> !less(y, x))
  }

  /** Any two elements at different places can be told apart by the order. */
  ghost predicate Apart<T>(s: seq<T>, less: (T, T) -> bool) {
    forall i, j :: 0 <= i < j < |s| ==> less(s[i], s[j]) || less(s[j], s[i])
  }

  ghost predicate Increasing<T>(s: seq<T>, less: (T, T) -> bool) { forall i, j :: 0 <= i < j < |s| ==> less(s[i], s[j]) }

  ghost predicate Against<T>(x: T, s: seq<T>, less: (T, T) -> bool) { forall i :: 0 <= i < |s| ==> less(x, s[i]) || less(s[i], x) }

  lemma {:induction false} InsertAdds<T>(x: T, s: seq<T>, less: (T, T) -> bool)
    ensures multiset(Insert(x, s, less)) == multiset(s) + multiset{x} && |Insert(x, s, less)| == |s| + 1
  {
    if s != [] && !less(x, s[0]) {
      InsertAdds(x, s[1..], less);
      assert s == [s[0]] + s[1..];
    }
  }

  lemma {:induction false} InsertIncreasing<T(!new)>(x: T, s: seq<T>, less: (T, T) -> bool)
    requires StrictOrder(less) && Increasing(s, less) && Against(x, s, less)
    ensures Increasing(Insert(x, s, less), less)
  {
    if s == [] || less(x, s[0]) {
    } else {
      var rest := Insert(x, s[1..], less);
      assert s[0] in s && less(s[0], x);
      InsertIncreasing(x, s[1..], less);
      InsertAdds(x, s[1..], less);
      forall j | 0 <= j < |rest| ensures less(s[0], rest[j]) {
        assert rest[j] in multiset(rest);
        if rest[j] != x { assert rest[j] in s[1..]; }
      }
    }
  }

  lemma {:induction false} SortPermutes<T>(s: seq<T>, less: (T, T) -> bool)
    ensures multiset(Sort(s, less)) == multiset(s) && |Sort(s, less)| == |s|
  {
    if s != [] {
      SortPermutes(s[..|s| - 1], less);
      InsertAdds(s[|s| - 1], Sort(s[..|s| - 1], less), less);
      assert s == s[..|s| - 1] + [s[|s| - 1]];
    }
  }

  lemma SortMembers<T>(s: seq<T>, less: (T, T) -> bool)
    ensures forall x :: x in Sort(s, less) <==> x in s
  {
    SortPermutes(s, less);
    forall x ensures x in Sort(s, less) <==> x in s { assert x in Sort(s, less) <==> x in multiset(Sort(s, less)); }
  }

  lemma {:induction false} SortIncreasing<T(!new)>(s: seq<T>, less: (T, T) -> bool)
    requires StrictOrder(less) && Apart(s, less)
    ensures Increasing(Sort(s, less), less)
  {
    hide StrictOrder;
    if s != [] {
      var before, x := s[..|s| - 1], s[|s| - 1];
      SortIncreasing(before, less);
      SortMembers(before, less);
      forall i | 0 <= i < |Sort(before, less)| ensures less(x, Sort(before, less)[i]) || less(Sort(before, less)[i], x) {
        var y := Sort(before, less)[i];
        assert y in before;
        var k :| 0 <= k < |before| && before[k] == y;
        assert s[k] == y;
      }
      InsertIncreasing(x, Sort(before, less), less);
    }
  }

  ghost predicate Ordered<T>(s: seq<T>, less: (T, T) -> bool) { forall i, j :: 0 <= i < j < |s| ==> !less(s[j], s[i]) }

  lemma {:induction false} InsertOrdered<T(!new)>(x: T, s: seq<T>, less: (T, T) -> bool)
    requires StrictOrder(less) && Ordered(s, less)
    ensures Ordered(Insert(x, s, less), less)
  {
    if s == [] || less(x, s[0]) {
    } else {
      var rest := Insert(x, s[1..], less);
      InsertOrdered(x, s[1..], less);
      InsertAdds(x, s[1..], less);
      forall j | 0 <= j < |rest| ensures !less(rest[j], s[0]) {
        assert rest[j] in multiset(rest);
        if rest[j] != x { assert rest[j] in s[1..]; }
      }
    }
  }

  /** Sorting never leaves an element above a later one. */
  lemma {:induction false} SortOrdered<T(!new)>(s: seq<T>, less: (T, T) -> bool)
    requires StrictOrder(less)
    ensures Ordered(Sort(s, less), less)
  {
    hide StrictOrder;
    if s != [] {
      SortOrdered(s[..|s| - 1], less);
      InsertOrdered(s[|s| - 1], Sort(s[..|s| - 1], less), less);
    }
  }

  /** Sequences in strict order with the same elements are equal. */
  lemma {:induction false} IncreasingUnique<T(!new)>(s: seq<T>, t: seq<T>, less: (T, T) -> bool)
    requires StrictOrder(less) && Increasing(s, less) && Increasing(t, less) && multiset(s) == multiset(t)
    ensures s == t
  {
    hide StrictOrder;
    assert |s| == |multiset(s)| == |multiset(t)| == |t|;
    if s == [] {
      assert t == [];
    } else {
      SameHead(s, t, less);
      assert Increasing(s[1..], less) && Increasing(t[1..], less);
      assert s == [s[0]] + s[1..] && t == [t[0]] + t[1..];
      TailElements(s);
      TailElements(t);
      hide Increasing;
      IncreasingUnique(s[1..], t[1..], less);
    }
  }

  lemma TailElements<T>(s: seq<T>)
    requires s != []
    ensures multiset(s[1..]) == multiset(s) - multiset{s[0]}
  {
    assert s == [s[0]] + s[1..];
  }

  lemma SameHead<T(!new)>(s: seq<T>, t: seq<T>, less: (T, T) -> bool)
    requires StrictOrder(less) && Increasing(s, less) && Increasing(t, less) && multiset(s) == multiset(t) && s != [] && t != []
    ensures s[0] == t[0]
  {
    var a, b := s[0], t[0];
    assert a in multiset(t) && b in multiset(s);
    var i :| 0 <= i < |t| && t[i] == a;
    var j :| 0 <= j < |s| && s[j] == b;
    assert (i > 0 ==> less(b, a)) && (j > 0 ==> less(a, b));
  }

  /** The order in which distinguishable elements arrive does not matter. */
  lemma SortForgetsOrder<T(!new)>(s: seq<T>, t: seq<T>, less: (T, T) -> bool)
    requires StrictOrder(less) && Apart(s, less) && Apart(t, less) && multiset(s) == multiset(t)
    ensures Sort(s, less) == Sort(t, less)
  {
    hide StrictOrder, Apart, Sort;
    SortIncreasing(s, less);
    SortIncreasing(t, less);
    SortPermutes(s, less);
    SortPermutes(t, less);
    IncreasingUnique(Sort(s, less), Sort(t, less), less);
  }

  /** What is in strict order already stays as it is. */
  lemma SortOfIncreasing<T(!new)>(s: seq<T>, less: (T, T) -> bool)
    requires StrictOrder(less) && Increasing(s, less)
    ensures Sort(s, less) == s
  {
    hide StrictOrder, Sort;
    SortIncreasing(s, less);
    SortPermutes(s, less);
    IncreasingUnique(Sort(s, less), s, less);
  }

  /** Where the last element of a sequence stands in a permutation of it, and what is left without it. */
  lemma LastElsewhere<T>(a: seq<T>, b: seq<T>) returns (k: nat)
    requires multiset(a) == multiset(b) && a != []
    ensures k < |b| && b[k] == a[|a| - 1] && b == b[..k] + [b[k]] + b[k + 1..]
    ensures multiset(a[..|a| - 1]) == multiset(b[..k] + b[k + 1..])
  {
    var x := a[|a| - 1];
    assert a == a[..|a| - 1] + [x] + [];
    Without(a[..|a| - 1], x, []);
    assert a[..|a| - 1] + [] == a[..|a| - 1];
    assert x in multiset(a);
    k :| 0 <= k < |b| && b[k] == x;
    assert b == b[..k] + [x] + b[k + 1..];
    Without(b[..k], x, b[k + 1..]);
  }

  lemma Without<T>(left: seq<T>, x: T, right: seq<T>)
    ensures multiset(left + right) == multiset(left + [x] + right) - multiset{x}
  {
  }
}
