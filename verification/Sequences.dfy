/** Sequences of sequences, one after the other. */
module Sequences {

  function Concat<T>(parts: seq<seq<T>>): seq<T> {
    if parts == [] then [] else Concat(parts[..|parts| - 1]) + parts[|parts| - 1]
  }

  lemma ConcatSnoc<T>(parts: seq<seq<T>>, last: seq<T>)
    ensures Concat(parts + [last]) == Concat(parts) + last
  {
    assert (parts + [last])[..|parts|] == parts;
  }

  lemma {:induction false} ConcatConcat<T>(a: seq<seq<T>>, b: seq<seq<T>>)
    ensures Concat(a + b) == Concat(a) + Concat(b)
  {
    if b == [] {
      assert a + b == a;
    } else {
      hide Concat;
      var front, last := b[..|b| - 1], b[|b| - 1];
      assert b == front + [last] && a + b == a + front + [last];
      ConcatConcat(a, front);
      ConcatSnoc(front, last);
      ConcatSnoc(a + front, last);
    }
  }

  /** How often an element occurs. */
  function Times<T(==)>(x: T, s: seq<T>): nat { multiset(s)[x] }

  lemma TimesConcat<T>(x: T, a: seq<T>, b: seq<T>)
    ensures Times(x, a + b) == Times(x, a) + Times(x, b)
  {}

  lemma NoTimes<T>(x: T)
    ensures Times(x, []) == 0
  {}

  lemma SameTimes<T(!new)>(a: seq<T>, b: seq<T>)
    requires forall x :: Times(x, a) == Times(x, b)
    ensures multiset(a) == multiset(b) && |a| == |b|
  {
    forall x ensures multiset(a)[x] == multiset(b)[x] {
      assert Times(x, a) == Times(x, b);
    }
    assert multiset(a) == multiset(b);
    assert |multiset(a)| == |a| && |multiset(b)| == |b|;
  }

  function SumOf(v: seq<nat>): nat {
    if v == [] then 0 else SumOf(v[..|v| - 1]) + v[|v| - 1]
  }

  /** Changing one summand changes the sum by as much. */
  lemma {:induction false} SumChanged(v: seq<nat>, v': seq<nat>, w: nat)
    requires w < |v| == |v'| && forall i | 0 <= i < |v| && i != w :: v'[i] == v[i]
    ensures SumOf(v') + v[w] == SumOf(v) + v'[w]
  {
    var n := |v| - 1;
    if w < n {
      SumChanged(v[..n], v'[..n], w);
    } else {
      assert v'[..n] == v[..n];
    }
  }

  lemma {:induction false} SumOfNothing(v: seq<nat>)
    requires forall i | 0 <= i < |v| :: v[i] == 0
    ensures SumOf(v) == 0
  {
    if v != [] {
      SumOfNothing(v[..|v| - 1]);
    }
  }

  lemma SliceOfPrefix<T>(a: seq<T>, b: seq<T>, from: nat, to: nat)
    requires from <= to <= |a|
    ensures (a + b)[from..to] == a[from..to]
  {}

  /** The part at `i` is a contiguous run of the whole. */
  lemma {:induction false} PartAt<T>(parts: seq<seq<T>>, i: nat)
    requires i < |parts|
    ensures var from := |Concat(parts[..i])|;
            && from + |parts[i]| <= |Concat(parts)|
            && Concat(parts)[from..from + |parts[i]|] == parts[i]
  {
    var front := parts[..|parts| - 1];
    if i < |front| {
      PartAt(front, i);
      assert parts[..i] == front[..i];
    }
  }
}
