/** What the entropy of a payload is: minus the sum, over the byte values that occur, of the term of how often
    each occurs, in whatever order they are listed. */
module EntropyMeaning {
  import opened Packets
  import opened Entropy
  import EntropyKernel

  ghost predicate Distinct(values: seq<Byte>) {
    forall i, j | 0 <= i < j < |values| :: values[i] != values[j]
  }

  /** The positions of a byte value. */
  function Positions(data: seq<Byte>, value: Byte): set<nat> {
    set i: nat | i < |data| && data[i] == value
  }

  /** Adding up the terms of some values, one after the other. */
  function TermSum(data: seq<Byte>, values: seq<Byte>, term: Term): real {
    if values == [] then 0.0
    else term(|Positions(data, values[0])|, |data|) + TermSum(data, values[1..], term)
  }

  lemma {:induction false} OccurrencesArePositions(data: seq<Byte>, value: Byte)
    ensures Occurrences(data, value) == |Positions(data, value)|
  {
    if data != [] {
      var n := |data| - 1;
      OccurrencesArePositions(data[..n], value);
      assert Positions(data, value) == Positions(data[..n], value) + if data[n] == value then {n} else {};
    }
  }

  /** Entries outside the listed indices being zero, the sum is that of the listed ones. */
  lemma {:induction false} SumOverListed(v: seq<real>, values: seq<Byte>)
    requires |v| == BINS && Distinct(values)
    requires forall b: Byte | b !in values :: v[b] == 0.0
    ensures Sum(v) == ListedSum(v, values)
    decreases |values|
  {
    hide Sum;
    if values == [] {
      EntropyKernel.SumOfZeros(v);
    } else {
      var b, rest := values[0], values[1..];
      var v' := v[b := 0.0];
      assert forall i | 0 <= i < |rest| :: rest[i] == values[i + 1];
      assert values == [b] + rest;
      SumOverListed(v', rest);
      EntropyKernel.SumUpdate(v, b, 0.0);
      ListedElsewhere(v, v', rest);
    }
  }

  function ListedSum(v: seq<real>, values: seq<Byte>): real
    requires |v| == BINS
  {
    if values == [] then 0.0 else v[values[0]] + ListedSum(v, values[1..])
  }

  lemma {:induction false} ListedElsewhere(v: seq<real>, v': seq<real>, values: seq<Byte>)
    requires |v| == |v'| == BINS && forall b <- values :: v[b] == v'[b]
    ensures ListedSum(v, values) == ListedSum(v', values)
  {
    if values != [] {
      assert values == [values[0]] + values[1..];
      ListedElsewhere(v, v', values[1..]);
    }
  }

  lemma {:induction false} ListedTerms(data: seq<Byte>, values: seq<Byte>, term: Term)
    requires forall b <- values :: b in data
    ensures ListedSum(Contributions(Histogram(data), |data|, term), values) == -TermSum(data, values, term)
  {
    if values != [] {
      hide Occurrences;
      var b := values[0];
      OccurrencesArePositions(data, b);
      assert b in values;
      var i :| 0 <= i < |data| && data[i] == b;
      assert i in Positions(data, b);
      assert values == [b] + values[1..];
      ListedTerms(data, values[1..], term);
    }
  }

  lemma SomethingListed(values: seq<Byte>)
    ensures values != [] ==> exists b: Byte :: b in values
  {
    if values != [] { assert values[0] in values; }
  }

  /** The entropy of a payload, by its byte values listed in any order without repetition. */
  lemma ShannonIsTermSum(data: seq<Byte>, values: seq<Byte>, term: Term)
    requires Distinct(values) && forall b: Byte :: b in values <==> b in data
    ensures Shannon(data, term) == -TermSum(data, values, term)
  {
    if data == [] {
      SomethingListed(values);
    } else {
      hide Sum, Occurrences;
      var v := Contributions(Histogram(data), |data|, term);
      forall b: Byte | b !in values ensures v[b] == 0.0 {
        OccurrencesArePositions(data, b);
        assert Positions(data, b) == {};
      }
      SumOverListed(v, values);
      ListedTerms(data, values, term);
    }
  }

  /** One byte value alone has the entropy of a certain event. */
  lemma EqualBytes(value: Byte, n: nat, term: Term)
    requires n > 0
    ensures Shannon(seq(n, _ => value), term) == -term(n, n)
  {
    var data: seq<Byte> := seq(n, _ => value);
    assert data[0] == value;
    ShannonIsTermSum(data, [value], term);
    EveryPosition(data, value);
    assert TermSum(data, [value], term) == term(n, n) + TermSum(data, [], term);
  }

  lemma {:induction false} EveryPosition(data: seq<Byte>, value: Byte)
    requires forall i | 0 <= i < |data| :: data[i] == value
    ensures |Positions(data, value)| == |data|
  {
    if data != [] {
      var n := |data| - 1;
      EveryPosition(data[..n], value);
      assert Positions(data, value) == Positions(data[..n], value) + {n};
    }
  }

  /** Bytes that are all different have the entropy of that many equally likely events. */
  lemma DifferentBytes(data: seq<Byte>, term: Term)
    requires Distinct(data)
    ensures Shannon(data, term) == -(|data| as real * term(1, |data|))
  {
    ShannonIsTermSum(data, data, term);
    OneEach(data, data, term);
  }

  lemma {:induction false} OneEach(data: seq<Byte>, values: seq<Byte>, term: Term)
    requires Distinct(data) && forall b <- values :: b in data
    ensures TermSum(data, values, term) == |values| as real * term(1, |data|)
  {
    if values != [] {
      assert values[0] in values;
      var i :| 0 <= i < |data| && data[i] == values[0];
      assert Positions(data, values[0]) == {i};
      assert values == [values[0]] + values[1..];
      OneEach(data, values[1..], term);
      OneMore(|values|, term(1, |data|));
    }
  }

  lemma OneMore(n: nat, x: real)
    requires n > 0
    ensures n as real * x == x + (n - 1) as real * x
  {}
}
