/** Shannon entropy of a payload: the sequential loop and the sums it is specified by. Arithmetic is over
    the reals, with the per-bin term `p * log2(p)` left abstract. */
module Entropy {
  import opened Packets

  /** `p * log2(p)` for a bin holding `count` of `total` bytes. */
  type Term = (nat, nat) -> real

  const BINS := 256

  /** How often a byte value occurs. */
  function Occurrences(data: seq<Byte>, bin: nat): nat {
    if data == [] then 0 else Occurrences(data[..|data| - 1], bin) + if data[|data| - 1] == bin then 1 else 0
  }

  function Histogram(data: seq<Byte>): (h: seq<nat>)
    ensures |h| == BINS && forall b | 0 <= b < BINS :: h[b] == Occurrences(data, b)
  {
    seq(BINS, b requires 0 <= b < BINS => Occurrences(data, b))
  }

  /** What one bin adds to the entropy. */
  function Contribution(count: nat, total: nat, term: Term): real {
    if count == 0 then 0.0 else -term(count, total)
  }

  function Contributions(h: seq<nat>, total: nat, term: Term): (v: seq<real>)
    ensures |v| == |h| && forall b | 0 <= b < |h| :: v[b] == Contribution(h[b], total, term)
  {
    seq(|h|, b requires 0 <= b < |h| => Contribution(h[b], total, term))
  }

  function Sum(v: seq<real>): real {
    if v == [] then 0.0 else Sum(v[..|v| - 1]) + v[|v| - 1]
  }

  /** The entropy of a payload; an empty one has none. */
  function Shannon(data: seq<Byte>, term: Term): real {
    if data == [] then 0.0 else Sum(Contributions(Histogram(data), |data|, term))
  }

  lemma OccurrencesSnoc(data: seq<Byte>, i: nat, bin: nat)
    requires i < |data|
    ensures Occurrences(data[..i + 1], bin) == Occurrences(data[..i], bin) + if data[i] == bin then 1 else 0
  {
    assert data[..i + 1][..i] == data[..i];
  }

  lemma SumSnoc(v: seq<real>, i: nat)
    requires i < |v|
    ensures Sum(v[..i + 1]) == Sum(v[..i]) + v[i]
  {
    assert v[..i + 1][..i] == v[..i];
  }

  /** The sequential reference. A null pointer is `None`. */
  method ShannonEntropy(payload: Option<seq<Byte>>, term: Term) returns (entropy: real)
    ensures entropy == if payload.None? then 0.0 else Shannon(payload.value, term)
  {
    if payload.None? || |payload.value| == 0 {
      return 0.0;
    }
    var data := payload.value;
    var histogram := new nat[BINS](_ => 0);
    for i := 0 to |data|
      invariant forall b | 0 <= b < BINS :: histogram[b] == Occurrences(data[..i], b)
    {
      forall b | 0 <= b < BINS
        ensures Occurrences(data[..i + 1], b) == Occurrences(data[..i], b) + if data[i] == b then 1 else 0
      {
        OccurrencesSnoc(data, i, b);
      }
      histogram[data[i]] := histogram[data[i]] + 1;
    }
    assert data[..|data|] == data;
    assert histogram[..] == Histogram(data);

    entropy := 0.0;
    var total := |data|;
    ghost var v := Contributions(Histogram(data), total, term);
    for b := 0 to BINS
      invariant entropy == Sum(v[..b]) && histogram[..] == Histogram(data)
    {
      SumSnoc(v, b);
      var count := histogram[b];
      assert count == histogram[..][b];
      if count != 0 {
        entropy := entropy - term(count, total);
      }
    }
    assert v[..BINS] == v;
  }
}
