/** The GPU kernel for one payload: one threadgroup, barrier-separated phases, and within each phase any
    interleaving of the threads' steps. The scheduler's choices are the nondeterministic ones (`:|`). */
module EntropyKernel {
  import opened Packets
  import opened Entropy
  import opened Arithmetic

  /** The host dispatches a power-of-two group of at most one thread per bin. */
  predicate PowerOfTwo(n: nat) { n == 1 || (n > 0 && n % 2 == 0 && PowerOfTwo(n / 2)) }

  predicate ValidGroup(threads: nat) { PowerOfTwo(threads) && threads <= BINS }

  // --- the kernel's 32-bit arithmetic ---

  const UINT32_RANGE := 0x1_0000_0000

  function Wrap(x: nat): (r: nat)
    ensures r < UINT32_RANGE
  {
    x % UINT32_RANGE
  }

  /** Where the kernel finds byte `i` of the payload at `offset`. */
  function KernelAddress(offset: nat, i: nat): nat { Wrap(offset + i) }

  ghost predicate InBuffer(buffer: seq<Byte>, offset: nat, length: nat) {
    forall i: nat | i < length :: KernelAddress(offset, i) < |buffer|
  }

  /** The bytes the kernel reads as one payload. */
  function Window(buffer: seq<Byte>, offset: nat, length: nat): (r: seq<Byte>)
    requires InBuffer(buffer, offset, length)
    ensures |r| == length && forall i: nat | i < length :: r[i] == buffer[KernelAddress(offset, i)]
  {
    seq(length, i requires 0 <= i < length => buffer[KernelAddress(offset, i)])
  }

  /** The index of thread `t` after `k` strides. */
  function StrideIndex(t: nat, threads: nat, k: nat): nat { Wrap(t + k * threads) }

  /** Every thread's strided index reaches the end of the payload, rather than wrapping around for ever. */
  ghost predicate StridesEnd(length: nat, threads: nat) {
    forall t | 0 <= t < threads :: StrideEnds(t, length, threads)
  }

  ghost predicate StrideEnds(t: nat, length: nat, threads: nat) {
    exists k: nat :: StrideIndex(t, threads, k) >= length
  }

  lemma {:induction false} GroupSizes(threads: nat)
    requires ValidGroup(threads)
    ensures threads in {1, 2, 4, 8, 16, 32, 64, 128, 256}
  {
    if threads > 1 {
      GroupSizes(threads / 2);
    }
  }

  lemma GroupDividesRange(threads: nat)
    requires ValidGroup(threads)
    ensures threads > 0 && UINT32_RANGE % threads == 0 && UINT32_RANGE / threads * threads == UINT32_RANGE
  {
    GroupSizes(threads);
  }

  /** Thread 0 only ever sees multiples of the group size. */
  lemma ThreadZeroStays(threads: nat, k: nat)
    requires ValidGroup(threads)
    ensures StrideIndex(0, threads, k) + threads <= UINT32_RANGE
  {
    GroupDividesRange(threads);
    var x, y, turns := k * threads, StrideIndex(0, threads, k), UINT32_RANGE / threads;
    var q := x / UINT32_RANGE;
    assert x == UINT32_RANGE * q + y;
    Multiple(y, threads, k, q * turns) by {
      assert UINT32_RANGE * q == q * turns * threads;
    }
    SameRemainderApart(y, UINT32_RANGE, threads);
  }

  lemma Multiple(y: nat, d: nat, a: nat, b: nat)
    requires d > 0 && y == a * d - b * d
    ensures y % d == 0
  {
    assert y == d * (a - b) + 0;
    DivModUnique(y, d, a - b, 0);
  }

  /** The byte loop ends in every thread exactly when the length leaves room for one more stride. */
  lemma StridesEndIff(length: nat, threads: nat)
    requires ValidGroup(threads) && length < 0x1_0000_0000
    ensures StridesEnd(length, threads) <==> length + threads <= 0x1_0000_0000
  {
    GroupDividesRange(threads);
    if StridesEnd(length, threads) {
      assert StrideEnds(0, length, threads);
      var k: nat :| StrideIndex(0, threads, k) >= length;
      ThreadZeroStays(threads, k);
    }
    if length + threads <= UINT32_RANGE {
      forall t | 0 <= t < threads ensures StrideEnds(t, length, threads) {
        var k := UINT32_RANGE / threads - 1;
        assert k * threads == UINT32_RANGE - threads;
        SmallMod(t + k * threads, UINT32_RANGE);
        assert StrideIndex(t, threads, k) >= length;
      }
    }
  }

  // --- strided loops under an arbitrary schedule ---

  /** Thread `t` next handles index `next[t]`; `todo` is what no thread has handled yet. */
  ghost predicate Pending(todo: set<nat>, next: seq<nat>, n: nat) {
    && |next| > 0
    && (forall t | 0 <= t < |next| :: next[t] % |next| == t)
    && (forall i: nat :: i in todo <==> i < n && i >= next[i % |next|])
  }

  function Starts(threads: nat): (next: seq<nat>)
    ensures |next| == threads && forall t | 0 <= t < threads :: next[t] == t
  {
    seq(threads, t requires 0 <= t < threads => t)
  }

  function Indices(n: nat): (r: set<nat>)
    ensures forall i: nat :: i in r <==> i < n
  {
    if n == 0 then {} else Indices(n - 1) + {n - 1}
  }

  lemma PendingStart(threads: nat, n: nat)
    requires threads > 0
    ensures Pending(Indices(n), Starts(threads), n)
  {
    forall t | 0 <= t < threads ensures t % threads == t { SmallMod(t, threads); }
    forall i: nat ensures i % threads <= i { ModBelow(i, threads); }
  }

  /** Letting thread `t` run one iteration takes exactly one index off the list. */
  lemma PendingStep(todo: set<nat>, next: seq<nat>, n: nat, t: nat)
    requires Pending(todo, next, n) && t < |next| && next[t] < n && n + |next| <= UINT32_RANGE
    ensures next[t] in todo && next[t] % |next| == t && Wrap(next[t] + |next|) == next[t] + |next|
    ensures Pending(todo - {next[t]}, next[t := Wrap(next[t] + |next|)], n)
  {
    var d := |next|;
    SmallMod(next[t] + d, UINT32_RANGE);
    var next' := next[t := next[t] + d];
    NextStride(next[t], d);
    forall i: nat ensures i in todo - {next[t]} <==> i < n && i >= next'[i % d] {
      if i % d == t && i > next[t] { SameRemainderApart(next[t], i, d); }
    }
  }

  lemma PendingDone(todo: set<nat>, next: seq<nat>, n: nat)
    requires Pending(todo, next, n) && forall t | 0 <= t < |next| :: next[t] >= n
    ensures todo == {}
  {
    forall i: nat ensures i !in todo {
      var t := i % |next|;
      assert next[t] >= n;
    }
  }

  // --- phase 1: clear the bins ---

  method ClearBins(histogram: array<nat>, threads: nat)
    requires histogram.Length == BINS && 0 < threads <= BINS
    modifies histogram
    ensures forall b | 0 <= b < BINS :: histogram[b] == 0
  {
    hide Pending, Indices, Wrap;
    var next: seq<nat> := Starts(threads);
    ghost var todo := Indices(BINS);
    PendingStart(threads, BINS);
    while exists t :: 0 <= t < threads && next[t] < BINS
      invariant |next| == threads && Pending(todo, next, BINS)
      invariant forall b | 0 <= b < BINS && b !in todo :: histogram[b] == 0
      decreases todo
    {
      var t :| 0 <= t < threads && next[t] < BINS;
      PendingStep(todo, next, BINS, t);
      todo := todo - {next[t]};
      histogram[next[t]] := 0;
      next := next[t := Wrap(next[t] + threads)];
    }
    PendingDone(todo, next, BINS);
  }

  // --- phase 2: count the bytes, each increment atomic ---

  /** Occurrences of a byte value among some of the indices. */
  ghost function CountIn(todo: set<nat>, data: seq<Byte>, bin: nat): nat {
    |set i <- todo | i < |data| && data[i] == bin|
  }

  lemma CountWithout(todo: set<nat>, data: seq<Byte>, i: nat, bin: nat)
    requires i in todo && i < |data|
    ensures CountIn(todo, data, bin) == CountIn(todo - {i}, data, bin) + if data[i] == bin then 1 else 0
  {
    var s := set j <- todo | j < |data| && data[j] == bin;
    var s' := set j <- todo - {i} | j < |data| && data[j] == bin;
    if data[i] == bin {
      assert s == s' + {i};
    } else {
      assert s == s';
    }
  }

  lemma NothingToCount(todo: set<nat>, data: seq<Byte>, bin: nat)
    requires todo == {}
    ensures CountIn(todo, data, bin) == 0
  {
    assert forall i <- todo :: i !in todo;
  }

  lemma {:induction false} CountAll(data: seq<Byte>, bin: nat)
    ensures CountIn(Indices(|data|), data, bin) == Occurrences(data, bin)
  {
    if data == [] {
      NothingToCount(Indices(0), data, bin);
    } else {
      var n := |data| - 1;
      var front := data[..n];
      CountAll(front, bin);
      CountWithout(Indices(|data|), data, n, bin);
      assert (set i <- Indices(|data|) - {n} | i < |data| && data[i] == bin) ==
             (set i <- Indices(n) | i < |front| && front[i] == bin);
    }
  }

  method CountBytes(buffer: seq<Byte>, offset: nat, length: nat, histogram: array<nat>, threads: nat)
    requires histogram.Length == BINS && threads > 0
    requires InBuffer(buffer, offset, length) && length + threads <= UINT32_RANGE
    requires forall b | 0 <= b < BINS :: histogram[b] == 0
    modifies histogram
    ensures histogram[..] == Histogram(Window(buffer, offset, length))
  {
    hide Pending, Indices, Occurrences, CountIn, KernelAddress, Wrap;
    ghost var data := Window(buffer, offset, length);
    var next: seq<nat> := Starts(threads);
    ghost var todo := Indices(length);
    PendingStart(threads, length);
    forall b | 0 <= b < BINS ensures CountIn(todo, data, b) == Occurrences(data, b) { CountAll(data, b); }
    while exists t :: 0 <= t < threads && next[t] < length
      invariant |next| == threads && Pending(todo, next, length)
      invariant forall b | 0 <= b < BINS :: histogram[b] + CountIn(todo, data, b) == Occurrences(data, b)
      decreases todo
    {
      var t :| 0 <= t < threads && next[t] < length;
      PendingStep(todo, next, length, t);
      forall b | 0 <= b < BINS
        ensures CountIn(todo, data, b) ==
                CountIn(todo - {next[t]}, data, b) + if data[next[t]] == b then 1 else 0
      {
        CountWithout(todo, data, next[t], b);
      }
      todo := todo - {next[t]};
      var byte := buffer[KernelAddress(offset, next[t])];
      assert byte == data[next[t]];
      histogram[byte] := histogram[byte] + 1;
      next := next[t := Wrap(next[t] + threads)];
    }
    PendingDone(todo, next, length);
    forall b | 0 <= b < BINS ensures CountIn(todo, data, b) == 0 {
      NothingToCount(todo, data, b);
    }
  }

  // --- phase 3: each thread adds up its own bins ---

  /** The sum of the first `n` values whose index is `t` modulo the group size. */
  function StridedSum(v: seq<real>, t: nat, d: nat, n: nat): real
    requires n <= |v| && d > 0
  {
    if n == 0 then 0.0 else StridedSum(v, t, d, n - 1) + if (n - 1) % d == t then v[n - 1] else 0.0
  }

  lemma {:induction false} StridedSkip(v: seq<real>, t: nat, d: nat, lo: nat, hi: nat)
    requires d > 0 && lo <= hi <= |v| && forall b | lo <= b < hi :: b % d != t
    ensures StridedSum(v, t, d, hi) == StridedSum(v, t, d, lo)
  {
    if lo < hi {
      StridedSkip(v, t, d, lo, hi - 1);
    }
  }

  function Min(a: nat, b: nat): nat { if a <= b then a else b }

  lemma StridedStart(v: seq<real>, t: nat, d: nat)
    requires t < d
    ensures StridedSum(v, t, d, Min(t, |v|)) == 0.0
  {
    forall b | 0 <= b < Min(t, |v|) ensures b % d != t { SmallMod(b, d); }
    StridedSkip(v, t, d, 0, Min(t, |v|));
  }

  lemma StridedStep(v: seq<real>, t: nat, d: nat, b: nat)
    requires d > 0 && b < |v| && b % d == t
    ensures StridedSum(v, t, d, Min(b + d, |v|)) == StridedSum(v, t, d, b) + v[b]
  {
    forall i | b + 1 <= i < Min(b + d, |v|) ensures i % d != t {
      if i % d == t { SameRemainderApart(b, i, d); }
    }
    StridedSkip(v, t, d, b + 1, Min(b + d, |v|));
  }

  method PartialSums(h: seq<nat>, length: nat, term: Term, partial: array<real>, threads: nat)
    requires |h| == BINS && 0 < threads <= BINS && threads <= partial.Length && length > 0
    modifies partial
    ensures forall t | 0 <= t < threads ::
              partial[t] == StridedSum(Contributions(h, length, term), t, threads, BINS)
  {
    hide Pending, Indices, StridedSum, Wrap;
    ghost var v := Contributions(h, length, term);
    var next: seq<nat> := Starts(threads);
    var sums := seq(threads, t requires 0 <= t < threads => 0.0);
    ghost var todo := Indices(BINS);
    PendingStart(threads, BINS);
    forall t | 0 <= t < threads ensures 0.0 == StridedSum(v, t, threads, Min(next[t], BINS)) {
      StridedStart(v, t, threads);
    }
    var running := Indices(threads);
    while exists t :: 0 <= t < threads && t in running
      invariant |next| == |sums| == threads && Pending(todo, next, BINS)
      invariant forall t | 0 <= t < threads :: sums[t] == StridedSum(v, t, threads, Min(next[t], BINS))
      invariant forall t | 0 <= t < threads && t !in running :: next[t] >= BINS && partial[t] == sums[t]
      decreases todo, running
    {
      var t :| 0 <= t < threads && t in running;
      if next[t] < BINS {
        PendingStep(todo, next, BINS, t);
        StridedStep(v, t, threads, next[t]);
        var count := h[next[t]];
        if count > 0 {
          sums := sums[t := sums[t] - term(count, length)];
        }
        todo := todo - {next[t]};
        next := next[t := Wrap(next[t] + threads)];
      } else {
        partial[t] := sums[t];
        running := running - {t};
      }
    }
  }

  /** Summing the threads' sums is summing the bins. */
  lemma {:induction false} StridedSumsAddUp(v: seq<real>, d: nat, n: nat)
    requires d > 0 && n <= |v|
    ensures Sum(seq(d, t requires 0 <= t < d => StridedSum(v, t, d, n))) == Sum(v[..n])
  {
    var sums := seq(d, t requires 0 <= t < d => StridedSum(v, t, d, n));
    if n == 0 {
      SumOfZeros(sums);
    } else {
      StridedSumsAddUp(v, d, n - 1);
      var before := seq(d, t requires 0 <= t < d => StridedSum(v, t, d, n - 1));
      var mine := (n - 1) % d;
      assert sums == before[mine := before[mine] + v[n - 1]];
      SumUpdate(before, mine, before[mine] + v[n - 1]);
      SumSnoc(v, n - 1);
    }
  }

  lemma {:induction false} SumOfZeros(v: seq<real>)
    requires forall i | 0 <= i < |v| :: v[i] == 0.0
    ensures Sum(v) == 0.0
  {
    if v != [] {
      SumOfZeros(v[..|v| - 1]);
    }
  }

  lemma {:induction false} SumUpdate(v: seq<real>, i: nat, x: real)
    requires i < |v|
    ensures Sum(v[i := x]) == Sum(v) - v[i] + x
  {
    var front := v[..|v| - 1];
    if i < |front| {
      SumUpdate(front, i, x);
      assert v[i := x][..|v| - 1] == front[i := x];
    } else {
      assert v[i := x][..|v| - 1] == front;
    }
  }

  // --- phase 4: tree reduction ---

  /** The lower half after one halving step. */
  function Halved(v: seq<real>, stride: nat): (r: seq<real>)
    requires |v| == 2 * stride
    ensures |r| == stride && forall t | 0 <= t < stride :: r[t] == v[t] + v[t + stride]
  {
    seq(stride, t requires 0 <= t < stride => v[t] + v[t + stride])
  }

  lemma HalvedIsPairwise(lower: seq<real>, upper: seq<real>)
    requires |lower| == |upper|
    ensures Halved(lower + upper, |lower|) == Pairwise(lower, upper)
  {}

  lemma HalvedSum(v: seq<real>, stride: nat)
    requires |v| == 2 * stride
    ensures Sum(Halved(v, stride)) == Sum(v)
  {
    hide Sum;
    var lower, upper := v[..stride], v[stride..];
    PairSums(lower, upper);
    SumAppend(lower, upper);
    assert v == lower + upper;
    HalvedIsPairwise(lower, upper);
  }

  function Pairwise(a: seq<real>, b: seq<real>): (r: seq<real>)
    requires |a| == |b|
    ensures |r| == |a| && forall i | 0 <= i < |a| :: r[i] == a[i] + b[i]
  {
    seq(|a|, i requires 0 <= i < |a| => a[i] + b[i])
  }

  lemma {:induction false} PairSums(a: seq<real>, b: seq<real>)
    requires |a| == |b|
    ensures Sum(Pairwise(a, b)) == Sum(a) + Sum(b)
  {
    if a != [] {
      var n := |a| - 1;
      PairSums(a[..n], b[..n]);
      assert Pairwise(a, b)[..n] == Pairwise(a[..n], b[..n]);
    }
  }

  lemma {:induction false} SumAppend(a: seq<real>, b: seq<real>)
    ensures Sum(a + b) == Sum(a) + Sum(b)
  {
    if b == [] {
      assert a + b == a;
    } else {
      SumAppend(a, b[..|b| - 1]);
      assert (a + b)[..|a + b| - 1] == a + b[..|b| - 1];
    }
  }

  /** Where a thread is between two barriers: it loads both cells, then stores the sum. */
  datatype Lane = Waiting | Loaded(sum: real) | Stored

  predicate LaneOk(lane: Lane, lower: real, upper: real, cell: real) {
    match lane
    case Waiting => cell == lower
    case Loaded(sum) => cell == lower && sum == lower + upper
    case Stored => cell == lower + upper
  }

  ghost predicate LanesOk(lanes: seq<Lane>, lower: seq<real>, upper: seq<real>, cells: seq<real>) {
    && |lanes| == |lower| == |upper| == |cells|
    && forall t | 0 <= t < |lanes| :: LaneOk(lanes[t], lower[t], upper[t], cells[t])
  }

  /** Steps the lanes still have to take: two each, a load and a store. */
  function StepsLeft(lanes: seq<Lane>): nat {
    if lanes == [] then 0
    else StepsLeft(lanes[..|lanes| - 1]) + match lanes[|lanes| - 1] { case Waiting => 2 case Loaded(_) => 1 case Stored => 0 }
  }

  lemma {:induction false} OneStepFewer(lanes: seq<Lane>, t: nat, lane: Lane)
    requires t < |lanes|
    requires (lanes[t].Waiting? && lane.Loaded?) || (lanes[t].Loaded? && lane.Stored?)
    ensures StepsLeft(lanes[t := lane]) < StepsLeft(lanes)
  {
    var n := |lanes| - 1;
    if t < n {
      OneStepFewer(lanes[..n], t, lane);
      assert lanes[t := lane][..n] == lanes[..n][t := lane];
    } else {
      assert lanes[t := lane][..n] == lanes[..n];
    }
  }

  /** Loading, then storing, keeps what each lane stands for: no lane reads a cell another one writes. */
  lemma LaneSteps(lanes: seq<Lane>, lower: seq<real>, upper: seq<real>, cells: seq<real>, t: nat)
    requires LanesOk(lanes, lower, upper, cells) && t < |lanes|
    ensures lanes[t].Waiting? ==> LanesOk(lanes[t := Loaded(cells[t] + upper[t])], lower, upper, cells)
    ensures lanes[t].Loaded? ==> LanesOk(lanes[t := Stored], lower, upper, cells[t := lanes[t].sum])
  {
    assert LaneOk(lanes[t], lower[t], upper[t], cells[t]);
  }

  /** One halving step. A thread's load and store are separate steps of the schedule; threads at or above
      the stride only reach the barrier. */
  method HalvingStep(partial: array<real>, stride: nat)
    requires 0 < stride && 2 * stride <= partial.Length
    modifies partial
    ensures partial[..stride] == Halved(old(partial[..2 * stride]), stride)
  {
    hide StepsLeft, LanesOk, Halved;
    ghost var lower, upper := partial[..stride], partial[stride..2 * stride];
    assert old(partial[..2 * stride]) == lower + upper;
    var lanes := seq(stride, t requires 0 <= t < stride => Waiting);
    LanesStart(lanes, lower, upper);
    while exists t :: 0 <= t < stride && lanes[t] != Stored
      invariant LanesOk(lanes, lower, upper, partial[..stride]) && |lanes| == stride
      invariant partial[stride..2 * stride] == upper
      decreases StepsLeft(lanes)
    {
      var t :| 0 <= t < stride && lanes[t] != Stored;
      ghost var cells := partial[..stride];
      assert partial[t] == cells[t] && partial[t + stride] == upper[t] by {
        assert partial[t + stride] == partial[stride..2 * stride][t];
      }
      LaneSteps(lanes, lower, upper, cells, t);
      if lanes[t].Waiting? {
        OneStepFewer(lanes, t, Loaded(partial[t] + partial[t + stride]));
        lanes := lanes[t := Loaded(partial[t] + partial[t + stride])];
      } else {
        OneStepFewer(lanes, t, Stored);
        partial[t] := lanes[t].sum;
        assert partial[..stride] == cells[t := lanes[t].sum];
        lanes := lanes[t := Stored];
      }
    }
    LanesDone(lanes, lower, upper, partial[..stride]);
  }

  lemma LanesStart(lanes: seq<Lane>, lower: seq<real>, upper: seq<real>)
    requires |lanes| == |lower| == |upper| && forall t | 0 <= t < |lanes| :: lanes[t] == Waiting
    ensures LanesOk(lanes, lower, upper, lower)
  {
  }

  lemma LanesDone(lanes: seq<Lane>, lower: seq<real>, upper: seq<real>, cells: seq<real>)
    requires LanesOk(lanes, lower, upper, cells)
    requires forall t | 0 <= t < |lanes| :: lanes[t] == Stored
    ensures cells == Pairwise(lower, upper) == Halved(lower + upper, |lower|)
  {
    forall t | 0 <= t < |cells| ensures cells[t] == lower[t] + upper[t] {
      assert LaneOk(lanes[t], lower[t], upper[t], cells[t]);
    }
  }

  method TreeReduce(partial: array<real>, threads: nat)
    requires PowerOfTwo(threads) && threads <= partial.Length
    modifies partial
    ensures partial[0] == Sum(old(partial[..threads]))
  {
    var stride := threads / 2;
    ghost var width: nat := threads;
    while stride > 0
      invariant PowerOfTwo(width) && stride == width / 2 && width <= threads
      invariant Sum(partial[..width]) == Sum(old(partial[..threads]))
      decreases stride
    {
      HalvedSum(partial[..width], stride);
      HalvingStep(partial, stride);
      width := stride;
      stride := stride / 2;
    }
    assert partial[..1][..0] == [];
  }

  /** The whole kernel, for the payload of `length` bytes at `offset`. */
  method PayloadEntropy(buffer: seq<Byte>, offset: nat, length: nat, term: Term, threads: nat) returns (entropy: real)
    requires ValidGroup(threads) && InBuffer(buffer, offset, length) && length + threads <= UINT32_RANGE
    ensures entropy == Shannon(Window(buffer, offset, length), term)
  {
    hide KernelAddress, Histogram, Contributions, StridedSum;
    var histogram := new nat[BINS];
    var partial := new real[BINS];
    ghost var data := Window(buffer, offset, length);
    ClearBins(histogram, threads);
    CountBytes(buffer, offset, length, histogram, threads);
    if length > 0 {
      PartialSums(histogram[..], length, term, partial, threads);
      ghost var v := Contributions(Histogram(data), length, term);
      assert partial[..threads] == seq(threads, t requires 0 <= t < threads => StridedSum(v, t, threads, BINS));
      StridedSumsAddUp(v, threads, BINS);
      assert v[..BINS] == v;
    } else {
      for t := 0 to threads
        invariant forall u | 0 <= u < t :: partial[u] == 0.0
      {
        partial[t] := 0.0;
      }
      SumOfZeros(partial[..threads]);
    }
    TreeReduce(partial, threads);
    entropy := partial[0];
  }
}
