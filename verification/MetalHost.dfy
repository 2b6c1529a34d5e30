/** The host side of the GPU path: packing payloads into pooled buffers, and who owns a buffer set while
    a dispatch may still be running. Metal's own calls appear as their possible outcomes. */
module MetalHost {
  import opened Packets
  import opened Arithmetic
  import opened Entropy
  import opened EntropyKernel
  import opened Sequences

  // --- buffers ---

  /** A shared buffer of `T`s and its capacity in bytes; `None` before it is allocated. */
  datatype Buffer<T> = Buffer(contents: Option<seq<T>>, capacity: nat)

  predicate BufferOk<T>(b: Buffer<T>, elementBytes: nat) {
    elementBytes > 0 && match b.contents
                        case None => b.capacity == 0
                        case Some(c) => |c| == b.capacity / elementBytes
  }

  function Max3(a: nat, b: nat, c: nat): (m: nat)
    ensures m >= a && m >= b && m >= c && (m == a || m == b || m == c)
  {
    if a >= b && a >= c then a else if b >= c then b else c
  }

  /** `ensure_capacity`: `allocates` is whether Metal has the memory, `garbage` what it left in it. */
  method EnsureCapacity<T>(b: Buffer<T>, elementBytes: nat, count: nat, allocates: bool, garbage: nat -> T)
    returns (r: Buffer<T>, ok: bool)
    requires BufferOk(b, elementBytes)
    ensures BufferOk(r, elementBytes)
    ensures ok <==> r.contents.Some?
    ensures ok ==> |r.contents.value| >= count
    ensures b.contents.Some? && b.capacity >= count * elementBytes ==> ok && r == b
    ensures ok && r != b ==> r.capacity >= 2 * b.capacity && r.capacity >= 4096
    ensures ok && r != b ==> r.capacity in {count * elementBytes, 2 * b.capacity, 4096}
    ensures !ok ==> !allocates
  {
    var needed := count * elementBytes;
    if b.contents.Some? && b.capacity >= needed {
      QuotientAtLeast(b.capacity, elementBytes, count);
      return b, true;
    }
    var grown := Max3(needed, b.capacity * 2, 4096);
    if !allocates {
      return Buffer(None, 0), false;
    }
    QuotientAtLeast(grown, elementBytes, count);
    return Buffer(Some(seq(grown / elementBytes, garbage)), grown), true;
  }

  lemma QuotientAtLeast(x: nat, d: nat, q: nat)
    requires d > 0 && x >= q * d
    ensures x / d >= q
  {
    var gap := x / d - q;
    assert x == d * (x / d) + x % d;
    if gap < 0 {
      assert d * (x / d) + d <= d * q by { MulLess(x / d, q, d); }
    }
  }

  lemma MulLess(a: nat, b: nat, d: nat)
    requires a < b
    ensures d * a + d <= d * b
  {
    assert d * b == d * a + d * (b - a);
    assert b - a >= 1;
  }

  /** The largest power of two up to 256 that the pipeline allows. */
  method GroupSize(maxThreads: nat) returns (threads: nat)
    requires maxThreads >= 1
    ensures ValidGroup(threads) && threads <= maxThreads
    ensures threads in {1, 2, 4, 8, 16, 32, 64, 128, 256}
    ensures threads < 256 ==> 2 * threads > maxThreads
  {
    threads := 256;
    while threads > maxThreads
      invariant ValidGroup(threads) && (threads < 256 ==> 2 * threads > maxThreads)
    {
      threads := threads / 2;
    }
    GroupSizes(threads);
  }

  // --- packing ---

  function TotalBytes(payloads: seq<seq<Byte>>): nat {
    if payloads == [] then 0 else TotalBytes(payloads[..|payloads| - 1]) + |payloads[|payloads| - 1]|
  }

  /** What the kernel reads for payload `i`, with its 32-bit arithmetic, is exactly payload `i`. */
  ghost predicate SliceOk(payloads: seq<seq<Byte>>, data: seq<Byte>, offsets: seq<nat>, lengths: seq<nat>, i: nat)
    requires i < |payloads|
  {
    && i < |offsets| && i < |lengths|
    && InBuffer(data, offsets[i], lengths[i])
    && Window(data, offsets[i], lengths[i]) == payloads[i]
  }

  ghost predicate Packed(payloads: seq<seq<Byte>>, data: seq<Byte>, offsets: seq<nat>, lengths: seq<nat>) {
    forall i | 0 <= i < |payloads| :: SliceOk(payloads, data, offsets, lengths, i)
  }

  lemma {:induction false} PrefixBytes(payloads: seq<seq<Byte>>, i: nat)
    requires i < |payloads|
    ensures TotalBytes(payloads[..i]) + |payloads[i]| == TotalBytes(payloads[..i + 1]) <= TotalBytes(payloads)
  {
    assert payloads[..i + 1][..i] == payloads[..i];
    if i + 1 < |payloads| {
      var front := payloads[..|payloads| - 1];
      PrefixBytes(front, i);
      assert front[..i + 1] == payloads[..i + 1];
    } else {
      assert payloads[..i + 1] == payloads;
    }
  }

  /** Where the packing loop puts payload `i`. */
  function StartOf(payloads: seq<seq<Byte>>, i: nat): nat
    requires i <= |payloads|
  {
    TotalBytes(payloads[..i])
  }

  ghost predicate PlacedAt(payloads: seq<seq<Byte>>, data: seq<Byte>, i: nat)
    requires i < |payloads|
  {
    var start, size := StartOf(payloads, i), |payloads[i]|;
    start + size <= |data| && data[start..start + size] == payloads[i]
  }

  /** The first `n` payloads lie one after the other. */
  ghost predicate Placed(payloads: seq<seq<Byte>>, data: seq<Byte>, n: nat)
    requires n <= |payloads|
  {
    forall i | 0 <= i < n :: PlacedAt(payloads, data, i)
  }

  /** What the 32-bit casts leave of the first `n` starts and sizes. */
  ghost predicate Cast(payloads: seq<seq<Byte>>, offsets: seq<nat>, lengths: seq<nat>, n: nat)
    requires n <= |payloads|
  {
    && n <= |offsets| && n <= |lengths|
    && forall i | 0 <= i < n ::
         offsets[i] == Wrap(StartOf(payloads, i)) && lengths[i] == Wrap(|payloads[i]|)
  }

  function Spliced(data: seq<Byte>, offset: nat, payload: seq<Byte>): (r: seq<Byte>)
    requires offset + |payload| <= |data|
    ensures |r| == |data|
  {
    data[..offset] + payload + data[offset + |payload|..]
  }

  lemma {:induction false} StartsInOrder(payloads: seq<seq<Byte>>, i: nat, n: nat)
    requires i < n <= |payloads|
    ensures StartOf(payloads, i) + |payloads[i]| <= StartOf(payloads, n)
  {
    hide TotalBytes;
    PrefixBytes(payloads, n - 1);
    if i < n - 1 {
      StartsInOrder(payloads, i, n - 1);
    }
  }

  lemma SlicesAgree(a: seq<Byte>, b: seq<Byte>, n: nat, from: nat, to: nat)
    requires from <= to <= n <= |a| && n <= |b| && a[..n] == b[..n]
    ensures a[from..to] == b[from..to]
  {
    assert forall k | 0 <= k < n :: a[..n][k] == b[..n][k];
  }

  /** Appending one payload leaves the earlier ones alone. */
  lemma PlaceOne(payloads: seq<seq<Byte>>, data: seq<Byte>, i: nat)
    requires i < |payloads| && StartOf(payloads, i) + |payloads[i]| <= |data|
    requires Placed(payloads, data, i)
    ensures Placed(payloads, Spliced(data, StartOf(payloads, i), payloads[i]), i + 1)
  {
    hide StartOf;
    var start := StartOf(payloads, i);
    var data' := Spliced(data, start, payloads[i]);
    forall j | 0 <= j < i + 1 ensures PlacedAt(payloads, data', j) {
      if j < i {
        StartsInOrder(payloads, j, i);
        assert PlacedAt(payloads, data, j);
        assert data'[..start] == data[..start];
        SlicesAgree(data, data', start, StartOf(payloads, j), StartOf(payloads, j) + |payloads[j]|);
      } else {
        assert data'[start..start + |payloads[i]|] == payloads[i];
      }
    }
  }

  /** The packing loop, whatever an earlier dispatch left in the buffers: every payload is copied to its
      place, and its start and size are stored modulo the 32-bit range. */
  method PackPayloads(payloads: seq<seq<Byte>>, data: seq<Byte>, offsets: seq<nat>, lengths: seq<nat>)
    returns (data': seq<Byte>, offsets': seq<nat>, lengths': seq<nat>)
    requires TotalBytes(payloads) <= |data| && |payloads| <= |offsets| && |payloads| <= |lengths|
    ensures |data'| == |data| && |offsets'| == |offsets| && |lengths'| == |lengths|
    ensures Placed(payloads, data', |payloads|) && Cast(payloads, offsets', lengths', |payloads|)
    ensures InRange(payloads) ==> Packed(payloads, data', offsets', lengths')
    ensures |Concat(payloads)| <= |data'| && data'[..|Concat(payloads)|] == Concat(payloads)
    ensures data'[|Concat(payloads)|..] == data[|Concat(payloads)|..]
  {
    hide Concat, Placed, TotalBytes, Packed, InRange;
    data', offsets', lengths' := data, offsets, lengths;
    var offset: nat := 0;
    NothingPacked(payloads, data);
    for i := 0 to |payloads|
      invariant |data'| == |data| && |offsets'| == |offsets| && |lengths'| == |lengths|
      invariant offset == StartOf(payloads, i) <= TotalBytes(payloads)
      invariant Placed(payloads, data', i) && Cast(payloads, offsets', lengths', i)
      invariant data'[offset..] == data[offset..]
    {
      var size := |payloads[i]|;
      PrefixBytes(payloads, i);
      PlaceOne(payloads, data', i);
      offsets' := offsets'[i := Wrap(offset)];
      lengths' := lengths'[i := Wrap(size)];
      assert size == 0 ==> Spliced(data', offset, payloads[i]) == data';
      if size > 0 {
        data' := Spliced(data', offset, payloads[i]);
      }
      offset := offset + size;
    }
    InRangeIsPacked(payloads, data', offsets', lengths');
    PlacedIsConcat(payloads, data');
    EndIsTotal(payloads);
    TotalIsConcat(payloads);
  }

  /** Payloads in their places are the payloads end to end. */
  lemma {:induction false} PlacedIsConcat(payloads: seq<seq<Byte>>, data: seq<Byte>)
    requires TotalBytes(payloads) <= |data| && Placed(payloads, data, |payloads|)
    ensures |Concat(payloads)| == TotalBytes(payloads) && data[..|Concat(payloads)|] == Concat(payloads)
  {
    if payloads != [] {
      var n := |payloads| - 1;
      var front := payloads[..n];
      LastPlaced(payloads, data);
      hide Placed, TotalBytes;
      PlacedIsConcat(front, data);
      var start := TotalBytes(front);
      assert data[..start + |payloads[n]|] == data[..start] + data[start..start + |payloads[n]|];
    }
  }

  lemma LastPlaced(payloads: seq<seq<Byte>>, data: seq<Byte>)
    requires payloads != [] && Placed(payloads, data, |payloads|)
    ensures var n := |payloads| - 1;
            var start := TotalBytes(payloads[..n]);
            && Placed(payloads[..n], data, n)
            && TotalBytes(payloads) == start + |payloads[n]| <= |data|
            && data[start..start + |payloads[n]|] == payloads[n]
  {
    var n := |payloads| - 1;
    assert PlacedAt(payloads, data, n);
    hide TotalBytes;
    forall i | 0 <= i < n ensures PlacedAt(payloads[..n], data, i) {
      assert PlacedAt(payloads, data, i) && payloads[..n][..i] == payloads[..i];
    }
    PrefixBytes(payloads, n);
    assert payloads[..n + 1] == payloads;
  }

  lemma {:induction false} TotalIsConcat(payloads: seq<seq<Byte>>)
    ensures TotalBytes(payloads) == |Concat(payloads)|
  {
    if payloads != [] {
      TotalIsConcat(payloads[..|payloads| - 1]);
    }
  }

  lemma NothingPacked(payloads: seq<seq<Byte>>, data: seq<Byte>)
    ensures StartOf(payloads, 0) == 0 && Placed(payloads, data, 0)
  {}

  // --- exactly when the kernel's 32-bit addresses are the right ones ---

  /** All bytes together fit in the 32-bit range, and no single payload fills it. */
  predicate InRange(payloads: seq<seq<Byte>>) {
    TotalBytes(payloads) <= UINT32_RANGE && forall p <- payloads :: |p| < UINT32_RANGE
  }

  /** The kernel adds a 32-bit offset and a 32-bit index: does payload `i` come out byte for byte? */
  ghost predicate AddressedExactly(payloads: seq<seq<Byte>>, i: nat)
    requires i < |payloads|
  {
    var start, size := StartOf(payloads, i), |payloads[i]|;
    && Wrap(size) == size
    && forall j: nat | j < size :: KernelAddress(Wrap(start), j) == start + j
  }

  lemma InRangeIsPacked(payloads: seq<seq<Byte>>, data: seq<Byte>, offsets: seq<nat>, lengths: seq<nat>)
    requires Placed(payloads, data, |payloads|) && Cast(payloads, offsets, lengths, |payloads|)
    ensures InRange(payloads) ==> Packed(payloads, data, offsets, lengths)
  {
    hide TotalBytes, StartOf, SliceOk, AddressedExactly, InRange;
    if InRange(payloads) {
      ExactIffInRange(payloads);
      forall i | 0 <= i < |payloads| ensures SliceOk(payloads, data, offsets, lengths, i) {
        SliceFromPlace(payloads, data, offsets, lengths, i);
      }
    }
  }

  lemma StartInRange(payloads: seq<seq<Byte>>, i: nat)
    requires i < |payloads|
    ensures StartOf(payloads, i) + |payloads[i]| <= TotalBytes(payloads)
  {
    PrefixBytes(payloads, i);
  }

  lemma SliceFromPlace(payloads: seq<seq<Byte>>, data: seq<Byte>, offsets: seq<nat>, lengths: seq<nat>, i: nat)
    requires i < |payloads| && PlacedAt(payloads, data, i) && Cast(payloads, offsets, lengths, |payloads|)
    requires AddressedExactly(payloads, i)
    ensures SliceOk(payloads, data, offsets, lengths, i)
  {
    hide TotalBytes, StartOf, KernelAddress, Wrap;
    var start, size := StartOf(payloads, i), |payloads[i]|;
    forall j: nat | j < size ensures KernelAddress(offsets[i], j) == start + j < |data| && data[start + j] == payloads[i][j] {
      assert data[start..start + size][j] == payloads[i][j];
    }
    assert InBuffer(data, offsets[i], size);
  }

  lemma {:induction false} LastByteIsLast(payloads: seq<seq<Byte>>, n: nat)
    requires n <= |payloads|
    ensures StartOf(payloads, n) > 0 ==>
              exists i: nat :: i < n && |payloads[i]| > 0 && StartOf(payloads, i) + |payloads[i]| == StartOf(payloads, n)
  {
    hide TotalBytes;
    if n > 0 {
      PrefixBytes(payloads, n - 1);
      if payloads[n - 1] == [] {
        LastByteIsLast(payloads, n - 1);
      }
    } else {
      assert StartOf(payloads, 0) == 0 by { NothingPacked(payloads, []); }
    }
  }

  lemma ExactInRange(payloads: seq<seq<Byte>>, i: nat)
    requires i < |payloads| && StartOf(payloads, i) + |payloads[i]| <= UINT32_RANGE && |payloads[i]| < UINT32_RANGE
    ensures AddressedExactly(payloads, i)
  {
    hide TotalBytes, StartOf;
    var start := StartOf(payloads, i);
    forall j: nat | j < |payloads[i]| ensures KernelAddress(Wrap(start), j) == start + j {
      SmallMod(start, UINT32_RANGE);
      SmallMod(start + j, UINT32_RANGE);
    }
  }

  lemma ExactOnlyInRange(payloads: seq<seq<Byte>>, i: nat)
    requires i < |payloads| && AddressedExactly(payloads, i)
    ensures |payloads[i]| < UINT32_RANGE
    ensures payloads[i] != [] ==> StartOf(payloads, i) + |payloads[i]| <= UINT32_RANGE
  {
    hide TotalBytes, StartOf;
    var start, size := StartOf(payloads, i), |payloads[i]|;
    if size > 0 {
      assert KernelAddress(Wrap(start), size - 1) == start + (size - 1);
    }
  }

  /** The kernel addresses every payload right exactly when all bytes together fit in the 32-bit range and
      no single payload fills it. */
  lemma ExactIffInRange(payloads: seq<seq<Byte>>)
    ensures (forall i | 0 <= i < |payloads| :: AddressedExactly(payloads, i)) <==> InRange(payloads)
    ensures InRange(payloads) <==>
            |Concat(payloads)| <= 0x1_0000_0000 && forall p <- payloads :: |p| < 0x1_0000_0000
  {
    TotalIsConcat(payloads);
    hide Concat;
    hide TotalBytes, StartOf, AddressedExactly;
    EndIsTotal(payloads);
    if forall i | 0 <= i < |payloads| :: AddressedExactly(payloads, i) {
      forall i | 0 <= i < |payloads| ensures |payloads[i]| < UINT32_RANGE {
        ExactOnlyInRange(payloads, i);
      }
      LastByteIsLast(payloads, |payloads|);
      if StartOf(payloads, |payloads|) > 0 {
        var i: nat :| i < |payloads| && |payloads[i]| > 0 &&
                      StartOf(payloads, i) + |payloads[i]| == StartOf(payloads, |payloads|);
        ExactOnlyInRange(payloads, i);
      }
    }
    if InRange(payloads) {
      forall i | 0 <= i < |payloads| ensures AddressedExactly(payloads, i) {
        StartInRange(payloads, i);
        assert payloads[i] in payloads;
        ExactInRange(payloads, i);
      }
    }
  }

  lemma EndIsTotal(payloads: seq<seq<Byte>>)
    ensures StartOf(payloads, |payloads|) == TotalBytes(payloads)
  {
    assert payloads[..|payloads|] == payloads;
  }

  // --- buffer sets and pending dispatches ---

  class EntropyBufferSet {
    var data: Buffer<Byte>
    var offsets: Buffer<nat>
    var lengths: Buffer<nat>
    var results: Buffer<real>
    /** Whether a committed command that uses these buffers may still be running. */
    ghost var busy: bool
    /** The dispatch holding this set; null in the pool, where `slot` is its place. */
    ghost var owner: PendingGpuEntropy?
    ghost var slot: nat

    constructor ()
      ensures BuffersOk() && !busy && owner == null
    {
      owner := null;
      data, offsets, lengths, results := Buffer(None, 0), Buffer(None, 0), Buffer(None, 0), Buffer(None, 0);
      busy := false;
    }

    ghost predicate BuffersOk()
      reads `data, `offsets, `lengths, `results
    {
      BufferOk(data, 1) && BufferOk(offsets, 4) && BufferOk(lengths, 4) && BufferOk(results, 4)
    }

    ghost predicate Holds(payloads: seq<seq<Byte>>)
      reads `data, `offsets, `lengths, `results
    {
      && data.contents.Some? && offsets.contents.Some? && lengths.contents.Some? && results.contents.Some?
      && |payloads| <= |results.contents.value|
      && Packed(payloads, data.contents.value, offsets.contents.value, lengths.contents.value)
    }

    /** Grows all four buffers; stops at the first that Metal has no memory for. */
    method Grow(bytes: nat, count: nat, allocates: seq<bool>, garbage: nat -> Byte, words: nat -> nat, floats: nat -> real)
      returns (ok: bool)
      requires BuffersOk() && |allocates| == 4
      modifies this
      ensures BuffersOk() && busy == old(busy) && owner == old(owner) && slot == old(slot)
      ensures !ok ==> false in allocates
      ensures ok ==>
                && data.contents.Some? && |data.contents.value| >= bytes
                && offsets.contents.Some? && |offsets.contents.value| >= count
                && lengths.contents.Some? && |lengths.contents.value| >= count
                && results.contents.Some? && |results.contents.value| >= count
    {
      data, ok := EnsureCapacity(data, 1, bytes, allocates[0], garbage);
      if ok {
        offsets, ok := EnsureCapacity(offsets, 4, count, allocates[1], words);
      }
      if ok {
        lengths, ok := EnsureCapacity(lengths, 4, count, allocates[2], words);
      }
      if ok {
        results, ok := EnsureCapacity(results, 4, count, allocates[3], floats);
      }
    }

    method Pack(payloads: seq<seq<Byte>>)
      requires BuffersOk()
      requires data.contents.Some? && |data.contents.value| >= TotalBytes(payloads)
      requires offsets.contents.Some? && |offsets.contents.value| >= |payloads|
      requires lengths.contents.Some? && |lengths.contents.value| >= |payloads|
      requires results.contents.Some? && |results.contents.value| >= |payloads|
      modifies this`data, this`offsets, this`lengths
      ensures BuffersOk()
      ensures InRange(payloads) ==> Holds(payloads)
    {
      var bytes, starts, sizes :=
        PackPayloads(payloads, data.contents.value, offsets.contents.value, lengths.contents.value);
      data, offsets, lengths :=
        data.(contents := Some(bytes)), offsets.(contents := Some(starts)), lengths.(contents := Some(sizes));
    }
  }

  /** A dispatch that may still be running; `finished` and `succeeded` are its command buffer's status. */
  class PendingGpuEntropy {
    const buffers: EntropyBufferSet
    const dispatched: bool  // false when there was nothing to dispatch
    const payloads: seq<seq<Byte>>
    var waited: bool
    var finished: bool
    var succeeded: bool

    constructor (buffers: EntropyBufferSet, dispatched: bool, payloads: seq<seq<Byte>>)
      ensures this.buffers == buffers && this.dispatched == dispatched && this.payloads == payloads
      ensures !waited && !finished && !succeeded
    {
      this.buffers, this.dispatched, this.payloads := buffers, dispatched, payloads;
      waited, finished, succeeded := false, false, false;
    }

    /** While the command may run, its buffers are its own and hold its payloads; once it has succeeded
        they hold its results. */
    ghost predicate Ok(term: Term, threads: nat)
      reads this, buffers
    {
      && buffers.owner == this && buffers.BuffersOk()
      && (buffers.busy <==> dispatched && !finished)
      && (!dispatched ==> payloads == [])
      && (dispatched && waited ==> finished)
      && (dispatched && Fits(payloads, threads) ==> buffers.Holds(payloads))
      && (dispatched ==> buffers.results.contents.Some? && |payloads| <= |buffers.results.contents.value|)
      && (dispatched && succeeded && Fits(payloads, threads) ==> ResultsAre(buffers.results.contents.value, payloads, term))
    }
  }

  /** The kernel can take these payloads: its addresses reach them, and its strided index ends in each. */
  predicate Fits(payloads: seq<seq<Byte>>, threads: nat) {
    InRange(payloads) && forall p <- payloads :: |p| + threads <= UINT32_RANGE
  }

  /** What the host would have to check before a dispatch: that all bytes together, and each payload with one
      stride more, stay in the 32-bit range. */
  lemma FitsIff(payloads: seq<seq<Byte>>, threads: nat)
    requires ValidGroup(threads)
    ensures Fits(payloads, threads) <==>
            |Concat(payloads)| <= 0x1_0000_0000 && forall p <- payloads :: |p| <= 0x1_0000_0000 - threads
  {
    TotalIsConcat(payloads);
    hide Concat, TotalBytes;
  }

  ghost predicate ResultsAre(results: seq<real>, payloads: seq<seq<Byte>>, term: Term) {
    |payloads| <= |results| && forall i | 0 <= i < |payloads| :: results[i] == Shannon(payloads[i], term)
  }

  /** The dispatch grid: one threadgroup per payload, in any order; each has its own shared memory and writes
      only its own result. */
  method RunKernels(data: seq<Byte>, offsets: seq<nat>, lengths: seq<nat>, results: seq<real>,
                    ghost payloads: seq<seq<Byte>>, count: nat, term: Term, threads: nat)
    returns (results': seq<real>)
    requires ValidGroup(threads) && count == |payloads| <= |results|
    requires Packed(payloads, data, offsets, lengths) && Fits(payloads, threads)
    ensures |results'| == |results| && ResultsAre(results', payloads, term)
  {
    hide Shannon, InRange, Window, Wrap, PowerOfTwo;
    results' := results;
    var todo := Indices(count);
    while exists i: nat :: i in todo
      invariant |results'| == |results| && forall i <- todo :: i < count
      invariant forall i | 0 <= i < count && i !in todo :: results'[i] == Shannon(payloads[i], term)
      decreases todo
    {
      var i: nat :| i in todo;
      assert SliceOk(payloads, data, offsets, lengths, i) && payloads[i] in payloads;
      var entropy := PayloadEntropy(data, offsets[i], lengths[i], term, threads);
      results' := results'[i := entropy];
      todo := todo - {i};
    }
  }
}
