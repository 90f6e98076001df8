/** The activity counters of the session slabs and their report to a daemon, in 64-bit arithmetic. */
module ActivityReport {

  // ---------------------------------------------------------------- byte order

  /** htonl and ntohl on a little-endian machine. */
  function Swap32(w: bv32): bv32 {
    (w << 24) | ((w << 8) & 0xFF0000) | ((w >> 8) & 0xFF00) | (w >> 24)
  }

  function Low(x: bv64): bv32 {
    (x & 0xFFFFFFFF) as bv32
  }

  function High(x: bv64): bv32 {
    (x >> 32) as bv32
  }

  function Join(h: bv32, l: bv32): bv64 {
    ((h as bv64) << 32) | (l as bv64)
  }

  /** htonll and ntohll: swap each half and exchange the halves. */
  function Swap64(x: bv64): bv64 {
    Join(Swap32(Low(x)), Swap32(High(x)))
  }

  lemma JoinParts(h: bv32, l: bv32)
    ensures High(Join(h, l)) == h && Low(Join(h, l)) == l
  {
  }

  lemma PartsJoin(x: bv64)
    ensures Join(High(x), Low(x)) == x
  {
  }

  lemma Swap32Twice(w: bv32)
    ensures Swap32(Swap32(w)) == w
  {
  }

  /** What one end packs the other unpacks; the swap is its own inverse, and so a bijection. */
  lemma SwapTwice(x: bv64)
    ensures Swap64(Swap64(x)) == x
  {
    JoinParts(Swap32(Low(x)), Swap32(High(x)));
    Swap32Twice(Low(x));
    Swap32Twice(High(x));
    PartsJoin(x);
  }

  // ---------------------------------------------------------------- the counters

  /** The operations counted on a slab since the last round, and its counter. */
  datatype Sample = Sample(writeOps: bv64, readOps: bv64, last: bv64)

  /** rdma_trigger's moving average, with RDMA_W_WEIGHT of 50 and RDMA_CUR_WEIGHT of 80. */
  function Filtered(s: Sample): bv64 {
    80 * (50 * s.writeOps + 50 * s.readOps) + 20 * s.last
  }

  /** Every counter is a multiple of four. */
  predicate Counter(x: bv64) {
    x & 3 == 0
  }

  lemma WeightsFourfold(x: bv64, y: bv64)
    ensures (80 * x + 20 * y) & 3 == 0
  {
  }

  /** Both weights are multiples of four and so is 2^64: however the sum wraps around, so is the
      counter. */
  lemma FilteredIsCounter(s: Sample)
    ensures Counter(Filtered(s))
  {
    WeightsFourfold(50 * s.writeOps + 50 * s.readOps, s.last);
  }

  function FilteredAll(samples: seq<Sample>): (r: seq<bv64>)
    ensures |r| == |samples|
  {
    if samples == [] then []
    else
      var s := samples[|samples| - 1];
      FilteredAll(samples[..|samples| - 1]) + [Filtered(s)]
  }

  /** After any number of operations, and from any state, a round leaves multiples of four. */
  lemma {:induction false} FilteredAllCounters(samples: seq<Sample>)
    ensures forall i :: 0 <= i < |samples| ==> Counter(FilteredAll(samples)[i])
  {
    if samples != [] {
      var s := samples[|samples| - 1];
      FilteredAllCounters(samples[..|samples| - 1]);
      FilteredIsCounter(s);
    }
  }

  /** Modulo 2^64 as all arithmetic here: reads and writes now count alike, and together four times as much as
      what was there before. */
  ghost predicate Weighted(s: Sample, x: bv64) {
    x == 80 * (50 * s.writeOps + 50 * s.readOps) + 20 * s.last
  }

  lemma FilteredIsWeighted(s: Sample)
    ensures Weighted(s, Filtered(s))
  {
  }

  /** Element by element. */
  lemma {:induction false} FilteredAllWeighted(samples: seq<Sample>)
    ensures forall i :: 0 <= i < |samples| ==> Weighted(samples[i], FilteredAll(samples)[i])
  {
    if samples != [] {
      FilteredAllWeighted(samples[..|samples| - 1]);
      FilteredIsWeighted(samples[|samples| - 1]);
    }
  }

  /** One round of rdma_trigger over the counters. */
  method TriggerRound(samples: seq<Sample>) returns (next: seq<bv64>)
    ensures |next| == |samples| && forall i :: 0 <= i < |next| ==> Weighted(samples[i], next[i])
    ensures forall i :: 0 <= i < |next| ==> Counter(next[i])
  {
    FilteredAllCounters(samples);
    FilteredAllWeighted(samples);
    next := [];
    var i := 0;
    while i < |samples|
      invariant 0 <= i <= |samples| && next == FilteredAll(samples[..i])
    {
      assert samples[..i + 1][..i] == samples[..i];
      next := next + [Filtered(samples[i])];
      i := i + 1;
    }
    assert samples[..i] == samples;
  }

  // ---------------------------------------------------------------- the report

  /** The entry of a slot: zero when it is not mapped. */
  function Entry(b: int, last: seq<bv64>): bv64
    requires -1 <= b < |last|
  {
    if b == -1 then 0 else Swap64(last[b] + 1)
  }

  lemma SuccessorNotZero(x: bv64)
    requires Counter(x)
    ensures x + 1 != 0
  {
  }

  lemma SwapZero()
    ensures Swap64(0) == 0
  {
  }

  lemma EntryFacts(b: int, last: seq<bv64>)
    requires -1 <= b < |last| && (b != -1 ==> Counter(last[b]))
    ensures Entry(b, last) != 0 <==> b != -1
    ensures b != -1 ==> Swap64(Entry(b, last)) == last[b] + 1
  {
    if b != -1 {
      SuccessorNotZero(last[b]);
      SwapTwice(last[b] + 1);
      SwapZero();
    }
  }

  function Report(chunkMap: seq<int>, last: seq<bv64>): (buf: seq<bv64>)
    requires forall i :: 0 <= i < |chunkMap| ==> -1 <= chunkMap[i] < |last|
    ensures |buf| == |chunkMap|
  {
    if chunkMap == [] then []
    else Report(chunkMap[..|chunkMap| - 1], last) + [Entry(chunkMap[|chunkMap| - 1], last)]
  }

  lemma {:induction false} ReportAt(chunkMap: seq<int>, last: seq<bv64>, i: nat)
    requires forall i :: 0 <= i < |chunkMap| ==> -1 <= chunkMap[i] < |last|
    requires i < |chunkMap|
    ensures Report(chunkMap, last)[i] == Entry(chunkMap[i], last)
  {
    if i < |chunkMap| - 1 {
      ReportAt(chunkMap[..|chunkMap| - 1], last, i);
    }
  }

  /** IS_send_activity. */
  method SendActivity(chunkMap: seq<int>, last: seq<bv64>) returns (buf: seq<bv64>)
    requires forall i :: 0 <= i < |chunkMap| ==> -1 <= chunkMap[i] < |last|
    ensures buf == Report(chunkMap, last)
  {
    buf := [];
    var i := 0;
    while i < |chunkMap|
      invariant 0 <= i <= |chunkMap| && buf == Report(chunkMap[..i], last)
    {
      assert chunkMap[..i + 1][..i] == chunkMap[..i];
      buf := buf + [Entry(chunkMap[i], last)];
      i := i + 1;
    }
    assert chunkMap[..i] == chunkMap;
  }

  /** A report has a nonzero entry for exactly the mapped slots, and the daemon decodes it to one more
      than the slab's counter: adding one never wraps around to zero. */
  lemma ReportIsExact(chunkMap: seq<int>, last: seq<bv64>, i: nat)
    requires forall j :: 0 <= j < |chunkMap| ==> -1 <= chunkMap[j] < |last|
    requires forall b :: 0 <= b < |last| ==> Counter(last[b])
    requires i < |chunkMap|
    ensures Report(chunkMap, last)[i] != 0 <==> chunkMap[i] != -1
    ensures chunkMap[i] != -1 ==> Swap64(Report(chunkMap, last)[i]) == last[chunkMap[i]] + 1
  {
    ReportAt(chunkMap, last, i);
    EntryFacts(chunkMap[i], last);
  }
}
