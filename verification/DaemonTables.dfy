/** The slab tables of the memory daemon, as values: which slabs are malloced, which connection each
    one is mapped to, and the redundant counters kept beside them. The transitions are the table
    parts of the daemon's handlers; class `Daemon` runs them as loops.
 */
module DaemonTables {
  import opened Counting

  datatype Tables = Tables(
    malloc: seq<bool>,        // malloc_map
    owner: seq<int>,          // conn_map: connection index, or -1
    sizeGb: int,
    mappedSize: int,
    chunkSize: seq<int>)      // mapped_chunk_size of each connection

  predicate Free(t: Tables, i: nat)
    requires i < |t.malloc| && i < |t.owner|
  {
    t.malloc[i] && t.owner[i] == -1
  }

  ghost predicate Shaped(t: Tables) {
    |t.owner| == |t.malloc|
  }

  /** The first slab a bind can hand out, or the table length when there is none. */
  function FirstFree(t: Tables, from: nat := 0): (i: nat)
    requires Shaped(t) && from <= |t.malloc|
    ensures from <= i <= |t.malloc|
    ensures i < |t.malloc| ==> Free(t, i)
    ensures forall j :: from <= j < i ==> !Free(t, j)
    decreases |t.malloc| - from
  {
    if from == |t.malloc| then from
    else if Free(t, from) then from
    else FirstFree(t, from + 1)
  }

  /** BIND_SINGLE: map the first free slab. The counters go up even when there was none. */
  function Bind(t: Tables, k: nat): (r: Tables)
    requires Shaped(t) && k < |t.chunkSize|
    ensures Shaped(r)
  {
    var i := FirstFree(t);
    t.(owner := if i < |t.owner| then t.owner[i := k] else t.owner,
       mappedSize := t.mappedSize + 1,
       chunkSize := t.chunkSize[k := t.chunkSize[k] + 1])
  }

  /** DONE from connection k: the slabs are deregistered and freed; the counters follow the size
      the message carries. */
  function Release(t: Tables, k: nat, slots: set<nat>, size: int): (r: Tables)
    requires Shaped(t) && k < |t.chunkSize|
    ensures Shaped(r)
  {
    t.(malloc := seq(|t.malloc|, i requires 0 <= i < |t.malloc| => t.malloc[i] && i !in slots),
       owner := seq(|t.owner|, i requires 0 <= i < |t.owner| => if i in slots then -1 else t.owner[i]),
       sizeGb := t.sizeGb - size,
       mappedSize := t.mappedSize - size,
       chunkSize := t.chunkSize[k := t.chunkSize[k] - size])
  }

  /** A destroyed connection that counts slabs of its own gives them back; they stay malloced. */
  function Destroy(t: Tables, k: nat): (r: Tables)
    requires Shaped(t) && k < |t.chunkSize|
    ensures Shaped(r)
  {
    if t.chunkSize[k] > 0 then
      t.(owner := seq(|t.owner|, i requires 0 <= i < |t.owner| => if t.owner[i] == k then -1 else t.owner[i]),
         mappedSize := t.mappedSize - t.chunkSize[k],
         chunkSize := t.chunkSize[k := 0])
    else
      t.(chunkSize := t.chunkSize[k := 0])
  }

  /** Free slabs no connection uses. */
  function Drop(t: Tables, slots: set<nat>): (r: Tables)
    requires Shaped(t)
    ensures Shaped(r)
  {
    t.(malloc := seq(|t.malloc|, i requires 0 <= i < |t.malloc| => t.malloc[i] && i !in slots),
       sizeGb := t.sizeGb - |slots|)
  }

  /** Allocate empty slabs. */
  function Grow(t: Tables, slots: set<nat>): (r: Tables)
    requires Shaped(t)
    ensures Shaped(r)
  {
    t.(malloc := seq(|t.malloc|, i requires 0 <= i < |t.malloc| => t.malloc[i] || i in slots),
       sizeGb := t.sizeGb + |slots|)
  }

  // ---------------------------------------------------------------- the counters

  function Malloced(t: Tables): set<nat> {
    set i: nat | i < |t.malloc| && t.malloc[i]
  }

  function Mapped(owner: seq<int>): set<nat> {
    set i: nat | i < |owner| && owner[i] != -1
  }

  function OwnedBy(owner: seq<int>, k: int): set<nat> {
    set i: nat | i < |owner| && owner[i] == k
  }

  function FreeSlots(t: Tables): set<nat>
    requires Shaped(t)
  {
    set i: nat | i < |t.malloc| && Free(t, i)
  }

  /** Owners are connections, and a mapped slab is malloced. */
  ghost predicate Owners(t: Tables) {
    && Shaped(t)
    && forall i :: 0 <= i < |t.owner| && t.owner[i] != -1 ==> t.malloc[i] && 0 <= t.owner[i] < |t.chunkSize|
  }

  /** Every counter is the count it stands for. */
  ghost predicate CountsOk(t: Tables) {
    && Owners(t)
    && t.sizeGb == |Malloced(t)|
    && t.mappedSize == |Mapped(t.owner)|
    && forall k :: 0 <= k < |t.chunkSize| ==> t.chunkSize[k] == |OwnedBy(t.owner, k)|
  }

  /** What a QUERY is answered is exactly the number of slabs a bind could hand out. */
  lemma AdvertisedIsFree(t: Tables)
    requires CountsOk(t)
    ensures t.sizeGb - t.mappedSize == |FreeSlots(t)|
    ensures t.sizeGb - t.mappedSize > 0 <==> FirstFree(t) < |t.malloc|
  {
    assert Mapped(t.owner) <= Malloced(t);
    assert FreeSlots(t) == Malloced(t) - Mapped(t.owner);
    SubsetCount(Mapped(t.owner), Malloced(t));
    var i := FirstFree(t);
    if i < |t.malloc| {
      assert i in FreeSlots(t);
    } else {
      assert FreeSlots(t) == {};
    }
  }

  lemma AfterBind(t: Tables, k: nat)
    requires Owners(t) && k < |t.chunkSize| && FirstFree(t) < |t.malloc|
    ensures var r := Bind(t, k);
            var i := FirstFree(t);
            && Owners(r) && Malloced(r) == Malloced(t)
            && i !in Mapped(t.owner) && Mapped(r.owner) == Mapped(t.owner) + {i}
            && OwnedBy(r.owner, k) == OwnedBy(t.owner, k) + {i}
            && forall j :: 0 <= j < |t.chunkSize| && j != k ==> OwnedBy(r.owner, j) == OwnedBy(t.owner, j)
  {
    var r := Bind(t, k);
    forall j | 0 <= j < |t.chunkSize| && j != k ensures OwnedBy(r.owner, j) == OwnedBy(t.owner, j) {
    }
  }

  /** The counters follow from the counts of another state and what changed. */
  lemma CountsFollow(t: Tables, r: Tables)
    requires Owners(r) && |r.chunkSize| == |t.chunkSize|
    requires r.sizeGb == |Malloced(r)| && r.mappedSize == |Mapped(r.owner)|
    requires forall j :: 0 <= j < |t.chunkSize| ==> r.chunkSize[j] == |OwnedBy(r.owner, j)|
    ensures CountsOk(r)
  {
  }

  /** A bind counts right exactly when there was a slab to hand out. */
  lemma BindCounts(t: Tables, k: nat)
    requires CountsOk(t) && k < |t.chunkSize|
    ensures CountsOk(Bind(t, k)) <==> FirstFree(t) < |t.malloc|
  {
    var r := Bind(t, k);
    if FirstFree(t) < |t.malloc| {
      AfterBind(t, k);
      forall j | 0 <= j < |t.chunkSize| ensures r.chunkSize[j] == |OwnedBy(r.owner, j)| {
        assert j != k ==> OwnedBy(r.owner, j) == OwnedBy(t.owner, j);
      }
      CountsFollow(t, r);
    } else {
      assert r.owner == t.owner && r.mappedSize == t.mappedSize + 1;
    }
  }

  lemma AfterRelease(t: Tables, k: nat, slots: set<nat>, size: int)
    requires Owners(t) && k < |t.chunkSize| && slots <= OwnedBy(t.owner, k)
    ensures var r := Release(t, k, slots, size);
            && Owners(r)
            && Malloced(r) == Malloced(t) - slots && slots <= Malloced(t)
            && Mapped(r.owner) == Mapped(t.owner) - slots && slots <= Mapped(t.owner)
            && OwnedBy(r.owner, k) == OwnedBy(t.owner, k) - slots
            && forall j :: 0 <= j < |t.chunkSize| && j != k ==> OwnedBy(r.owner, j) == OwnedBy(t.owner, j)
  {
    var r := Release(t, k, slots, size);
    forall j | 0 <= j < |t.chunkSize| && j != k ensures OwnedBy(r.owner, j) == OwnedBy(t.owner, j) {
    }
  }

  /** A DONE counts right exactly when the size it carries is the number of slabs it names. */
  lemma ReleaseCounts(t: Tables, k: nat, slots: set<nat>, size: int)
    requires CountsOk(t) && k < |t.chunkSize| && slots <= OwnedBy(t.owner, k)
    ensures CountsOk(Release(t, k, slots, size)) <==> size == |slots|
  {
    AfterRelease(t, k, slots, size);
    SubsetCount(slots, Malloced(t));
    SubsetCount(slots, Mapped(t.owner));
    SubsetCount(slots, OwnedBy(t.owner, k));
  }

  lemma AfterDestroy(t: Tables, k: nat)
    requires Owners(t) && k < |t.chunkSize| && t.chunkSize[k] > 0
    ensures var r := Destroy(t, k);
            && Owners(r) && Malloced(r) == Malloced(t)
            && Mapped(r.owner) == Mapped(t.owner) - OwnedBy(t.owner, k)
            && OwnedBy(r.owner, k) == {} && OwnedBy(t.owner, k) <= Mapped(t.owner)
            && forall j :: 0 <= j < |t.chunkSize| && j != k ==> OwnedBy(r.owner, j) == OwnedBy(t.owner, j)
  {
    var r := Destroy(t, k);
    forall j | 0 <= j < |t.chunkSize| && j != k ensures OwnedBy(r.owner, j) == OwnedBy(t.owner, j) {
    }
  }

  lemma DestroyCounts(t: Tables, k: nat)
    requires CountsOk(t) && k < |t.chunkSize|
    ensures CountsOk(Destroy(t, k))
    ensures OwnedBy(Destroy(t, k).owner, k) == {}
  {
    var r := Destroy(t, k);
    if t.chunkSize[k] > 0 {
      AfterDestroy(t, k);
      SubsetCount(OwnedBy(t.owner, k), Mapped(t.owner));
      forall j | 0 <= j < |t.chunkSize| ensures r.chunkSize[j] == |OwnedBy(r.owner, j)| {
        assert j != k ==> OwnedBy(r.owner, j) == OwnedBy(t.owner, j);
      }
      CountsFollow(t, r);
    } else {
      assert r.chunkSize == t.chunkSize;
    }
  }

  lemma AfterDrop(t: Tables, slots: set<nat>)
    requires Owners(t) && slots <= FreeSlots(t)
    ensures var r := Drop(t, slots);
            && Owners(r) && slots <= Malloced(t)
            && Malloced(r) == Malloced(t) - slots && FreeSlots(r) == FreeSlots(t) - slots
  {
  }

  lemma DropCounts(t: Tables, slots: set<nat>)
    requires CountsOk(t) && slots <= FreeSlots(t)
    ensures CountsOk(Drop(t, slots))
  {
    AfterDrop(t, slots);
    SubsetCount(slots, Malloced(t));
  }

  lemma GrowCounts(t: Tables, slots: set<nat>)
    requires CountsOk(t) && slots !! Malloced(t) && forall i :: i in slots ==> i < |t.malloc|
    ensures CountsOk(Grow(t, slots))
  {
    var r := Grow(t, slots);
    assert Malloced(r) == Malloced(t) + slots;
    DisjointCount(Malloced(t), slots);
  }

  // ---------------------------------------------------------------- counters of all connections

  function Sum(s: seq<int>): int {
    if s == [] then 0 else Sum(s[..|s| - 1]) + s[|s| - 1]
  }

  function OwnedBelow(owner: seq<int>, n: int): set<nat> {
    set i: nat | i < |owner| && 0 <= owner[i] < n
  }

  lemma {:induction false} SumOwned(owner: seq<int>, sizes: seq<int>)
    requires forall k :: 0 <= k < |sizes| ==> sizes[k] == |OwnedBy(owner, k)|
    ensures Sum(sizes) == |OwnedBelow(owner, |sizes|)|
  {
    if sizes == [] {
      assert OwnedBelow(owner, 0) == {};
    } else {
      var n := |sizes| - 1;
      SumOwned(owner, sizes[..n]);
      assert OwnedBelow(owner, n + 1) == OwnedBelow(owner, n) + OwnedBy(owner, n);
      DisjointCount(OwnedBelow(owner, n), OwnedBy(owner, n));
    }
  }

  /** The counters of the connections add up to the mapped slabs. */
  lemma ChunkSizesAddUp(t: Tables)
    requires CountsOk(t)
    ensures Sum(t.chunkSize) == t.mappedSize
  {
    SumOwned(t.owner, t.chunkSize);
    assert OwnedBelow(t.owner, |t.chunkSize|) == Mapped(t.owner);
  }
}
