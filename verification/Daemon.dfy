/** The memory daemon's session: its tables are arrays updated in place by the handlers. Each method
    is tied to the transition of `DaemonTables` it performs.
 */
module Daemon {
  import opened Counting
  import opened DaemonTables

  const MAX_SLABS: nat := 32              // MAX_FREE_MEM_GB, MAX_MR_SIZE_GB
  const MAX_CLIENT: nat := 32
  const EVICT_THRESHOLD: int := 8
  const EXPAND_THRESHOLD: int := 16
  const EVICT_HITS: int := 1
  const EXPAND_HITS: int := 20

  datatype ConnState = Idle | Connected | MappedState

  function Min(a: int, b: int): (r: int)
    ensures r <= a && r <= b && (r == a || r == b)
  {
    if a < b then a else b
  }

  /** How many slabs the daemon starts with, by the free memory it finds. */
  function InitialSize(freeGb: int): (r: int)
    ensures 0 <= r <= MAX_SLABS && (freeGb <= EVICT_THRESHOLD ==> r == 0)
    ensures freeGb > EVICT_THRESHOLD ==> 0 < r <= freeGb
  {
    if freeGb > EXPAND_THRESHOLD then Min(freeGb - (EVICT_THRESHOLD + EXPAND_THRESHOLD) / 2, MAX_SLABS)
    else if freeGb > EVICT_THRESHOLD then Min(freeGb - EVICT_THRESHOLD, MAX_SLABS)
    else 0
  }

  /** The slots a message's tag array names. */
  function Named(tags: seq<bool>): set<nat> {
    set i: nat | i < |tags| && tags[i]
  }

  lemma NamedGrows(tags: seq<bool>, n: nat)
    requires n < |tags|
    ensures Named(tags[..n + 1]) == Named(tags[..n]) + (if tags[n] then {n} else {})
  {
  }

  lemma InitialCounts(t: Tables)
    requires Shaped(t) && 0 <= t.sizeGb <= |t.malloc| && t.mappedSize == 0
    requires forall i :: 0 <= i < |t.malloc| ==> t.malloc[i] == (i < t.sizeGb) && t.owner[i] == -1
    requires forall k :: 0 <= k < |t.chunkSize| ==> t.chunkSize[k] == 0
    ensures CountsOk(t)
  {
    assert Malloced(t) == Below(t.sizeGb);
    assert Mapped(t.owner) == {};
    forall k | 0 <= k < |t.chunkSize| ensures OwnedBy(t.owner, k) == {} {
    }
  }

  function EmptySlots(malloc: seq<bool>): set<nat> {
    set i: nat | i < |malloc| && !malloc[i]
  }

  /** The table has room for exactly the slabs that are not malloced. */
  lemma EmptyCount(t: Tables)
    requires CountsOk(t)
    ensures |EmptySlots(t.malloc)| == |t.malloc| - t.sizeGb && EmptySlots(t.malloc) !! Malloced(t)
  {
    assert EmptySlots(t.malloc) == Below(|t.malloc|) - Malloced(t);
    SubsetCount(Malloced(t), Below(|t.malloc|));
  }

  /** Dropping free slabs keeps the counters, and once all are dropped only mapped slabs are left. */
  lemma DropLeaves(t: Tables, dropped: set<nat>)
    requires CountsOk(t) && dropped <= FreeSlots(t)
    ensures CountsOk(Drop(t, dropped)) && Drop(t, dropped).owner == t.owner
    ensures dropped == FreeSlots(t) ==>
              FreeSlots(Drop(t, dropped)) == {} && Drop(t, dropped).sizeGb == Drop(t, dropped).mappedSize
  {
    AfterDrop(t, dropped);
    DropCounts(t, dropped);
    AdvertisedIsFree(Drop(t, dropped));
  }

  /** `part` is made of the lowest members of `all`. */
  ghost predicate LowestOf(part: set<nat>, all: set<nat>) {
    part <= all && forall i, j :: i in part && j in all - part ==> i < j
  }

  class Session {
    const malloc: array<bool>
    const owner: array<int>
    const chunkSize: array<int>
    const state: array<ConnState>
    const chunkMap: array2<int>           // sess_chunk_map of each connection
    var sizeGb: int
    var mappedSize: int
    var connNum: int
    var lastFree: int
    var evictHits: int
    var expandHits: int

    function View(): Tables
      reads this, malloc, owner, chunkSize
    {
      Tables(malloc[..], owner[..], sizeGb, mappedSize, chunkSize[..])
    }

    ghost predicate Sized() {
      && malloc.Length == owner.Length == MAX_SLABS
      && chunkSize.Length == state.Length == MAX_CLIENT
      && chunkMap.Length0 == MAX_CLIENT && chunkMap.Length1 == MAX_SLABS
      && owner != chunkSize
    }

    ghost predicate Shape()
      reads this, malloc, owner, chunkSize
    {
      Sized() && Owners(View())
    }

    /** A connection's own map is the part of the owner table that names it. */
    ghost predicate MapsAgree()
      requires Sized()
      reads owner, chunkMap
    {
      forall k, i :: 0 <= k < MAX_CLIENT && 0 <= i < MAX_SLABS ==>
        chunkMap[k, i] == if owner[i] == k then i else -1
    }

    /** A connection is marked mapped exactly when it holds slabs. */
    ghost predicate StatesAgree()
      requires Sized()
      reads chunkSize, state
    {
      forall k :: 0 <= k < MAX_CLIENT ==> (state[k] == MappedState <==> chunkSize[k] > 0)
    }

    ghost predicate Valid()
      reads this, malloc, owner, chunkSize, state, chunkMap
    {
      Shape() && MapsAgree() && StatesAgree() && CountsOk(View())
    }

    /** rdma_session_init. */
    constructor (freeGb: int)
      ensures Valid() && fresh(malloc) && fresh(owner) && fresh(chunkSize) && fresh(state) && fresh(chunkMap)
      ensures sizeGb == InitialSize(freeGb) && mappedSize == 0 && connNum == 0
      ensures sizeGb == if freeGb <= 8 then 0 else if freeGb <= 16 then freeGb - 8
                        else if freeGb < 44 then freeGb - 12 else 32
      ensures forall k :: 0 <= k < MAX_CLIENT ==> state[k] == Idle
      ensures lastFree == freeGb && evictHits == 0 && expandHits == 0
    {
      malloc := new bool[MAX_SLABS](_ => false);
      owner := new int[MAX_SLABS](_ => -1);
      chunkSize := new int[MAX_CLIENT](_ => 0);
      state := new ConnState[MAX_CLIENT](_ => Idle);
      chunkMap := new int[MAX_CLIENT, MAX_SLABS]((_, _) => -1);
      sizeGb := 0;
      mappedSize := 0;
      connNum := 0;
      lastFree := freeGb;
      evictHits := 0;
      expandHits := 0;
      new;
      AllocateFirst(InitialSize(freeGb));
      InitialCounts(View());
    }

    /** The allocation loop of rdma_session_init. */
    method AllocateFirst(n: nat)
      requires Sized() && n <= MAX_SLABS && forall m :: 0 <= m < MAX_SLABS ==> !malloc[m]
      modifies malloc, this`sizeGb
      ensures sizeGb == n && forall m :: 0 <= m < MAX_SLABS ==> malloc[m] == (m < n)
    {
      var i := 0;
      while i < n
        invariant 0 <= i <= n
        invariant forall m :: 0 <= m < MAX_SLABS ==> malloc[m] == (m < i)
        modifies malloc
      {
        malloc[i] := true;
        i := i + 1;
      }
      sizeGb := n;
    }

    /** build_connection: take the first idle entry; with none left the connection is in no table. */
    method BuildConnection() returns (k: int)
      requires Valid()
      modifies this`connNum, state, chunkMap
      ensures Valid() && View() == old(View()) && connNum == old(connNum) + 1
      ensures k == -1 <==> forall j :: 0 <= j < MAX_CLIENT ==> old(state[j]) != Idle
      ensures k != -1 ==> 0 <= k < MAX_CLIENT && old(state[k]) == Idle && state[k] == Connected
      ensures k != -1 ==> forall j :: 0 <= j < k ==> old(state[j]) != Idle
      ensures forall j :: 0 <= j < MAX_CLIENT && j != k ==> state[j] == old(state[j])
    {
      k := -1;
      var i := 0;
      while i < MAX_CLIENT && k == -1
        invariant 0 <= i <= MAX_CLIENT
        invariant k == -1 ==> forall j :: 0 <= j < i ==> state[j] != Idle
        invariant k != -1 ==> 0 <= k < MAX_CLIENT && state[k] == Idle && forall j :: 0 <= j < k ==> state[j] != Idle
        invariant forall j :: 0 <= j < MAX_CLIENT ==> state[j] == old(state[j])
        modifies {}
      {
        if state[i] == Idle {
          k := i;
        }
        i := i + 1;
      }
      if k != -1 {
        assert state[k] == Idle;
        state[k] := Connected;
      }
      connNum := connNum + 1;
    }

    /** send_free_mem_size: what a QUERY is answered. */
    method FreeMemSize() returns (n: int)
      requires Valid()
      ensures n == |FreeSlots(View())|
    {
      AdvertisedIsFree(View());
      n := sizeGb - mappedSize;
    }

    /** send_single_mr, with the state change that follows it: hand out the first free slab, or none.
        The counters go up either way. */
    method SendSingleMr(k: nat) returns (slot: int)
      requires Shape() && MapsAgree() && k < MAX_CLIENT
      modifies this`mappedSize, owner, chunkSize, state, chunkMap
      ensures Shape() && MapsAgree() && View() == Bind(old(View()), k)
      ensures slot == if FirstFree(old(View())) < MAX_SLABS then FirstFree(old(View())) else -1
      ensures state[k] == MappedState && forall j :: 0 <= j < MAX_CLIENT && j != k ==> state[j] == old(state[j])
    {
      ghost var t := View();
      slot := -1;
      var i := 0;
      while i < MAX_SLABS && slot == -1
        invariant 0 <= i <= MAX_SLABS && View() == t
        invariant slot == -1 ==> forall j :: 0 <= j < i ==> !Free(t, j)
        invariant slot != -1 ==> 0 <= slot < MAX_SLABS && Free(t, slot) && forall j :: 0 <= j < slot ==> !Free(t, j)
        modifies {}
      {
        if malloc[i] && owner[i] == -1 {
          slot := i;
        }
        i := i + 1;
      }
      if slot != -1 {
        chunkMap[k, slot] := slot;
        owner[slot] := k;
      }
      mappedSize := mappedSize + 1;
      chunkSize[k] := chunkSize[k] + 1;
      state[k] := MappedState;
      assert View() == Bind(t, k);
    }

    method FreeSlab(k: nat, i: nat)
      requires Sized() && MapsAgree() && k < MAX_CLIENT && i < MAX_SLABS && owner[i] == k
      modifies malloc, owner, chunkMap
      ensures MapsAgree() && !malloc[i] && owner[i] == -1
      ensures forall m :: 0 <= m < MAX_SLABS && m != i ==> malloc[m] == old(malloc[m]) && owner[m] == old(owner[m])
    {
      var index := chunkMap[k, i];
      chunkMap[k, i] := -1;
      owner[index] := -1;
      malloc[index] := false;
    }

    /** The loop of recv_done: deregister and free the named slabs, counting them. */
    method FreeNamed(k: nat, tags: seq<bool>) returns (count: nat)
      requires Shape() && MapsAgree() && k < MAX_CLIENT && |tags| == MAX_SLABS
      requires Named(tags) <= OwnedBy(owner[..], k)
      modifies malloc, owner, chunkMap
      ensures count == |Named(tags)|
      ensures forall m :: 0 <= m < MAX_SLABS ==> malloc[m] == (old(malloc[m]) && !tags[m])
      ensures forall m :: 0 <= m < MAX_SLABS ==> owner[m] == if tags[m] then -1 else old(owner[m])
      ensures Shape() && MapsAgree()
    {
      count := 0;
      var i := 0;
      assert Named(tags[..0]) == {};
      while i < MAX_SLABS
        invariant 0 <= i <= MAX_SLABS && count == |Named(tags[..i])|
        invariant forall m :: 0 <= m < MAX_SLABS ==> malloc[m] == (old(malloc[m]) && !(m < i && tags[m]))
        invariant forall m :: 0 <= m < MAX_SLABS ==> owner[m] == if m < i && tags[m] then -1 else old(owner[m])
        invariant MapsAgree()
        modifies malloc, owner, chunkMap
      {
        NamedGrows(tags, i);
        if tags[i] {
          count := count + 1;
          assert i in Named(tags);
          FreeSlab(k, i);
        }
        i := i + 1;
      }
      assert tags[..MAX_SLABS] == tags;
    }

    /** recv_done: free the named slabs, and lower the counters by the size the message carries. The
        handler's own check reports a size that is not the number of slabs named. */
    method RecvDone(k: nat, tags: seq<bool>, size: int) returns (mismatch: bool)
      requires Shape() && MapsAgree() && k < MAX_CLIENT && |tags| == MAX_SLABS
      requires Named(tags) <= OwnedBy(owner[..], k)
      modifies this`sizeGb, this`mappedSize, malloc, owner, chunkSize, state, chunkMap
      ensures Shape() && MapsAgree() && View() == Release(old(View()), k, Named(tags), size)
      ensures mismatch <==> size != |Named(tags)|
      ensures state[k] == if chunkSize[k] == 0 then Connected else old(state[k])
      ensures forall j :: 0 <= j < MAX_CLIENT && j != k ==> state[j] == old(state[j])
    {
      ghost var r := Release(View(), k, Named(tags), size);
      var count := FreeNamed(k, tags);
      assert malloc[..] == r.malloc && owner[..] == r.owner;
      mismatch := count != size;
      sizeGb := sizeGb - size;
      mappedSize := mappedSize - size;
      chunkSize[k] := chunkSize[k] - size;
      if chunkSize[k] == 0 {
        state[k] := Connected;
      }
    }

    /** destroy_connection: a connection that holds slabs gives them back, still malloced. */
    method DestroyConnection(k: nat)
      requires Valid() && k < MAX_CLIENT && state[k] != Idle
      modifies this`mappedSize, this`connNum, owner, chunkSize, state, chunkMap
      ensures Valid() && View() == Destroy(old(View()), k) && connNum == old(connNum) - 1
      ensures state[k] == Idle && forall j :: 0 <= j < MAX_CLIENT && j != k ==> state[j] == old(state[j])
    {
      ghost var t := View();
      if chunkSize[k] > 0 {
        GiveBack(k);
        mappedSize := mappedSize - chunkSize[k];
      }
      chunkSize[k] := 0;
      state[k] := Idle;
      connNum := connNum - 1;
      assert View() == Destroy(t, k);
      DestroyCounts(t, k);
    }

    /** The loop of destroy_connection. */
    method GiveBack(k: nat)
      requires Shape() && MapsAgree() && k < MAX_CLIENT
      modifies owner, chunkMap
      ensures Shape() && MapsAgree()
      ensures forall m :: 0 <= m < MAX_SLABS ==> owner[m] == if old(owner[m]) == k then -1 else old(owner[m])
    {
      var i := 0;
      while i < MAX_SLABS
        invariant 0 <= i <= MAX_SLABS
        invariant forall m :: 0 <= m < MAX_SLABS ==>
                    owner[m] == if m < i && old(owner[m]) == k then -1 else old(owner[m])
        invariant MapsAgree()
        modifies owner, chunkMap
      {
        var index := chunkMap[k, i];
        if index != -1 {
          owner[index] := -1;
          chunkMap[k, i] := -1;
        }
        i := i + 1;
      }
    }

    /** The first loop of evict_mem: free unmapped slabs, lowest first, until `stopG` of them are freed
        or none is left. */
    method DropUnmapped(stopG: nat) returns (freed: nat, ghost dropped: set<nat>)
      requires Sized() && Shaped(View()) && 0 < stopG
      modifies malloc
      ensures forall m: nat :: m < MAX_SLABS ==> malloc[m] == (old(malloc[m]) && m !in dropped)
      ensures freed == |dropped| <= stopG && LowestOf(dropped, FreeSlots(old(View())))
      ensures freed < stopG ==> dropped == FreeSlots(old(View()))
    {
      ghost var free := FreeSlots(View());
      freed := 0;
      dropped := {};
      var i := 0;
      while i < MAX_SLABS && freed < stopG
        invariant 0 <= i <= MAX_SLABS && freed == |dropped| <= stopG
        invariant forall m: nat :: m in dropped <==> m in free && m < i
        invariant forall m: nat :: m < MAX_SLABS ==> malloc[m] == (old(malloc[m]) && m !in dropped)
        modifies malloc
      {
        if malloc[i] && owner[i] == -1 {
          malloc[i] := false;
          freed := freed + 1;
          dropped := dropped + {i};
        }
        i := i + 1;
      }
    }

    /** evict_mem up to its first return: what is left to evict once unmapped slabs are freed. */
    method EvictUnmapped(stopG: nat) returns (left: nat, ghost dropped: set<nat>)
      requires Valid() && 0 < stopG
      modifies this`sizeGb, malloc
      ensures Valid() && View() == Drop(old(View()), dropped)
      ensures LowestOf(dropped, FreeSlots(old(View()))) && left == stopG - |dropped|
      ensures left > 0 ==> FreeSlots(View()) == {} && sizeGb == mappedSize
    {
      ghost var t := View();
      var freed;
      freed, dropped := DropUnmapped(stopG);
      sizeGb := sizeGb - freed;
      left := stopG - freed;
      assert malloc[..] == Drop(t, dropped).malloc;
      DropLeaves(t, dropped);
    }

    /** The allocation loop of free_mem: allocate empty slabs, lowest first. When none is asked for the
        equality test never stops the loop. */
    method AllocateEmpty(expand: nat) returns (ghost grown: set<nat>)
      requires Sized()
      modifies malloc
      ensures forall m: nat :: m < MAX_SLABS ==> malloc[m] == (old(malloc[m]) || m in grown)
      ensures LowestOf(grown, EmptySlots(old(malloc[..])))
      ensures |grown| == expand || (grown == EmptySlots(old(malloc[..])) && (expand == 0 || |grown| < expand))
    {
      ghost var empty := EmptySlots(malloc[..]);
      grown := {};
      var j := 0;
      var i := 0;
      while i < MAX_SLABS
        invariant 0 <= i <= MAX_SLABS && j == |grown| && (expand == 0 || j < expand)
        invariant forall m: nat :: m in grown <==> m in empty && m < i
        invariant forall m: nat :: m < MAX_SLABS ==> malloc[m] == (old(malloc[m]) || m in grown)
        modifies malloc
      {
        if !malloc[i] {
          malloc[i] := true;
          j := j + 1;
          grown := grown + {i};
          if j == expand {
            break;
          }
        }
        i := i + 1;
      }
    }

    /** The expansion of free_mem: `lastFree - EXPAND_THRESHOLD` slabs, or as many as the table still has
        room for, are allocated exactly. */
    method Expand() returns (expand: int, ghost grown: set<nat>)
      requires Valid() && lastFree > EXPAND_THRESHOLD
      modifies this`sizeGb, this`lastFree, malloc
      ensures Valid() && View() == Grow(old(View()), grown) && grown !! Malloced(old(View()))
      ensures expand == |grown| == Min(old(lastFree) - EXPAND_THRESHOLD, MAX_SLABS - old(sizeGb))
      ensures sizeGb == old(sizeGb) + expand <= MAX_SLABS && lastFree == old(lastFree) - expand
    {
      ghost var t := View();
      EmptyCount(t);
      expand := lastFree - EXPAND_THRESHOLD;
      if expand + sizeGb > MAX_SLABS {
        expand := MAX_SLABS - sizeGb;
      }
      grown := AllocateEmpty(expand);
      SubsetCount(grown, EmptySlots(t.malloc));
      sizeGb := sizeGb + expand;
      lastFree := lastFree - expand;
      assert malloc[..] == Grow(t, grown).malloc;
      GrowCounts(t, grown);
    }

    ghost predicate Ticking()
      reads this
    {
      evictHits == 0 && 0 <= expandHits < EXPAND_HITS
    }

    /** One turn of free_mem on a filtered sample: returns how much to evict, having expanded if memory
        was plentiful for long enough. */
    method Tick(filtered: int) returns (stop: int, ghost grown: set<nat>)
      requires Valid() && Ticking()
      modifies this`lastFree, this`evictHits, this`expandHits, this`sizeGb, malloc
      ensures Valid() && Ticking() && View() == Grow(old(View()), grown)
      ensures stop == if filtered < EVICT_THRESHOLD then Min(EVICT_THRESHOLD - filtered, old(sizeGb)) else 0
      ensures stop == 0 || 0 < stop <= sizeGb
      ensures expandHits ==
              if filtered <= EXPAND_THRESHOLD then (if filtered < EVICT_THRESHOLD then 0 else old(expandHits))
              else if old(expandHits) == EXPAND_HITS - 1 then 0 else old(expandHits) + 1
      ensures |grown| ==
              if filtered > EXPAND_THRESHOLD && old(expandHits) == EXPAND_HITS - 1
              then Min(filtered - EXPAND_THRESHOLD, MAX_SLABS - old(sizeGb)) else 0
      ensures lastFree == filtered + stop - |grown|
      ensures filtered < EVICT_THRESHOLD ==> lastFree <= EVICT_THRESHOLD
      ensures filtered > EXPAND_THRESHOLD ==> lastFree >= EXPAND_THRESHOLD
    {
      stop := 0;
      grown := {};
      ghost var t := View();
      assert Grow(t, {}) == t by {
        assert Grow(t, {}).malloc == t.malloc;
      }
      lastFree := filtered;
      if filtered < EVICT_THRESHOLD {
        evictHits := evictHits + 1;
        expandHits := 0;
        if evictHits >= EVICT_HITS {
          evictHits := 0;
          stop := EVICT_THRESHOLD - lastFree;
          if sizeGb < stop {
            stop := sizeGb;
          }
          lastFree := lastFree + stop;
        }
      } else if filtered > EXPAND_THRESHOLD {
        expandHits := expandHits + 1;
        evictHits := 0;
        if expandHits >= EXPAND_HITS {
          expandHits := 0;
          var expand;
          expand, grown := Expand();
        }
      }
    }
  }
}
