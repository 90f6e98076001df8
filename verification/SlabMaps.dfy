/** The loops over the slab maps in the client's handlers, on arrays updated in place, and the actions
    of `SwapClient` they carry out one after the other.
 */
module SlabMaps {
  import opened SwapClient
  import opened BackupDisk
  import opened SwapInvariants
  import opened SwapClientProof
  import opened SwapTidy

  /** `cl'` is reached from `cl` by its own actions, in order. */
  ghost predicate Acts(cl: Client, es: seq<Event>, cl': Client, pool: nat)
    decreases |es|
  {
    if es == [] then cl' == cl
    else
      exists mid ::
        && Acts(cl, es[..|es| - 1], mid, pool)
        && Inv(mid.dev) && Enabled(mid, es[|es| - 1], pool)
        && cl' == Act(mid, es[|es| - 1], pool)
  }

  lemma ActsOneMore(cl: Client, es: seq<Event>, mid: Client, e: Event, pool: nat)
    requires Acts(cl, es, mid, pool) && Inv(mid.dev) && Enabled(mid, e, pool)
    ensures Acts(cl, es + [e], Act(mid, e, pool), pool)
  {
    var all := es + [e];
    assert all[..|all| - 1] == es && all[|all| - 1] == e;
  }

  /** There is room for one more on the list of unmapped slabs. */
  ghost predicate Room(cl: Client) {
    -1 <= cl.freeIdx && cl.freeIdx + 1 < |cl.slotMap|
  }

  // ---------------------------------------------------------------- unmapping victims

  /** The client after the tagged slots below n have been unmapped, and the actions that did it. */
  ghost function Unmapped(cl: Client, d: nat, tags: seq<bool>, n: nat): Client
    requires n <= |tags|
  {
    if n == 0 then cl
    else
      var mid := Unmapped(cl, d, tags, n - 1);
      if tags[n - 1] && CanUnmap(mid, d, n - 1) then Unmap(mid, d, n - 1) else mid
  }

  function Unmaps(d: nat, tags: seq<bool>, n: nat): seq<Event>
    requires n <= |tags|
  {
    if n == 0 then [] else Unmaps(d, tags, n - 1) + (if tags[n - 1] then [UnmapVictim(d, n - 1)] else [])
  }

  /** Each of the tagged slots below n can be unmapped in its turn. */
  ghost predicate AllCanUnmap(cl: Client, d: nat, tags: seq<bool>, n: nat)
    requires n <= |tags|
  {
    n > 0 ==>
      && AllCanUnmap(cl, d, tags, n - 1)
      && (tags[n - 1] ==> CanUnmap(Unmapped(cl, d, tags, n - 1), d, n - 1))
  }

  lemma {:induction false} FewerCanUnmap(cl: Client, d: nat, tags: seq<bool>, m: nat, n: nat)
    requires m <= n <= |tags| && AllCanUnmap(cl, d, tags, n)
    ensures AllCanUnmap(cl, d, tags, m)
  {
    if m < n {
      FewerCanUnmap(cl, d, tags, m, n - 1);
    }
  }

  /** The tagged slots from n on can be unmapped. */
  ghost predicate StillToDo(cl: Client, d: nat, tags: seq<bool>, n: nat) {
    forall i: nat :: n <= i < |tags| && tags[i] ==> CanUnmap(cl, d, i)
  }

  lemma UnmapLeavesOthers(cl: Client, d: nat, tags: seq<bool>, n: nat)
    requires StillToDo(cl, d, tags, n) && n < |tags|
    ensures StillToDo(if tags[n] && CanUnmap(cl, d, n) then Unmap(cl, d, n) else cl, d, tags, n + 1)
  {
  }

  lemma {:induction false} TodoRemains(cl: Client, d: nat, tags: seq<bool>, n: nat)
    requires n <= |tags| && StillToDo(cl, d, tags, 0)
    ensures AllCanUnmap(cl, d, tags, n) && StillToDo(Unmapped(cl, d, tags, n), d, tags, n)
  {
    if n > 0 {
      TodoRemains(cl, d, tags, n - 1);
      UnmapLeavesOthers(Unmapped(cl, d, tags, n - 1), d, tags, n - 1);
    }
  }

  /** Slots that a STOP names on a live connection can all be unmapped. */
  lemma VictimsCanUnmap(cl: Client, d: nat, tags: seq<bool>, slots: nat, pool: nat)
    requires ClientInv(cl, slots, pool) && d < |cl.conns| && cl.conns[d].live && cl.conns[d].phase.Draining?
    requires forall i: nat :: i < |tags| && tags[i] ==> i in cl.conns[d].phase.todo
    ensures AllCanUnmap(cl, d, tags, |tags|)
  {
    forall i: nat | i < |tags| && tags[i] ensures CanUnmap(cl, d, i) {
      TodoIsMapped(cl, d, i, slots, pool);
    }
    TodoRemains(cl, d, tags, |tags|);
  }

  lemma TodoIsMapped(cl: Client, d: nat, i: nat, slots: nat, pool: nat)
    requires ClientInv(cl, slots, pool) && d < |cl.conns| && cl.conns[d].live
    requires cl.conns[d].phase.Draining? && i in cl.conns[d].phase.todo
    ensures CanUnmap(cl, d, i)
  {
    assert ConnInv(cl.conns[d], slots);
    MappedInRange(cl, d, i, slots, pool);
  }

  lemma {:induction false} UnmappedLeavesDevice(cl: Client, d: nat, tags: seq<bool>, n: nat)
    requires n <= |tags|
    ensures Unmapped(cl, d, tags, n).dev == cl.dev
  {
    if n > 0 {
      UnmappedLeavesDevice(cl, d, tags, n - 1);
    }
  }

  lemma UnmapByAct(cl: Client, es: seq<Event>, mid: Client, d: nat, i: nat, pool: nat)
    requires Acts(cl, es, mid, pool) && mid.dev == cl.dev && Inv(cl.dev) && CanUnmap(mid, d, i)
    ensures Acts(cl, es + [UnmapVictim(d, i)], Unmap(mid, d, i), pool)
  {
    ActsOneMore(cl, es, mid, UnmapVictim(d, i), pool);
  }

  /** What the loop does is done by those actions. */
  lemma {:induction false} UnmappedByActs(cl: Client, d: nat, tags: seq<bool>, n: nat, pool: nat)
    requires Inv(cl.dev) && n <= |tags| && AllCanUnmap(cl, d, tags, n)
    ensures Acts(cl, Unmaps(d, tags, n), Unmapped(cl, d, tags, n), pool)
  {
    if n > 0 {
      UnmappedByActs(cl, d, tags, n - 1, pool);
      UnmappedLeavesDevice(cl, d, tags, n - 1);
      if tags[n - 1] {
        var mid := Unmapped(cl, d, tags, n - 1);
        assert Unmapped(cl, d, tags, n) == Unmap(mid, d, n - 1);
        assert Unmaps(d, tags, n) == Unmaps(d, tags, n - 1) + [UnmapVictim(d, n - 1)];
        UnmapByAct(cl, Unmaps(d, tags, n - 1), mid, d, n - 1, pool);
      } else {
        assert Unmaps(d, tags, n) == Unmaps(d, tags, n - 1);
      }
    }
  }

  // ---------------------------------------------------------------- returning evicted slabs

  /** The client after the flagged slabs below n have been returned, and the actions that did it. */
  ghost function Forgotten(cl: Client, d: nat, evicted: seq<bool>, n: nat): Client
    requires n <= |evicted|
  {
    if n == 0 then cl
    else
      var mid := Forgotten(cl, d, evicted, n - 1);
      if evicted[n - 1] && CanForget(mid, d, n - 1) then Forget(mid, d, n - 1) else mid
  }

  function Forgets(d: nat, evicted: seq<bool>, n: nat): seq<Event>
    requires n <= |evicted|
  {
    if n == 0 then [] else Forgets(d, evicted, n - 1) + (if evicted[n - 1] then [ForgetSlab(d, n - 1)] else [])
  }

  /** Each of the flagged slabs below n can be returned in its turn, with room for it. */
  ghost predicate AllCanReturn(cl: Client, d: nat, evicted: seq<bool>, n: nat)
    requires n <= |evicted|
  {
    n > 0 ==>
      && AllCanReturn(cl, d, evicted, n - 1)
      && (evicted[n - 1] ==>
            CanForget(Forgotten(cl, d, evicted, n - 1), d, n - 1) && Room(Forgotten(cl, d, evicted, n - 1)))
  }

  lemma {:induction false} FewerCanReturn(cl: Client, d: nat, evicted: seq<bool>, m: nat, n: nat)
    requires m <= n <= |evicted| && AllCanReturn(cl, d, evicted, n)
    ensures AllCanReturn(cl, d, evicted, m)
  {
    if m < n {
      FewerCanReturn(cl, d, evicted, m, n - 1);
    }
  }

  /** The flagged slabs from n on are placed and can be returned; the index counts the unplaced ones. */
  ghost predicate StillEvicted(cl: Client, d: nat, evicted: seq<bool>, n: nat) {
    && cl.freeIdx + 1 == Unplaced(cl.slotMap)
    && forall b: nat :: n <= b < |evicted| && evicted[b] ==> CanForget(cl, d, b) && cl.slotMap[b] != -1
  }

  lemma ForgetLeavesOthers(cl: Client, d: nat, evicted: seq<bool>, n: nat)
    requires StillEvicted(cl, d, evicted, n) && n < |evicted|
    ensures evicted[n] ==> Room(cl)
    ensures StillEvicted(if evicted[n] && CanForget(cl, d, n) then Forget(cl, d, n) else cl, d, evicted, n + 1)
  {
    if evicted[n] {
      RoomForOne(cl.slotMap, n);
      UnplacedAfterUpdate(cl.slotMap, n, -1);
    }
  }

  lemma {:induction false} EvictedRemain(cl: Client, d: nat, evicted: seq<bool>, n: nat)
    requires n <= |evicted| && StillEvicted(cl, d, evicted, 0)
    ensures AllCanReturn(cl, d, evicted, n) && StillEvicted(Forgotten(cl, d, evicted, n), d, evicted, n)
  {
    if n > 0 {
      EvictedRemain(cl, d, evicted, n - 1);
      ForgetLeavesOthers(Forgotten(cl, d, evicted, n - 1), d, evicted, n - 1);
    }
  }

  /** While the maps are tidy, evicted slabs can all be returned, with room for each on the list. */
  lemma EvictedCanReturn(cl: Client, d: nat, evicted: seq<bool>, slots: nat)
    requires TidyMaps(cl, slots) && d < |cl.conns|
    requires forall b: nat :: b < |evicted| && evicted[b] ==> b in cl.conns[d].remap
    ensures AllCanReturn(cl, d, evicted, |evicted|)
  {
    forall b: nat | b < |evicted| && evicted[b] ensures CanForget(cl, d, b) && cl.slotMap[b] != -1 {
      assert SwapClient.Holds(cl.conns[d], b);
    }
    EvictedRemain(cl, d, evicted, |evicted|);
  }

  lemma {:induction false} ForgottenLeavesDevice(cl: Client, d: nat, evicted: seq<bool>, n: nat)
    requires n <= |evicted|
    ensures Forgotten(cl, d, evicted, n).dev == cl.dev
  {
    if n > 0 {
      ForgottenLeavesDevice(cl, d, evicted, n - 1);
    }
  }

  lemma ForgetByAct(cl: Client, es: seq<Event>, mid: Client, d: nat, b: nat, pool: nat)
    requires Acts(cl, es, mid, pool) && mid.dev == cl.dev && Inv(cl.dev) && CanForget(mid, d, b)
    ensures Acts(cl, es + [ForgetSlab(d, b)], Forget(mid, d, b), pool)
  {
    ActsOneMore(cl, es, mid, ForgetSlab(d, b), pool);
  }

  /** What the loop does is done by those actions. */
  lemma {:induction false} ForgottenByActs(cl: Client, d: nat, evicted: seq<bool>, n: nat, pool: nat)
    requires Inv(cl.dev) && n <= |evicted| && AllCanReturn(cl, d, evicted, n)
    ensures Acts(cl, Forgets(d, evicted, n), Forgotten(cl, d, evicted, n), pool)
  {
    if n > 0 {
      ForgottenByActs(cl, d, evicted, n - 1, pool);
      ForgottenLeavesDevice(cl, d, evicted, n - 1);
      if evicted[n - 1] {
        var mid := Forgotten(cl, d, evicted, n - 1);
        assert Forgotten(cl, d, evicted, n) == Forget(mid, d, n - 1);
        assert Forgets(d, evicted, n) == Forgets(d, evicted, n - 1) + [ForgetSlab(d, n - 1)];
        ForgetByAct(cl, Forgets(d, evicted, n - 1), mid, d, n - 1, pool);
      } else {
        assert Forgets(d, evicted, n) == Forgets(d, evicted, n - 1);
      }
    }
  }

  // ---------------------------------------------------------------- a failed server

  /** The client after the slabs in slots below n of a failed server have been returned. */
  ghost function Failed(cl: Client, d: nat, n: nat): Client {
    if n == 0 then cl
    else
      var mid := Failed(cl, d, n - 1);
      if CanFailSlot(mid, d, n - 1) then FailSlot(mid, d, n - 1) else mid
  }

  /** The slots of a failed server below n are empty, and those from n on are entered in both maps. */
  ghost predicate StillFailed(cl: Client, d: nat, n: nat, slots: nat) {
    && d < |cl.conns| && cl.conns[d].failed && |cl.conns[d].chunkMap| == slots
    && cl.freeIdx + 1 == Unplaced(cl.slotMap)
    && (forall i :: 0 <= i < n && i < slots ==> cl.conns[d].chunkMap[i] == -1)
    && (forall i :: n <= i < slots && cl.conns[d].chunkMap[i] != -1 ==>
          0 <= cl.conns[d].chunkMap[i] < |cl.slotMap| && cl.slotMap[cl.conns[d].chunkMap[i]] == i)
  }

  lemma FailLeavesOthers(cl: Client, d: nat, n: nat, slots: nat)
    requires StillFailed(cl, d, n, slots) && n < slots
    ensures cl.conns[d].chunkMap[n] != -1 ==> CanFailSlot(cl, d, n) && Room(cl)
    ensures StillFailed(if CanFailSlot(cl, d, n) then FailSlot(cl, d, n) else cl, d, n + 1, slots)
  {
    var b := cl.conns[d].chunkMap[n];
    if b != -1 {
      RoomForOne(cl.slotMap, b);
      UnplacedAfterUpdate(cl.slotMap, b, -1);
    }
  }

  /** The slab in each slot below n can be returned in its turn, with room for it. */
  ghost predicate AllCanFail(cl: Client, d: nat, n: nat) {
    n > 0 ==>
      && AllCanFail(cl, d, n - 1)
      && var mid := Failed(cl, d, n - 1);
         && d < |mid.conns| && n - 1 < |mid.conns[d].chunkMap|
         && (mid.conns[d].chunkMap[n - 1] != -1 ==> CanFailSlot(mid, d, n - 1) && Room(mid))
  }

  lemma {:induction false} FewerCanFail(cl: Client, d: nat, m: nat, n: nat)
    requires m <= n && AllCanFail(cl, d, n)
    ensures AllCanFail(cl, d, m)
  {
    if m < n {
      FewerCanFail(cl, d, m, n - 1);
    }
  }

  lemma {:induction false} FailedRemain(cl: Client, d: nat, n: nat, slots: nat)
    requires n <= slots && StillFailed(cl, d, 0, slots)
    ensures AllCanFail(cl, d, n) && StillFailed(Failed(cl, d, n), d, n, slots)
  {
    if n > 0 {
      FailedRemain(cl, d, n - 1, slots);
      FailLeavesOthers(Failed(cl, d, n - 1), d, n - 1, slots);
    }
  }

  /** While the maps are tidy, all slabs of a failed server can be returned, with room for each, and then none
      is left. */
  lemma FailedCanReturn(cl: Client, d: nat, slots: nat)
    requires TidyMaps(cl, slots) && d < |cl.conns| && cl.conns[d].failed
    ensures AllCanFail(cl, d, slots)
    ensures d < |Failed(cl, d, slots).conns| && NothingMapped(Failed(cl, d, slots).conns[d])
  {
    assert HoldsOnce(cl.conns[d]);
    FailedRemain(cl, d, slots, slots);
  }

  /** The actions that returned them. */
  function Fails(d: nat, chunkMap: seq<int>, n: nat): seq<Event>
    requires n <= |chunkMap|
  {
    if n == 0 then [] else Fails(d, chunkMap, n - 1) + (if chunkMap[n - 1] != -1 then [FailOneSlot(d, n - 1)] else [])
  }

  /** The slots from n on are as they were. */
  lemma {:induction false} FailedUntouched(cl: Client, d: nat, n: nat, i: nat)
    requires d < |cl.conns| && n <= i < |cl.conns[d].chunkMap|
    ensures d < |Failed(cl, d, n).conns| && i < |Failed(cl, d, n).conns[d].chunkMap|
    ensures Failed(cl, d, n).conns[d].chunkMap[i] == cl.conns[d].chunkMap[i]
  {
    if n > 0 {
      FailedUntouched(cl, d, n - 1, i);
    }
  }

  lemma {:induction false} FailedLeavesDevice(cl: Client, d: nat, n: nat)
    ensures Failed(cl, d, n).dev == cl.dev
  {
    if n > 0 {
      FailedLeavesDevice(cl, d, n - 1);
    }
  }

  lemma FailByAct(cl: Client, es: seq<Event>, mid: Client, d: nat, i: nat, pool: nat)
    requires Acts(cl, es, mid, pool) && mid.dev == cl.dev && Inv(cl.dev) && CanFailSlot(mid, d, i)
    ensures Acts(cl, es + [FailOneSlot(d, i)], FailSlot(mid, d, i), pool)
  {
    ActsOneMore(cl, es, mid, FailOneSlot(d, i), pool);
  }

  /** What the loop does is done by those actions. */
  lemma {:induction false} FailedByActs(cl: Client, d: nat, n: nat, pool: nat)
    requires Inv(cl.dev) && d < |cl.conns| && n <= |cl.conns[d].chunkMap| && AllCanFail(cl, d, n)
    ensures Acts(cl, Fails(d, cl.conns[d].chunkMap, n), Failed(cl, d, n), pool)
  {
    if n > 0 {
      var slots := cl.conns[d].chunkMap;
      var mid := Failed(cl, d, n - 1);
      FailedByActs(cl, d, n - 1, pool);
      FailedLeavesDevice(cl, d, n - 1);
      FailedUntouched(cl, d, n - 1, n - 1);
      if slots[n - 1] != -1 {
        assert Failed(cl, d, n) == FailSlot(mid, d, n - 1);
        assert Fails(d, slots, n) == Fails(d, slots, n - 1) + [FailOneSlot(d, n - 1)];
        FailByAct(cl, Fails(d, slots, n - 1), mid, d, n - 1, pool);
      } else {
        assert Failed(cl, d, n) == mid;
        assert Fails(d, slots, n) == Fails(d, slots, n - 1);
      }
    }
  }

  // ---------------------------------------------------------------- the arrays

  class SessionMaps {
    const cbIndexMap: array<int>
    const slotMap: array<int>            // chunk_map_cb_chunk
    const unmapped: array<int>           // unmapped_chunk_list
    const chunkMap: array<int>           // chunk_map of the connection at hand
    const server: nat                    // its index
    var freeIdx: int                     // free_chunk_index

    ghost predicate Apart() {
      && cbIndexMap != slotMap && cbIndexMap != unmapped && cbIndexMap != chunkMap
      && slotMap != unmapped && slotMap != chunkMap && unmapped != chunkMap
      && unmapped.Length == slotMap.Length
    }

    /** The arrays hold the client's maps. */
    ghost predicate Holds(cl: Client)
      reads this, cbIndexMap, slotMap, chunkMap
    {
      && Apart() && server < |cl.conns|
      && cbIndexMap[..] == cl.cbIndexMap && slotMap[..] == cl.slotMap && freeIdx == cl.freeIdx
      && chunkMap[..] == cl.conns[server].chunkMap
    }

    /** IS_single_chunk_init: enter the first slot the message tags. */
    method SingleChunkInit(tags: seq<bool>, slab: nat, ghost cl: Client)
      requires Holds(cl) && CanReceive(cl, server) && |tags| == chunkMap.Length
      requires cl.conns[server].down[0].Info? && cl.conns[server].down[0].slab == slab
      requires var slot := cl.conns[server].down[0].slot;
               && (forall i :: 0 <= i < |tags| && i < slot ==> !tags[i])
               && (slot < 0 ==> forall i :: 0 <= i < |tags| ==> !tags[i])
               && (slot >= 0 ==> slot < |tags| && tags[slot])
      modifies this`freeIdx, cbIndexMap, slotMap, chunkMap
      ensures Holds(Receive(cl, server))
    {
      var i := 0;
      while i < |tags|
        invariant 0 <= i <= |tags| && Holds(cl)
        invariant forall j :: 0 <= j < i ==> !tags[j]
        modifies {}
      {
        if tags[i] {
          break;
        }
        i := i + 1;
      }
      if i < |tags| {
        freeIdx := freeIdx - 1;
        slotMap[slab] := i;
        chunkMap[i] := slab;
        cbIndexMap[slab] := server;
      }
    }

    method UnmapOne(i: nat, ghost mid: Client)
      requires Holds(mid) && CanUnmap(mid, server, i)
      modifies cbIndexMap, chunkMap
      ensures Holds(Unmap(mid, server, i))
    {
      cbIndexMap[chunkMap[i]] := -1;
      chunkMap[i] := -1;
    }

    /** The unmapping loop of evict_handler: each tagged slot is one `UnmapVictim`. */
    method UnmapVictims(tags: seq<bool>, ghost cl: Client)
      requires Holds(cl) && AllCanUnmap(cl, server, tags, |tags|)
      modifies cbIndexMap, chunkMap
      ensures Holds(Unmapped(cl, server, tags, |tags|))
    {
      var i := 0;
      while i < |tags|
        invariant 0 <= i <= |tags| && Holds(Unmapped(cl, server, tags, i))
        modifies cbIndexMap, chunkMap
      {
        FewerCanUnmap(cl, server, tags, i + 1, |tags|);
        if tags[i] {
          UnmapOne(i, Unmapped(cl, server, tags, i));
        }
        i := i + 1;
      }
    }

    /** Put one slab back on the list of unmapped ones. */
    method ReturnOne(b: nat, ghost mid: Client)
      requires Holds(mid) && b < slotMap.Length && Room(mid)
      modifies this`freeIdx, slotMap, unmapped
      ensures Holds(mid.(slotMap := mid.slotMap[b := -1], freeIdx := mid.freeIdx + 1))
      ensures freeIdx == old(freeIdx) + 1 && unmapped[freeIdx] == b
      ensures forall i :: 0 <= i <= old(freeIdx) ==> unmapped[i] == old(unmapped[i])
    {
      slotMap[b] := -1;
      freeIdx := freeIdx + 1;
      unmapped[freeIdx] := b;
    }

    /** The loop of evict_handler that returns evicted slabs to the unmapped ones, each one `ForgetSlab`. */
    method ReturnEvicted(evicted: seq<bool>, ghost cl: Client)
      requires Holds(cl) && AllCanReturn(cl, server, evicted, |evicted|)
      modifies this`freeIdx, slotMap, unmapped
      ensures Holds(Forgotten(cl, server, evicted, |evicted|))
    {
      var b := 0;
      while b < |evicted|
        invariant 0 <= b <= |evicted| && Holds(Forgotten(cl, server, evicted, b))
        modifies this`freeIdx, slotMap, unmapped
      {
        FewerCanReturn(cl, server, evicted, b + 1, |evicted|);
        if evicted[b] {
          ReturnOne(b, Forgotten(cl, server, evicted, b));
        }
        b := b + 1;
      }
    }

    /** The first loop of IS_disconnect_handler: no request may use the server's slabs any more. */
    method DisallowRequests(ghost cl: Client)
      requires Holds(cl)
      requires forall i :: 0 <= i < chunkMap.Length ==> -1 <= chunkMap[i] < cbIndexMap.Length
      modifies cbIndexMap
      ensures Holds(FailBegin(cl, server))
    {
      var i := 0;
      while i < chunkMap.Length
        invariant 0 <= i <= chunkMap.Length
        invariant forall b :: 0 <= b < cbIndexMap.Length ==>
                    cbIndexMap[b] == if b in chunkMap[..i] then -1 else old(cbIndexMap[b])
        modifies cbIndexMap
      {
        assert chunkMap[..i + 1] == chunkMap[..i] + [chunkMap[i]];
        if chunkMap[i] != -1 {
          cbIndexMap[chunkMap[i]] := -1;
        }
        i := i + 1;
      }
      assert chunkMap[..i] == chunkMap[..];
      assert cbIndexMap[..] == FailBegin(cl, server).cbIndexMap;
    }

    method ReturnFailedSlot(i: nat, ghost mid: Client)
      requires Holds(mid) && CanFailSlot(mid, server, i) && Room(mid)
      modifies this`freeIdx, slotMap, chunkMap, unmapped
      ensures Holds(FailSlot(mid, server, i))
    {
      ReturnOne(chunkMap[i], mid);
      chunkMap[i] := -1;
    }

    /** Its last loop: the slabs of the failed server are returned, each one `FailOneSlot`. */
    method ReturnFailed(ghost cl: Client)
      requires Holds(cl) && AllCanFail(cl, server, chunkMap.Length)
      modifies this`freeIdx, slotMap, chunkMap, unmapped
      ensures Holds(Failed(cl, server, chunkMap.Length))
    {
      var i := 0;
      while i < chunkMap.Length
        invariant 0 <= i <= chunkMap.Length && Holds(Failed(cl, server, i))
        modifies this`freeIdx, slotMap, chunkMap, unmapped
      {
        FewerCanFail(cl, server, i + 1, chunkMap.Length);
        if chunkMap[i] != -1 {
          ReturnFailedSlot(i, Failed(cl, server, i));
        }
        i := i + 1;
      }
    }
  }
}
