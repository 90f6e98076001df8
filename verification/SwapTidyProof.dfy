/** Every client action keeps a tidy client tidy, provided that mapping operations are begun on slabs without
    a slot. */
module SwapTidyProof {
  import opened BackupDisk
  import opened SwapClient
  import opened SwapInvariants
  import opened SwapClientProof
  import opened SwapTidy

  // ---------------------------------------------------------------- frames

  lemma InverseFrame(cbIndexMap: seq<int>, slotMap: seq<int>, conns: seq<Conn>, conns': seq<Conn>, slots: nat)
    requires MapsInverse(cbIndexMap, slotMap, conns, slots) && |conns'| == |conns|
    requires forall d :: 0 <= d < |conns| ==>
               conns'[d].chunkMap == conns[d].chunkMap && conns'[d].failed == conns[d].failed
    ensures MapsInverse(cbIndexMap, slotMap, conns', slots)
  {
  }

  /** Every connection answers for the slabs it answered for. */
  ghost predicate SameHeld(conns: seq<Conn>, conns': seq<Conn>) {
    && |conns'| == |conns|
    && forall d, b: nat {:trigger Holds(conns'[d], b)} {:trigger Holds(conns[d], b)} :: 0 <= d < |conns| ==>
         (Holds(conns'[d], b) <==> Holds(conns[d], b))
  }

  lemma HeldStays(slotMap: seq<int>, conns: seq<Conn>, conns': seq<Conn>)
    requires HoldersUnique(slotMap, conns) && PlacedHeld(slotMap, conns) && SameHeld(conns, conns')
    ensures HoldersUnique(slotMap, conns') && PlacedHeld(slotMap, conns')
  {
    forall b: nat | b < |slotMap| && slotMap[b] != -1 ensures HeldBySome(conns', b) {
      var d :| 0 <= d < |conns| && Holds(conns[d], b);
      assert Holds(conns'[d], b);
    }
  }

  lemma OneHeldStays(conns: seq<Conn>, d: nat, c: Conn)
    requires d < |conns| && forall b: nat :: Holds(c, b) <==> Holds(conns[d], b)
    ensures SameHeld(conns, conns[d := c])
  {
  }

  lemma SameHoldsOnce(c: Conn, c': Conn)
    requires SameHolds(c, c')
    ensures HoldsOnce(c) ==> HoldsOnce(c')
    ensures forall b: nat :: Holds(c', b) <==> Holds(c, b)
  {
  }

  ghost predicate AllSameHolds(conns: seq<Conn>, conns': seq<Conn>) {
    |conns'| == |conns| && forall d :: 0 <= d < |conns| ==> SameHolds(conns[d], conns'[d])
  }

  lemma OneSameHolds(conns: seq<Conn>, d: nat, c: Conn)
    requires d < |conns| && SameHolds(conns[d], c)
    ensures AllSameHolds(conns, conns[d := c])
  {
  }

  /** The maps, the index and the holders are as they were. */
  lemma TidyFrame(cl: Client, cl': Client, slots: nat)
    requires TidyMaps(cl, slots) && AllSameHolds(cl.conns, cl'.conns)
    requires cl'.cbIndexMap == cl.cbIndexMap && cl'.slotMap == cl.slotMap && cl'.freeIdx == cl.freeIdx
    ensures TidyMaps(cl', slots)
  {
    forall d | 0 <= d < |cl.conns|
      ensures HoldsOnce(cl'.conns[d]) && forall b: nat :: Holds(cl'.conns[d], b) <==> Holds(cl.conns[d], b)
    {
      SameHoldsOnce(cl.conns[d], cl'.conns[d]);
    }
    InverseFrame(cl.cbIndexMap, cl.slotMap, cl.conns, cl'.conns, slots);
    HeldStays(cl.slotMap, cl.conns, cl'.conns);
  }

  // ---------------------------------------------------------------- actions that change the maps

  lemma EnteredHeld(slotMap: seq<int>, conns: seq<Conn>, d: nat, b: nat, i: nat, c: Conn)
    requires PlacedHeld(slotMap, conns) && d < |conns| && b < |slotMap|
    requires forall x: nat :: Holds(c, x) <==> (Holds(conns[d], x) || x == b)
    ensures PlacedHeld(slotMap[b := i], conns[d := c])
  {
    var slotMap' := slotMap[b := i];
    forall x: nat | x < |slotMap'| && slotMap'[x] != -1 ensures HeldBySome(conns[d := c], x) {
      if x == b {
        assert Holds(conns[d := c][d], b);
      } else {
        StillHeld(conns, x, d, c);
      }
    }
  }

  /** The slot a daemon hands out is free at the client. */
  lemma InfoSlotIsFree(cl: Client, d: nat, slots: nat, pool: nat)
    requires ClientInv(cl, slots, pool) && CanReceive(cl, d) && cl.conns[d].down[0].Info?
    requires 0 <= cl.conns[d].down[0].slot
    ensures cl.conns[d].down[0].slot < slots == |cl.conns[d].chunkMap|
    ensures cl.conns[d].chunkMap[cl.conns[d].down[0].slot] == -1
    ensures cl.conns[d].down[0].slot !in Victims(cl.conns[d]) && !cl.conns[d].failed
    ensures cl.mapping == Binding(cl.conns[d].down[0].slab, d)
  {
    InfoIsExpected(cl, d, slots, pool);
    EnteredKeepsConn(cl.conns[d], slots);
  }

  /** Nobody answers for a slab without a slot. */
  lemma UnplacedNotHeld(cl: Client, slots: nat, b: nat, d: nat)
    requires TidyMaps(cl, slots) && b < |cl.slotMap| && cl.slotMap[b] == -1 && d < |cl.conns|
    ensures !Holds(cl.conns[d], b)
  {
  }

  lemma EnterTidy(cl: Client, d: nat, slots: nat, pool: nat)
    requires ClientInv(cl, slots, pool) && TidyMaps(cl, slots)
    requires CanReceive(cl, d) && cl.conns[d].down[0].Info? && 0 <= cl.conns[d].down[0].slot
    requires cl.slotMap[cl.conns[d].down[0].slab] == -1
    ensures TidyMaps(RecvInfo(cl, d), slots)
  {
    var c := cl.conns[d];
    var m := c.down[0];
    InfoSlotIsFree(cl, d, slots, pool);
    UnplacedNotHeld(cl, slots, m.slab, d);
    EnteredHoldsOnce(c, m.slab, m.slot);
    var c' := Entered(c, m.slab, m.slot);
    EnterMaps(cl.cbIndexMap, cl.slotMap, cl.conns, slots, d, m.slab, m.slot, c');
    EnterHolders(cl.slotMap, cl.conns, d, m.slab, m.slot, c');
    EnteredHeld(cl.slotMap, cl.conns, d, m.slab, m.slot, c');
    UnplacedAfterUpdate(cl.slotMap, m.slab, m.slot);
  }

  /** Taking in a slab handed out keeps maps and index right exactly when the slab had no slot; with one, the
      index no longer counts the unplaced slabs. */
  lemma EnterKeepsExactly(cl: Client, d: nat, slots: nat, pool: nat)
    requires ClientInv(cl, slots, pool) && TidyMaps(cl, slots)
    requires CanReceive(cl, d) && cl.conns[d].down[0].Info? && 0 <= cl.conns[d].down[0].slot
    ensures TidyMaps(RecvInfo(cl, d), slots) <==> cl.slotMap[cl.conns[d].down[0].slab] == -1
    ensures cl.slotMap[cl.conns[d].down[0].slab] != -1 ==>
              RecvInfo(cl, d).freeIdx + 2 == Unplaced(RecvInfo(cl, d).slotMap)
  {
    var m := cl.conns[d].down[0];
    UnplacedAfterUpdate(cl.slotMap, m.slab, m.slot);
    if cl.slotMap[m.slab] == -1 {
      EnterTidy(cl, d, slots, pool);
    }
  }

  /** A slab has no slot exactly when no connection answers for it any more. */
  lemma UnplacedExactlyWhenNotHeld(cl: Client, slots: nat, b: nat)
    requires TidyMaps(cl, slots) && b < |cl.slotMap|
    ensures cl.slotMap[b] == -1 <==> !HeldBySome(cl.conns, b)
  {
  }

  lemma UnmapTidy(cl: Client, d: nat, i: nat, slots: nat)
    requires TidyMaps(cl, slots) && CanUnmap(cl, d, i)
    ensures TidyMaps(Unmap(cl, d, i), slots)
  {
    var c := cl.conns[d];
    var c' := UnmapSlot(c, i);
    forall b: nat ensures Holds(c', b) <==> Holds(c, b) {
      UnmapHolds(c, i, b);
    }
    UnmapHoldsOnce(c, i);
    OnlyHolder(cl.slotMap, cl.conns, slots, d, i);
    LeaveMaps(cl.cbIndexMap, cl.cbIndexMap[c.chunkMap[i] := -1], cl.slotMap, cl.slotMap, cl.conns, slots, d, i, c');
    OneHeldStays(cl.conns, d, c');
    HeldStays(cl.slotMap, cl.conns, cl.conns[d := c']);
  }

  lemma FinishTidy(cl: Client, d: nat, slots: nat)
    requires TidyMaps(cl, slots) && d < |cl.conns| && cl.conns[d].phase.Draining?
    ensures TidyMaps(cl.(conns := cl.conns[d := SendDone(cl.conns[d])]), slots)
  {
    var c := cl.conns[d];
    var c' := SendDone(c);
    forall b: nat ensures Holds(c', b) <==> Holds(c, b) {
      SendDoneHolds(c, b);
    }
    SendDoneHoldsOnce(c);
    InverseFrame(cl.cbIndexMap, cl.slotMap, cl.conns, cl.conns[d := c'], slots);
    OneHeldStays(cl.conns, d, c');
    HeldStays(cl.slotMap, cl.conns, cl.conns[d := c']);
  }

  /** A held slab is given up for good. */
  lemma GiveUpHeld(slotMap: seq<int>, conns: seq<Conn>, d: nat, b: nat, c: Conn)
    requires PlacedHeld(slotMap, conns) && d < |conns| && b < |slotMap|
    requires forall x: nat :: Holds(c, x) <==> (Holds(conns[d], x) && x != b)
    ensures PlacedHeld(slotMap[b := -1], conns[d := c])
  {
    var slotMap' := slotMap[b := -1];
    forall x: nat | x < |slotMap'| && slotMap'[x] != -1 ensures HeldBySome(conns[d := c], x) {
      StillHeld(conns, x, d, c);
    }
  }

  /** A slab in `remap` is in nobody's reverse map. */
  lemma RemapIsUnmapped(slotMap: seq<int>, conns: seq<Conn>, d: nat, b: nat, slots: nat)
    requires HoldersUnique(slotMap, conns) && d < |conns| && b in conns[d].remap
    requires forall e :: 0 <= e < |conns| ==> |conns[e].chunkMap| == slots && HoldsOnce(conns[e])
    ensures forall e, i :: 0 <= e < |conns| && 0 <= i < slots && conns[e].chunkMap[i] >= 0 ==> conns[e].chunkMap[i] != b
  {
    assert Holds(conns[d], b);
    forall e, i | 0 <= e < |conns| && 0 <= i < slots && conns[e].chunkMap[i] >= 0
      ensures conns[e].chunkMap[i] != b
    {
      assert conns[e].chunkMap[i] in conns[e].chunkMap;
      assert e != d ==> !Holds(conns[e], b);
    }
  }

  lemma ForgetMaps(cl: Client, d: nat, b: nat, c: Conn, slots: nat)
    requires MapsInverse(cl.cbIndexMap, cl.slotMap, cl.conns, slots) && d < |cl.conns| && b < |cl.slotMap|
    requires c.chunkMap == cl.conns[d].chunkMap && c.failed == cl.conns[d].failed
    requires forall e, i :: 0 <= e < |cl.conns| && 0 <= i < slots && cl.conns[e].chunkMap[i] >= 0 ==>
               cl.conns[e].chunkMap[i] != b
    ensures MapsInverse(cl.cbIndexMap, cl.slotMap[b := -1], cl.conns[d := c], slots)
  {
    assert cl.cbIndexMap[b] == -1;
    InverseFrame(cl.cbIndexMap, cl.slotMap, cl.conns, cl.conns[d := c], slots);
  }

  lemma ForgetTidy(cl: Client, d: nat, b: nat, slots: nat)
    requires TidyMaps(cl, slots) && CanForget(cl, d, b)
    ensures TidyMaps(Forget(cl, d, b), slots)
  {
    var c := cl.conns[d];
    var c' := Forgetting(c, b);
    ForgettingHolds(c, b);
    assert Holds(c, b);
    UnplacedAfterUpdate(cl.slotMap, b, -1);
    LeaveHolders(cl.slotMap, cl.conns, d, b, c');
    GiveUpHeld(cl.slotMap, cl.conns, d, b, c');
    RemapIsUnmapped(cl.slotMap, cl.conns, d, b, slots);
    ForgetMaps(cl, d, b, c', slots);
  }

  lemma FailBeginInverse(cl: Client, d: nat, slots: nat)
    requires TidyMaps(cl, slots) && d < |cl.conns|
    ensures MapsInverse(FailBegin(cl, d).cbIndexMap, cl.slotMap, FailBegin(cl, d).conns, slots)
  {
    var cl' := FailBegin(cl, d);
    var c := cl.conns[d];
    forall b | 0 <= b < |cl'.cbIndexMap| && cl'.cbIndexMap[b] != -1
      ensures cl'.cbIndexMap[b] == cl.cbIndexMap[b] && cl'.cbIndexMap[b] != d
    {
      assert cl.conns[cl.cbIndexMap[b]].chunkMap[cl.slotMap[b]] == b;
    }
    forall e, i | 0 <= e < |cl'.conns| && 0 <= i < slots && cl'.conns[e].chunkMap[i] >= 0
      ensures cl'.conns[e].chunkMap == cl.conns[e].chunkMap
           && (e != d ==> cl.conns[e].chunkMap[i] !in c.chunkMap)
    {
      var b := cl.conns[e].chunkMap[i];
      assert b in cl.conns[e].chunkMap;
      assert Holds(cl.conns[e], b);
      assert e != d ==> !Holds(c, b);
    }
  }

  lemma FailBeginTidy(cl: Client, d: nat, slots: nat)
    requires TidyMaps(cl, slots) && d < |cl.conns|
    ensures TidyMaps(FailBegin(cl, d), slots)
  {
    var c := cl.conns[d];
    var c' := FailConn(c);
    assert Victims(c') == Victims(c);
    assert forall b: nat :: Holds(c', b) <==> Holds(c, b);
    assert HoldsOnce(c');
    FailBeginInverse(cl, d, slots);
    OneHeldStays(cl.conns, d, c');
    HeldStays(cl.slotMap, cl.conns, cl.conns[d := c']);
  }

  lemma FailIdleTidy(cl: Client, d: nat, slots: nat)
    requires TidyMaps(cl, slots) && d < |cl.conns| && NothingMapped(cl.conns[d])
    ensures TidyMaps(FailIdle(cl, d), slots)
  {
    var c := cl.conns[d];
    var c' := c.(failed := true);
    assert Victims(c') == Victims(c);
    assert forall b: nat :: Holds(c', b) <==> Holds(c, b);
    assert HoldsOnce(c');
    OneHeldStays(cl.conns, d, c');
    HeldStays(cl.slotMap, cl.conns, cl.conns[d := c']);
    forall b | 0 <= b < |cl.cbIndexMap| && cl.cbIndexMap[b] != -1 ensures cl.cbIndexMap[b] != d {
      assert cl.conns[cl.cbIndexMap[b]].chunkMap[cl.slotMap[b]] == b;
    }
  }

  lemma FailSlotTidy(cl: Client, d: nat, i: nat, slots: nat)
    requires TidyMaps(cl, slots) && CanFailSlot(cl, d, i) && |cl.conns[d].chunkMap| == slots
    ensures TidyMaps(FailSlot(cl, d, i), slots)
  {
    var c := cl.conns[d];
    var b := c.chunkMap[i];
    var c' := Released(c, i);
    ReleasedHolds(c, i);
    assert b in c.chunkMap && Holds(c, b);
    UnplacedAfterUpdate(cl.slotMap, b, -1);
    OnlyHolder(cl.slotMap, cl.conns, slots, d, i);
    assert cl.cbIndexMap[b] == -1;
    LeaveMaps(cl.cbIndexMap, cl.cbIndexMap[b := -1], cl.slotMap, cl.slotMap[b := -1], cl.conns, slots, d, i, c');
    assert cl.cbIndexMap[b := -1] == cl.cbIndexMap;
    LeaveHolders(cl.slotMap, cl.conns, d, b, c');
    GiveUpHeld(cl.slotMap, cl.conns, d, b, c');
  }

  // ---------------------------------------------------------------- every action

  /** A mapping operation is begun on a slab that has no slot. */
  ghost predicate BeginsUnplaced(cl: Client, e: Event) {
    e.TriggerMapping? || e.ThreadMapping? ==> e.slab < |cl.slotMap| && cl.slotMap[e.slab] == -1
  }

  /** Actions that change a map or who answers for a slab. */
  predicate ChangesMaps(e: Event) {
    || e.UnmapVictim? || e.FinishEviction? || e.ForgetSlab?
    || e.BeginFailure? || e.FailUnmapped? || e.FailOneSlot?
  }

  lemma ThreadActFrame(cl: Client, e: Event, pool: nat)
    requires Enabled(cl, e, pool) && IsThreadAct(e) && !ChangesMaps(e)
    ensures var cl' := ThreadAct(cl, e, pool);
            && AllSameHolds(cl.conns, cl'.conns)
            && cl'.cbIndexMap == cl.cbIndexMap && cl'.slotMap == cl.slotMap && cl'.freeIdx == cl.freeIdx
  {
    match e
    case ThreadMapping(d, _) => OneSameHolds(cl.conns, d, ThreadAct(cl, e, pool).conns[d]);
    case AskServer(d) => OneSameHolds(cl.conns, d, SendUp(cl.conns[d], Query));
    case BindTo(d) => OneSameHolds(cl.conns, d, SendUp(cl.conns[d], Bind(cl.mapping.slab)));
    case ReportActivity(d) => OneSameHolds(cl.conns, d, SendActivity(cl.conns[d]));
    case ScanNext(d) => OneSameHolds(cl.conns, d, ScanContext(cl.conns[d], d, cl.dev.flight));
    case EndEviction(d) => OneSameHolds(cl.conns, d, EvictionEnds(cl, d).conns[d]);
    case EndFailure(d) => OneSameHolds(cl.conns, d, FailEnd(cl, d).conns[d]);
    case ResumeTrigger(d) => OneSameHolds(cl.conns, d, Resume(cl, d).conns[d]);
    case _ =>
  }

  lemma ThreadActMapping(cl: Client, e: Event, pool: nat)
    requires Enabled(cl, e, pool) && IsThreadAct(e) && BeginsUnplaced(cl, e)
    requires TidyMapping(cl.mapping, cl.slotMap)
    ensures TidyMapping(ThreadAct(cl, e, pool).mapping, ThreadAct(cl, e, pool).slotMap)
  {
  }

  lemma EvictionActTidy(cl: Client, e: Event, slots: nat, pool: nat)
    requires TidyMaps(cl, slots) && Enabled(cl, e, pool) && (e.UnmapVictim? || e.FinishEviction? || e.ForgetSlab?)
    ensures TidyMaps(ThreadAct(cl, e, pool), slots)
  {
    match e
    case UnmapVictim(d, i) => UnmapTidy(cl, d, i, slots);
    case FinishEviction(d) => FinishTidy(cl, d, slots);
    case ForgetSlab(d, b) => ForgetTidy(cl, d, b, slots);
  }

  lemma FailureActTidy(cl: Client, e: Event, slots: nat, pool: nat)
    requires ClientInv(cl, slots, pool) && TidyMaps(cl, slots) && Enabled(cl, e, pool)
    requires e.BeginFailure? || e.FailUnmapped? || e.FailOneSlot?
    ensures TidyMaps(ThreadAct(cl, e, pool), slots)
  {
    assert ConnInv(cl.conns[e.d], slots);
    match e
    case BeginFailure(d) => FailBeginTidy(cl, d, slots);
    case FailUnmapped(d) => FailIdleTidy(cl, d, slots);
    case FailOneSlot(d, i) => FailSlotTidy(cl, d, i, slots);
  }

  lemma ThreadActTidy(cl: Client, e: Event, slots: nat, pool: nat)
    requires ClientInv(cl, slots, pool) && Tidy(cl, slots)
    requires Enabled(cl, e, pool) && IsThreadAct(e) && BeginsUnplaced(cl, e)
    ensures Tidy(ThreadAct(cl, e, pool), slots)
  {
    ThreadActMapping(cl, e, pool);
    if e.UnmapVictim? || e.FinishEviction? || e.ForgetSlab? {
      EvictionActTidy(cl, e, slots, pool);
    } else if ChangesMaps(e) {
      FailureActTidy(cl, e, slots, pool);
    } else {
      ThreadActFrame(cl, e, pool);
      TidyFrame(cl, ThreadAct(cl, e, pool), slots);
    }
  }

  lemma DeviceTidy(cl: Client, cl': Client, slots: nat)
    requires Tidy(cl, slots) && cl' == cl.(dev := cl'.dev)
    ensures Tidy(cl', slots)
  {
    TidyFrame(cl, cl', slots);
  }

  lemma BitsTidy(cl: Client, cl': Client, slots: nat)
    requires Tidy(cl, slots) && SameButBits(cl.(dev := cl'.dev), cl')
    ensures Tidy(cl', slots)
  {
    forall d | 0 <= d < |cl.conns| ensures SameHolds(cl.conns[d], cl'.conns[d]) {
    }
    TidyFrame(cl, cl', slots);
  }

  lemma WriteTidy(cl: Client, start: nat, data: seq<Page>, ctx: Ctx, slots: nat)
    requires Tidy(cl, slots) && OnDevice(cl, start, |data|)
    ensures Tidy(AcceptWrite(cl, start, data, ctx), slots)
  {
    var cl' := AcceptWrite(cl, start, data, ctx);
    if WritePath(cl, start, |data|).ToDisk? && FirstSlab(start) != LastSlab(start, |data|) {
      var mid := cl.(dev := cl'.dev);
      ClearedOnlyBits(mid, start, |data|);
      assert cl' == Cleared(mid, start, |data|);
      BitsTidy(cl, cl', slots);
    } else {
      DeviceTidy(cl, cl', slots);
    }
  }

  lemma MappingAnswerTidy(cl: Client, d: nat, slots: nat)
    requires TidyMaps(cl, slots) && CanReceive(cl, d) && !IsEviction(cl.conns[d].down[0])
    requires cl.conns[d].down[0].Info? ==> cl.conns[d].down[0].slot < 0
    ensures TidyMaps(Receive(cl, d), slots)
  {
    OneSameHolds(cl.conns, d, Receive(cl, d).conns[d]);
    TidyFrame(cl, Receive(cl, d), slots);
  }

  lemma EvictionMessageHolds(c: Conn)
    requires c.down != [] && ((c.down[0].Evict? && c.phase == Ready) || (c.down[0].Stop? && c.phase == AwaitStop))
    ensures c.down[0].Evict? ==> SameHolds(c, RecvEvict(c))
    ensures c.down[0].Stop? ==> SameHolds(c, RecvStop(c))
  {
  }

  lemma EvictionMessageTidy(cl: Client, d: nat, slots: nat)
    requires TidyMaps(cl, slots) && CanReceive(cl, d) && IsEviction(cl.conns[d].down[0])
    ensures TidyMaps(Receive(cl, d), slots)
  {
    var c := cl.conns[d];
    EvictionMessageHolds(c);
    OneSameHolds(cl.conns, d, if c.down[0].Evict? then RecvEvict(c) else RecvStop(c));
    TidyFrame(cl, Receive(cl, d), slots);
  }

  lemma ReceiveTidy(cl: Client, d: nat, slots: nat, pool: nat)
    requires ClientInv(cl, slots, pool) && Tidy(cl, slots) && CanReceive(cl, d)
    ensures Tidy(Receive(cl, d), slots)
  {
    if cl.conns[d].down[0].Info? && cl.conns[d].down[0].slot >= 0 {
      InfoIsExpected(cl, d, slots, pool);
      EnterTidy(cl, d, slots, pool);
    } else if IsEviction(cl.conns[d].down[0]) {
      EvictionMessageTidy(cl, d, slots);
    } else {
      MappingAnswerTidy(cl, d, slots);
    }
  }

  lemma RequestActTidy(cl: Client, e: Event, slots: nat, pool: nat)
    requires ClientInv(cl, slots, pool) && Inv(cl.dev) && Tidy(cl, slots) && Enabled(cl, e, pool) && !IsThreadAct(e)
    ensures Tidy(Act(cl, e, pool), slots)
  {
    match e
    case Write(start, data, ctx) => WriteTidy(cl, start, data, ctx, slots);
    case Read(page, ctx) => DeviceTidy(cl, AcceptRead(cl, page, ctx), slots);
    case PopFifo => DeviceTidy(cl, PopBio(cl), slots);
    case TakeMessage(d) => ReceiveTidy(cl, d, slots, pool);
  }

  /** Every action a client can take by itself. */
  lemma ActTidy(cl: Client, e: Event, slots: nat, pool: nat)
    requires ClientInv(cl, slots, pool) && Inv(cl.dev) && Tidy(cl, slots)
    requires Enabled(cl, e, pool) && BeginsUnplaced(cl, e)
    ensures Tidy(Act(cl, e, pool), slots)
  {
    if IsThreadAct(e) {
      ThreadActTidy(cl, e, slots, pool);
      assert Act(cl, e, pool) == ThreadAct(cl, e, pool);
    } else {
      RequestActTidy(cl, e, slots, pool);
    }
  }
}
