/** In which runs the slab maps stay tidy. They do when every mapping operation is begun on a slab without a
    slot, and every operation is, when no eviction and no disconnect of a client begins before the last one
    has switched the trigger on again.
 */
module SwapSolo {
  import opened BackupDisk
  import opened SwapClient
  import opened SwapInvariants
  import opened SwapClientProof
  import opened SwapTidy
  import opened SwapTidyProof

  // ---------------------------------------------------------------- one connection at work

  /** The eviction thread or the disconnect handler is between switching the trigger off and on. */
  predicate Working(c: Conn) {
    c.evicting || c.handler != NoHandler
  }

  ghost predicate NoneWorks(conns: seq<Conn>) {
    forall d :: 0 <= d < |conns| ==> !Working(conns[d])
  }

  /** At most one connection is at work, with its thread or its handler but not both, and the trigger is off
      exactly while one is. */
  ghost predicate OneWorks(triggerOn: bool, conns: seq<Conn>) {
    && (triggerOn <==> NoneWorks(conns))
    && (forall d, e :: 0 <= d < |conns| && 0 <= e < |conns| && Working(conns[d]) && Working(conns[e]) ==> d == e)
    && (forall d :: 0 <= d < |conns| ==> !(conns[d].evicting && conns[d].handler != NoHandler))
  }

  /** What a connection that is not at work has finished, and what one at work has left to map. */
  ghost predicate WorkOk(c: Conn, slotMap: seq<int>, m: Mapping) {
    && (!c.evicting ==> !c.phase.Draining? && c.remap == {})
    && (!Working(c) ==> c.again == {})
    && (c.handler == Returning ==> c.failed)
    && (c.failed && c.handler != Returning ==> NothingMapped(c))
    && (!m.NoMapping? ==> m.slab !in c.again)
    && (forall b :: b in c.again ==>
          b < |slotMap| && (slotMap[b] == -1 || (c.handler == Returning && b in c.chunkMap)))
  }

  ghost predicate Solo(cl: Client) {
    && OneWorks(cl.triggerOn, cl.conns)
    && forall d :: 0 <= d < |cl.conns| ==> WorkOk(cl.conns[d], cl.slotMap, cl.mapping)
  }

  /** An eviction or a disconnect begins only when no connection of the client is at work. */
  ghost predicate BeginsAlone(cl: Client, e: Event) {
    || (e.TakeMessage? && CanReceive(cl, e.d) && cl.conns[e.d].down[0].Stop? && cl.conns[e.d].down[0].size != 0)
    || e.BeginFailure? ==>
         NoneWorks(cl.conns)
  }

  // ---------------------------------------------------------------- why operations begin on unplaced slabs

  /** With nobody at work, only the server the forward map names can answer for a slab. */
  lemma IdleAnswersForMapped(cl: Client, slab: nat, slots: nat, d: nat)
    requires Tidy(cl, slots) && Solo(cl) && NoneWorks(cl.conns) && slab < |cl.cbIndexMap| && d < |cl.conns|
    ensures Holds(cl.conns[d], slab) ==> cl.cbIndexMap[slab] == d
  {
    assert WorkOk(cl.conns[d], cl.slotMap, cl.mapping);
  }

  lemma TriggerFindsUnplaced(cl: Client, slab: nat, slots: nat)
    requires Tidy(cl, slots) && Solo(cl) && TriggerMaps(cl, slab)
    ensures slab < |cl.slotMap| && cl.slotMap[slab] == -1
  {
    forall d | 0 <= d < |cl.conns| ensures !Holds(cl.conns[d], slab) {
      IdleAnswersForMapped(cl, slab, slots, d);
    }
    UnplacedExactlyWhenNotHeld(cl, slots, slab);
  }

  /** So no operation is ever begun on a slab that still has a slot. */
  lemma SoloBeginsUnplaced(cl: Client, e: Event, slots: nat, pool: nat)
    requires Tidy(cl, slots) && Solo(cl) && Enabled(cl, e, pool)
    ensures BeginsUnplaced(cl, e)
  {
    match e
    case TriggerMapping(slab) => TriggerFindsUnplaced(cl, slab, slots);
    case ThreadMapping(d, slab) => assert WorkOk(cl.conns[d], cl.slotMap, cl.mapping);
    case _ =>
  }

  // ---------------------------------------------------------------- frames

  /** The parts of a connection that work depends on. */
  ghost predicate SameWork(c: Conn, c': Conn) {
    && c'.evicting == c.evicting && c'.handler == c.handler && c'.again == c.again && c'.remap == c.remap
    && c'.failed == c.failed && c'.chunkMap == c.chunkMap && c'.phase.Draining? == c.phase.Draining?
  }

  ghost predicate AllSameWork(conns: seq<Conn>, conns': seq<Conn>) {
    |conns'| == |conns| && forall d :: 0 <= d < |conns| ==> SameWork(conns[d], conns'[d])
  }

  /** The operation under way is the same one, or has ended. */
  ghost predicate SameSlab(m: Mapping, m': Mapping) {
    m'.NoMapping? || (!m.NoMapping? && m'.slab == m.slab)
  }

  lemma SoloFrame(cl: Client, cl': Client)
    requires Solo(cl) && AllSameWork(cl.conns, cl'.conns)
    requires cl'.slotMap == cl.slotMap && cl'.triggerOn == cl.triggerOn && SameSlab(cl.mapping, cl'.mapping)
    ensures Solo(cl')
  {
    forall d | 0 <= d < |cl.conns| ensures WorkOk(cl'.conns[d], cl'.slotMap, cl'.mapping) {
      assert WorkOk(cl.conns[d], cl.slotMap, cl.mapping);
    }
  }

  lemma OneSameWork(conns: seq<Conn>, d: nat, c: Conn)
    requires d < |conns| && SameWork(conns[d], c)
    ensures AllSameWork(conns, conns[d := c])
  {
  }

  lemma OneWorksOn(on: bool, conns: seq<Conn>, d: nat, c: Conn)
    requires OneWorks(on, conns) && d < |conns| && (Working(c) <==> Working(conns[d]))
    requires !(c.evicting && c.handler != NoHandler)
    ensures OneWorks(on, conns[d := c])
  {
    var conns' := conns[d := c];
    assert forall e :: 0 <= e < |conns| ==> (Working(conns'[e]) <==> Working(conns[e]));
    if NoneWorks(conns') {
      assert forall e :: 0 <= e < |conns| ==> !Working(conns'[e]) && !Working(conns[e]);
    }
  }

  /** One connection goes on with its work. */
  lemma SetWork(cl: Client, cl': Client, d: nat, c: Conn)
    requires Solo(cl) && d < |cl.conns| && cl'.conns == cl.conns[d := c] && cl'.triggerOn == cl.triggerOn
    requires (Working(c) <==> Working(cl.conns[d])) && !(c.evicting && c.handler != NoHandler)
    requires WorkOk(c, cl'.slotMap, cl'.mapping) && |cl'.slotMap| == |cl.slotMap|
    requires forall b :: 0 <= b < |cl.slotMap| && cl.slotMap[b] == -1 ==>
               cl'.slotMap[b] == -1 || forall e :: 0 <= e < |cl.conns| && e != d ==> b !in cl.conns[e].again
    requires SameSlab(cl.mapping, cl'.mapping)
    ensures Solo(cl')
  {
    OneWorksOn(cl.triggerOn, cl.conns, d, c);
    forall e | 0 <= e < |cl.conns| && e != d ensures WorkOk(cl'.conns[e], cl'.slotMap, cl'.mapping) {
      assert WorkOk(cl.conns[e], cl.slotMap, cl.mapping);
    }
  }

  // ---------------------------------------------------------------- the actions

  lemma StartSolo(cl: Client, slab: nat)
    requires Solo(cl) && TriggerMaps(cl, slab)
    ensures Solo(StartMapping(cl, slab))
  {
    forall d | 0 <= d < |cl.conns| ensures WorkOk(cl.conns[d], cl.slotMap, Known(slab, map[])) {
      assert WorkOk(cl.conns[d], cl.slotMap, cl.mapping);
    }
  }

  lemma ThreadStartSolo(cl: Client, d: nat, slab: nat)
    requires Solo(cl) && ThreadMaps(cl, d, slab)
    ensures Solo(ThreadStarts(cl, d, slab))
  {
    var cl' := ThreadStarts(cl, d, slab);
    assert Working(cl'.conns[d]);
    forall e | 0 <= e < |cl.conns| ensures WorkOk(cl'.conns[e], cl'.slotMap, cl'.mapping) {
      assert WorkOk(cl.conns[e], cl.slotMap, cl.mapping);
    }
  }

  lemma UnmapSolo(cl: Client, d: nat, i: nat)
    requires Solo(cl) && CanUnmap(cl, d, i)
    ensures Solo(Unmap(cl, d, i))
  {
    assert WorkOk(cl.conns[d], cl.slotMap, cl.mapping);
    SetWork(cl, Unmap(cl, d, i), d, UnmapSlot(cl.conns[d], i));
  }

  lemma FinishSolo(cl: Client, d: nat)
    requires Solo(cl) && d < |cl.conns| && cl.conns[d].phase.Draining?
    ensures Solo(cl.(conns := cl.conns[d := SendDone(cl.conns[d])]))
  {
    assert WorkOk(cl.conns[d], cl.slotMap, cl.mapping);
    SetWork(cl, cl.(conns := cl.conns[d := SendDone(cl.conns[d])]), d, SendDone(cl.conns[d]));
  }

  lemma ForgetSolo(cl: Client, d: nat, b: nat, slots: nat)
    requires Solo(cl) && Tidy(cl, slots) && CanForget(cl, d, b)
    ensures Solo(Forget(cl, d, b))
  {
    var c := cl.conns[d];
    assert WorkOk(c, cl.slotMap, cl.mapping);
    assert Holds(c, b);
    SetWork(cl, Forget(cl, d, b), d, Forgetting(c, b));
  }

  lemma MappedSlabsAreMapped(c: Conn, b: nat)
    ensures b in MappedSlabs(c) <==> b in c.chunkMap
  {
    if b in c.chunkMap {
      var i :| 0 <= i < |c.chunkMap| && c.chunkMap[i] == b;
      assert c.chunkMap[i] as nat == b;
    }
  }

  lemma FailConnWork(c: Conn, slotMap: seq<int>, m: Mapping)
    requires WorkOk(c, slotMap, m) && !Working(c)
    requires forall b: nat :: b in c.chunkMap ==> b < |slotMap| && (!m.NoMapping? ==> m.slab != b)
    ensures WorkOk(FailConn(c), slotMap, m)
  {
    forall b: nat | b in FailConn(c).again ensures b in c.chunkMap {
      MappedSlabsAreMapped(c, b);
    }
  }

  lemma FailBeginSolo(cl: Client, d: nat, slots: nat)
    requires Solo(cl) && Tidy(cl, slots) && d < |cl.conns| && NoneWorks(cl.conns)
    ensures Solo(FailBegin(cl, d))
  {
    var cl' := FailBegin(cl, d);
    assert Working(cl'.conns[d]);
    forall b: nat | b in cl.conns[d].chunkMap ensures b < |cl.slotMap| && cl.slotMap[b] != -1 {
      assert Holds(cl.conns[d], b);
    }
    FailConnWork(cl.conns[d], cl.slotMap, cl.mapping);
    forall e | 0 <= e < |cl.conns| ensures WorkOk(cl'.conns[e], cl'.slotMap, cl'.mapping) {
      assert WorkOk(cl.conns[e], cl.slotMap, cl.mapping);
    }
  }

  lemma FailIdleSolo(cl: Client, d: nat)
    requires Solo(cl) && d < |cl.conns| && NothingMapped(cl.conns[d])
    ensures Solo(FailIdle(cl, d))
  {
    assert WorkOk(cl.conns[d], cl.slotMap, cl.mapping);
    SetWork(cl, FailIdle(cl, d), d, cl.conns[d].(failed := true));
  }

  lemma ReleasedWork(c: Conn, i: nat, slotMap: seq<int>, m: Mapping)
    requires WorkOk(c, slotMap, m) && c.failed && i < |c.chunkMap| && 0 <= c.chunkMap[i] < |slotMap|
    ensures WorkOk(Released(c, i), slotMap[c.chunkMap[i] := -1], m)
  {
    var b := c.chunkMap[i];
    var c' := Released(c, i);
    forall x | x in c.again && x != b && x in c.chunkMap ensures x in c'.chunkMap {
      var j :| 0 <= j < |c.chunkMap| && c.chunkMap[j] == x;
      assert c'.chunkMap[j] == x;
    }
  }

  lemma FailSlotSolo(cl: Client, d: nat, i: nat)
    requires Solo(cl) && CanFailSlot(cl, d, i)
    ensures Solo(FailSlot(cl, d, i))
  {
    assert WorkOk(cl.conns[d], cl.slotMap, cl.mapping);
    ReleasedWork(cl.conns[d], i, cl.slotMap, cl.mapping);
    SetWork(cl, FailSlot(cl, d, i), d, Released(cl.conns[d], i));
  }

  lemma FailEndSolo(cl: Client, d: nat)
    requires Solo(cl) && CanEndFailure(cl, d)
    ensures Solo(FailEnd(cl, d))
  {
    var c := cl.conns[d];
    assert WorkOk(c, cl.slotMap, cl.mapping);
    SetWork(cl, FailEnd(cl, d), d, c.(handler := Remapping));
  }

  /** The connection at work has done all it should: then none is. */
  lemma WorkEnds(cl: Client, cl': Client, d: nat, c: Conn)
    requires Solo(cl) && d < |cl.conns| && Working(cl.conns[d]) && AllMappedAgain(cl.conns[d])
    requires cl' == cl.(triggerOn := true, conns := cl.conns[d := c])
    requires c == cl.conns[d].(evicting := false, handler := NoHandler)
    requires !cl.conns[d].phase.Draining? && cl.conns[d].remap == {} && cl.conns[d].handler != Returning
    ensures Solo(cl')
  {
    assert WorkOk(cl.conns[d], cl.slotMap, cl.mapping);
    forall e | 0 <= e < |cl.conns| ensures WorkOk(cl'.conns[e], cl'.slotMap, cl'.mapping) && !Working(cl'.conns[e]) {
      assert WorkOk(cl.conns[e], cl.slotMap, cl.mapping);
    }
  }

  lemma EndEvictionSolo(cl: Client, d: nat)
    requires Solo(cl) && CanEndEviction(cl, d)
    ensures Solo(EvictionEnds(cl, d))
  {
    WorkEnds(cl, EvictionEnds(cl, d), d, EvictionEnds(cl, d).conns[d]);
  }

  lemma ResumeSolo(cl: Client, d: nat)
    requires Solo(cl) && CanResume(cl, d)
    ensures Solo(Resume(cl, d))
  {
    assert WorkOk(cl.conns[d], cl.slotMap, cl.mapping);
    WorkEnds(cl, Resume(cl, d), d, Resume(cl, d).conns[d]);
  }

  /** Actions of mapping operations and requests, which do no such work. */
  predicate IsWork(e: Event) {
    || e.TriggerMapping? || e.ThreadMapping? || e.EndEviction? || e.EndFailure? || e.ResumeTrigger? || ChangesMaps(e)
  }

  lemma SetSameWork(cl: Client, cl': Client, d: nat, c: Conn)
    requires Solo(cl) && d < |cl.conns| && SameWork(cl.conns[d], c) && cl'.conns == cl.conns[d := c]
    requires cl'.slotMap == cl.slotMap && cl'.triggerOn == cl.triggerOn && SameSlab(cl.mapping, cl'.mapping)
    ensures Solo(cl')
  {
    OneSameWork(cl.conns, d, c);
    SoloFrame(cl, cl');
  }

  lemma OtherThreadActSolo(cl: Client, e: Event, pool: nat)
    requires Solo(cl) && Enabled(cl, e, pool) && IsThreadAct(e) && !IsWork(e)
    ensures Solo(ThreadAct(cl, e, pool))
  {
    var cl' := ThreadAct(cl, e, pool);
    match e
    case AskServer(d) => SetSameWork(cl, cl', d, SendUp(cl.conns[d], Query));
    case BindTo(d) => SetSameWork(cl, cl', d, SendUp(cl.conns[d], Bind(cl.mapping.slab)));
    case ReportActivity(d) => SetSameWork(cl, cl', d, SendActivity(cl.conns[d]));
    case ScanNext(d) => SetSameWork(cl, cl', d, ScanContext(cl.conns[d], d, cl.dev.flight));
    case StopMapping => SoloFrame(cl, cl');
    case Abandoned(_) => SoloFrame(cl, cl');
  }

  lemma ThreadWorkSolo(cl: Client, e: Event, slots: nat, pool: nat)
    requires Tidy(cl, slots) && Solo(cl) && Enabled(cl, e, pool)
    requires || e.TriggerMapping? || e.ThreadMapping? || e.UnmapVictim? || e.FinishEviction?
             || e.ForgetSlab? || e.EndEviction?
    ensures Solo(ThreadAct(cl, e, pool))
  {
    match e
    case TriggerMapping(slab) => StartSolo(cl, slab);
    case ThreadMapping(d, slab) => ThreadStartSolo(cl, d, slab);
    case UnmapVictim(d, i) => UnmapSolo(cl, d, i);
    case FinishEviction(d) => FinishSolo(cl, d);
    case ForgetSlab(d, b) => ForgetSolo(cl, d, b, slots);
    case EndEviction(d) => EndEvictionSolo(cl, d);
  }

  lemma HandlerWorkSolo(cl: Client, e: Event, slots: nat, pool: nat)
    requires ClientInv(cl, slots, pool) && Tidy(cl, slots) && Solo(cl) && Enabled(cl, e, pool) && BeginsAlone(cl, e)
    requires e.BeginFailure? || e.FailUnmapped? || e.FailOneSlot? || e.EndFailure? || e.ResumeTrigger?
    ensures Solo(ThreadAct(cl, e, pool))
  {
    match e
    case BeginFailure(d) => FailBeginSolo(cl, d, slots);
    case FailUnmapped(d) =>
      assert ConnInv(cl.conns[d], slots);
      FailIdleSolo(cl, d);
    case FailOneSlot(d, i) => FailSlotSolo(cl, d, i);
    case EndFailure(d) => FailEndSolo(cl, d);
    case ResumeTrigger(d) => ResumeSolo(cl, d);
  }

  lemma WorkSolo(cl: Client, e: Event, slots: nat, pool: nat)
    requires ClientInv(cl, slots, pool) && Tidy(cl, slots) && Solo(cl)
    requires Enabled(cl, e, pool) && IsWork(e) && BeginsAlone(cl, e)
    ensures Solo(ThreadAct(cl, e, pool))
  {
    if e.BeginFailure? || e.FailUnmapped? || e.FailOneSlot? || e.EndFailure? || e.ResumeTrigger? {
      HandlerWorkSolo(cl, e, slots, pool);
    } else {
      ThreadWorkSolo(cl, e, slots, pool);
    }
  }

  // ---------------------------------------------------------------- messages and requests

  lemma EnterSolo(cl: Client, d: nat, slots: nat, pool: nat)
    requires ClientInv(cl, slots, pool) && Solo(cl) && CanReceive(cl, d) && cl.conns[d].down[0].Info?
    requires 0 <= cl.conns[d].down[0].slot
    ensures Solo(RecvInfo(cl, d))
  {
    var m := cl.conns[d].down[0];
    InfoSlotIsFree(cl, d, slots, pool);
    var cl' := RecvInfo(cl, d);
    forall e | 0 <= e < |cl.conns| ensures WorkOk(cl'.conns[e], cl'.slotMap, cl'.mapping) {
      assert WorkOk(cl.conns[e], cl.slotMap, cl.mapping);
      assert m.slab !in cl.conns[e].again;
    }
    forall e | 0 <= e < |cl.conns| ensures Working(cl'.conns[e]) <==> Working(cl.conns[e]) {
    }
  }

  lemma StopSolo(cl: Client, d: nat)
    requires Solo(cl) && CanReceive(cl, d) && cl.conns[d].down[0].Stop?
    requires cl.conns[d].down[0].size != 0 && NoneWorks(cl.conns)
    ensures Solo(Receive(cl, d))
  {
    var cl' := Receive(cl, d);
    assert Working(cl'.conns[d]);
    forall e | 0 <= e < |cl.conns| ensures WorkOk(cl'.conns[e], cl'.slotMap, cl'.mapping) {
      assert WorkOk(cl.conns[e], cl.slotMap, cl.mapping);
    }
  }

  lemma OtherMessageSolo(cl: Client, d: nat)
    requires Solo(cl) && CanReceive(cl, d)
    requires cl.conns[d].down[0].Stop? ==> cl.conns[d].down[0].size == 0
    requires cl.conns[d].down[0].Info? ==> cl.conns[d].down[0].slot < 0
    ensures Solo(Receive(cl, d))
  {
    SetSameWork(cl, Receive(cl, d), d, Receive(cl, d).conns[d]);
  }

  lemma ReceiveSolo(cl: Client, d: nat, slots: nat, pool: nat)
    requires ClientInv(cl, slots, pool) && Solo(cl) && CanReceive(cl, d) && BeginsAlone(cl, TakeMessage(d))
    ensures Solo(Receive(cl, d))
  {
    var m := cl.conns[d].down[0];
    if m.Info? && m.slot >= 0 {
      EnterSolo(cl, d, slots, pool);
    } else if m.Stop? && m.size != 0 {
      StopSolo(cl, d);
    } else {
      OtherMessageSolo(cl, d);
    }
  }

  lemma BitsSolo(cl: Client, cl': Client)
    requires Solo(cl) && SameButBits(cl.(dev := cl'.dev), cl')
    ensures Solo(cl')
  {
    forall d | 0 <= d < |cl.conns| ensures SameWork(cl.conns[d], cl'.conns[d]) {
    }
    SoloFrame(cl, cl');
  }

  lemma DeviceSolo(cl: Client, cl': Client)
    requires Solo(cl) && cl' == cl.(dev := cl'.dev)
    ensures Solo(cl')
  {
    SoloFrame(cl, cl');
  }

  lemma WriteSolo(cl: Client, start: nat, data: seq<Page>, ctx: Ctx)
    requires Solo(cl) && OnDevice(cl, start, |data|)
    ensures Solo(AcceptWrite(cl, start, data, ctx))
  {
    var cl' := AcceptWrite(cl, start, data, ctx);
    if WritePath(cl, start, |data|).ToDisk? && FirstSlab(start) != LastSlab(start, |data|) {
      var mid := cl.(dev := cl'.dev);
      ClearedOnlyBits(mid, start, |data|);
      assert cl' == Cleared(mid, start, |data|);
      BitsSolo(cl, cl');
    } else {
      DeviceSolo(cl, cl');
    }
  }

  lemma RequestActSolo(cl: Client, e: Event, slots: nat, pool: nat)
    requires ClientInv(cl, slots, pool) && Inv(cl.dev) && Solo(cl)
    requires Enabled(cl, e, pool) && !IsThreadAct(e) && BeginsAlone(cl, e)
    ensures Solo(Act(cl, e, pool))
  {
    match e
    case Write(start, data, ctx) => WriteSolo(cl, start, data, ctx);
    case Read(page, ctx) => DeviceSolo(cl, AcceptRead(cl, page, ctx));
    case PopFifo => DeviceSolo(cl, PopBio(cl));
    case TakeMessage(d) => ReceiveSolo(cl, d, slots, pool);
  }

  /** Every action of a client keeps it tidy and its work apart, if its work begins alone. */
  lemma ActSolo(cl: Client, e: Event, slots: nat, pool: nat)
    requires ClientInv(cl, slots, pool) && Inv(cl.dev) && Tidy(cl, slots) && Solo(cl)
    requires Enabled(cl, e, pool) && BeginsAlone(cl, e)
    ensures Solo(Act(cl, e, pool)) && Tidy(Act(cl, e, pool), slots)
  {
    SoloBeginsUnplaced(cl, e, slots, pool);
    ActTidy(cl, e, slots, pool);
    if !IsThreadAct(e) {
      RequestActSolo(cl, e, slots, pool);
    } else {
      assert Act(cl, e, pool) == ThreadAct(cl, e, pool);
      if IsWork(e) {
        WorkSolo(cl, e, slots, pool);
      } else {
        OtherThreadActSolo(cl, e, pool);
      }
    }
  }
}
