/** What each client action does to coherence: nothing new is recorded by actions that accept no
    write, and each kind of write and read keeps the recorded pages right.
 */
module SwapRequests {
  import opened BackupDisk
  import C = SwapClient
  import opened SwapInvariants
  import opened SwapClientProof
  import opened Swap
  import opened SwapCoherence

  // ---------------------------------------------------------------- client actions that accept no write

  /** The action posts nothing to remote memory and accepts no write. */
  ghost predicate IsQuiet(cl: C.Client, e: C.Event) {
    !e.Write? && (e.Read? ==> C.OnDevice(cl, e.page, 1) && C.ReadPath(cl, e.page).ToDisk?)
  }

  lemma {:induction false} QuietSetConn(conns: seq<C.Conn>, d: nat, c: C.Conn)
    requires d < |conns| && QuietConn(conns[d], c)
    ensures QuietConns(conns, conns[d := c])
  {
  }

  /** Only these change which slots are mapped or recorded. */
  ghost predicate ChangesSlots(e: C.Event) {
    e.Write? || e.TakeMessage? || e.UnmapVictim? || e.FinishEviction? || e.BeginFailure? || e.FailOneSlot?
  }

  lemma OnlyThreadsQuiet(conns: seq<C.Conn>, conns': seq<C.Conn>)
    requires AllOnlyThreads(conns, conns')
    ensures QuietConns(conns, conns')
  {
  }

  lemma ActKeepsSlots(cl: C.Client, e: C.Event, pool: nat)
    requires Inv(cl.dev) && C.Enabled(cl, e, pool) && !ChangesSlots(e)
    ensures QuietConns(cl.conns, C.Act(cl, e, pool).conns)
  {
    if C.IsThreadAct(e) {
      ThreadActConns(cl, e, pool);
      OnlyThreadsQuiet(cl.conns, C.ThreadAct(cl, e, pool).conns);
    } else {
      assert C.Act(cl, e, pool).conns == cl.conns;
    }
  }

  lemma QuietConnsOfAct(cl: C.Client, e: C.Event, pool: nat)
    requires Inv(cl.dev) && C.Enabled(cl, e, pool) && IsQuiet(cl, e) && !e.TakeMessage?
    ensures QuietConns(cl.conns, C.Act(cl, e, pool).conns)
  {
    if !ChangesSlots(e) {
      ActKeepsSlots(cl, e, pool);
    } else {
      match e
      case FinishEviction(d) => QuietSetConn(cl.conns, d, C.SendDone(cl.conns[d]));
      case BeginFailure(d) => QuietSetConn(cl.conns, d, C.FailConn(cl.conns[d]));
      case UnmapVictim(d, i) => QuietSetConn(cl.conns, d, C.UnmapSlot(cl.conns[d], i));
      case FailOneSlot(d, i) => QuietSetConn(cl.conns, d, C.Released(cl.conns[d], i));
    }
  }

  /** Slabs are only taken out of the maps. */
  ghost predicate MapsShrink(cl: C.Client, cl': C.Client) {
    && |cl'.cbIndexMap| == |cl.cbIndexMap| && |cl'.slotMap| == |cl.slotMap|
    && (forall b :: 0 <= b < |cl.cbIndexMap| ==> cl'.cbIndexMap[b] == cl.cbIndexMap[b] || cl'.cbIndexMap[b] == -1)
    && (forall b :: 0 <= b < |cl.slotMap| ==> cl'.slotMap[b] == cl.slotMap[b] || cl'.slotMap[b] == -1)
  }

  lemma SeenShrinks(cl: C.Client, cl': C.Client)
    requires QuietConns(cl.conns, cl'.conns) && MapsShrink(cl, cl')
    ensures QuietConns(Seen(cl), Seen(cl'))
  {
    forall d | 0 <= d < |cl.conns| ensures QuietConn(Seen(cl)[d], Seen(cl')[d]) {
      assert QuietConn(cl.conns[d], cl'.conns[d]);
    }
  }

  lemma ActShrinks(cl: C.Client, e: C.Event, pool: nat)
    requires Inv(cl.dev) && C.Enabled(cl, e, pool) && !e.TakeMessage? && !e.Write?
    ensures MapsShrink(cl, C.Act(cl, e, pool))
  {
  }

  /** A slab that enters the maps does so with nothing recorded. */
  lemma EnterSeen(cl: C.Client, d: nat, cl': C.Client)
    requires C.CanReceive(cl, d) && cl.conns[d].down[0].Info? && cl.conns[d].down[0].slot >= 0
    requires cl' == C.RecvInfo(cl, d)
    ensures QuietConns(Seen(cl), Seen(cl'))
  {
    var m := cl.conns[d].down[0];
    forall e | 0 <= e < |cl.conns| ensures QuietConn(Seen(cl)[e], Seen(cl')[e]) {
      forall i: nat | && i < |cl.conns[e].chunkMap| && i < |cl.conns[e].bits|
                      && Seen(cl')[e].chunkMap[i] >= 0 && Seen(cl')[e].bits[i] != {}
        ensures Seen(cl)[e].chunkMap[i] == Seen(cl')[e].chunkMap[i]
      {
        assert cl'.conns[e].chunkMap[i] != m.slab;
      }
    }
  }

  lemma QuietReceive(cl: C.Client, d: nat)
    requires C.CanReceive(cl, d)
    ensures QuietConns(Seen(cl), Seen(C.Receive(cl, d)))
  {
    if cl.conns[d].down[0].Info? && cl.conns[d].down[0].slot >= 0 {
      EnterSeen(cl, d, C.Receive(cl, d));
    } else {
      QuietSetConn(cl.conns, d, C.Receive(cl, d).conns[d]);
      SeenShrinks(cl, C.Receive(cl, d));
    }
  }

  lemma QuietSeenOfAct(cl: C.Client, e: C.Event, pool: nat)
    requires Inv(cl.dev) && C.Enabled(cl, e, pool) && IsQuiet(cl, e)
    ensures QuietConns(Seen(cl), Seen(C.Act(cl, e, pool)))
  {
    if e.TakeMessage? {
      QuietReceive(cl, e.d);
    } else {
      QuietConnsOfAct(cl, e, pool);
      ActShrinks(cl, e, pool);
      SeenShrinks(cl, C.Act(cl, e, pool));
    }
  }

  lemma QuietFlightOfAct(cl: C.Client, e: C.Event, pool: nat)
    requires forall d :: 0 <= d < |cl.conns| && cl.conns[d].failed ==> !cl.conns[d].live
    requires Inv(cl.dev) && C.Enabled(cl, e, pool) && IsQuiet(cl, e)
    ensures var cl' := C.Act(cl, e, pool);
            && QuietFlight(cl.dev.flight, cl.dev.buf, cl'.dev.flight, cl'.dev.buf, cl'.conns)
            && cl'.dev.log == cl.dev.log && cl'.dev.initial == cl.dev.initial
  {
    if !TouchesDevice(e) {
      ActLeavesDevice(cl, e, pool);
    } else {
      match e
      case Read(page, ctx) => assert C.Act(cl, e, pool) == cl.(dev := DiskRead(cl.dev, page));
      case PopFifo =>
      case Abandoned(ctx) => assert C.Act(cl, e, pool) == cl.(dev := Abandon(cl.dev, ctx));
    }
  }

  lemma QuietActData(cl: C.Client, e: C.Event, servers: seq<Server>, slots: nat, pool: nat)
    requires ClientInv(cl, slots, pool) && Inv(cl.dev) && C.Enabled(cl, e, pool) && IsQuiet(cl, e)
    requires Coherent(cl, servers)
    ensures WriteThrough(C.Act(cl, e, pool).dev) && Coherent(C.Act(cl, e, pool), servers)
  {
    var cl' := C.Act(cl, e, pool);
    ActKeepsDisk(cl, e, slots, pool);
    QuietSeenOfAct(cl, e, pool);
    QuietFlightOfAct(cl, e, pool);
    QuietData(Seen(cl), cl.dev.flight, cl.dev.buf, Seen(cl'), cl'.dev.flight, cl'.dev.buf, servers, Flat(cl.dev));
  }

  // ---------------------------------------------------------------- requests

  lemma SeenSame(cl: C.Client, cl': C.Client)
    requires cl'.conns == cl.conns && cl'.cbIndexMap == cl.cbIndexMap && cl'.slotMap == cl.slotMap
    ensures Seen(cl') == Seen(cl)
  {
  }

  lemma RemoteReadData(cl: C.Client, page: nat, ctx: Ctx, servers: seq<Server>, slots: nat, pool: nat)
    requires ClientInv(cl, slots, pool) && Inv(cl.dev) && C.CanRead(cl, page, ctx, pool)
    requires C.ReadPath(cl, page).ToRemote? && Coherent(cl, servers)
    ensures WriteThrough(C.AcceptRead(cl, page, ctx).dev) && Coherent(C.AcceptRead(cl, page, ctx), servers)
  {
    var slot := C.ReadPath(cl, page).slot;
    LookupIsMapped(cl, C.FirstSlab(page), slots, pool);
    RdmaReadKeepsInv(cl.dev, ctx, slot, page);
    SeenSame(cl, cl.(dev := RdmaRead(cl.dev, ctx, slot, page)));
    LaunchReadData(Seen(cl), cl.dev.flight, cl.dev.buf, servers, Flat(cl.dev), ctx, slot, page);
  }

  /** Accepting a write changes the flat memory on its pages and nowhere else. */
  lemma AcceptedFlat(dev: Dev, dev': Dev, start: nat, data: seq<Page>)
    requires WriteThrough(dev) && WriteThrough(dev') && start + |data| <= |dev.initial|
    requires dev'.initial == dev.initial && dev'.log == dev.log + PagesOf(start, data)
    ensures Written(Flat(dev), Flat(dev'), start, data)
  {
    forall q | 0 <= q < |dev.initial|
      ensures Flat(dev')[q] == if start <= q < start + |data| then data[q - start] else Flat(dev)[q]
    {
      FlatAfterWrite(dev, start, data, dev'.log, q);
    }
  }

  /** Only the slot both maps name is seen to serve a slab. */
  lemma OneSlotSeen(cl: C.Client, slab: nat)
    requires slab < |cl.cbIndexMap| == |cl.slotMap|
    ensures ServedBy(Seen(cl), slab, cl.cbIndexMap[slab], cl.slotMap[slab])
  {
  }

  lemma RemoteWriteCoherent(cl: C.Client, start: nat, data: seq<Page>, ctx: Ctx, servers: seq<Server>, slots: nat,
                            pool: nat)
    requires ClientInv(cl, slots, pool) && Inv(cl.dev) && C.CanWrite(cl, start, data, ctx, pool)
    requires C.WritePath(cl, start, |data|).ToRemote? && Coherent(cl, servers)
    ensures WriteThrough(C.AcceptWrite(cl, start, data, ctx).dev)
    ensures Coherent(C.AcceptWrite(cl, start, data, ctx), servers)
  {
    var slot := C.WritePath(cl, start, |data|).slot;
    var dev' := RdmaWrite(cl.dev, ctx, slot, start, data);
    RdmaWriteKeepsInv(cl.dev, ctx, slot, start, data);
    AcceptedFlat(cl.dev, dev', start, data);
    OneSlotSeen(cl, C.FirstSlab(start));
    SeenSame(cl, cl.(dev := dev'));
    RemoteWriteData(Seen(cl), cl.dev.flight, cl.dev.buf, servers, Flat(cl.dev), Flat(dev'), ctx, slot, start, data);
  }

  /** A write that stays inside one slab and goes to disk alone. */
  lemma LocalWriteCoherent(cl: C.Client, start: nat, data: seq<Page>, servers: seq<Server>)
    requires Inv(cl.dev) && start + |data| <= |cl.dev.initial| && NoOverlap(cl.dev, start, |data|)
    requires Coherent(cl, servers) && Unrecorded(Seen(cl), start, |data|)
    ensures WriteThrough(DiskWrite(cl.dev, start, data))
    ensures Coherent(cl.(dev := DiskWrite(cl.dev, start, data)), servers)
  {
    var dev' := DiskWrite(cl.dev, start, data);
    DiskWriteKeepsInv(cl.dev, start, data);
    AcceptedFlat(cl.dev, dev', start, data);
    SeenSame(cl, cl.(dev := dev'));
    DiskWriteData(Seen(cl), cl.dev.flight, cl.dev.buf, servers, Flat(cl.dev), Flat(dev'), start, data);
  }

  /** A recorded page of a live slot lies in the session slab the slot serves. */
  lemma RecordedInSlab(conns: seq<C.Conn>, f: map<Ctx, Op>, buf: map<Ctx, seq<Page>>, servers: seq<Server>,
                       flat: seq<Page>, d: nat, i: nat, p: nat)
    requires ClientData(conns, f, buf, servers, flat)
    requires d < |conns| && conns[d].live && i < |conns[d].chunkMap| && i < |conns[d].bits|
    requires conns[d].chunkMap[i] >= 0 && p in conns[d].bits[i]
    ensures p < SLAB_PAGES
  {
    assert ConnData(conns[d], d, servers[d].mem, f, flat);
    assert SlotOk(conns[d], i, d, servers[d].mem[i], f, flat);
    assert PageOk(conns[d].chunkMap[i], p, d, i, servers[d].mem[i], f, flat);
  }

  /** A slab that has no server or no slot has no recorded page that requests could reach. */
  lemma UnmappedUnrecorded(cl: C.Client, start: nat, len: nat, servers: seq<Server>)
    requires C.OnDevice(cl, start, len) && WriteThrough(cl.dev) && Coherent(cl, servers)
    requires C.FirstSlab(start) == C.LastSlab(start, len)
    requires cl.cbIndexMap[C.FirstSlab(start)] < 0 || cl.slotMap[C.FirstSlab(start)] < 0
    ensures Unrecorded(Seen(cl), start, len)
  {
    var conns := Seen(cl);
    forall d: nat, i: nat, p: nat |
      && d < |conns| && i < |conns[d].chunkMap| && i < |conns[d].bits|
      && conns[d].live && conns[d].chunkMap[i] >= 0 && p in conns[d].bits[i]
      ensures !(start <= conns[d].chunkMap[i] * SLAB_PAGES + p < start + len)
    {
      RecordedInSlab(conns, cl.dev.flight, cl.dev.buf, servers, Flat(cl.dev), d, i, p);
    }
  }

  /** Connections that differ in recorded bits only, and have fewer of them. */
  ghost predicate FewerBits(conns: seq<C.Conn>, conns': seq<C.Conn>) {
    && |conns'| == |conns|
    && forall d :: 0 <= d < |conns| ==>
         && conns'[d] == conns[d].(bits := conns'[d].bits) && |conns'[d].bits| == |conns[d].bits|
         && forall i :: 0 <= i < |conns[d].bits| ==> conns'[d].bits[i] <= conns[d].bits[i]
  }

  /** The slot at these indices, if there is one, has no page in [lo, hi) recorded. */
  ghost predicate ClearedAt(conns: seq<C.Conn>, d: int, i: int, lo: nat, hi: nat) {
    0 <= d < |conns| && 0 <= i < |conns[d].bits| ==> forall p: nat :: p in conns[d].bits[i] ==> !(lo <= p < hi)
  }

  lemma FewerInOne(conns: seq<C.Conn>, d: nat, c: C.Conn)
    requires d < |conns| && c == conns[d].(bits := c.bits) && |c.bits| == |conns[d].bits|
    requires forall i :: 0 <= i < |c.bits| ==> c.bits[i] <= conns[d].bits[i]
    ensures FewerBits(conns, conns[d := c])
  {
  }

  lemma ClearBitsClears(cl: C.Client, slab: nat, lo: nat, hi: nat)
    requires slab < |cl.cbIndexMap| == |cl.slotMap|
    ensures var cl' := C.ClearBits(cl, slab, lo, hi);
            && cl' == cl.(conns := cl'.conns) && FewerBits(cl.conns, cl'.conns)
            && ClearedAt(cl'.conns, cl.cbIndexMap[slab], cl.slotMap[slab], lo, hi)
  {
    var d := cl.cbIndexMap[slab];
    var i := cl.slotMap[slab];
    if 0 <= d < |cl.conns| && 0 <= i < |cl.conns[d].bits| {
      var c := cl.conns[d].(bits := cl.conns[d].bits[i := cl.conns[d].bits[i] - PageRange(lo, hi)]);
      FewerInOne(cl.conns, d, c);
      assert C.ClearBits(cl, slab, lo, hi) == cl.(conns := cl.conns[d := c]);
    } else {
      assert C.ClearBits(cl, slab, lo, hi) == cl;
    }
  }

  /** Two slabs are cleared one after the other. */
  lemma TwoClears(cl: C.Client, cl1: C.Client, cl2: C.Client, first: nat, last: nat, lo: nat, hi: nat, hi': nat)
    requires first < |cl.cbIndexMap| == |cl.slotMap| && last < |cl.slotMap|
    requires cl1 == C.ClearBits(cl, first, lo, hi)
    requires |cl1.cbIndexMap| == |cl1.slotMap| > last && cl2 == C.ClearBits(cl1, last, 0, hi')
    ensures cl2 == cl.(conns := cl2.conns) && FewerBits(cl.conns, cl2.conns)
    ensures ClearedAt(cl2.conns, cl.cbIndexMap[first], cl.slotMap[first], lo, hi)
    ensures ClearedAt(cl2.conns, cl.cbIndexMap[last], cl.slotMap[last], 0, hi')
  {
    ClearBitsClears(cl, first, lo, hi);
    ClearBitsClears(cl1, last, 0, hi');
    FewerTwice(cl.conns, cl1.conns, cl2.conns);
    ClearedStays(cl1.conns, cl2.conns, cl.cbIndexMap[first], cl.slotMap[first], lo, hi);
  }

  lemma ClearedIsCleared(cl: C.Client, start: nat, len: nat)
    requires C.OnDevice(cl, start, len) && C.FirstSlab(start) != C.LastSlab(start, len)
    ensures var cl' := Cleared(cl, start, len);
            var first := C.FirstSlab(start);
            var last := C.LastSlab(start, len);
            && cl' == cl.(conns := cl'.conns) && FewerBits(cl.conns, cl'.conns)
            && ClearedAt(cl'.conns, cl.cbIndexMap[first], cl.slotMap[first], start % SLAB_PAGES, SLAB_PAGES)
            && ClearedAt(cl'.conns, cl.cbIndexMap[last], cl.slotMap[last], 0, start % SLAB_PAGES + len - SLAB_PAGES)
  {
    var lo := start % SLAB_PAGES;
    var cl1 := C.ClearBits(cl, C.FirstSlab(start), lo, SLAB_PAGES);
    TwoClears(cl, cl1, Cleared(cl, start, len), C.FirstSlab(start), C.LastSlab(start, len), lo, SLAB_PAGES,
              lo + len - SLAB_PAGES);
  }

  lemma FewerTwice(conns: seq<C.Conn>, mid: seq<C.Conn>, conns': seq<C.Conn>)
    requires FewerBits(conns, mid) && FewerBits(mid, conns')
    ensures FewerBits(conns, conns')
  {
  }

  lemma ClearedStays(conns: seq<C.Conn>, conns': seq<C.Conn>, d: int, i: int, lo: nat, hi: nat)
    requires FewerBits(conns, conns') && ClearedAt(conns, d, i, lo, hi)
    ensures ClearedAt(conns', d, i, lo, hi)
  {
  }

  /** The two cleared ranges cover exactly the pages of a write across two slabs. */
  lemma CrossPages(start: nat, len: nat, b: nat, p: nat)
    requires 0 < len <= SLAB_PAGES && p < SLAB_PAGES
    requires C.FirstSlab(start) != C.LastSlab(start, len)
    ensures start <= b * SLAB_PAGES + p < start + len <==>
              || (b == C.FirstSlab(start) && start % SLAB_PAGES <= p < SLAB_PAGES)
              || (b == C.LastSlab(start, len) && 0 <= p < start % SLAB_PAGES + len - SLAB_PAGES)
  {
  }

  /** Fewer recorded bits, nothing else changed. */
  lemma SeenFewer(cl: C.Client, cl': C.Client)
    requires cl' == cl.(conns := cl'.conns) && FewerBits(cl.conns, cl'.conns)
    ensures FewerBits(Seen(cl), Seen(cl')) && QuietConns(Seen(cl), Seen(cl'))
  {
    forall d | 0 <= d < |cl.conns|
      ensures Seen(cl')[d] == Seen(cl)[d].(bits := cl'.conns[d].bits) && QuietConn(Seen(cl)[d], Seen(cl')[d])
    {
      assert SeenMap(cl'.cbIndexMap, cl'.slotMap, cl'.conns[d].chunkMap, d)
          == SeenMap(cl.cbIndexMap, cl.slotMap, cl.conns[d].chunkMap, d);
    }
  }

  /** A write across two slabs leaves none of its pages recorded where requests could reach them. */
  lemma ClearedUnrecorded(cl: C.Client, start: nat, len: nat, servers: seq<Server>)
    requires C.OnDevice(cl, start, len) && WriteThrough(cl.dev) && Coherent(cl, servers)
    requires C.FirstSlab(start) != C.LastSlab(start, len)
    ensures Unrecorded(Seen(Cleared(cl, start, len)), start, len)
  {
    var cl' := Cleared(cl, start, len);
    ClearedIsCleared(cl, start, len);
    SeenFewer(cl, cl');
    var conns := Seen(cl');
    forall d: nat, i: nat, p: nat |
      && d < |conns| && i < |conns[d].chunkMap| && i < |conns[d].bits|
      && conns[d].live && conns[d].chunkMap[i] >= 0 && p in conns[d].bits[i]
      ensures !(start <= conns[d].chunkMap[i] * SLAB_PAGES + p < start + len)
    {
      RecordedInSlab(Seen(cl), cl.dev.flight, cl.dev.buf, servers, Flat(cl.dev), d, i, p);
      CrossPages(start, len, conns[d].chunkMap[i], p);
    }
  }

  lemma CrossWriteCoherent(cl: C.Client, start: nat, data: seq<Page>, ctx: Ctx, servers: seq<Server>, pool: nat)
    requires Inv(cl.dev) && C.CanWrite(cl, start, data, ctx, pool) && |cl.dev.initial| == |cl.cbIndexMap| * SLAB_PAGES
    requires C.FirstSlab(start) != C.LastSlab(start, |data|) && Coherent(cl, servers)
    ensures WriteThrough(C.AcceptWrite(cl, start, data, ctx).dev)
    ensures Coherent(C.AcceptWrite(cl, start, data, ctx), servers)
  {
    var cl' := Cleared(cl, start, |data|);
    ClearedIsCleared(cl, start, |data|);
    ClearedUnrecorded(cl, start, |data|, servers);
    SeenFewer(cl, cl');
    QuietData(Seen(cl), cl.dev.flight, cl.dev.buf, Seen(cl'), cl.dev.flight, cl.dev.buf, servers, Flat(cl.dev));
    LocalWriteCoherent(cl', start, data, servers);
  }
}
