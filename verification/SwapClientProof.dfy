/** Every client action keeps the client invariant, and the slots its live connections claim. */
module SwapClientProof {
  import opened BackupDisk
  import opened SwapClient
  import opened SwapInvariants

  /** No connection comes to life, and a live one claims the slots it claimed before. */
  ghost predicate SameClaims(cl: Client, cl': Client, slots: nat) {
    && |cl'.conns| == |cl.conns|
    && (forall d :: 0 <= d < |cl.conns| ==> |cl.conns[d].chunkMap| == slots && |cl'.conns[d].chunkMap| == slots)
    && (forall d :: 0 <= d < |cl.conns| && cl'.conns[d].live ==> cl.conns[d].live)
    && (forall d, i: nat :: 0 <= d < |cl.conns| && i < slots && cl'.conns[d].live ==>
          (Claimed(cl'.conns[d], i) <==> Claimed(cl.conns[d], i)))
  }

  /** One connection is replaced by one with the same maps; nothing else of the client but the
      mapping operation changes. */
  lemma ConnFrameInv(cl: Client, cl': Client, d: nat, c: Conn, slots: nat, pool: nat)
    requires ClientInv(cl, slots, pool) && d < |cl.conns|
    requires cl' == cl.(mapping := cl'.mapping, conns := cl.conns[d := c])
    requires ConnInv(c, slots) && SameMaps(cl.conns[d], c)
    requires MappingInv(|cl.slotMap|, cl'.mapping, cl'.conns)
    requires ScanInv(cl.dev.flight, c, d)
    ensures ClientInv(cl', slots, pool)
  {
    HoldsFrame(cl.conns[d], c);
    MapsFrame(cl.cbIndexMap, cl.slotMap, cl.conns, slots, d, c);
    HeldFrame(cl.conns, |cl.slotMap|, d, c);
    FlightFrame(cl.dev.flight, cl.conns, slots, pool, |cl.dev.initial|, d, c);
  }

  lemma ConnFrame(cl: Client, cl': Client, d: nat, c: Conn, slots: nat, pool: nat)
    requires ClientInv(cl, slots, pool) && d < |cl.conns|
    requires cl' == cl.(mapping := cl'.mapping, conns := cl.conns[d := c])
    requires ConnInv(c, slots) && SameMaps(cl.conns[d], c)
    requires MappingInv(|cl.slotMap|, cl'.mapping, cl'.conns)
    requires ScanInv(cl.dev.flight, c, d)
    requires forall i: nat :: i < slots ==> (Claimed(c, i) <==> Claimed(cl.conns[d], i))
    ensures ClientInv(cl', slots, pool) && SameClaims(cl, cl', slots)
  {
    ConnFrameInv(cl, cl', d, c, slots, pool);
  }

  /** One connection and the slab maps change; the parts of the invariant put together again. */
  lemma Assemble(cl: Client, cl': Client, d: nat, c: Conn, slots: nat, pool: nat)
    requires ClientInv(cl, slots, pool) && d < |cl.conns|
    requires cl'.dev == cl.dev && cl'.conns == cl.conns[d := c] && |cl'.cbIndexMap| == |cl.cbIndexMap|
    requires ConnInv(c, slots) && ScanInv(cl.dev.flight, c, d)
    requires MapsForward(cl'.cbIndexMap, cl'.slotMap, cl'.conns, slots)
    requires HeldInRange(cl'.conns, |cl'.slotMap|)
    requires MappingInv(|cl'.slotMap|, cl'.mapping, cl'.conns)
    requires FlightInv(cl.dev.flight, cl'.conns, slots, pool, |cl.dev.initial|)
    requires c.live ==> cl.conns[d].live
    requires c.live ==> forall i: nat :: i < slots ==> (Claimed(c, i) <==> Claimed(cl.conns[d], i))
    ensures ClientInv(cl', slots, pool) && SameClaims(cl, cl', slots)
  {
  }

  /** Only recorded bits differ. */
  ghost predicate SameButBits(cl: Client, cl': Client) {
    && cl' == cl.(conns := cl'.conns)
    && |cl'.conns| == |cl.conns|
    && forall d :: 0 <= d < |cl.conns| ==>
         cl'.conns[d] == cl.conns[d].(bits := cl'.conns[d].bits) && |cl'.conns[d].bits| == |cl.conns[d].bits|
  }

  lemma BitsDoNotMatter(c: Conn, bits: seq<set<nat>>, slots: nat)
    requires ConnInv(c, slots) && |bits| == slots
    ensures ConnInv(c.(bits := bits), slots)
    ensures forall b: nat :: Holds(c.(bits := bits), b) <==> Holds(c, b)
    ensures forall i: nat :: i < slots ==> (Claimed(c.(bits := bits), i) <==> Claimed(c, i))
    ensures forall i: nat :: i < slots ==> SlabAt(c.(bits := bits), i) == SlabAt(c, i)
  {
    var c' := c.(bits := bits);
    assert DoneSlots(c') == DoneSlots(c) && InfoSlot(c') == InfoSlot(c) && Victims(c') == Victims(c);
  }

  lemma BitsKeepMaps(cl: Client, cl': Client, slots: nat)
    requires MapsForward(cl.cbIndexMap, cl.slotMap, cl.conns, slots) && SameButBits(cl, cl')
    ensures MapsForward(cl'.cbIndexMap, cl'.slotMap, cl'.conns, slots)
  {
    forall b | 0 <= b < |cl.slotMap| ensures ForwardOk(b, cl.cbIndexMap[b], cl.slotMap[b], cl'.conns) {
      assert ForwardOk(b, cl.cbIndexMap[b], cl.slotMap[b], cl.conns);
    }
  }

  lemma BitsKeepHeld(cl: Client, cl': Client)
    requires HeldInRange(cl.conns, |cl.slotMap|) && SameButBits(cl, cl')
    ensures HeldInRange(cl'.conns, |cl'.slotMap|)
  {
    forall d, b: nat | 0 <= d < |cl.conns| && Holds(cl'.conns[d], b) ensures Holds(cl.conns[d], b) {
      assert Victims(cl'.conns[d]) == Victims(cl.conns[d]);
    }
  }

  lemma BitsKeepMapping(cl: Client, cl': Client)
    requires MappingInv(|cl.slotMap|, cl.mapping, cl.conns) && SameButBits(cl, cl')
    ensures MappingInv(|cl'.slotMap|, cl'.mapping, cl'.conns)
  {
    forall d | 0 <= d < |cl'.conns| && cl'.conns[d].live ensures MappingMessages(cl'.conns[d], cl'.mapping, d) {
      assert MappingMessages(cl.conns[d], cl.mapping, d);
    }
  }

  lemma BitsKeepFlight(cl: Client, cl': Client, slots: nat, pool: nat, pages: nat)
    requires FlightInv(cl.dev.flight, cl.conns, slots, pool, pages) && SameButBits(cl, cl')
    ensures FlightInv(cl.dev.flight, cl'.conns, slots, pool, pages)
  {
    var f := cl.dev.flight;
    forall x | x in f ensures FlightPlace(x, f[x], cl'.conns, slots, pool, pages) {
      assert FlightPlace(x, f[x], cl.conns, slots, pool, pages);
      assert Victims(cl'.conns[x.server]) == Victims(cl.conns[x.server]);
    }
  }

  /** Nothing in the invariant depends on the recorded bits. */
  lemma BitsFrame(cl: Client, cl': Client, slots: nat, pool: nat)
    requires ClientInv(cl, slots, pool) && SameButBits(cl, cl')
    ensures ClientInv(cl', slots, pool) && SameClaims(cl, cl', slots)
  {
    forall d | 0 <= d < |cl.conns|
      ensures ConnInv(cl'.conns[d], slots) && ScanInv(cl'.dev.flight, cl'.conns[d], d)
      ensures forall i: nat :: i < slots ==> (Claimed(cl'.conns[d], i) <==> Claimed(cl.conns[d], i))
    {
      BitsDoNotMatter(cl.conns[d], cl'.conns[d].bits, slots);
      assert ScanInv(cl.dev.flight, cl.conns[d], d);
    }
    BitsKeepMaps(cl, cl', slots);
    BitsKeepHeld(cl, cl');
    BitsKeepMapping(cl, cl');
    BitsKeepFlight(cl, cl', slots, pool, |cl.dev.initial|);
  }

  /** The device changes while nothing new is in flight. */
  lemma DevFrame(cl: Client, dev: Dev, slots: nat, pool: nat)
    requires ClientInv(cl, slots, pool)
    requires |dev.initial| == |cl.dev.initial|
    requires forall x :: x in dev.flight ==> x in cl.dev.flight && dev.flight[x] == cl.dev.flight[x]
    ensures ClientInv(cl.(dev := dev), slots, pool) && SameClaims(cl, cl.(dev := dev), slots)
  {
    forall x | x in dev.flight ensures FlightPlace(x, dev.flight[x], cl.conns, slots, pool, |dev.initial|) {
      assert FlightPlace(x, cl.dev.flight[x], cl.conns, slots, pool, |cl.dev.initial|);
    }
    forall d | 0 <= d < |cl.conns| ensures ScanInv(dev.flight, cl.conns[d], d) {
      assert ScanInv(cl.dev.flight, cl.conns[d], d);
    }
  }

  lemma LaunchFlight(f: map<Ctx, Op>, ctx: Ctx, op: Op, conns: seq<Conn>, slots: nat, pool: nat, pages: nat)
    requires FlightInv(f, conns, slots, pool, pages)
    requires FlightPlace(ctx, op, conns, slots, pool, pages)
    requires forall x, p :: x in f && x != ctx && op.Covers(p) ==>
               (op.WriteOp? || f[x].WriteOp? ==> !f[x].Covers(p))
    ensures FlightInv(f[ctx := op], conns, slots, pool, pages)
  {
    var g := f[ctx := op];
    forall x | x in g ensures FlightPlace(x, g[x], conns, slots, pool, pages) {
      assert x != ctx ==> FlightPlace(x, f[x], conns, slots, pool, pages);
    }
  }

  /** One operation starts, on a slot the client has mapped. */
  lemma LaunchFrame(cl: Client, dev: Dev, ctx: Ctx, op: Op, slots: nat, pool: nat)
    requires ClientInv(cl, slots, pool)
    requires |dev.initial| == |cl.dev.initial|
    requires dev.flight == cl.dev.flight[ctx := op]
    requires FlightInv(dev.flight, cl.conns, slots, pool, |cl.dev.initial|)
    requires ctx.server < |cl.conns| && op.slot < |cl.conns[ctx.server].chunkMap|
    requires cl.conns[ctx.server].chunkMap[op.slot] >= 0
    ensures ClientInv(cl.(dev := dev), slots, pool) && SameClaims(cl, cl.(dev := dev), slots)
  {
    forall d | 0 <= d < |cl.conns| ensures ScanInv(dev.flight, cl.conns[d], d) {
      assert ScanInv(cl.dev.flight, cl.conns[d], d);
    }
  }

  /** The slot the forward map gives for a slab is one the client has mapped to that slab. */
  lemma LookupIsMapped(cl: Client, slab: nat, slots: nat, pool: nat)
    requires ClientInv(cl, slots, pool) && slab < |cl.slotMap| && Lookup(cl, slab).ToRemote?
    ensures var path := Lookup(cl, slab);
            && path.server < |cl.conns| && path.slot < slots
            && |cl.conns[path.server].chunkMap| == slots
            && cl.conns[path.server].chunkMap[path.slot] == slab
            && !cl.conns[path.server].failed
  {
    assert ForwardOk(slab, cl.cbIndexMap[slab], cl.slotMap[slab], cl.conns);
  }

  lemma RemoteWriteKeeps(cl: Client, start: nat, data: seq<Page>, ctx: Ctx, slots: nat, pool: nat)
    requires ClientInv(cl, slots, pool) && CanWrite(cl, start, data, ctx, pool)
    requires WritePath(cl, start, |data|).ToRemote?
    ensures ClientInv(AcceptWrite(cl, start, data, ctx), slots, pool)
    ensures SameClaims(cl, AcceptWrite(cl, start, data, ctx), slots)
  {
    var path := WritePath(cl, start, |data|);
    LookupIsMapped(cl, FirstSlab(start), slots, pool);
    var op := WriteOp(path.slot, start, |data|);
    LaunchFlight(cl.dev.flight, ctx, op, cl.conns, slots, pool, |cl.dev.initial|);
    LaunchFrame(cl, RdmaWrite(cl.dev, ctx, path.slot, start, data), ctx, op, slots, pool);
  }

  /** A write across two slabs clears the recorded bits on both sides before it goes to disk. */
  function Cleared(cl: Client, start: nat, len: nat): Client
    requires OnDevice(cl, start, len) && FirstSlab(start) != LastSlab(start, len)
  {
    ClearBits(ClearBits(cl, FirstSlab(start), start % SLAB_PAGES, SLAB_PAGES),
              LastSlab(start, len), 0, start % SLAB_PAGES + len - SLAB_PAGES)
  }

  lemma ClearOnlyBits(cl: Client, slab: nat, lo: nat, hi: nat)
    requires slab < |cl.cbIndexMap| == |cl.slotMap|
    ensures SameButBits(cl, ClearBits(cl, slab, lo, hi))
  {
  }

  lemma OnlyBitsTwice(cl: Client, mid: Client, cl': Client)
    requires SameButBits(cl, mid) && SameButBits(mid, cl')
    ensures SameButBits(cl, cl')
  {
  }

  lemma ClearedOnlyBits(cl: Client, start: nat, len: nat)
    requires OnDevice(cl, start, len) && FirstSlab(start) != LastSlab(start, len)
    ensures SameButBits(cl, Cleared(cl, start, len))
  {
    var mid := ClearBits(cl, FirstSlab(start), start % SLAB_PAGES, SLAB_PAGES);
    ClearOnlyBits(cl, FirstSlab(start), start % SLAB_PAGES, SLAB_PAGES);
    ClearOnlyBits(mid, LastSlab(start, len), 0, start % SLAB_PAGES + len - SLAB_PAGES);
    OnlyBitsTwice(cl, mid, Cleared(cl, start, len));
  }

  lemma LocalWriteKeeps(cl: Client, start: nat, data: seq<Page>, ctx: Ctx, slots: nat, pool: nat)
    requires ClientInv(cl, slots, pool) && CanWrite(cl, start, data, ctx, pool)
    requires WritePath(cl, start, |data|).ToDisk?
    ensures ClientInv(AcceptWrite(cl, start, data, ctx), slots, pool)
    ensures SameClaims(cl, AcceptWrite(cl, start, data, ctx), slots)
  {
    if FirstSlab(start) == LastSlab(start, |data|) {
      DevFrame(cl, DiskWrite(cl.dev, start, data), slots, pool);
    } else {
      DevFrame(cl, DiskWrite(cl.dev, start, data), slots, pool);
      ClearedOnlyBits(cl, start, |data|);
      BitsFrame(cl.(dev := DiskWrite(cl.dev, start, data)), AcceptWrite(cl, start, data, ctx), slots, pool);
    }
  }

  lemma WriteKeeps(cl: Client, start: nat, data: seq<Page>, ctx: Ctx, slots: nat, pool: nat)
    requires ClientInv(cl, slots, pool) && CanWrite(cl, start, data, ctx, pool)
    ensures ClientInv(AcceptWrite(cl, start, data, ctx), slots, pool)
    ensures SameClaims(cl, AcceptWrite(cl, start, data, ctx), slots)
  {
    if WritePath(cl, start, |data|).ToDisk? {
      LocalWriteKeeps(cl, start, data, ctx, slots, pool);
    } else {
      RemoteWriteKeeps(cl, start, data, ctx, slots, pool);
    }
  }

  lemma ReadKeeps(cl: Client, page: nat, ctx: Ctx, slots: nat, pool: nat)
    requires ClientInv(cl, slots, pool) && CanRead(cl, page, ctx, pool)
    ensures ClientInv(AcceptRead(cl, page, ctx), slots, pool)
    ensures SameClaims(cl, AcceptRead(cl, page, ctx), slots)
  {
    match ReadPath(cl, page)
    case ToDisk =>
      DevFrame(cl, DiskRead(cl.dev, page), slots, pool);
    case ToRemote(d, slot) =>
      LookupIsMapped(cl, FirstSlab(page), slots, pool);
      LaunchFlight(cl.dev.flight, ctx, ReadOp(slot, page), cl.conns, slots, pool, |cl.dev.initial|);
      LaunchFrame(cl, RdmaRead(cl.dev, ctx, slot, page), ctx, ReadOp(slot, page), slots, pool);
  }

  lemma EndWriteOnlyBits(cl: Client, ctx: Ctx, slots: nat)
    requires CanComplete(cl, ctx, slots) && cl.dev.flight[ctx].WriteOp?
    ensures SameButBits(cl.(dev := WriteDone(cl.dev, ctx)), EndWrite(cl, ctx))
  {
  }

  lemma EndWriteKeeps(cl: Client, ctx: Ctx, slots: nat, pool: nat)
    requires ClientInv(cl, slots, pool) && CanComplete(cl, ctx, slots) && cl.dev.flight[ctx].WriteOp?
    ensures ClientInv(EndWrite(cl, ctx), slots, pool) && SameClaims(cl, EndWrite(cl, ctx), slots)
  {
    var mid := cl.(dev := WriteDone(cl.dev, ctx));
    DevFrame(cl, WriteDone(cl.dev, ctx), slots, pool);
    EndWriteOnlyBits(cl, ctx, slots);
    BitsFrame(mid, EndWrite(cl, ctx), slots, pool);
    SameConnsClaims(cl, mid, EndWrite(cl, ctx), slots);
  }

  lemma SameConnsClaims(cl: Client, mid: Client, cl': Client, slots: nat)
    requires mid.conns == cl.conns && SameClaims(mid, cl', slots)
    ensures SameClaims(cl, cl', slots)
  {
  }

  lemma EndReadKeeps(cl: Client, ctx: Ctx, value: Page, slots: nat, pool: nat)
    requires ClientInv(cl, slots, pool) && CanComplete(cl, ctx, slots) && cl.dev.flight[ctx].ReadOp?
    ensures ClientInv(EndRead(cl, ctx, value), slots, pool) && SameClaims(cl, EndRead(cl, ctx, value), slots)
  {
    DevFrame(cl, ReadDone(cl.dev, ctx, value), slots, pool);
  }

  lemma PopKeeps(cl: Client, slots: nat, pool: nat)
    requires ClientInv(cl, slots, pool) && Inv(cl.dev) && PopAllowed(cl.dev)
    ensures ClientInv(PopBio(cl), slots, pool) && SameClaims(cl, PopBio(cl), slots)
  {
    PopIsDefined(cl.dev);
    DevFrame(cl, Pop(cl.dev), slots, pool);
  }

  lemma AbandonKeeps(cl: Client, ctx: Ctx, slots: nat, pool: nat)
    requires ClientInv(cl, slots, pool) && CanAbandon(cl, ctx)
    ensures ClientInv(AbandonCtx(cl, ctx), slots, pool) && SameClaims(cl, AbandonCtx(cl, ctx), slots)
  {
    DevFrame(cl, Abandon(cl.dev, ctx), slots, pool);
  }

  /** A mapping operation sends its question on a connection without mapping messages. */
  lemma AskMapping(slabs: nat, m: Mapping, m': Mapping, conns: seq<Conn>, d: nat, msg: Msg)
    requires MappingInv(slabs, m, conns) && d < |conns| && m.Known? && !m'.NoMapping? && m'.slab == m.slab
    requires (m'.Querying? && m'.server == d && msg == Query) || (m'.Binding? && m'.server == d && msg == Bind(m'.slab))
    ensures MappingInv(slabs, m', conns[d := SendUp(conns[d], msg)])
  {
    MessagesAppend(conns[d].up, msg);
    var conns' := conns[d := SendUp(conns[d], msg)];
    forall e | 0 <= e < |conns'| && conns'[e].live ensures MappingMessages(conns'[e], m', e) {
      assert MappingMessages(conns[e], m, e);
    }
  }

  /** A mapping operation begins; no message is under way yet. */
  lemma StartMappingInv(slabs: nat, m: Mapping, conns: seq<Conn>)
    requires MappingInv(slabs, NoMapping, conns) && m.Known? && m.slab < slabs
    ensures MappingInv(slabs, m, conns)
  {
    forall d | 0 <= d < |conns| && conns[d].live ensures MappingMessages(conns[d], m, d) {
      assert MappingMessages(conns[d], NoMapping, d);
    }
  }

  lemma StartKeeps(cl: Client, slab: nat, slots: nat, pool: nat)
    requires ClientInv(cl, slots, pool) && cl.mapping == NoMapping && slab < |cl.slotMap|
    ensures ClientInv(StartMapping(cl, slab), slots, pool) && SameClaims(cl, StartMapping(cl, slab), slots)
  {
    StartMappingInv(|cl.slotMap|, Known(slab, map[]), cl.conns);
  }

  /** A thread goes on; nothing the maps or the messages depend on changes. */
  lemma ThreadKeeps(cl: Client, cl': Client, d: nat, c: Conn, slots: nat, pool: nat)
    requires ClientInv(cl, slots, pool) && d < |cl.conns| && SameButThreads(cl.conns[d], c)
    requires cl' == cl.(conns := cl.conns[d := c], rdmaOn := cl'.rdmaOn, triggerOn := cl'.triggerOn)
    ensures ClientInv(cl', slots, pool) && SameClaims(cl, cl', slots)
  {
    ThreadsDoNotMatter(cl.conns[d], c, slots);
    MappingFrame(|cl.slotMap|, cl.mapping, cl.conns, d, c);
    assert ScanInv(cl.dev.flight, cl.conns[d], d);
    ConnFrame(cl, cl.(conns := cl.conns[d := c]), d, c, slots, pool);
  }

  lemma ThreadStartKeeps(cl: Client, d: nat, slab: nat, slots: nat, pool: nat)
    requires ClientInv(cl, slots, pool) && cl.mapping == NoMapping && ThreadMaps(cl, d, slab)
    ensures ClientInv(ThreadStarts(cl, d, slab), slots, pool) && SameClaims(cl, ThreadStarts(cl, d, slab), slots)
  {
    var c := cl.conns[d].(again := cl.conns[d].again - {slab});
    var mid := cl.(conns := cl.conns[d := c]);
    ThreadKeeps(cl, mid, d, c, slots, pool);
    StartKeeps(mid, slab, slots, pool);
  }

  lemma QueryKeeps(cl: Client, d: nat, slots: nat, pool: nat)
    requires ClientInv(cl, slots, pool) && CanQuery(cl, d)
    ensures ClientInv(SendQuery(cl, d), slots, pool) && SameClaims(cl, SendQuery(cl, d), slots)
  {
    SendMappingKeepsConn(cl.conns[d], slots, Query);
    AskMapping(|cl.slotMap|, cl.mapping, SendQuery(cl, d).mapping, cl.conns, d, Query);
    ConnFrame(cl, SendQuery(cl, d), d, SendUp(cl.conns[d], Query), slots, pool);
  }

  lemma BindKeeps(cl: Client, d: nat, slots: nat, pool: nat)
    requires ClientInv(cl, slots, pool) && CanBind(cl, d)
    ensures ClientInv(SendBind(cl, d), slots, pool) && SameClaims(cl, SendBind(cl, d), slots)
  {
    var msg := Bind(cl.mapping.slab);
    SendMappingKeepsConn(cl.conns[d], slots, msg);
    AskMapping(|cl.slotMap|, cl.mapping, Binding(cl.mapping.slab, d), cl.conns, d, msg);
    ConnFrame(cl, SendBind(cl, d), d, SendUp(cl.conns[d], msg), slots, pool);
  }

  lemma FreeSizeKeeps(cl: Client, d: nat, slots: nat, pool: nat)
    requires ClientInv(cl, slots, pool) && CanReceive(cl, d) && cl.conns[d].down[0].FreeSize?
    ensures ClientInv(RecvFreeSize(cl, d), slots, pool) && SameClaims(cl, RecvFreeSize(cl, d), slots)
  {
    var c := cl.conns[d];
    MessagesTake(c.down);
    assert MappingMessages(c, cl.mapping, d);
    assert Mappings(c.down) == [c.down[0]];
    RecvFreeSizeKeepsConn(c, slots);
    ConnFrame(cl, RecvFreeSize(cl, d), d, c.(down := c.down[1..]), slots, pool);
  }

  lemma RecvEvictKeeps(cl: Client, d: nat, slots: nat, pool: nat)
    requires ClientInv(cl, slots, pool) && CanReceive(cl, d) && cl.conns[d].down[0].Evict?
    ensures ClientInv(Receive(cl, d), slots, pool) && SameClaims(cl, Receive(cl, d), slots)
  {
    var c := cl.conns[d];
    MessagesTake(c.down);
    RecvEvictKeepsConn(c, slots);
    MappingFrame(|cl.slotMap|, cl.mapping, cl.conns, d, RecvEvict(c));
    ConnFrame(cl, Receive(cl, d), d, RecvEvict(c), slots, pool);
  }

  lemma RecvStopKeeps(cl: Client, d: nat, slots: nat, pool: nat)
    requires ClientInv(cl, slots, pool) && CanReceive(cl, d) && cl.conns[d].down[0].Stop?
    ensures ClientInv(Receive(cl, d), slots, pool) && SameClaims(cl, Receive(cl, d), slots)
  {
    var c := cl.conns[d];
    MessagesTake(c.down);
    RecvStopKeepsConn(c, slots);
    MappingFrame(|cl.slotMap|, cl.mapping, cl.conns, d, RecvStop(c));
    ConnFrame(cl, Receive(cl, d).(triggerOn := cl.triggerOn), d, RecvStop(c), slots, pool);
  }

  lemma ActivityKeeps(cl: Client, d: nat, slots: nat, pool: nat)
    requires ClientInv(cl, slots, pool) && CanReport(cl, d)
    ensures var cl' := cl.(conns := cl.conns[d := SendActivity(cl.conns[d])]);
            ClientInv(cl', slots, pool) && SameClaims(cl, cl', slots)
  {
    var c := cl.conns[d];
    SendActivityKeepsConn(c, slots);
    MessagesAppend(c.up, Activity(MappedSlots(c)));
    ConnFrame(cl, cl.(conns := cl.conns[d := SendActivity(c)]), d, SendActivity(c), slots, pool);
  }

  lemma ScanKeeps(cl: Client, d: nat, slots: nat, pool: nat)
    requires ClientInv(cl, slots, pool) && CanScan(cl, d, pool)
    ensures var cl' := cl.(conns := cl.conns[d := ScanContext(cl.conns[d], d, cl.dev.flight)]);
            ClientInv(cl', slots, pool) && SameClaims(cl, cl', slots)
  {
    var c := cl.conns[d];
    var c' := ScanContext(c, d, cl.dev.flight);
    ScanKeepsConn(c, slots, d, cl.dev.flight);
    assert ScanInv(cl.dev.flight, c, d);
    forall x | x in cl.dev.flight && x.server == d && x.index < c'.phase.scan && cl.dev.flight[x].slot < |c.chunkMap|
      && c.live
      ensures c'.chunkMap[cl.dev.flight[x].slot] >= 0
    {
      assert x.index == c.phase.scan ==> x == Ctx(d, c.phase.scan);
    }
    ConnFrame(cl, cl.(conns := cl.conns[d := c']), d, c', slots, pool);
  }

  lemma InfoIsExpected(cl: Client, d: nat, slots: nat, pool: nat)
    requires ClientInv(cl, slots, pool) && CanReceive(cl, d) && cl.conns[d].down[0].Info?
    ensures Mappings(cl.conns[d].down) == [cl.conns[d].down[0]] && Mappings(cl.conns[d].up) == []
    ensures cl.mapping == Binding(cl.conns[d].down[0].slab, d)
  {
    MessagesTake(cl.conns[d].down);
    assert MappingMessages(cl.conns[d], cl.mapping, d);
  }

  lemma EmptyInfoKeeps(cl: Client, d: nat, slots: nat, pool: nat)
    requires ClientInv(cl, slots, pool) && CanReceive(cl, d) && cl.conns[d].down[0].Info?
    requires cl.conns[d].down[0].slot < 0
    ensures ClientInv(RecvInfo(cl, d), slots, pool) && SameClaims(cl, RecvInfo(cl, d), slots)
  {
    var c := cl.conns[d];
    var c' := c.(down := c.down[1..], wasMapped := true);
    InfoIsExpected(cl, d, slots, pool);
    MessagesTake(c.down);
    MappingMessageKeepsConn(c, c', slots);
    ConnFrame(cl, RecvInfo(cl, d).(rdmaOn := cl.rdmaOn), d, c', slots, pool);
  }

  lemma InfoMapping(slabs: nat, m: Mapping, conns: seq<Conn>, d: nat, c: Conn)
    requires MappingInv(slabs, m, conns) && d < |conns| && m.Binding? && m.server == d
    requires Mappings(c.up) == [] && Mappings(c.down) == []
    ensures MappingInv(slabs, NoMapping, conns[d := c])
  {
    var conns' := conns[d := c];
    forall e | 0 <= e < |conns'| && conns'[e].live ensures MappingMessages(conns'[e], NoMapping, e) {
      assert e != d ==> MappingMessages(conns[e], m, e);
    }
  }

  lemma EnterHeld(conns: seq<Conn>, slabs: nat, d: nat, slab: nat, slot: nat)
    requires HeldInRange(conns, slabs) && d < |conns| && slab < slabs && conns[d].down != []
    requires slot < |conns[d].chunkMap| && slot < |conns[d].bits|
    ensures HeldInRange(conns[d := Entered(conns[d], slab, slot)], slabs)
  {
    var c' := Entered(conns[d], slab, slot);
    forall b: nat | Holds(c', b) ensures b == slab || Holds(conns[d], b) {
      if b in c'.chunkMap && b != slab {
        var j :| 0 <= j < |c'.chunkMap| && c'.chunkMap[j] == b;
        assert conns[d].chunkMap[j] == b;
      }
      assert Victims(c') == Victims(conns[d]);
    }
    var conns' := conns[d := c'];
    forall e, b: nat | 0 <= e < |conns'| && Holds(conns'[e], b) ensures b == slab || Holds(conns[e], b) {
    }
  }

  /** A slab handed out by the daemon enters both maps, wherever it was before. */
  lemma InfoKeeps(cl: Client, d: nat, slots: nat, pool: nat)
    requires ClientInv(cl, slots, pool) && CanReceive(cl, d) && cl.conns[d].down[0].Info?
    requires 0 <= cl.conns[d].down[0].slot
    ensures ClientInv(RecvInfo(cl, d), slots, pool) && SameClaims(cl, RecvInfo(cl, d), slots)
  {
    var c := cl.conns[d];
    var m := c.down[0];
    InfoIsExpected(cl, d, slots, pool);
    MessagesTake(c.down);
    EnteredKeepsConn(c, slots);
    var c' := Entered(c, m.slab, m.slot);
    EnterForward(cl.cbIndexMap, cl.slotMap, cl.conns, slots, d, m.slab, m.slot, c');
    EnterHeld(cl.conns, |cl.slotMap|, d, m.slab, m.slot);
    FlightFrame(cl.dev.flight, cl.conns, slots, pool, |cl.dev.initial|, d, c');
    InfoMapping(|cl.slotMap|, cl.mapping, cl.conns, d, c');
    assert ScanInv(cl.dev.flight, c', d) by {
      assert ScanInv(cl.dev.flight, c, d);
    }
    Assemble(cl, RecvInfo(cl, d), d, c', slots, pool);
  }

  lemma UnmapHeld(c: Conn, i: nat, b: nat)
    requires c.phase.Draining? && i < |c.chunkMap| && c.chunkMap[i] >= 0 && Holds(UnmapSlot(c, i), b)
    ensures Holds(c, b)
  {
    var c' := UnmapSlot(c, i);
    if b in c'.chunkMap {
      var j :| 0 <= j < |c'.chunkMap| && c'.chunkMap[j] == b;
      assert c.chunkMap[j] == b;
    } else if j :| j in Victims(c') && Victims(c')[j] == b {
      assert j == i || (j in Victims(c) && Victims(c)[j] == b);
      assert c.chunkMap[i] in c.chunkMap;
    }
  }

  lemma UnmapKeeps(cl: Client, d: nat, i: nat, slots: nat, pool: nat)
    requires ClientInv(cl, slots, pool) && CanUnmap(cl, d, i)
    ensures ClientInv(Unmap(cl, d, i), slots, pool) && SameClaims(cl, Unmap(cl, d, i), slots)
  {
    var c := cl.conns[d];
    var c' := UnmapSlot(c, i);
    UnmapKeepsConn(c, slots, i);
    LeaveForward(cl.cbIndexMap, cl.slotMap, cl.conns, slots, d, i, c');
    forall b: nat | Holds(c', b) ensures Holds(c, b) {
      UnmapHeld(c, i, b);
    }
    HeldFrame(cl.conns, |cl.slotMap|, d, c');
    FlightFrame(cl.dev.flight, cl.conns, slots, pool, |cl.dev.initial|, d, c');
    MappingFrame(|cl.slotMap|, cl.mapping, cl.conns, d, c');
    assert ScanInv(cl.dev.flight, c, d);
    Assemble(cl, Unmap(cl, d, i), d, c', slots, pool);
  }

  /** When the scan is through, nothing in flight targets a victim. */
  lemma ScanSound(cl: Client, d: nat, slots: nat, pool: nat)
    requires ClientInv(cl, slots, pool) && CanFinish(cl, d, pool) && cl.conns[d].live
    ensures forall x :: x in cl.dev.flight && x.server == d ==>
              cl.dev.flight[x].slot !in cl.conns[d].phase.victims
  {
    forall x | x in cl.dev.flight && x.server == d
      ensures cl.dev.flight[x].slot !in cl.conns[d].phase.victims
    {
      assert FlightPlace(x, cl.dev.flight[x], cl.conns, slots, pool, |cl.dev.initial|);
      assert ScanInv(cl.dev.flight, cl.conns[d], d);
    }
  }

  lemma SendDoneHeld(c: Conn, b: nat)
    requires c.phase.Draining? && Holds(SendDone(c), b)
    ensures Holds(c, b)
  {
    assert Victims(SendDone(c)) == map[];
    if b in c.phase.victims.Values {
      var i :| i in c.phase.victims && c.phase.victims[i] == b;
      assert i in Victims(c) && Victims(c)[i] == b;
    }
  }

  lemma FinishKeeps(cl: Client, d: nat, slots: nat, pool: nat)
    requires ClientInv(cl, slots, pool) && CanFinish(cl, d, pool)
    ensures var cl' := cl.(conns := cl.conns[d := SendDone(cl.conns[d])]);
            ClientInv(cl', slots, pool) && SameClaims(cl, cl', slots)
  {
    var c := cl.conns[d];
    var c' := SendDone(c);
    SendDoneKeepsConn(c, slots);
    MessagesAppend(c.up, Done(c.phase.victims.Keys, c.phase.size));
    forall b: nat | Holds(c', b) ensures Holds(c, b) {
      SendDoneHeld(c, b);
    }
    MapsFrame(cl.cbIndexMap, cl.slotMap, cl.conns, slots, d, c');
    HeldFrame(cl.conns, |cl.slotMap|, d, c');
    MappingFrame(|cl.slotMap|, cl.mapping, cl.conns, d, c');
    if c.live {
      ScanSound(cl, d, slots, pool);
    }
    forall x | x in cl.dev.flight
      ensures FlightPlace(x, cl.dev.flight[x], cl.conns[d := c'], slots, pool, |cl.dev.initial|)
    {
      assert FlightPlace(x, cl.dev.flight[x], cl.conns, slots, pool, |cl.dev.initial|);
    }
    Assemble(cl, cl.(conns := cl.conns[d := c']), d, c', slots, pool);
  }

  lemma ForgetKeeps(cl: Client, d: nat, b: nat, slots: nat, pool: nat)
    requires ClientInv(cl, slots, pool) && CanForget(cl, d, b)
    ensures ClientInv(Forget(cl, d, b), slots, pool) && SameClaims(cl, Forget(cl, d, b), slots)
  {
    var c := cl.conns[d];
    var c' := Forgetting(c, b);
    ForgetKeepsConn(c, slots, b);
    HeldFrame(cl.conns, |cl.slotMap|, d, c');
    MapsFrame(cl.cbIndexMap, cl.slotMap, cl.conns, slots, d, c');
    ForgetForward(cl.cbIndexMap, cl.slotMap, cl.conns[d := c'], slots, b);
    MappingFrame(|cl.slotMap|, cl.mapping, cl.conns, d, c');
    FlightFrame(cl.dev.flight, cl.conns, slots, pool, |cl.dev.initial|, d, c');
    Assemble(cl, Forget(cl, d, b), d, c', slots, pool);
  }

  lemma FailBeginMaps(cl: Client, d: nat, slots: nat)
    requires MapsForward(cl.cbIndexMap, cl.slotMap, cl.conns, slots) && d < |cl.conns|
    ensures MapsForward(FailBegin(cl, d).cbIndexMap, cl.slotMap, FailBegin(cl, d).conns, slots)
  {
    var cl' := FailBegin(cl, d);
    forall b | 0 <= b < |cl.slotMap| ensures ForwardOk(b, cl'.cbIndexMap[b], cl.slotMap[b], cl'.conns) {
      assert ForwardOk(b, cl.cbIndexMap[b], cl.slotMap[b], cl.conns);
    }
  }

  lemma FailBeginKeeps(cl: Client, d: nat, slots: nat, pool: nat)
    requires ClientInv(cl, slots, pool) && IsDown(cl, d)
    ensures ClientInv(FailBegin(cl, d), slots, pool) && SameClaims(cl, FailBegin(cl, d), slots)
  {
    var c := cl.conns[d];
    FailKeepsConn(c, slots);
    FailBeginMaps(cl, d, slots);
    HeldFrame(cl.conns, |cl.slotMap|, d, FailConn(c));
    MappingFrame(|cl.slotMap|, cl.mapping, cl.conns, d, FailConn(c));
    FlightFrame(cl.dev.flight, cl.conns, slots, pool, |cl.dev.initial|, d, FailConn(c));
    Assemble(cl, FailBegin(cl, d), d, FailConn(c), slots, pool);
  }

  lemma FailIdleKeeps(cl: Client, d: nat, slots: nat, pool: nat)
    requires ClientInv(cl, slots, pool) && IsDown(cl, d) && !cl.conns[d].wasMapped
    ensures ClientInv(FailIdle(cl, d), slots, pool) && SameClaims(cl, FailIdle(cl, d), slots)
  {
    var c := cl.conns[d];
    var c' := c.(failed := true);
    assert Victims(c') == Victims(c);
    HeldFrame(cl.conns, |cl.slotMap|, d, c');
    FlightFrame(cl.dev.flight, cl.conns, slots, pool, |cl.dev.initial|, d, c');
    MappingFrame(|cl.slotMap|, cl.mapping, cl.conns, d, c');
    FailIdleMaps(cl, d, slots);
    Assemble(cl, FailIdle(cl, d), d, c', slots, pool);
  }

  lemma FailIdleMaps(cl: Client, d: nat, slots: nat)
    requires MapsForward(cl.cbIndexMap, cl.slotMap, cl.conns, slots)
    requires d < |cl.conns| && NothingMapped(cl.conns[d])
    ensures MapsForward(cl.cbIndexMap, cl.slotMap, FailIdle(cl, d).conns, slots)
  {
    var conns' := FailIdle(cl, d).conns;
    forall b | 0 <= b < |cl.slotMap| ensures ForwardOk(b, cl.cbIndexMap[b], cl.slotMap[b], conns') {
      assert ForwardOk(b, cl.cbIndexMap[b], cl.slotMap[b], cl.conns);
    }
  }

  /** No request may use a slab of a failed server any more. */
  lemma FailedNotForward(cl: Client, d: nat, i: nat, slots: nat, c: Conn)
    requires MapsForward(cl.cbIndexMap, cl.slotMap, cl.conns, slots) && d < |cl.conns| && cl.conns[d].failed
    requires i < |cl.conns[d].chunkMap| && 0 <= cl.conns[d].chunkMap[i] < |cl.slotMap|
    requires c.failed && c.chunkMap == cl.conns[d].chunkMap[i := -1]
    ensures MapsForward(cl.cbIndexMap, cl.slotMap, cl.conns[d := c], slots)
  {
    forall b | 0 <= b < |cl.slotMap| ensures ForwardOk(b, cl.cbIndexMap[b], cl.slotMap[b], cl.conns[d := c]) {
      assert ForwardOk(b, cl.cbIndexMap[b], cl.slotMap[b], cl.conns);
      ForwardFrame(b, cl.cbIndexMap[b], cl.slotMap[b], cl.conns, d, c);
    }
  }

  lemma FailSlotKeeps(cl: Client, d: nat, i: nat, slots: nat, pool: nat)
    requires ClientInv(cl, slots, pool) && CanFailSlot(cl, d, i)
    ensures ClientInv(FailSlot(cl, d, i), slots, pool) && SameClaims(cl, FailSlot(cl, d, i), slots)
  {
    var c := cl.conns[d];
    var c' := Released(c, i);
    ReleasedKeepsConn(c, slots, i);
    FailedNotForward(cl, d, i, slots, c');
    ForgetForward(cl.cbIndexMap, cl.slotMap, cl.conns[d := c'], slots, c.chunkMap[i]);
    HeldFrame(cl.conns, |cl.slotMap|, d, c');
    MappingFrame(|cl.slotMap|, cl.mapping, cl.conns, d, c');
    FlightFrame(cl.dev.flight, cl.conns, slots, pool, |cl.dev.initial|, d, c');
    Assemble(cl, FailSlot(cl, d, i), d, c', slots, pool);
  }

  lemma CutKeeps(cl: Client, d: nat, slots: nat, pool: nat)
    requires ClientInv(cl, slots, pool) && d < |cl.conns|
    ensures var cl' := cl.(conns := cl.conns[d := CutConn(cl.conns[d])]);
            ClientInv(cl', slots, pool) && SameClaims(cl, cl', slots)
  {
    var c := cl.conns[d];
    CutKeepsConn(c, slots);
    MapsFrame(cl.cbIndexMap, cl.slotMap, cl.conns, slots, d, CutConn(c));
    HeldFrame(cl.conns, |cl.slotMap|, d, CutConn(c));
    MappingFrame(|cl.slotMap|, cl.mapping, cl.conns, d, CutConn(c));
    FlightFrame(cl.dev.flight, cl.conns, slots, pool, |cl.dev.initial|, d, CutConn(c));
    Assemble(cl, cl.(conns := cl.conns[d := CutConn(c)]), d, CutConn(c), slots, pool);
  }

  lemma GiveUpKeeps(cl: Client, slots: nat, pool: nat)
    requires ClientInv(cl, slots, pool) && cl.mapping.Known?
    ensures ClientInv(GiveUp(cl), slots, pool) && SameClaims(cl, GiveUp(cl), slots)
  {
    forall d | 0 <= d < |cl.conns| && cl.conns[d].live ensures MappingMessages(cl.conns[d], NoMapping, d) {
      assert MappingMessages(cl.conns[d], cl.mapping, d);
    }
  }

  lemma ReceiveKeeps(cl: Client, d: nat, slots: nat, pool: nat)
    requires ClientInv(cl, slots, pool) && CanReceive(cl, d)
    ensures ClientInv(Receive(cl, d), slots, pool) && SameClaims(cl, Receive(cl, d), slots)
  {
    match cl.conns[d].down[0]
    case FreeSize(_) => FreeSizeKeeps(cl, d, slots, pool);
    case Info(_, slot) =>
      if slot < 0 {
        EmptyInfoKeeps(cl, d, slots, pool);
      } else {
        InfoKeeps(cl, d, slots, pool);
      }
    case Evict => RecvEvictKeeps(cl, d, slots, pool);
    case _ => RecvStopKeeps(cl, d, slots, pool);
  }

  lemma ThreadActKeeps(cl: Client, e: Event, slots: nat, pool: nat)
    requires ClientInv(cl, slots, pool) && Enabled(cl, e, pool) && IsThreadAct(e)
    ensures ClientInv(ThreadAct(cl, e, pool), slots, pool) && SameClaims(cl, ThreadAct(cl, e, pool), slots)
  {
    match e
    case TriggerMapping(slab) => StartKeeps(cl, slab, slots, pool);
    case ThreadMapping(d, slab) => ThreadStartKeeps(cl, d, slab, slots, pool);
    case AskServer(d) => QueryKeeps(cl, d, slots, pool);
    case BindTo(d) => BindKeeps(cl, d, slots, pool);
    case StopMapping => GiveUpKeeps(cl, slots, pool);
    case ReportActivity(d) => ActivityKeeps(cl, d, slots, pool);
    case UnmapVictim(d, i) => UnmapKeeps(cl, d, i, slots, pool);
    case ScanNext(d) => ScanKeeps(cl, d, slots, pool);
    case FinishEviction(d) => FinishKeeps(cl, d, slots, pool);
    case ForgetSlab(d, b) => ForgetKeeps(cl, d, b, slots, pool);
    case EndEviction(d) => ThreadKeeps(cl, EvictionEnds(cl, d), d, EvictionEnds(cl, d).conns[d], slots, pool);
    case BeginFailure(d) => FailBeginKeeps(cl, d, slots, pool);
    case FailUnmapped(d) => FailIdleKeeps(cl, d, slots, pool);
    case Abandoned(ctx) => AbandonKeeps(cl, ctx, slots, pool);
    case FailOneSlot(d, i) => FailSlotKeeps(cl, d, i, slots, pool);
    case EndFailure(d) => ThreadKeeps(cl, FailEnd(cl, d), d, FailEnd(cl, d).conns[d], slots, pool);
    case ResumeTrigger(d) => ThreadKeeps(cl, Resume(cl, d), d, Resume(cl, d).conns[d], slots, pool);
  }

  lemma RequestActKeeps(cl: Client, e: Event, slots: nat, pool: nat)
    requires ClientInv(cl, slots, pool) && Inv(cl.dev) && Enabled(cl, e, pool) && !IsThreadAct(e)
    ensures ClientInv(Act(cl, e, pool), slots, pool) && SameClaims(cl, Act(cl, e, pool), slots)
  {
    match e
    case Write(start, data, ctx) => WriteKeeps(cl, start, data, ctx, slots, pool);
    case Read(page, ctx) => ReadKeeps(cl, page, ctx, slots, pool);
    case PopFifo => PopKeeps(cl, slots, pool);
    case TakeMessage(d) => ReceiveKeeps(cl, d, slots, pool);
  }

  /** Every action a client can take by itself. */
  lemma ActKeeps(cl: Client, e: Event, slots: nat, pool: nat)
    requires ClientInv(cl, slots, pool) && Inv(cl.dev) && Enabled(cl, e, pool)
    ensures ClientInv(Act(cl, e, pool), slots, pool) && SameClaims(cl, Act(cl, e, pool), slots)
  {
    if IsThreadAct(e) {
      ThreadActKeeps(cl, e, slots, pool);
      assert Act(cl, e, pool) == ThreadAct(cl, e, pool);
    } else {
      RequestActKeeps(cl, e, slots, pool);
    }
  }

  // ---------------------------------------------------------------- what threads change of a connection

  /** The slots, what is recorded and what the daemon has are as they were. */
  ghost predicate OnlyThreads(c: Conn, c': Conn) {
    c' == c.(up := c'.up, phase := c'.phase, remap := c'.remap, again := c'.again,
             evicting := c'.evicting, handler := c'.handler, failed := c'.failed)
  }

  ghost predicate AllOnlyThreads(conns: seq<Conn>, conns': seq<Conn>) {
    |conns'| == |conns| && forall d :: 0 <= d < |conns| ==> OnlyThreads(conns[d], conns'[d])
  }

  lemma SetOnlyThreads(conns: seq<Conn>, d: nat, c: Conn)
    requires d < |conns| && OnlyThreads(conns[d], c)
    ensures AllOnlyThreads(conns, conns[d := c])
  {
  }

  predicate KeepsSlots(e: Event) {
    IsThreadAct(e) && !e.UnmapVictim? && !e.FinishEviction? && !e.BeginFailure? && !e.FailOneSlot?
  }

  lemma ThreadActConns(cl: Client, e: Event, pool: nat)
    requires Enabled(cl, e, pool) && KeepsSlots(e)
    ensures AllOnlyThreads(cl.conns, ThreadAct(cl, e, pool).conns)
  {
    match e
    case ThreadMapping(d, slab) => SetOnlyThreads(cl.conns, d, cl.conns[d].(again := cl.conns[d].again - {slab}));
    case AskServer(d) => SetOnlyThreads(cl.conns, d, SendUp(cl.conns[d], Query));
    case BindTo(d) => SetOnlyThreads(cl.conns, d, SendUp(cl.conns[d], Bind(cl.mapping.slab)));
    case ReportActivity(d) => SetOnlyThreads(cl.conns, d, SendActivity(cl.conns[d]));
    case ScanNext(d) => SetOnlyThreads(cl.conns, d, ScanContext(cl.conns[d], d, cl.dev.flight));
    case ForgetSlab(d, b) => SetOnlyThreads(cl.conns, d, Forgetting(cl.conns[d], b));
    case EndEviction(d) => SetOnlyThreads(cl.conns, d, cl.conns[d].(evicting := false));
    case FailUnmapped(d) => SetOnlyThreads(cl.conns, d, cl.conns[d].(failed := true));
    case EndFailure(d) => SetOnlyThreads(cl.conns, d, cl.conns[d].(handler := Remapping));
    case ResumeTrigger(d) => SetOnlyThreads(cl.conns, d, cl.conns[d].(handler := NoHandler));
    case _ =>
  }

  /** Only requests, the queue thread and the disconnect handler touch the queue and the contexts. */
  ghost predicate TouchesDevice(e: Event) {
    e.Write? || e.Read? || e.PopFifo? || e.Abandoned?
  }

  lemma ActLeavesDevice(cl: Client, e: Event, pool: nat)
    requires Inv(cl.dev) && Enabled(cl, e, pool) && !TouchesDevice(e)
    ensures Act(cl, e, pool).dev == cl.dev
  {
  }

  lemma WriteKeepsDisk(cl: Client, start: nat, data: seq<Page>, ctx: Ctx, pool: nat)
    requires Inv(cl.dev) && CanWrite(cl, start, data, ctx, pool) && |cl.dev.initial| == |cl.cbIndexMap| * SLAB_PAGES
    ensures Inv(AcceptWrite(cl, start, data, ctx).dev)
  {
    match WritePath(cl, start, |data|)
    case ToDisk => DiskWriteKeepsInv(cl.dev, start, data);
    case ToRemote(_, slot) => RdmaWriteKeepsInv(cl.dev, ctx, slot, start, data);
  }

  lemma ReadKeepsDisk(cl: Client, page: nat, ctx: Ctx, pool: nat)
    requires Inv(cl.dev) && CanRead(cl, page, ctx, pool) && |cl.dev.initial| == |cl.cbIndexMap| * SLAB_PAGES
    ensures Inv(AcceptRead(cl, page, ctx).dev)
  {
    match ReadPath(cl, page)
    case ToDisk => DiskReadKeepsInv(cl.dev, page);
    case ToRemote(_, slot) => RdmaReadKeepsInv(cl.dev, ctx, slot, page);
  }

  /** Every client action is a write-through step of the queue and the disk. */
  lemma ActKeepsDisk(cl: Client, e: Event, slots: nat, pool: nat)
    requires ClientInv(cl, slots, pool) && Inv(cl.dev) && Enabled(cl, e, pool)
    ensures Inv(Act(cl, e, pool).dev)
  {
    if !TouchesDevice(e) {
      ActLeavesDevice(cl, e, pool);
    } else {
      match e
      case Write(start, data, ctx) => WriteKeepsDisk(cl, start, data, ctx, pool);
      case Read(page, ctx) => ReadKeepsDisk(cl, page, ctx, pool);
      case PopFifo =>
        PopIsDefined(cl.dev);
        PopKeepsInv(cl.dev);
      case Abandoned(ctx) =>
        assert FlightPlace(ctx, cl.dev.flight[ctx], cl.conns, slots, pool, |cl.dev.initial|);
        AbandonKeepsInv(cl.dev, ctx);
    }
  }
}
