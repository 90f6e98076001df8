/** Every read returns the last accepted write: coherence over whole runs, exactly when the one
    unsafe kind of write breaks it, and write-through in every run without any such condition.
 */
module SwapReads {
  import opened BackupDisk
  import C = SwapClient
  import opened SwapInvariants
  import T = DaemonTables
  import opened Swap
  import opened SwapSafety
  import opened SwapCoherence
  import opened SwapRequests

  // ---------------------------------------------------------------- one step

  /** A write inside one slab that arrives while RDMA is off goes to disk without clearing the slab's
      recorded bits; it is harmless when none of its pages is recorded. */
  ghost predicate Benign(cl: C.Client, e: C.Event) {
    e.Write? && e.data != [] && !cl.rdmaOn && C.FirstSlab(e.start) == C.LastSlab(e.start, |e.data|) ==>
      Unrecorded(Seen(cl), e.start, |e.data|)
  }

  ghost predicate BenignStep(s: System, e: Step) {
    e.AtClient? && e.k < |s.clients| ==> Benign(s.clients[e.k], e.e)
  }

  lemma WriteCoherent(cl: C.Client, start: nat, data: seq<Page>, ctx: Ctx, servers: seq<Server>, slots: nat, pool: nat)
    requires ClientInv(cl, slots, pool) && Inv(cl.dev) && C.CanWrite(cl, start, data, ctx, pool)
    requires Benign(cl, C.Write(start, data, ctx)) && Coherent(cl, servers)
    ensures WriteThrough(C.AcceptWrite(cl, start, data, ctx).dev)
    ensures Coherent(C.AcceptWrite(cl, start, data, ctx), servers)
  {
    if C.FirstSlab(start) != C.LastSlab(start, |data|) {
      CrossWriteCoherent(cl, start, data, ctx, servers, pool);
    } else if C.WritePath(cl, start, |data|).ToRemote? {
      RemoteWriteCoherent(cl, start, data, ctx, servers, slots, pool);
    } else {
      if cl.rdmaOn {
        UnmappedUnrecorded(cl, start, |data|, servers);
      }
      LocalWriteCoherent(cl, start, data, servers);
    }
  }

  lemma ActCoherent(cl: C.Client, e: C.Event, servers: seq<Server>, slots: nat, pool: nat)
    requires ClientInv(cl, slots, pool) && Inv(cl.dev) && C.Enabled(cl, e, pool)
    requires Benign(cl, e) && Coherent(cl, servers)
    ensures WriteThrough(C.Act(cl, e, pool).dev) && Coherent(C.Act(cl, e, pool), servers)
  {
    if e.Write? {
      WriteCoherent(cl, e.start, e.data, e.ctx, servers, slots, pool);
    } else if e.Read? && C.ReadPath(cl, e.page).ToRemote? {
      RemoteReadData(cl, e.page, e.ctx, servers, slots, pool);
    } else {
      QuietActData(cl, e, servers, slots, pool);
    }
  }

  /** One client changes and the servers do not. */
  lemma ClientStepData(s: System, k: nat, cl: C.Client)
    requires DataOk(s) && k < |s.clients|
    requires WriteThrough(cl.dev) && Coherent(cl, s.servers)
    ensures DataOk(s.(clients := s.clients[k := cl]))
  {
  }

  /** Server memory changes only where no live connection uses it. */
  lemma ServerStepData(s: System, servers: seq<Server>)
    requires Safe(s) && DataOk(s) && |servers| == |s.servers|
    requires forall d :: 0 <= d < |s.servers| ==> |servers[d].mem| == |s.servers[d].mem|
    requires forall k :: 0 <= k < |s.clients| ==> UsedSlotsSame(s.clients[k].conns, s.servers, servers)
    ensures DataOk(s.(servers := servers))
  {
    forall k | 0 <= k < |s.clients| ensures Coherent(s.clients[k], servers) {
      var cl := s.clients[k];
      assert Coherent(cl, s.servers);
      SeenIsMapped(cl);
      MemoryFrame(cl.conns, Seen(cl), cl.dev.flight, cl.dev.buf, s.servers, servers, Flat(cl.dev), s.slots, s.pool);
    }
  }

  lemma SameMemoryData(conns: seq<C.Conn>, f: map<Ctx, Op>, buf: map<Ctx, seq<Page>>, servers: seq<Server>,
                       servers': seq<Server>, flat: seq<Page>)
    requires ClientData(conns, f, buf, servers, flat) && |servers'| == |servers|
    requires forall d :: 0 <= d < |servers| ==> servers'[d].mem == servers[d].mem
    ensures ClientData(conns, f, buf, servers', flat)
  {
    forall d: nat | d < |conns| ensures ConnData(conns[d], d, servers'[d].mem, f, flat) {
      assert ConnData(conns[d], d, servers[d].mem, f, flat);
    }
    forall x | x in f
      ensures x.server < |conns| && OpOk(x, f[x], conns[x.server].live, servers'[x.server].mem, buf, flat)
    {
      assert OpOk(x, f[x], conns[x.server].live, servers[x.server].mem, buf, flat);
    }
  }

  /** Messages, rounds, broken connections and daemon tables: neither the slots, nor what is recorded,
      nor any memory changes. */
  lemma TableStepData(s: System, k: nat, d: nat, c: C.Conn, t: T.Tables)
    requires DataOk(s) && InRange(s, k, d)
    requires c.chunkMap == ConnOf(s, k, d).chunkMap && c.bits == ConnOf(s, k, d).bits
    requires c.live ==> ConnOf(s, k, d).live
    ensures DataOk(SetConn(SetTables(s, d, t), k, d, c))
  {
    var s' := SetConn(SetTables(s, d, t), k, d, c);
    forall j | 0 <= j < |s.clients| ensures Coherent(s'.clients[j], s'.servers) {
      var cl := s.clients[j];
      assert Coherent(cl, s.servers);
      SeenShrinks(cl, s'.clients[j]);
      QuietData(Seen(cl), cl.dev.flight, cl.dev.buf, Seen(s'.clients[j]), cl.dev.flight, cl.dev.buf, s.servers,
                Flat(cl.dev));
      SameMemoryData(Seen(s'.clients[j]), cl.dev.flight, cl.dev.buf, s.servers, s'.servers, Flat(cl.dev));
    }
  }

  lemma EndReadCoherent(cl: C.Client, servers: seq<Server>, ctx: Ctx, value: Page, cl': C.Client)
    requires Inv(cl.dev) && Coherent(cl, servers) && ctx in cl.dev.flight && cl.dev.flight[ctx].ReadOp?
    requires cl' == C.EndRead(cl, ctx, value)
    ensures WriteThrough(cl'.dev) && Coherent(cl', servers)
  {
    ReadDoneKeepsInv(cl.dev, ctx, value);
    SeenSame(cl, cl');
    QuietData(Seen(cl), cl.dev.flight, cl.dev.buf, Seen(cl'), cl'.dev.flight, cl'.dev.buf, servers, Flat(cl.dev));
  }

  lemma LandReadData(s: System, k: nat, ctx: Ctx)
    requires Safe(s) && DataOk(s) && Enabled(s, Land(k, ctx)) && s.clients[k].dev.flight[ctx].ReadOp?
    ensures DataOk(LandOp(s, k, ctx))
  {
    var cl := s.clients[k];
    var op := cl.dev.flight[ctx];
    var value := s.servers[ctx.server].mem[op.slot][op.page % SLAB_PAGES];
    var cl' := C.EndRead(cl, ctx, value);
    assert Coherent(cl, s.servers);
    EndReadCoherent(cl, s.servers, ctx, value, cl');
    ClientStepData(s, k, cl');
  }

  lemma SeenRecorded(cl: C.Client, d: nat, op: Op, cl': C.Client)
    requires d < |cl.conns| && op.WriteOp? && op.slot < |cl.conns[d].bits|
    requires cl'.cbIndexMap == cl.cbIndexMap && cl'.slotMap == cl.slotMap
    requires cl'.conns == cl.conns[d := Record(cl.conns[d], op)]
    ensures Seen(cl') == Seen(cl)[d := Record(Seen(cl)[d], op)]
  {
    assert Seen(cl')[d] == Record(Seen(cl)[d], op);
  }

  lemma EndWriteParts(cl: C.Client, ctx: Ctx, cl': C.Client)
    requires Inv(cl.dev) && ctx in cl.dev.flight && cl.dev.flight[ctx].WriteOp? && ctx.server < |cl.conns|
    requires cl.dev.flight[ctx].slot < |cl.conns[ctx.server].bits| && cl' == C.EndWrite(cl, ctx)
    ensures WriteThrough(cl'.dev) && Flat(cl'.dev) == Flat(cl.dev)
    ensures cl'.dev.flight == cl.dev.flight - {ctx} && cl'.dev.buf == cl.dev.buf
    ensures Seen(cl') == Seen(cl)[ctx.server := Record(Seen(cl)[ctx.server], cl.dev.flight[ctx])]
  {
    WriteDoneKeepsInv(cl.dev, ctx);
    SeenRecorded(cl, ctx.server, cl.dev.flight[ctx], cl');
  }

  /** The client whose write lands. */
  lemma LandWriteOwn(cl: C.Client, servers: seq<Server>, ctx: Ctx, slots: nat, pool: nat)
    requires Inv(cl.dev) && Coherent(cl, servers)
    requires FlightInv(cl.dev.flight, cl.conns, slots, pool, |cl.dev.initial|)
    requires C.CanComplete(cl, ctx, slots) && cl.dev.flight[ctx].WriteOp?
    requires forall i :: 0 <= i < |servers[ctx.server].mem| ==> |servers[ctx.server].mem[i]| == SLAB_PAGES
    requires |servers[ctx.server].mem| == slots && ctx in cl.dev.buf
    ensures var op := cl.dev.flight[ctx];
            var v := Landed(servers[ctx.server], op.slot, op.page % SLAB_PAGES, cl.dev.buf[ctx]);
            WriteThrough(C.EndWrite(cl, ctx).dev) && Coherent(C.EndWrite(cl, ctx), servers[ctx.server := v])
  {
    EndWriteParts(cl, ctx, C.EndWrite(cl, ctx));
    SeenIsMapped(cl);
    LandWriteData(cl.conns, Seen(cl), cl.dev.flight, cl.dev.buf, servers, Flat(cl.dev), ctx, slots, pool);
  }

  lemma OneSlotChanges(conns: seq<C.Conn>, servers: seq<Server>, d: nat, slot: nat, v: Server)
    requires |conns| == |servers| && d < |servers| && |v.mem| == |servers[d].mem|
    requires forall i :: 0 <= i < |v.mem| && i != slot ==> v.mem[i] == servers[d].mem[i]
    requires conns[d].live && slot < |conns[d].chunkMap| ==> !C.Claimed(conns[d], slot)
    ensures UsedSlotsSame(conns, servers, servers[d := v])
  {
  }

  /** No other live connection claims a slot with an operation in flight. */
  lemma NoOtherClaims(s: System, k: nat, d: nat, slot: nat, j: nat)
    requires Safe(s) && InFlightTo(s, k, d, slot) && j < |s.clients| && j != k
    ensures InRange(s, j, d) && |ConnOf(s, j, d).chunkMap| == s.slots
    ensures ConnOf(s, j, d).live && slot < s.slots ==> !C.Claimed(ConnOf(s, j, d), slot)
  {
    FlightIsOwned(s, k, d, slot);
    SafeConn(s, j, d);
    assert Owned(ConnOf(s, j, d), s.servers[d].tables.owner, j);
  }

  lemma UnclaimedSlotChanges(cl: C.Client, servers: seq<Server>, d: nat, slot: nat, v: Server, slots: nat, pool: nat)
    requires WriteThrough(cl.dev) && Coherent(cl, servers)
    requires FlightInv(cl.dev.flight, cl.conns, slots, pool, |cl.dev.initial|)
    requires d < |servers| && |v.mem| == |servers[d].mem|
    requires forall i :: 0 <= i < |v.mem| && i != slot ==> v.mem[i] == servers[d].mem[i]
    requires cl.conns[d].live && slot < |cl.conns[d].chunkMap| ==> !C.Claimed(cl.conns[d], slot)
    ensures Coherent(cl, servers[d := v])
  {
    OneSlotChanges(cl.conns, servers, d, slot, v);
    SeenIsMapped(cl);
    MemoryFrame(cl.conns, Seen(cl), cl.dev.flight, cl.dev.buf, servers, servers[d := v], Flat(cl.dev), slots, pool);
  }

  lemma LandWriteOther(s: System, k: nat, d: nat, slot: nat, j: nat, v: Server)
    requires Safe(s) && DataOk(s) && InFlightTo(s, k, d, slot) && j < |s.clients| && j != k
    requires |v.mem| == |s.servers[d].mem|
    requires forall i :: 0 <= i < |v.mem| && i != slot ==> v.mem[i] == s.servers[d].mem[i]
    ensures WriteThrough(s.clients[j].dev) && Coherent(s.clients[j], s.servers[d := v])
  {
    NoOtherClaims(s, k, d, slot, j);
    UnclaimedSlotChanges(s.clients[j], s.servers, d, slot, v, s.slots, s.pool);
  }

  /** The server after an RDMA write has landed. */
  function AfterLanding(s: System, k: nat, ctx: Ctx): Server
    requires k < |s.clients| && ctx.server < |s.servers|
    requires ctx in s.clients[k].dev.flight && ctx in s.clients[k].dev.buf
    requires s.clients[k].dev.flight[ctx].slot < |s.servers[ctx.server].mem|
  {
    var op := s.clients[k].dev.flight[ctx];
    Landed(s.servers[ctx.server], op.slot, op.page % SLAB_PAGES, s.clients[k].dev.buf[ctx])
  }

  lemma LandWriteClient(s: System, k: nat, ctx: Ctx)
    requires Safe(s) && DataOk(s) && Enabled(s, Land(k, ctx)) && s.clients[k].dev.flight[ctx].WriteOp?
    ensures ctx in s.clients[k].dev.buf && s.clients[k].dev.flight[ctx].slot < |s.servers[ctx.server].mem|
    ensures var cl := C.EndWrite(s.clients[k], ctx);
            WriteThrough(cl.dev) && Coherent(cl, s.servers[ctx.server := AfterLanding(s, k, ctx)])
  {
    var cl := s.clients[k];
    assert Coherent(cl, s.servers);
    assert ServerInv(s.servers[ctx.server], s.slots, |s.clients|);
    FlightBuffered(cl.dev, ctx);
    SafeConn(s, k, ctx.server);
    LandWriteOwn(cl, s.servers, ctx, s.slots, s.pool);
  }

  lemma LandedSystem(s: System, k: nat, ctx: Ctx)
    requires Safe(s) && Enabled(s, Land(k, ctx)) && s.clients[k].dev.flight[ctx].WriteOp? && ctx in s.clients[k].dev.buf
    requires s.clients[k].dev.flight[ctx].slot < |s.servers[ctx.server].mem|
    ensures LandOp(s, k, ctx) == System(s.clients[k := C.EndWrite(s.clients[k], ctx)],
                                        s.servers[ctx.server := AfterLanding(s, k, ctx)], s.slots, s.pool)
  {
  }

  lemma LandedMemory(v: Server, slot: nat, off: nat, data: seq<Page>)
    requires slot < |v.mem|
    ensures |Landed(v, slot, off, data).mem| == |v.mem|
    ensures forall i :: 0 <= i < |v.mem| && i != slot ==> Landed(v, slot, off, data).mem[i] == v.mem[i]
  {
  }

  lemma LandWriteElsewhere(s: System, k: nat, ctx: Ctx, j: nat)
    requires Safe(s) && DataOk(s) && Enabled(s, Land(k, ctx)) && s.clients[k].dev.flight[ctx].WriteOp?
    requires ctx in s.clients[k].dev.buf && s.clients[k].dev.flight[ctx].slot < |s.servers[ctx.server].mem|
    requires j < |s.clients| && j != k
    ensures WriteThrough(s.clients[j].dev)
    ensures Coherent(s.clients[j], s.servers[ctx.server := AfterLanding(s, k, ctx)])
  {
    var op := s.clients[k].dev.flight[ctx];
    LandedMemory(s.servers[ctx.server], op.slot, op.page % SLAB_PAGES, s.clients[k].dev.buf[ctx]);
    LandWriteOther(s, k, ctx.server, op.slot, j, AfterLanding(s, k, ctx));
  }

  /** A write lands in a slot that no other client uses. */
  lemma LandWriteAll(s: System, k: nat, ctx: Ctx)
    requires Safe(s) && DataOk(s) && Enabled(s, Land(k, ctx)) && s.clients[k].dev.flight[ctx].WriteOp?
    ensures DataOk(LandOp(s, k, ctx))
  {
    LandWriteClient(s, k, ctx);
    LandedSystem(s, k, ctx);
    var v := AfterLanding(s, k, ctx);
    forall j | 0 <= j < |s.clients| && j != k
      ensures WriteThrough(s.clients[j].dev) && Coherent(s.clients[j], s.servers[ctx.server := v])
    {
      LandWriteElsewhere(s, k, ctx, j);
    }
    DataTogether(s.clients, k, C.EndWrite(s.clients[k], ctx), s.servers[ctx.server := v], LandOp(s, k, ctx));
  }

  lemma DataTogether(cls: seq<C.Client>, k: nat, cl: C.Client, servers: seq<Server>, s: System)
    requires k < |cls| && s.clients == cls[k := cl] && s.servers == servers
    requires WriteThrough(cl.dev) && Coherent(cl, servers)
    requires forall j :: 0 <= j < |cls| && j != k ==> WriteThrough(cls[j].dev) && Coherent(cls[j], servers)
    ensures DataOk(s)
  {
  }

  /** Newly allocated slabs were nobody's. */
  lemma GrowUsed(s: System, d: nat, grown: set<nat>, k: nat)
    requires Safe(s) && Enabled(s, GrowSlots(d, grown)) && k < |s.clients|
    ensures UsedSlotsSame(s.clients[k].conns, s.servers, s.servers[d := Grown(s.servers[d], grown)])
  {
    SafeConn(s, k, d);
    assert ServerInv(s.servers[d], s.slots, |s.clients|);
    assert Owned(ConnOf(s, k, d), s.servers[d].tables.owner, k);
  }

  lemma GrowData(s: System, d: nat, grown: set<nat>)
    requires Safe(s) && DataOk(s) && Enabled(s, GrowSlots(d, grown))
    ensures DataOk(s.(servers := s.servers[d := Grown(s.servers[d], grown)]))
  {
    forall k | 0 <= k < |s.clients|
      ensures UsedSlotsSame(s.clients[k].conns, s.servers, s.servers[d := Grown(s.servers[d], grown)])
    {
      GrowUsed(s, d, grown, k);
    }
    ServerStepData(s, s.servers[d := Grown(s.servers[d], grown)]);
  }

  lemma MessageData(s: System, k: nat, d: nat, c: C.Conn)
    requires DataOk(s) && InRange(s, k, d)
    requires c.chunkMap == ConnOf(s, k, d).chunkMap && c.bits == ConnOf(s, k, d).bits
    requires c.live ==> ConnOf(s, k, d).live
    ensures DataOk(SetConn(s, k, d, c))
  {
    TableStepData(s, k, d, c, s.servers[d].tables);
    assert SetTables(s, d, s.servers[d].tables) == s;
  }

  lemma TablesData(s: System, d: nat, t: T.Tables)
    requires DataOk(s) && d < |s.servers|
    ensures DataOk(SetTables(s, d, t))
  {
    var s' := SetTables(s, d, t);
    forall j | 0 <= j < |s.clients| ensures Coherent(s.clients[j], s'.servers) {
      var cl := s.clients[j];
      assert Coherent(cl, s.servers);
      SameMemoryData(Seen(cl), cl.dev.flight, cl.dev.buf, s.servers, s'.servers, Flat(cl.dev));
    }
  }

  lemma DeliverData(s: System, k: nat, d: nat)
    requires DataOk(s) && InRange(s, k, d) && ConnOf(s, k, d).up != [] && ServerInv(s.servers[d], s.slots, |s.clients|)
    ensures DataOk(DeliverUp(s, k, d))
  {
    var c := ConnOf(s, k, d);
    var t := s.servers[d].tables;
    match c.up[0]
    case Query => MessageData(s, k, d, AnswerQuery(c, t));
    case Bind(_) => TableStepData(s, k, d, AnswerBind(c, t), T.Bind(t, k));
    case Activity(_) => MessageData(s, k, d, TakeActivity(c));
    case Done(slots, size) => TableStepData(s, k, d, TakeDone(c), T.Release(t, k, slots, size));
    case _ =>
  }

  /** Every step other than the one unsafe kind of write keeps recorded pages right. */
  lemma StepData(s: System, e: Step)
    requires Safe(s) && DataOk(s) && Enabled(s, e) && BenignStep(s, e)
    ensures DataOk(Next(s, e))
  {
    match e
    case AtClient(k, ev) =>
      assert Coherent(s.clients[k], s.servers);
      ActCoherent(s.clients[k], ev, s.servers, s.slots, s.pool);
      ClientStepData(s, k, C.Act(s.clients[k], ev, s.pool));
    case Land(k, ctx) =>
      if s.clients[k].dev.flight[ctx].ReadOp? {
        LandReadData(s, k, ctx);
      } else {
        LandWriteAll(s, k, ctx);
      }
    case Deliver(k, d) => DeliverData(s, k, d);
    case StartRound(k, d) => MessageData(s, k, d, SendEvict(ConnOf(s, k, d)));
    case Choose(k, d, chosen, size) => MessageData(s, k, d, SendStop(ConnOf(s, k, d), chosen, size));
    case DropSlots(d, dropped) => TablesData(s, d, T.Drop(s.servers[d].tables, dropped));
    case GrowSlots(d, grown) => GrowData(s, d, grown);
    case Cut(k, d) => MessageData(s, k, d, C.CutConn(ConnOf(s, k, d)));
    case Destroy(k, d) => TablesData(s, d, T.Destroy(s.servers[d].tables, k));
  }

  // ---------------------------------------------------------------- what a read returns

  /** The value an RDMA read brings back is the last accepted write of its page. */
  lemma RemoteReadReturnsLastWrite(s: System, k: nat, ctx: Ctx)
    requires Safe(s) && DataOk(s) && Enabled(s, Land(k, ctx)) && s.clients[k].dev.flight[ctx].ReadOp?
    ensures var op := s.clients[k].dev.flight[ctx];
            && op.page < |Flat(s.clients[k].dev)|
            && s.servers[ctx.server].mem[op.slot][op.page % SLAB_PAGES] == Flat(s.clients[k].dev)[op.page]
  {
    var cl := s.clients[k];
    assert Coherent(cl, s.servers);
    assert OpOk(ctx, cl.dev.flight[ctx], cl.conns[ctx.server].live, s.servers[ctx.server].mem, cl.dev.buf,
                Flat(cl.dev));
  }

  /** The page a queued read finds on the disk is the last accepted write of it, in every safe state. */
  lemma DiskReadReturnsLastWrite(s: System, k: nat)
    requires Safe(s) && k < |s.clients| && s.clients[k].dev.fifo != [] && s.clients[k].dev.fifo[0].ReadBio?
    ensures var dev := s.clients[k].dev;
            dev.fifo[0].page < |dev.disk| && dev.disk[dev.fifo[0].page] == Flat(dev)[dev.fifo[0].page]
  {
    DiskReadSeesLastWrite(s.clients[k].dev);
  }
}
