/** Theorems over whole runs of the system: write-through in every run, reads that return the last
    accepted write in every run whose disconnects leave no other server mapped, and the exact
    condition under which a write with RDMA off breaks that.
 */
module SwapRuns {
  import opened BackupDisk
  import C = SwapClient
  import opened SwapClientProof
  import T = DaemonTables
  import opened Swap
  import opened SwapSafety
  import opened SwapCoherence
  import opened SwapReads

  // ---------------------------------------------------------------- write-through in every run

  /** The page writes a step accepts from client k. */
  function AcceptedBy(e: Step, k: nat): seq<PageWrite> {
    if e.AtClient? && e.k == k && e.e.Write? then PagesOf(e.e.start, e.e.data) else []
  }

  /** The page writes client k accepts in a run, in order. */
  function Accepted(steps: seq<Step>, k: nat): seq<PageWrite> {
    if steps == [] then [] else Accepted(steps[..|steps| - 1], k) + AcceptedBy(steps[|steps| - 1], k)
  }

  lemma ActLog(cl: C.Client, e: C.Event, pool: nat)
    requires Inv(cl.dev) && C.Enabled(cl, e, pool)
    ensures C.Act(cl, e, pool).dev.initial == cl.dev.initial && C.Act(cl, e, pool).dev.pool == cl.dev.pool
    ensures C.Act(cl, e, pool).dev.log == cl.dev.log + (if e.Write? then PagesOf(e.start, e.data) else [])
  {
    if !TouchesDevice(e) {
      ActLeavesDevice(cl, e, pool);
    } else {
      match e
      case Write(start, data, ctx) =>
      case Read(page, ctx) =>
      case PopFifo =>
      case Abandoned(ctx) =>
    }
  }

  /** The devices of two client lists have the same disk to start from and the same contexts, and client
      k's log is longer by these writes. */
  ghost predicate LogGrows(cls: seq<C.Client>, cls': seq<C.Client>, k: nat, ws: seq<PageWrite>) {
    && k < |cls| == |cls'|
    && cls'[k].dev.initial == cls[k].dev.initial && cls'[k].dev.pool == cls[k].dev.pool
    && cls'[k].dev.log == cls[k].dev.log + ws
  }

  lemma DeliverLog(s: System, k: nat, d: nat, j: nat)
    requires InRange(s, k, d) && ConnOf(s, k, d).up != [] && ServerInv(s.servers[d], s.slots, |s.clients|)
    requires j < |s.clients|
    ensures LogGrows(s.clients, DeliverUp(s, k, d).clients, j, [])
  {
  }

  lemma LandLog(s: System, k: nat, ctx: Ctx, j: nat)
    requires k < |s.clients| && ctx.server < |s.servers| && C.CanComplete(s.clients[k], ctx, s.slots)
    requires ServerInv(s.servers[ctx.server], s.slots, |s.clients|) && Inv(s.clients[k].dev)
    requires j < |s.clients|
    ensures LogGrows(s.clients, LandOp(s, k, ctx).clients, j, [])
  {
  }

  lemma SetConnLog(s: System, k: nat, d: nat, c: C.Conn, j: nat)
    requires InRange(s, k, d) && j < |s.clients|
    ensures LogGrows(s.clients, SetConn(s, k, d, c).clients, j, [])
  {
  }

  lemma ActStepLog(clients: seq<C.Client>, j: nat, ev: C.Event, pool: nat, k: nat)
    requires k < |clients| && j < |clients| && C.Enabled(clients[j], ev, pool) && Inv(clients[j].dev)
    ensures LogGrows(clients, clients[j := C.Act(clients[j], ev, pool)], k, AcceptedBy(AtClient(j, ev), k))
  {
    ActLog(clients[j], ev, pool);
  }

  /** The log of a client grows by exactly the writes it accepts, whatever else happens. */
  lemma StepLog(s: System, e: Step, k: nat)
    requires Safe(s) && Enabled(s, e) && k < |s.clients|
    ensures LogGrows(s.clients, Next(s, e).clients, k, AcceptedBy(e, k))
  {
    match e
    case AtClient(j, ev) => ActStepLog(s.clients, j, ev, s.pool, k);
    case Land(j, ctx) => LandLog(s, j, ctx, k);
    case Deliver(j, d) => DeliverLog(s, j, d, k);
    case StartRound(j, d) => SetConnLog(s, j, d, SendEvict(ConnOf(s, j, d)), k);
    case Choose(j, d, chosen, size) => SetConnLog(s, j, d, SendStop(ConnOf(s, j, d), chosen, size), k);
    case Cut(j, d) => SetConnLog(s, j, d, C.CutConn(ConnOf(s, j, d)), k);
    case _ =>
  }

  lemma LogGrowsOn(a: seq<C.Client>, b: seq<C.Client>, c: seq<C.Client>, k: nat, ws: seq<PageWrite>,
                   ws': seq<PageWrite>)
    requires LogGrows(a, b, k, ws) && LogGrows(b, c, k, ws')
    ensures LogGrows(a, c, k, ws + ws')
  {
    assert a[k].dev.log + ws + ws' == a[k].dev.log + (ws + ws');
  }

  lemma {:induction false} RunLog(s: System, steps: seq<Step>, t: System, ok: Rule, k: nat)
    requires Reaches(s, steps, t, ok) && k < |s.clients|
    ensures LogGrows(s.clients, t.clients, k, Accepted(steps, k))
    decreases |steps|
  {
    if steps != [] {
      var last := |steps| - 1;
      var u :| Reaches(s, steps[..last], u, ok) && Safe(u) && Enabled(u, steps[last]) && ok(u, steps[last])
        && t == Next(u, steps[last]);
      RunLog(s, steps[..last], u, ok, k);
      StepLog(u, steps[last], k);
      LogGrowsOn(s.clients, u.clients, t.clients, k, Accepted(steps[..last], k), AcceptedBy(steps[last], k));
    }
  }

  /** Applying what is still queued to the disk gives the memory of all accepted writes. */
  lemma QueueCompletesDisk(dev: Dev)
    requires WriteThrough(dev)
    ensures forall i :: 0 <= i < |QueueWrites(dev.fifo, dev.buf)| ==>
            QueueWrites(dev.fifo, dev.buf)[i].page < |dev.disk|
    ensures Apply(dev.disk, QueueWrites(dev.fifo, dev.buf)) == Flat(dev)
  {
    var ws := QueueWrites(dev.fifo, dev.buf);
    forall i | 0 <= i < |ws| ensures ws[i].page < |dev.disk| {
      assert dev.log[|dev.done| + i] == ws[i];
    }
    ApplyConcat(dev.initial, dev.done, ws);
  }

  /** The disk of a device that started as `dev0` and has accepted the writes `ws` since: each of them
      has reached the disk or is queued for it, exactly once and in order, and the queue applied to
      the disk is the memory of all accepted writes. */
  ghost predicate WrittenThrough(dev0: Dev, dev: Dev, ws: seq<PageWrite>) {
    && ws == dev.done + QueueWrites(dev.fifo, dev.buf)
    && (forall w :: w in ws ==> w.page < |dev0.disk|)
    && (forall w :: w in QueueWrites(dev.fifo, dev.buf) ==> w.page < |dev.disk|)
    && Apply(dev.disk, QueueWrites(dev.fifo, dev.buf)) == Apply(dev0.disk, ws)
  }

  lemma DevWrittenThrough(dev0: Dev, dev: Dev, ws: seq<PageWrite>)
    requires WriteThrough(dev) && dev.initial == dev0.initial && dev.log == dev0.log + ws
    requires dev0.log == [] && dev0.disk == dev0.initial
    ensures WrittenThrough(dev0, dev, ws)
  {
    assert dev0.log + ws == ws;
    QueueCompletesDisk(dev);
  }

  lemma RunDevs(s: System, steps: seq<Step>, t: System, ok: Rule, k: nat)
    requires Reaches(s, steps, t, ok) && k < |s.clients|
    ensures LogGrows(s.clients, t.clients, k, Accepted(steps, k)) && Inv(t.clients[k].dev)
  {
    RunLog(s, steps, t, ok, k);
    RunSafe(s, steps, t, ok);
  }

  /** Write-through in every run, disconnects included. */
  lemma WriteThroughInEveryRun(s: System, steps: seq<Step>, t: System, k: nat)
    requires Init(s) && Reaches(s, steps, t, AnyStep) && k < |s.clients|
    ensures k < |t.clients| && WrittenThrough(s.clients[k].dev, t.clients[k].dev, Accepted(steps, k))
  {
    RunDevs(s, steps, t, AnyStep, k);
    assert FreshClient(s.clients[k], s.slots, |s.servers|, s.pool);
    DevWrittenThrough(s.clients[k].dev, t.clients[k].dev, Accepted(steps, k));
  }

  /** No context is ever lost or in two hands: in every run, each one of the client's pools is free, or held
      by a read in flight, or held by the queued copy of a write, and only one of these. */
  lemma ContextsInEveryRun(s: System, steps: seq<Step>, t: System, k: nat, c: Ctx)
    requires Init(s) && Reaches(s, steps, t, AnyStep) && k < |s.clients| && c.server < |s.servers| && c.index < s.pool
    ensures k < |t.clients|
    ensures var dev := t.clients[k].dev;
            && (c in dev.free || (c in dev.flight && dev.flight[c].ReadOp?) || Queued(dev.fifo, c))
            && !(c in dev.free && c in dev.flight) && !(c in dev.free && Queued(dev.fifo, c))
            && !(c in dev.flight && dev.flight[c].ReadOp? && Queued(dev.fifo, c))
  {
    RunDevs(s, steps, t, AnyStep, k);
    assert FreshClient(s.clients[k], s.slots, |s.servers|, s.pool);
    ContextInOnePlace(t.clients[k].dev, c);
  }

  // ---------------------------------------------------------------- coherence in runs

  /** While RDMA is off, no live connection has a slab mapped. */
  ghost predicate OffUnmapped(rdmaOn: bool, conns: seq<C.Conn>) {
    !rdmaOn ==> forall d :: 0 <= d < |conns| && conns[d].live ==> C.NothingMapped(conns[d])
  }

  /** A disconnect leaves no other live server mapped. */
  ghost predicate LoneFailure(cl: C.Client, e: C.Event) {
    e.BeginFailure? ==>
      forall d :: 0 <= d < |cl.conns| && d != e.d && cl.conns[d].live ==> C.NothingMapped(cl.conns[d])
  }

  /** Slots are only taken out of the maps. */
  ghost predicate NoNewSlots(conns: seq<C.Conn>, conns': seq<C.Conn>) {
    && |conns'| == |conns|
    && forall d :: 0 <= d < |conns| ==>
         && (conns'[d].live ==> conns[d].live)
         && (C.NothingMapped(conns[d]) ==> C.NothingMapped(conns'[d]))
  }

  lemma SlotsStay(conns: seq<C.Conn>, conns': seq<C.Conn>)
    requires |conns'| == |conns|
    requires forall d :: 0 <= d < |conns| ==>
               conns'[d].chunkMap == conns[d].chunkMap && (conns'[d].live ==> conns[d].live)
    ensures NoNewSlots(conns, conns')
  {
  }

  /** Slots of one connection are given up. */
  lemma SlotsGo(conns: seq<C.Conn>, d: nat, c: C.Conn)
    requires d < |conns| && |c.chunkMap| == |conns[d].chunkMap| && (c.live ==> conns[d].live)
    requires forall i :: 0 <= i < |c.chunkMap| ==> c.chunkMap[i] == conns[d].chunkMap[i] || c.chunkMap[i] == -1
    ensures NoNewSlots(conns, conns[d := c])
  {
  }

  lemma ActSlots(cl: C.Client, e: C.Event, pool: nat)
    requires Inv(cl.dev) && C.Enabled(cl, e, pool) && !e.TakeMessage? && !e.Write?
    ensures NoNewSlots(cl.conns, C.Act(cl, e, pool).conns)
  {
    if KeepsSlots(e) {
      ThreadActConns(cl, e, pool);
      SlotsStay(cl.conns, C.ThreadAct(cl, e, pool).conns);
    } else {
      match e
      case Read(page, ctx) => SlotsStay(cl.conns, cl.conns);
      case PopFifo => SlotsStay(cl.conns, cl.conns);
      case UnmapVictim(d, i) => SlotsGo(cl.conns, d, C.UnmapSlot(cl.conns[d], i));
      case FinishEviction(d) => SlotsGo(cl.conns, d, C.SendDone(cl.conns[d]));
      case BeginFailure(d) => SlotsGo(cl.conns, d, C.FailConn(cl.conns[d]));
      case FailOneSlot(d, i) => SlotsGo(cl.conns, d, C.Released(cl.conns[d], i));
    }
  }

  /** Only the disconnect handler switches RDMA, apart from messages. */
  lemma ActSwitch(cl: C.Client, e: C.Event, pool: nat)
    requires Inv(cl.dev) && C.Enabled(cl, e, pool) && !e.TakeMessage? && !e.Write?
    ensures C.Act(cl, e, pool).rdmaOn == if e.EndFailure? then true else if e.BeginFailure? then false else cl.rdmaOn
  {
  }

  /** A slab enters the maps only together with RDMA being switched on. */
  lemma ReceiveSlots(cl: C.Client, d: nat)
    requires C.CanReceive(cl, d)
    ensures C.Receive(cl, d).rdmaOn || (!cl.rdmaOn && NoNewSlots(cl.conns, C.Receive(cl, d).conns))
  {
  }

  lemma WriteSlots(cl: C.Client, start: nat, data: seq<Page>, ctx: Ctx)
    requires C.OnDevice(cl, start, |data|)
    ensures NoNewSlots(cl.conns, C.AcceptWrite(cl, start, data, ctx).conns)
    ensures C.AcceptWrite(cl, start, data, ctx).rdmaOn == cl.rdmaOn
  {
    if C.WritePath(cl, start, |data|).ToDisk? && C.FirstSlab(start) != C.LastSlab(start, |data|) {
      ClearedOnlyBits(cl, start, |data|);
      SlotsStay(cl.conns, Cleared(cl, start, |data|).conns);
      assert C.AcceptWrite(cl, start, data, ctx).conns == Cleared(cl, start, |data|).conns;
    } else {
      SlotsStay(cl.conns, cl.conns);
      assert C.AcceptWrite(cl, start, data, ctx).conns == cl.conns;
    }
  }

  lemma ActOffUnmapped(cl: C.Client, e: C.Event, pool: nat)
    requires Inv(cl.dev) && C.Enabled(cl, e, pool) && LoneFailure(cl, e)
    requires OffUnmapped(cl.rdmaOn, cl.conns)
    ensures OffUnmapped(C.Act(cl, e, pool).rdmaOn, C.Act(cl, e, pool).conns)
  {
    if e.TakeMessage? {
      ReceiveSlots(cl, e.d);
    } else if e.Write? {
      WriteSlots(cl, e.start, e.data, e.ctx);
    } else {
      ActSlots(cl, e, pool);
      ActSwitch(cl, e, pool);
    }
  }

  ghost predicate AllOffUnmapped(cls: seq<C.Client>) {
    forall k :: 0 <= k < |cls| ==> OffUnmapped(cls[k].rdmaOn, cls[k].conns)
  }

  ghost predicate LoneStep(s: System, e: Step) {
    e.AtClient? && e.k < |s.clients| ==> LoneFailure(s.clients[e.k], e.e)
  }

  lemma SetConnOff(s: System, k: nat, d: nat, c: C.Conn)
    requires AllOffUnmapped(s.clients) && InRange(s, k, d)
    requires c.chunkMap == ConnOf(s, k, d).chunkMap && (c.live ==> ConnOf(s, k, d).live)
    ensures AllOffUnmapped(SetConn(s, k, d, c).clients)
  {
  }

  lemma DeliverOff(s: System, k: nat, d: nat)
    requires AllOffUnmapped(s.clients) && InRange(s, k, d) && ConnOf(s, k, d).up != []
    requires ServerInv(s.servers[d], s.slots, |s.clients|)
    ensures AllOffUnmapped(DeliverUp(s, k, d).clients)
  {
    var c := ConnOf(s, k, d);
    var t := s.servers[d].tables;
    match c.up[0]
    case Query => SetConnOff(s, k, d, AnswerQuery(c, t));
    case Bind(_) => SetConnOff(SetTables(s, d, T.Bind(t, k)), k, d, AnswerBind(c, t));
    case Activity(_) => SetConnOff(s, k, d, TakeActivity(c));
    case Done(slots, size) => SetConnOff(SetTables(s, d, T.Release(t, k, slots, size)), k, d, TakeDone(c));
    case _ =>
  }

  lemma LandOff(s: System, k: nat, ctx: Ctx)
    requires k < |s.clients| && ctx.server < |s.servers| && C.CanComplete(s.clients[k], ctx, s.slots)
    requires ServerInv(s.servers[ctx.server], s.slots, |s.clients|) && Inv(s.clients[k].dev)
    requires AllOffUnmapped(s.clients)
    ensures AllOffUnmapped(LandOp(s, k, ctx).clients)
  {
  }

  lemma StepOff(s: System, e: Step)
    requires Safe(s) && Enabled(s, e) && LoneStep(s, e) && AllOffUnmapped(s.clients)
    ensures AllOffUnmapped(Next(s, e).clients)
  {
    match e
    case AtClient(k, ev) => ActOffUnmapped(s.clients[k], ev, s.pool);
    case Land(k, ctx) => LandOff(s, k, ctx);
    case Deliver(k, d) => DeliverOff(s, k, d);
    case StartRound(k, d) => SetConnOff(s, k, d, SendEvict(ConnOf(s, k, d)));
    case Choose(k, d, chosen, size) => SetConnOff(s, k, d, SendStop(ConnOf(s, k, d), chosen, size));
    case Cut(k, d) => SetConnOff(s, k, d, C.CutConn(ConnOf(s, k, d)));
    case _ =>
  }

  /** With nothing mapped while RDMA is off, every write is harmless. */
  lemma OffUnmappedIsBenign(cl: C.Client, e: C.Event)
    requires OffUnmapped(cl.rdmaOn, cl.conns)
    ensures Benign(cl, e)
  {
  }

  lemma InitData(s: System)
    requires Init(s)
    ensures DataOk(s) && AllOffUnmapped(s.clients)
  {
    forall k | 0 <= k < |s.clients| ensures WriteThrough(s.clients[k].dev) && Coherent(s.clients[k], s.servers) {
      assert FreshClient(s.clients[k], s.slots, |s.servers|, s.pool);
      forall d: nat | d < |s.servers|
        ensures ConnData(Seen(s.clients[k])[d], d, s.servers[d].mem, s.clients[k].dev.flight, Flat(s.clients[k].dev))
      {
        assert FreshConn(s.clients[k].conns[d], s.slots);
        assert ServerInv(s.servers[d], s.slots, |s.clients|);
      }
    }
  }

  lemma StepCoherent(s: System, e: Step)
    requires Safe(s) && DataOk(s) && AllOffUnmapped(s.clients) && Enabled(s, e) && LoneStep(s, e)
    ensures DataOk(Next(s, e)) && AllOffUnmapped(Next(s, e).clients)
  {
    if e.AtClient? {
      OffUnmappedIsBenign(s.clients[e.k], e.e);
    }
    StepData(s, e);
    StepOff(s, e);
  }

  /** Recorded pages are right in every state of every run whose disconnects each leave no other live
      server mapped. */
  lemma LoneRunCoherent(s: System, steps: seq<Step>, t: System)
    requires Init(s) && Reaches(s, steps, t, LoneStep)
    ensures DataOk(t) && AllOffUnmapped(t.clients)
  {
    InitData(s);
    var inv := u => DataOk(u) && AllOffUnmapped(u.clients);
    forall u, e | Safe(u) && inv(u) && Enabled(u, e) && LoneStep(u, e) ensures inv(Next(u, e)) {
      StepCoherent(u, e);
    }
    RunKeeps(s, steps, t, LoneStep, inv);
  }

  // ---------------------------------------------------------------- reads in runs

  /** What a read of page p must return after the run: the last write accepted, or the first disk. */
  ghost predicate IsLastWrite(value: Page, s: System, steps: seq<Step>, k: nat, p: nat) {
    && k < |s.clients| && p < |s.clients[k].dev.disk|
    && (forall w :: w in Accepted(steps, k) ==> w.page < |s.clients[k].dev.disk|)
    && value == Apply(s.clients[k].dev.disk, Accepted(steps, k))[p]
  }

  lemma RunFlat(s: System, steps: seq<Step>, t: System, ok: Rule, k: nat, p: nat)
    requires Init(s) && Reaches(s, steps, t, ok) && k < |s.clients| == |t.clients|
    requires WriteThrough(t.clients[k].dev) && p < |t.clients[k].dev.disk|
    ensures IsLastWrite(Flat(t.clients[k].dev)[p], s, steps, k, p)
  {
    RunDevs(s, steps, t, ok, k);
    assert FreshClient(s.clients[k], s.slots, |s.servers|, s.pool);
    assert s.clients[k].dev.log + Accepted(steps, k) == Accepted(steps, k);
  }

  /** A read of client k is in flight and can land. */
  ghost predicate ReadCanLand(t: System, k: nat, ctx: Ctx) {
    && Enabled(t, Land(k, ctx)) && t.clients[k].dev.flight[ctx].ReadOp?
    && t.clients[k].dev.flight[ctx].slot < |t.servers[ctx.server].mem|
    && t.clients[k].dev.flight[ctx].page % SLAB_PAGES < |t.servers[ctx.server].mem[t.clients[k].dev.flight[ctx].slot]|
  }

  /** A read served from remote memory returns the last accepted write, in every run whose
      disconnects leave no other server mapped. */
  lemma RemoteReadsInEveryRun(s: System, steps: seq<Step>, t: System, k: nat, ctx: Ctx)
    requires Init(s) && Reaches(s, steps, t, LoneStep) && k < |s.clients|
    requires ReadCanLand(t, k, ctx)
    ensures var op := t.clients[k].dev.flight[ctx];
            IsLastWrite(t.servers[ctx.server].mem[op.slot][op.page % SLAB_PAGES], s, steps, k, op.page)
  {
    LoneRunCoherent(s, steps, t);
    RunSafe(s, steps, t, LoneStep);
    RunLog(s, steps, t, LoneStep, k);
    RemoteReadReturnsLastWrite(t, k, ctx);
    RunFlat(s, steps, t, LoneStep, k, t.clients[k].dev.flight[ctx].page);
  }

  /** A read served from disk returns the last accepted write, in every run. */
  lemma DiskReadsInEveryRun(s: System, steps: seq<Step>, t: System, k: nat)
    requires Init(s) && Reaches(s, steps, t, AnyStep) && k < |s.clients| && k < |t.clients|
    requires t.clients[k].dev.fifo != [] && t.clients[k].dev.fifo[0].ReadBio?
    ensures var dev := t.clients[k].dev;
            && dev.fifo[0].page < |dev.disk|
            && IsLastWrite(dev.disk[dev.fifo[0].page], s, steps, k, dev.fifo[0].page)
  {
    RunSafe(s, steps, t, AnyStep);
    RunLog(s, steps, t, AnyStep, k);
    DiskReadReturnsLastWrite(t, k);
    RunFlat(s, steps, t, AnyStep, k, t.clients[k].dev.fifo[0].page);
  }
}
