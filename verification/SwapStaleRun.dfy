/** The stale read as a run. From every state in which a slab is mapped on one live server and another
    server is in use, a run in which the other one breaks leads to a read in flight that will bring back
    an overwritten page. Such states are themselves reached from every fresh system with two servers
    that have a slab to give.
 */
module SwapStaleRun {
  import opened BackupDisk
  import C = SwapClient
  import opened SwapInvariants
  import T = DaemonTables
  import opened Swap
  import opened SwapSafety
  import opened SwapStale
  import opened SwapProgress

  // ---------------------------------------------------------------- the client's part

  /** Session slab b is mapped at slot i of live server d and not at the other server f, which has been in
      use, and ctx is a context towards d. */
  ghost predicate Placed(cl: C.Client, d: nat, f: nat, b: nat, i: nat, ctx: Ctx, slots: nat, pool: nat) {
    && d < |cl.conns| && f < |cl.conns| && d != f
    && cl.conns[d].live && cl.conns[f].wasMapped && b !in cl.conns[f].chunkMap
    && b < |cl.cbIndexMap| == |cl.slotMap| && cl.cbIndexMap[b] == d && cl.slotMap[b] == i
    && i < |cl.conns[d].bits| == |cl.conns[d].chunkMap| == slots && cl.conns[d].chunkMap[i] == b
    && ctx.server == d && ctx.index < pool
    && |cl.dev.initial| == |cl.cbIndexMap| * SLAB_PAGES
  }

  /** No operation in flight, none queued and the context free. */
  ghost predicate Resting(dev: Dev, ctx: Ctx) {
    dev.flight == map[] && dev.fifo == [] && ctx in dev.free
  }

  /** The first page of the slab is recorded. */
  ghost predicate Recorded(cl: C.Client, d: nat, i: nat) {
    d < |cl.conns| && i < |cl.conns[d].bits| && 0 in cl.conns[d].bits[i]
  }

  /** The device with one write of the first page of slab b under way, and then landed. */
  ghost predicate Writing(dev: Dev, b: nat, i: nat, ctx: Ctx, p: Page) {
    && dev.flight == map[ctx := WriteOp(i, b * SLAB_PAGES, 1)]
    && dev.fifo == [CtxBio(b * SLAB_PAGES, 1, ctx)] && ctx in dev.buf && dev.buf[ctx] == [p]
  }

  ghost predicate Copying(dev: Dev, b: nat, ctx: Ctx) {
    dev.flight == map[] && dev.fifo == [CtxBio(b * SLAB_PAGES, 1, ctx)]
  }

  lemma WriteClient(cl: C.Client, d: nat, f: nat, b: nat, i: nat, ctx: Ctx, slots: nat, pool: nat, p: Page,
                    cl': C.Client)
    requires Placed(cl, d, f, b, i, ctx, slots, pool) && Resting(cl.dev, ctx) && cl.rdmaOn
    requires C.OnDevice(cl, b * SLAB_PAGES, 1) && cl' == C.AcceptWrite(cl, b * SLAB_PAGES, [p], ctx)
    ensures C.CanWrite(cl, b * SLAB_PAGES, [p], ctx, pool)
    ensures Placed(cl', d, f, b, i, ctx, slots, pool) && Writing(cl'.dev, b, i, ctx, p) && cl'.conns == cl.conns
  {
  }

  lemma LandClient(cl: C.Client, d: nat, f: nat, b: nat, i: nat, ctx: Ctx, slots: nat, pool: nat, p: Page)
    requires Placed(cl, d, f, b, i, ctx, slots, pool) && Writing(cl.dev, b, i, ctx, p)
    ensures C.CanComplete(cl, ctx, slots)
    ensures var cl' := C.EndWrite(cl, ctx);
            && Placed(cl', d, f, b, i, ctx, slots, pool) && Recorded(cl', d, i) && Copying(cl'.dev, b, ctx)
            && cl'.conns[f] == cl.conns[f]
  {
    assert b * SLAB_PAGES % SLAB_PAGES == 0;
  }

  lemma PopClient(cl: C.Client, d: nat, f: nat, b: nat, i: nat, ctx: Ctx, slots: nat, pool: nat)
    requires Inv(cl.dev) && Placed(cl, d, f, b, i, ctx, slots, pool) && Recorded(cl, d, i) && Copying(cl.dev, b, ctx)
    ensures PopAllowed(cl.dev)
    ensures var cl' := C.PopBio(cl);
            && Placed(cl', d, f, b, i, ctx, slots, pool) && Recorded(cl', d, i) && Resting(cl'.dev, ctx)
            && cl'.conns == cl.conns
  {
  }

  lemma FailClient(cl: C.Client, d: nat, f: nat, b: nat, i: nat, ctx: Ctx, slots: nat, pool: nat)
    requires Placed(cl, d, f, b, i, ctx, slots, pool) && Recorded(cl, d, i)
    ensures var cl' := C.FailBegin(cl, f);
            && Placed(cl', d, f, b, i, ctx, slots, pool) && !cl'.rdmaOn && Recorded(cl', d, i)
            && cl'.dev == cl.dev && cl'.conns[f].failed && cl'.conns[f].handler == C.Returning
  {
  }

  lemma FailSlotClient(cl: C.Client, d: nat, f: nat, b: nat, i: nat, ctx: Ctx, slots: nat, pool: nat, j: nat)
    requires Placed(cl, d, f, b, i, ctx, slots, pool) && Recorded(cl, d, i) && C.CanFailSlot(cl, f, j)
    ensures var cl' := C.FailSlot(cl, f, j);
            && Placed(cl', d, f, b, i, ctx, slots, pool) && Recorded(cl', d, i) && cl'.dev == cl.dev
            && cl'.rdmaOn == cl.rdmaOn && cl'.conns[f] == cl.conns[f].(chunkMap := cl.conns[f].chunkMap[j := -1])
  {
    assert cl.conns[f].chunkMap[j] in cl.conns[f].chunkMap;
  }

  /** The write with RDMA off goes to disk and leaves the page recorded. */
  lemma OffWriteClient(cl: C.Client, d: nat, f: nat, b: nat, i: nat, ctx: Ctx, slots: nat, pool: nat, p: Page,
                       cl': C.Client)
    requires Placed(cl, d, f, b, i, ctx, slots, pool) && Recorded(cl, d, i) && Resting(cl.dev, ctx) && !cl.rdmaOn
    requires Inv(cl.dev) && C.OnDevice(cl, b * SLAB_PAGES, 1) && cl' == C.AcceptWrite(cl, b * SLAB_PAGES, [p], ctx)
    ensures C.CanWrite(cl, b * SLAB_PAGES, [p], ctx, pool)
    ensures Placed(cl', d, f, b, i, ctx, slots, pool) && Recorded(cl', d, i)
    ensures cl'.dev.flight == map[] && ctx in cl'.dev.free && cl'.conns == cl.conns && WriteThrough(cl'.dev)
    ensures b * SLAB_PAGES < |cl'.dev.initial| && Flat(cl'.dev)[b * SLAB_PAGES] == p
  {
    OffWriteGoesToDisk(cl, b * SLAB_PAGES, p, ctx, cl');
  }

  /** With RDMA on again the page is read from the server. */
  lemma ReadClient(cl: C.Client, d: nat, f: nat, b: nat, i: nat, ctx: Ctx, slots: nat, pool: nat)
    requires Placed(cl, d, f, b, i, ctx, slots, pool) && Recorded(cl, d, i) && cl.rdmaOn
    requires cl.dev.flight == map[] && ctx in cl.dev.free
    ensures C.CanRead(cl, b * SLAB_PAGES, ctx, pool)
    ensures C.AcceptRead(cl, b * SLAB_PAGES, ctx) == cl.(dev := RdmaRead(cl.dev, ctx, i, b * SLAB_PAGES))
  {
    assert b * SLAB_PAGES % SLAB_PAGES == 0;
  }

  // ---------------------------------------------------------------- one step at a time

  /** The slab is placed as said, and there is memory behind it. */
  ghost predicate Track(s: System, k: nat, d: nat, f: nat, b: nat, i: nat, ctx: Ctx) {
    && k < |s.clients| && d < |s.servers| && f < |s.servers|
    && Placed(s.clients[k], d, f, b, i, ctx, s.slots, s.pool)
    && i < |s.servers[d].mem| && 0 < |s.servers[d].mem[i]|
  }

  /** A write is sent to the server. */
  lemma RemoteWrite(s0: System, steps: seq<Step>, s: System, k: nat, d: nat, f: nat, b: nat, i: nat, ctx: Ctx, p: Page)
    returns (steps': seq<Step>, s': System)
    requires Reaches(s0, steps, s, AnyStep) && Track(s, k, d, f, b, i, ctx)
    requires s.clients[k].rdmaOn && Resting(s.clients[k].dev, ctx)
    ensures Reaches(s0, steps', s', AnyStep) && Track(s', k, d, f, b, i, ctx)
            && Writing(s'.clients[k].dev, b, i, ctx, p)
    ensures s'.clients[k].conns == s.clients[k].conns
  {
    var e := C.Write(b * SLAB_PAGES, [p], ctx);
    var cl' := C.AcceptWrite(s.clients[k], b * SLAB_PAGES, [p], ctx);
    WriteClient(s.clients[k], d, f, b, i, ctx, s.slots, s.pool, p, cl');
    RunInv(s0, steps, s, k);
    ClientStep(s0, steps, s, k, e, cl');
    steps', s' := steps + [AtClient(k, e)], WithClient(s, k, cl');
  }

  /** The landing records the page over the new data. */
  lemma LandNext(s: System, k: nat, d: nat, f: nat, b: nat, i: nat, ctx: Ctx, p: Page) returns (s': System)
    requires Safe(s) && Track(s, k, d, f, b, i, ctx) && Writing(s.clients[k].dev, b, i, ctx, p)
    ensures Enabled(s, Land(k, ctx)) && s' == Next(s, Land(k, ctx))
    ensures s'.clients == s.clients[k := C.EndWrite(s.clients[k], ctx)] && s'.slots == s.slots && s'.pool == s.pool
    ensures |s'.servers| == |s.servers| && i < |s'.servers[d].mem| && 0 < |s'.servers[d].mem[i]|
    ensures s'.servers[d].mem[i][0] == p
  {
    LandClient(s.clients[k], d, f, b, i, ctx, s.slots, s.pool, p);
    assert b * SLAB_PAGES % SLAB_PAGES == 0;
    s' := Next(s, Land(k, ctx));
  }

  lemma Landing(s0: System, steps: seq<Step>, s: System, k: nat, d: nat, f: nat, b: nat, i: nat, ctx: Ctx, p: Page)
    returns (steps': seq<Step>, s': System)
    requires Reaches(s0, steps, s, AnyStep) && Track(s, k, d, f, b, i, ctx) && Writing(s.clients[k].dev, b, i, ctx, p)
    ensures Reaches(s0, steps', s', AnyStep) && Track(s', k, d, f, b, i, ctx) && Copying(s'.clients[k].dev, b, ctx)
    ensures Recorded(s'.clients[k], d, i) && s'.servers[d].mem[i][0] == p
    ensures s'.clients[k].conns[f] == s.clients[k].conns[f]
  {
    RunSafe(s0, steps, s, AnyStep);
    s' := LandNext(s, k, d, f, b, i, ctx, p);
    LandClient(s.clients[k], d, f, b, i, ctx, s.slots, s.pool, p);
    RunGoesOn(s0, steps, s, Land(k, ctx), s', AnyStep);
    steps' := steps + [Land(k, ctx)];
  }

  /** The disk copy is made. */
  lemma Popping(s0: System, steps: seq<Step>, s: System, k: nat, d: nat, f: nat, b: nat, i: nat, ctx: Ctx)
    returns (steps': seq<Step>, s': System)
    requires Reaches(s0, steps, s, AnyStep) && Track(s, k, d, f, b, i, ctx)
    requires Copying(s.clients[k].dev, b, ctx) && Recorded(s.clients[k], d, i)
    ensures Reaches(s0, steps', s', AnyStep) && Track(s', k, d, f, b, i, ctx) && s'.servers == s.servers
    ensures Resting(s'.clients[k].dev, ctx) && Recorded(s'.clients[k], d, i)
    ensures s'.clients[k].conns == s.clients[k].conns
  {
    RunInv(s0, steps, s, k);
    PopClient(s.clients[k], d, f, b, i, ctx, s.slots, s.pool);
    var cl' := C.PopBio(s.clients[k]);
    ClientStep(s0, steps, s, k, C.PopFifo, cl');
    steps', s' := steps + [AtClient(k, C.PopFifo)], WithClient(s, k, cl');
  }

  /** The other server breaks. */
  lemma Breaking(s0: System, steps: seq<Step>, s: System, k: nat, d: nat, f: nat, b: nat, i: nat, ctx: Ctx)
    returns (steps': seq<Step>, s': System)
    requires Reaches(s0, steps, s, AnyStep) && Track(s, k, d, f, b, i, ctx)
    requires Resting(s.clients[k].dev, ctx) && Recorded(s.clients[k], d, i)
    ensures Reaches(s0, steps', s', AnyStep) && Track(s', k, d, f, b, i, ctx) && s'.servers == s.servers
    ensures Resting(s'.clients[k].dev, ctx) && Recorded(s'.clients[k], d, i)
    ensures s'.clients[k].conns[f] == C.CutConn(s.clients[k].conns[f])
  {
    s' := SetConn(s, k, f, C.CutConn(s.clients[k].conns[f]));
    CutGoesOn(s0, steps, s, k, f, s');
    CutTracked(s, k, d, f, b, i, ctx, s');
    steps' := steps + [Cut(k, f)];
  }

  lemma CutGoesOn(s0: System, steps: seq<Step>, s: System, k: nat, f: nat, s': System)
    requires Reaches(s0, steps, s, AnyStep) && InRange(s, k, f) && s' == SetConn(s, k, f, C.CutConn(ConnOf(s, k, f)))
    ensures Reaches(s0, steps + [Cut(k, f)], s', AnyStep)
  {
    RunSafe(s0, steps, s, AnyStep);
    RunGoesOn(s0, steps, s, Cut(k, f), s', AnyStep);
  }

  lemma CutTracked(s: System, k: nat, d: nat, f: nat, b: nat, i: nat, ctx: Ctx, s': System)
    requires Track(s, k, d, f, b, i, ctx) && Recorded(s.clients[k], d, i)
    requires InRange(s, k, f) && s' == SetConn(s, k, f, C.CutConn(ConnOf(s, k, f)))
    ensures Track(s', k, d, f, b, i, ctx) && Recorded(s'.clients[k], d, i)
  {
  }

  /** The disconnect handler is returning slabs. */
  ghost predicate AtWork(c: C.Conn) {
    c.failed && c.handler == C.Returning
  }

  /** Its disconnect handler switches RDMA off. */
  lemma Failing(s0: System, steps: seq<Step>, s: System, k: nat, d: nat, f: nat, b: nat, i: nat, ctx: Ctx)
    returns (steps': seq<Step>, s': System)
    requires Reaches(s0, steps, s, AnyStep) && Track(s, k, d, f, b, i, ctx)
    requires Resting(s.clients[k].dev, ctx) && Recorded(s.clients[k], d, i)
    requires !s.clients[k].conns[f].live && !s.clients[k].conns[f].failed
    ensures Reaches(s0, steps', s', AnyStep) && Track(s', k, d, f, b, i, ctx) && s'.servers == s.servers
    ensures Resting(s'.clients[k].dev, ctx) && Recorded(s'.clients[k], d, i)
    ensures AtWork(s'.clients[k].conns[f]) && !s'.clients[k].rdmaOn
  {
    RunInv(s0, steps, s, k);
    FailClient(s.clients[k], d, f, b, i, ctx, s.slots, s.pool);
    var cl' := C.FailBegin(s.clients[k], f);
    ClientStep(s0, steps, s, k, C.BeginFailure(f), cl');
    steps', s' := steps + [AtClient(k, C.BeginFailure(f))], WithClient(s, k, cl');
  }

  /** The first n slots of the failed server have been returned. */
  ghost predicate Emptied(c: C.Conn, n: nat) {
    AtWork(c) && n <= |c.chunkMap| && forall j :: 0 <= j < n ==> c.chunkMap[j] == -1
  }

  lemma OneMoreEmptied(c: C.Conn, n: nat)
    requires Emptied(c, n) && n < |c.chunkMap|
    ensures c.chunkMap[n] == -1 ==> Emptied(c, n + 1)
    ensures Emptied(c.(chunkMap := c.chunkMap[n := -1]), n + 1)
  {
  }

  lemma NextCanReturn(cl: C.Client, f: nat, n: nat, slots: nat, pool: nat)
    requires ClientInv(cl, slots, pool) && f < |cl.conns| && cl.conns[f].failed
    requires n < |cl.conns[f].chunkMap| && cl.conns[f].chunkMap[n] != -1
    ensures C.CanFailSlot(cl, f, n)
  {
    assert ConnInv(cl.conns[f], slots);
    MappedInRange(cl, f, n, slots, pool);
  }

  /** The slab in slot n is returned. */
  lemma ReturnMapped(s0: System, steps: seq<Step>, s: System, k: nat, f: nat, n: nat, cl: C.Client)
    requires Reaches(s0, steps, s, AnyStep) && k < |s.clients| && C.CanFailSlot(s.clients[k], f, n)
    requires cl == C.FailSlot(s.clients[k], f, n)
    ensures Reaches(s0, steps + [AtClient(k, C.FailOneSlot(f, n))], WithClient(s, k, cl), AnyStep)
  {
    RunInv(s0, steps, s, k);
    ClientStep(s0, steps, s, k, C.FailOneSlot(f, n), cl);
  }

  lemma CanReturnNext(s0: System, steps: seq<Step>, s: System, k: nat, f: nat, n: nat)
    requires Reaches(s0, steps, s, AnyStep) && k < |s.clients| && f < |s.clients[k].conns|
    requires Emptied(s.clients[k].conns[f], n) && n < |s.clients[k].conns[f].chunkMap|
    ensures s.clients[k].conns[f].chunkMap[n] == -1 || C.CanFailSlot(s.clients[k], f, n)
  {
    RunInv(s0, steps, s, k);
    if s.clients[k].conns[f].chunkMap[n] != -1 {
      NextCanReturn(s.clients[k], f, n, s.slots, s.pool);
    }
  }

  lemma ReturnOne(s0: System, steps: seq<Step>, s: System, k: nat, d: nat, f: nat, b: nat, i: nat, ctx: Ctx, n: nat)
    returns (steps': seq<Step>, s': System)
    requires Reaches(s0, steps, s, AnyStep) && Track(s, k, d, f, b, i, ctx)
    requires Resting(s.clients[k].dev, ctx) && Recorded(s.clients[k], d, i) && !s.clients[k].rdmaOn
    requires Emptied(s.clients[k].conns[f], n) && n < |s.clients[k].conns[f].chunkMap|
    ensures Reaches(s0, steps', s', AnyStep) && Track(s', k, d, f, b, i, ctx) && s'.servers == s.servers
    ensures Resting(s'.clients[k].dev, ctx) && Recorded(s'.clients[k], d, i) && !s'.clients[k].rdmaOn
    ensures Emptied(s'.clients[k].conns[f], n + 1)
    ensures |s'.clients[k].conns[f].chunkMap| == |s.clients[k].conns[f].chunkMap|
  {
    CanReturnNext(s0, steps, s, k, f, n);
    OneMoreEmptied(s.clients[k].conns[f], n);
    if s.clients[k].conns[f].chunkMap[n] == -1 {
      steps', s' := steps, s;
    } else {
      var cl' := C.FailSlot(s.clients[k], f, n);
      FailSlotClient(s.clients[k], d, f, b, i, ctx, s.slots, s.pool, n);
      ReturnMapped(s0, steps, s, k, f, n, cl');
      steps', s' := steps + [AtClient(k, C.FailOneSlot(f, n))], WithClient(s, k, cl');
    }
  }

  /** The handler returns every slab of the server. */
  lemma {:induction false} ReturnAll(s0: System, steps: seq<Step>, s: System, k: nat, d: nat, f: nat, b: nat, i: nat,
                                     ctx: Ctx, n: nat)
    returns (steps': seq<Step>, s': System)
    requires Reaches(s0, steps, s, AnyStep) && Track(s, k, d, f, b, i, ctx)
    requires Resting(s.clients[k].dev, ctx) && Recorded(s.clients[k], d, i) && !s.clients[k].rdmaOn
    requires Emptied(s.clients[k].conns[f], n)
    ensures Reaches(s0, steps', s', AnyStep) && Track(s', k, d, f, b, i, ctx) && s'.servers == s.servers
    ensures Resting(s'.clients[k].dev, ctx) && Recorded(s'.clients[k], d, i) && !s'.clients[k].rdmaOn
    ensures AtWork(s'.clients[k].conns[f]) && C.NothingMapped(s'.clients[k].conns[f])
    decreases |s.clients[k].conns[f].chunkMap| - n
  {
    if n == |s.clients[k].conns[f].chunkMap| {
      steps', s' := steps, s;
    } else {
      var steps1, s1 := ReturnOne(s0, steps, s, k, d, f, b, i, ctx, n);
      steps', s' := ReturnAll(s0, steps1, s1, k, d, f, b, i, ctx, n + 1);
    }
  }

  // ---------------------------------------------------------------- the last three steps

  /** A read of client k is in flight that will bring back something other than the last accepted write. */
  ghost predicate StaleInFlight(s: System, k: nat, ctx: Ctx) {
    && Enabled(s, Land(k, ctx)) && s.clients[k].dev.flight[ctx].ReadOp? && WriteThrough(s.clients[k].dev)
    && var op := s.clients[k].dev.flight[ctx];
       && op.page < |s.clients[k].dev.initial| && op.slot < |s.servers[ctx.server].mem|
       && op.page % SLAB_PAGES < |s.servers[ctx.server].mem[op.slot]|
       && s.servers[ctx.server].mem[op.slot][op.page % SLAB_PAGES] != Flat(s.clients[k].dev)[op.page]
  }

  /** The page has been overwritten: its last accepted write is p. */
  ghost predicate Overwritten(cl: C.Client, b: nat, ctx: Ctx, p: Page) {
    && cl.dev.flight == map[] && ctx in cl.dev.free && WriteThrough(cl.dev)
    && b * SLAB_PAGES < |cl.dev.initial| && Flat(cl.dev)[b * SLAB_PAGES] == p
  }

  lemma OffWrite(s0: System, steps: seq<Step>, s: System, k: nat, d: nat, f: nat, b: nat, i: nat, ctx: Ctx, p: Page)
    returns (steps': seq<Step>, s': System)
    requires Reaches(s0, steps, s, AnyStep) && Track(s, k, d, f, b, i, ctx)
    requires Resting(s.clients[k].dev, ctx) && Recorded(s.clients[k], d, i) && !s.clients[k].rdmaOn
    ensures Reaches(s0, steps', s', AnyStep) && Track(s', k, d, f, b, i, ctx) && s'.servers == s.servers
    ensures Overwritten(s'.clients[k], b, ctx, p) && Recorded(s'.clients[k], d, i)
    ensures s'.clients[k].conns == s.clients[k].conns
  {
    var e := C.Write(b * SLAB_PAGES, [p], ctx);
    var cl' := C.AcceptWrite(s.clients[k], b * SLAB_PAGES, [p], ctx);
    RunInv(s0, steps, s, k);
    OffWriteClient(s.clients[k], d, f, b, i, ctx, s.slots, s.pool, p, cl');
    ClientStep(s0, steps, s, k, e, cl');
    steps', s' := steps + [AtClient(k, e)], WithClient(s, k, cl');
  }

  lemma Ending(s0: System, steps: seq<Step>, s: System, k: nat, d: nat, f: nat, b: nat, i: nat, ctx: Ctx, p: Page)
    returns (steps': seq<Step>, s': System)
    requires Reaches(s0, steps, s, AnyStep) && Track(s, k, d, f, b, i, ctx)
    requires Overwritten(s.clients[k], b, ctx, p) && Recorded(s.clients[k], d, i)
    requires AtWork(s.clients[k].conns[f]) && C.NothingMapped(s.clients[k].conns[f])
    ensures Reaches(s0, steps', s', AnyStep) && Track(s', k, d, f, b, i, ctx) && s'.servers == s.servers
    ensures Overwritten(s'.clients[k], b, ctx, p) && Recorded(s'.clients[k], d, i) && s'.clients[k].rdmaOn
  {
    var cl' := C.FailEnd(s.clients[k], f);
    RunInv(s0, steps, s, k);
    ClientStep(s0, steps, s, k, C.EndFailure(f), cl');
    steps', s' := steps + [AtClient(k, C.EndFailure(f))], WithClient(s, k, cl');
  }

  lemma ReadIsStale(s: System, k: nat, d: nat, f: nat, b: nat, i: nat, ctx: Ctx, p: Page, cl: C.Client)
    requires Track(s, k, d, f, b, i, ctx) && Overwritten(s.clients[k], b, ctx, p)
    requires s.servers[d].mem[i][0] != p
    requires cl == s.clients[k].(dev := RdmaRead(s.clients[k].dev, ctx, i, b * SLAB_PAGES))
    ensures StaleInFlight(WithClient(s, k, cl), k, ctx)
  {
    assert b * SLAB_PAGES % SLAB_PAGES == 0;
  }

  lemma Reading(s0: System, steps: seq<Step>, s: System, k: nat, d: nat, f: nat, b: nat, i: nat, ctx: Ctx, p: Page)
    returns (steps': seq<Step>, s': System)
    requires Reaches(s0, steps, s, AnyStep) && Track(s, k, d, f, b, i, ctx)
    requires Overwritten(s.clients[k], b, ctx, p) && Recorded(s.clients[k], d, i) && s.clients[k].rdmaOn
    requires s.servers[d].mem[i][0] != p
    ensures Reaches(s0, steps', s', AnyStep) && StaleInFlight(s', k, ctx)
  {
    var e := C.Read(b * SLAB_PAGES, ctx);
    ReadClient(s.clients[k], d, f, b, i, ctx, s.slots, s.pool);
    var cl' := C.AcceptRead(s.clients[k], b * SLAB_PAGES, ctx);
    RunInv(s0, steps, s, k);
    ClientStep(s0, steps, s, k, e, cl');
    ReadIsStale(s, k, d, f, b, i, ctx, p, cl');
    steps', s' := steps + [AtClient(k, e)], WithClient(s, k, cl');
  }

  // ---------------------------------------------------------------- the whole run

  /** Client k rests with RDMA on, has slab b mapped at slot i of live server d and not at another server f of
      its own, which has been mapped before and has not failed. */
  ghost predicate InUse(s: System, k: nat, d: nat, f: nat, b: nat, i: nat, ctx: Ctx) {
    && InRange(s, k, d) && InRange(s, k, f) && d != f && MapsTo(s, k, b, d, i)
    && ConnOf(s, k, d).live && ConnOf(s, k, f).wasMapped && !ConnOf(s, k, f).failed && b !in ConnOf(s, k, f).chunkMap
    && s.clients[k].rdmaOn && Resting(s.clients[k].dev, ctx) && ctx.server == d && ctx.index < s.pool
  }

  lemma InUseIsTracked(s: System, k: nat, d: nat, f: nat, b: nat, i: nat, ctx: Ctx)
    requires Safe(s) && InUse(s, k, d, f, b, i, ctx)
    ensures Track(s, k, d, f, b, i, ctx)
  {
    SafeConn(s, k, d);
    SafeConn(s, k, f);
    MappedIsOwned(s, k, b, d, i);
  }

  /** The page is written, the write lands, and its disk copy is made. */
  lemma WrittenAndLanded(s0: System, steps: seq<Step>, s: System, k: nat, d: nat, f: nat, b: nat, i: nat, ctx: Ctx,
                         p: Page)
    returns (steps': seq<Step>, s': System)
    requires Reaches(s0, steps, s, AnyStep) && Track(s, k, d, f, b, i, ctx)
    requires s.clients[k].rdmaOn && Resting(s.clients[k].dev, ctx)
    ensures Reaches(s0, steps', s', AnyStep) && Track(s', k, d, f, b, i, ctx) && s'.servers[d].mem[i][0] == p
    ensures Resting(s'.clients[k].dev, ctx) && Recorded(s'.clients[k], d, i)
    ensures s'.clients[k].conns[f] == s.clients[k].conns[f]
  {
    var steps1, s1 := RemoteWrite(s0, steps, s, k, d, f, b, i, ctx, p);
    var steps2, s2 := Landing(s0, steps1, s1, k, d, f, b, i, ctx, p);
    steps', s' := Popping(s0, steps2, s2, k, d, f, b, i, ctx);
  }

  /** The other server breaks, and its slabs are returned. */
  lemma Disconnected(s0: System, steps: seq<Step>, s: System, k: nat, d: nat, f: nat, b: nat, i: nat, ctx: Ctx)
    returns (steps': seq<Step>, s': System)
    requires Reaches(s0, steps, s, AnyStep) && Track(s, k, d, f, b, i, ctx)
    requires Resting(s.clients[k].dev, ctx) && Recorded(s.clients[k], d, i) && !s.clients[k].conns[f].failed
    ensures Reaches(s0, steps', s', AnyStep) && Track(s', k, d, f, b, i, ctx) && s'.servers == s.servers
    ensures Resting(s'.clients[k].dev, ctx) && Recorded(s'.clients[k], d, i) && !s'.clients[k].rdmaOn
    ensures AtWork(s'.clients[k].conns[f]) && C.NothingMapped(s'.clients[k].conns[f])
  {
    var steps1, s1 := Breaking(s0, steps, s, k, d, f, b, i, ctx);
    var steps2, s2 := Failing(s0, steps1, s1, k, d, f, b, i, ctx);
    steps', s' := ReturnAll(s0, steps2, s2, k, d, f, b, i, ctx, 0);
  }

  /** The page is overwritten with RDMA off, the handler ends and the page is read. */
  lemma OverwrittenAndRead(s0: System, steps: seq<Step>, s: System, k: nat, d: nat, f: nat, b: nat, i: nat, ctx: Ctx,
                           p: Page)
    returns (steps': seq<Step>, s': System)
    requires Reaches(s0, steps, s, AnyStep) && Track(s, k, d, f, b, i, ctx) && s.servers[d].mem[i][0] != p
    requires Resting(s.clients[k].dev, ctx) && Recorded(s.clients[k], d, i) && !s.clients[k].rdmaOn
    requires AtWork(s.clients[k].conns[f]) && C.NothingMapped(s.clients[k].conns[f])
    ensures Reaches(s0, steps', s', AnyStep) && StaleInFlight(s', k, ctx)
  {
    var steps1, s1 := OffWrite(s0, steps, s, k, d, f, b, i, ctx, p);
    var steps2, s2 := Ending(s0, steps1, s1, k, d, f, b, i, ctx, p);
    steps', s' := Reading(s0, steps2, s2, k, d, f, b, i, ctx, p);
  }

  lemma StaleRun(s0: System, steps: seq<Step>, s: System, k: nat, d: nat, f: nat, b: nat, i: nat, ctx: Ctx)
    returns (steps': seq<Step>, t: System)
    requires Reaches(s0, steps, s, AnyStep) && InUse(s, k, d, f, b, i, ctx)
    ensures Reaches(s0, steps', t, AnyStep) && StaleInFlight(t, k, ctx)
  {
    RunSafe(s0, steps, s, AnyStep);
    InUseIsTracked(s, k, d, f, b, i, ctx);
    var steps1, s1 := WrittenAndLanded(s0, steps, s, k, d, f, b, i, ctx, []);
    var steps2, s2 := Disconnected(s0, steps1, s1, k, d, f, b, i, ctx);
    steps', t := OverwrittenAndRead(s0, steps2, s2, k, d, f, b, i, ctx, Other([]));
  }

  /** From every safe state in which client k rests with a slab mapped on one live server while another
      server is in use, a run in which that one breaks leads to a read that will bring back an overwritten
      page. */
  lemma StaleReadIsReachable(s: System, k: nat, d: nat, f: nat, b: nat, i: nat, ctx: Ctx)
    returns (steps: seq<Step>, t: System)
    requires Safe(s) && InUse(s, k, d, f, b, i, ctx)
    ensures Reaches(s, steps, t, AnyStep) && StaleInFlight(t, k, ctx)
  {
    assert Reaches(s, [], s, AnyStep);
    steps, t := StaleRun(s, [], s, k, d, f, b, i, ctx);
  }

  // ---------------------------------------------------------------- from a fresh system

  /** After the two the client is ready for the run above. */
  lemma TwiceMapped(s: System, s1: System, k: nat, f: nat, c: nat, d: nat, b: nat, ctx: Ctx)
    requires Idle(s, k, f, c) && f != d && c != b && s1 == Triggered(s, k, f, c) && Idle(s1, k, d, b)
    requires Resting(s.clients[k].dev, ctx) && ctx.server == d && ctx.index < s.pool
    requires b !in s.clients[k].conns[f].chunkMap
    ensures InUse(Triggered(s1, k, d, b), k, d, f, b, T.FirstFree(s1.servers[d].tables), ctx)
  {
    var c' := s1.clients[k].conns[f];
    forall j | 0 <= j < |c'.chunkMap| ensures c'.chunkMap[j] != b {
      assert c'.chunkMap[j] == c || c'.chunkMap[j] in s.clients[k].conns[f].chunkMap;
    }
  }

  lemma FreshIsResting(s: System, k: nat, f: nat, b: nat, ctx: Ctx)
    requires Init(s) && k < |s.clients| && f < |s.servers| && ctx.server < |s.servers| && ctx.index < s.pool
    ensures f < |s.clients[k].conns| && b !in s.clients[k].conns[f].chunkMap && Resting(s.clients[k].dev, ctx)
  {
    assert FreshClient(s.clients[k], s.slots, |s.servers|, s.pool);
    assert FreshConn(s.clients[k].conns[f], s.slots);
  }

  lemma BothMapped(s: System, k: nat, f: nat, c: nat, d: nat, b: nat, ctx: Ctx) returns (steps: seq<Step>, t: System)
    requires Init(s) && Idle(s, k, f, c) && Idle(s, k, d, b) && f != d && c != b
    requires ctx.server == d && ctx.index < s.pool
    ensures Reaches(s, steps, t, AnyStep)
    ensures InUse(t, k, d, f, b, T.FirstFree(s.servers[d].tables), ctx)
  {
    RunBegins(s, AnyStep);
    var steps1 := RunToTriggered(s, [], s, k, f, c);
    var s1 := Triggered(s, k, f, c);
    IdleAgain(s, k, f, c, d, b);
    steps := RunToTriggered(s, steps1, s1, k, d, b);
    FreshIsResting(s, k, f, b, ctx);
    TwiceMapped(s, s1, k, f, c, d, b, ctx);
    t := Triggered(s1, k, d, b);
  }

  /** From every fresh system with a client of two slabs or more and two servers that offer a slab: both
      are mapped, one server breaks, and the client's read of the other brings back an overwritten page. */
  lemma StaleReadFromFresh(s: System, k: nat, f: nat, c: nat, d: nat, b: nat, ctx: Ctx)
    returns (steps: seq<Step>, t: System)
    requires Init(s) && k < |s.clients| && f < |s.servers| && d < |s.servers| && f != d
    requires c < |s.clients[k].slotMap| && b < |s.clients[k].slotMap| && c != b
    requires Offers(s.servers[f].tables, k) && Offers(s.servers[d].tables, k)
    requires ctx.server == d && ctx.index < s.pool
    ensures Reaches(s, steps, t, AnyStep) && StaleInFlight(t, k, ctx)
  {
    FreshIsIdle(s, k, f, c);
    FreshIsIdle(s, k, d, b);
    var steps1, s1 := BothMapped(s, k, f, c, d, b, ctx);
    steps, t := StaleRun(s, steps1, s1, k, d, f, b, T.FirstFree(s.servers[d].tables), ctx);
  }

  // ---------------------------------------------------------------- a concrete system

  function EmptySlab(): (m: seq<Page>)
    ensures |m| == SLAB_PAGES
  {
    seq(SLAB_PAGES, _ => [])
  }

  /** A server with one slab to give. */
  function OneSlab(): Server {
    Server(T.Tables([true], [-1], 1, 0, [0]), [EmptySlab()])
  }

  function Unused(): C.Conn {
    C.Conn(true, false, false, C.NoHandler, false, [-1], [{}], C.Ready, {}, {}, [], [], C.Quiet, false)
  }

  /** A client of two slabs with two servers. */
  function Pair(): System {
    var disk := EmptySlab() + EmptySlab();
    var pool := {Ctx(0, 0), Ctx(1, 0)};
    System([C.Client(Dev(disk, disk, [], map[], pool, pool, map[], [], []), [-1, -1], [-1, -1], false, true, 1,
                     C.NoMapping, [Unused(), Unused()])],
           [OneSlab(), OneSlab()], 1, 1)
  }

  lemma PairIsFresh()
    ensures Init(Pair()) && Offers(OneSlab().tables, 0)
  {
    assert FreshConn(Unused(), 1) && ServerInv(OneSlab(), 1, 1);
    assert FreshClient(Pair().clients[0], 1, 2, 1);
  }

  lemma StaleReadExample() returns (steps: seq<Step>, t: System)
    ensures Init(Pair()) && Reaches(Pair(), steps, t, AnyStep) && StaleInFlight(t, 0, Ctx(1, 0))
  {
    PairIsFresh();
    steps, t := StaleReadFromFresh(Pair(), 0, 0, 0, 1, 1, Ctx(1, 0));
  }
}
