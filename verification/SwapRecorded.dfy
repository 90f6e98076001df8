/** What the bitmaps record: exactly the pages of a landed write are added, so that they are read remotely from
    then on, and a slot that serves no slab records nothing, in every run.
 */
module SwapRecorded {
  import opened BackupDisk
  import C = SwapClient
  import opened SwapInvariants
  import opened SwapClientProof
  import opened SwapTidy
  import opened SwapTidyProof
  import opened Swap
  import opened SwapSafety

  // ---------------------------------------------------------------- a landed write

  /** The pages of a landed write are recorded at its slot, and nothing else changes in any bitmap. */
  lemma LandedIsRecorded(s: System, k: nat, ctx: Ctx, op: Op, d: nat, i: nat, p: nat)
    requires Safe(s) && Enabled(s, Land(k, ctx)) && op == s.clients[k].dev.flight[ctx] && op.WriteOp?
    requires InRange(s, k, d) && i < |ConnOf(s, k, d).bits|
    ensures var conns := Next(s, Land(k, ctx)).clients[k].conns;
            && d < |conns| && i < |conns[d].bits|
            && (p in conns[d].bits[i] <==>
                  || p in ConnOf(s, k, d).bits[i]
                  || (d == ctx.server && i == op.slot && op.page % SLAB_PAGES <= p < op.page % SLAB_PAGES + op.len))
  {
    EndWriteRecords(s.clients[k], ctx, op, d, i, p);
    assert Next(s, Land(k, ctx)).clients[k] == C.EndWrite(s.clients[k], ctx);
  }

  lemma EndWriteRecords(cl: C.Client, ctx: Ctx, op: Op, d: nat, i: nat, p: nat)
    requires ctx in cl.dev.flight && op == cl.dev.flight[ctx] && op.WriteOp? && ctx.server < |cl.conns|
    requires op.slot < |cl.conns[ctx.server].bits| && d < |cl.conns| && i < |cl.conns[d].bits|
    ensures var conns := C.EndWrite(cl, ctx).conns;
            && d < |conns| && i < |conns[d].bits|
            && (p in conns[d].bits[i] <==>
                  || p in cl.conns[d].bits[i]
                  || (d == ctx.server && i == op.slot && op.page % SLAB_PAGES <= p < op.page % SLAB_PAGES + op.len))
  {
  }

  /** A page of the write, wherever the maps lead to its slot, is then read from remote memory. */
  lemma LandedIsReadRemotely(s: System, k: nat, ctx: Ctx, op: Op, q: nat)
    requires Safe(s) && Enabled(s, Land(k, ctx)) && op == s.clients[k].dev.flight[ctx] && op.WriteOp? && op.Covers(q)
    requires s.clients[k].rdmaOn && MapsTo(s, k, q / SLAB_PAGES, ctx.server, op.slot)
    ensures var cl := Next(s, Land(k, ctx)).clients[k];
            C.OnDevice(cl, q, 1) && C.ReadPath(cl, q) == C.ToRemote(ctx.server, op.slot)
  {
    var cl := s.clients[k];
    assert FlightPlace(ctx, op, cl.conns, s.slots, s.pool, |cl.dev.initial|);
    SlabOffset(op.page, op.len, q);
    LandedIsRecorded(s, k, ctx, op, ctx.server, op.slot, q % SLAB_PAGES);
    AfterWrite(s, k, ctx);
  }

  lemma AfterWrite(s: System, k: nat, ctx: Ctx)
    requires Safe(s) && Enabled(s, Land(k, ctx)) && s.clients[k].dev.flight[ctx].WriteOp?
    ensures var cl := Next(s, Land(k, ctx)).clients[k];
            && cl.cbIndexMap == s.clients[k].cbIndexMap && cl.slotMap == s.clients[k].slotMap
            && cl.rdmaOn == s.clients[k].rdmaOn
  {
  }

  lemma SlabOffset(page: nat, len: nat, q: nat)
    requires page <= q < page + len && (page + len - 1) / SLAB_PAGES == page / SLAB_PAGES
    ensures page % SLAB_PAGES <= q % SLAB_PAGES < page % SLAB_PAGES + len
  {
    assert q / SLAB_PAGES == page / SLAB_PAGES;
  }

  // ---------------------------------------------------------------- slots that serve no slab

  /** Slots neither mapped nor being drained record nothing, nor do the mapped slots of a failed server. */
  ghost predicate Blank(c: C.Conn) {
    && |c.bits| == |c.chunkMap|
    && (forall i: nat :: i < |c.chunkMap| && c.chunkMap[i] == -1 && i !in C.Victims(c) ==> c.bits[i] == {})
    && (forall i: nat :: i < |c.chunkMap| && c.chunkMap[i] != -1 && c.failed ==> c.bits[i] == {})
  }

  ghost predicate AllBlank(conns: seq<C.Conn>) {
    forall d :: 0 <= d < |conns| ==> Blank(conns[d])
  }

  /** Fewer recorded pages on the same slots. */
  lemma FewerStaysBlank(c: C.Conn, c': C.Conn)
    requires Blank(c) && SameHolds(c, c') && |c'.bits| == |c.bits|
    requires forall i :: 0 <= i < |c.bits| ==> c'.bits[i] <= c.bits[i]
    ensures Blank(c')
  {
  }

  lemma SetBlank(conns: seq<C.Conn>, d: nat, c: C.Conn)
    requires AllBlank(conns) && d < |conns| && Blank(c)
    ensures AllBlank(conns[d := c])
  {
  }

  lemma UnmapBlank(c: C.Conn, i: nat)
    requires Blank(c) && c.phase.Draining? && i < |c.chunkMap| && c.chunkMap[i] >= 0
    ensures Blank(C.UnmapSlot(c, i))
  {
  }

  lemma DoneBlank(c: C.Conn)
    requires Blank(c) && c.phase.Draining?
    ensures Blank(C.SendDone(c))
  {
  }

  lemma FailBlank(c: C.Conn)
    requires Blank(c) && forall i :: 0 <= i < |c.chunkMap| ==> c.chunkMap[i] >= -1
    ensures Blank(C.FailConn(c))
  {
    assert C.Victims(C.FailConn(c)) == C.Victims(c);
  }

  lemma ReleasedBlank(c: C.Conn, i: nat)
    requires Blank(c) && c.failed && i < |c.chunkMap| && c.chunkMap[i] != -1
    ensures Blank(C.Released(c, i))
  {
    assert C.Victims(C.Released(c, i)) == C.Victims(c);
  }

  lemma ForgetBlank(c: C.Conn, b: nat)
    requires Blank(c)
    ensures Blank(C.Forgetting(c, b))
  {
    assert C.Victims(C.Forgetting(c, b)) == C.Victims(c);
  }

  lemma FailIdleBlank(c: C.Conn)
    requires Blank(c) && C.NothingMapped(c)
    ensures Blank(c.(failed := true))
  {
    assert C.Victims(c.(failed := true)) == C.Victims(c);
  }

  lemma EnteredBlank(c: C.Conn, slab: nat, slot: nat)
    requires Blank(c) && !c.failed && c.down != [] && slot < |c.chunkMap|
    ensures Blank(Entered(c, slab, slot))
  {
    assert C.Victims(Entered(c, slab, slot)) == C.Victims(c);
  }

  lemma RecordBlank(c: C.Conn, i: nat, more: set<nat>)
    requires Blank(c) && !c.failed && i < |c.bits| && (c.chunkMap[i] >= 0 || i in C.Victims(c))
    ensures Blank(c.(bits := c.bits[i := c.bits[i] + more]))
  {
    assert C.Victims(c.(bits := c.bits[i := c.bits[i] + more])) == C.Victims(c);
  }

  // ---------------------------------------------------------------- the client's actions

  lemma FrameBlank(conns: seq<C.Conn>, conns': seq<C.Conn>)
    requires AllBlank(conns) && AllSameHolds(conns, conns')
    requires forall d :: 0 <= d < |conns| ==> conns'[d].bits == conns[d].bits
    ensures AllBlank(conns')
  {
    forall d | 0 <= d < |conns| ensures Blank(conns'[d]) {
      FewerStaysBlank(conns[d], conns'[d]);
    }
  }

  lemma ThreadActBlank(cl: C.Client, e: C.Event, slots: nat, pool: nat)
    requires ClientInv(cl, slots, pool) && C.Enabled(cl, e, pool) && C.IsThreadAct(e) && AllBlank(cl.conns)
    ensures AllBlank(C.ThreadAct(cl, e, pool).conns)
  {
    if !ChangesMaps(e) {
      ThreadActFrame(cl, e, pool);
      ThreadActConns(cl, e, pool);
      FrameBlank(cl.conns, C.ThreadAct(cl, e, pool).conns);
    } else {
      var c := cl.conns[e.d];
      assert Blank(c) && ConnInv(c, slots);
      match e
      case UnmapVictim(d, i) =>
        UnmapBlank(c, i);
        SetBlank(cl.conns, d, C.UnmapSlot(c, i));
      case FinishEviction(d) =>
        DoneBlank(c);
        SetBlank(cl.conns, d, C.SendDone(c));
      case ForgetSlab(d, b) =>
        ForgetBlank(c, b);
        SetBlank(cl.conns, d, C.Forgetting(c, b));
      case BeginFailure(d) =>
        FailBlank(c);
        SetBlank(cl.conns, d, C.FailConn(c));
      case FailUnmapped(d) =>
        FailIdleBlank(c);
        SetBlank(cl.conns, d, c.(failed := true));
      case FailOneSlot(d, i) =>
        ReleasedBlank(c, i);
        SetBlank(cl.conns, d, C.Released(c, i));
    }
  }

  lemma MessageBlank(c: C.Conn, slots: nat)
    requires Blank(c) && ConnInv(c, slots) && c.live && c.down != []
    requires (c.down[0].Evict? && c.phase == C.Ready) || (c.down[0].Stop? && c.phase == C.AwaitStop)
    ensures c.down[0].Evict? ==> Blank(C.RecvEvict(c))
    ensures c.down[0].Stop? ==> Blank(C.RecvStop(c))
  {
    EvictionMessageHolds(c);
    if c.down[0].Evict? {
      FewerStaysBlank(c, C.RecvEvict(c));
    } else {
      FewerStaysBlank(c, C.RecvStop(c));
    }
  }

  lemma ReceiveBlank(cl: C.Client, d: nat, slots: nat, pool: nat)
    requires ClientInv(cl, slots, pool) && C.CanReceive(cl, d) && AllBlank(cl.conns)
    ensures AllBlank(C.Receive(cl, d).conns)
  {
    var c := cl.conns[d];
    assert Blank(c) && ConnInv(c, slots);
    match c.down[0]
    case FreeSize(_) =>
      FewerStaysBlank(c, c.(down := c.down[1..]));
      SetBlank(cl.conns, d, c.(down := c.down[1..]));
    case Info(slab, slot) =>
      if slot >= 0 {
        EnteredBlank(c, slab, slot);
        SetBlank(cl.conns, d, Entered(c, slab, slot));
      } else {
        FewerStaysBlank(c, c.(down := c.down[1..], wasMapped := true));
        SetBlank(cl.conns, d, c.(down := c.down[1..], wasMapped := true));
      }
    case Evict =>
      MessageBlank(c, slots);
      SetBlank(cl.conns, d, C.RecvEvict(c));
    case Stop(_, _) =>
      MessageBlank(c, slots);
      SetBlank(cl.conns, d, C.RecvStop(c));
  }

  lemma ClearBlank(cl: C.Client, slab: nat, lo: nat, hi: nat)
    requires slab < |cl.cbIndexMap| == |cl.slotMap| && AllBlank(cl.conns)
    ensures AllBlank(C.ClearBits(cl, slab, lo, hi).conns)
  {
    var d := cl.cbIndexMap[slab];
    var i := cl.slotMap[slab];
    if 0 <= d < |cl.conns| && 0 <= i < |cl.conns[d].bits| {
      var c := cl.conns[d];
      var c' := c.(bits := c.bits[i := c.bits[i] - PageRange(lo, hi)]);
      assert Blank(c) && C.Victims(c') == C.Victims(c);
      FewerStaysBlank(c, c');
      SetBlank(cl.conns, d, c');
    }
  }

  lemma WriteBlank(cl: C.Client, start: nat, data: seq<Page>, ctx: Ctx)
    requires C.OnDevice(cl, start, |data|) && AllBlank(cl.conns)
    ensures AllBlank(C.AcceptWrite(cl, start, data, ctx).conns)
  {
    if C.WritePath(cl, start, |data|).ToDisk? && C.FirstSlab(start) != C.LastSlab(start, |data|) {
      var lo := start % SLAB_PAGES;
      ClearBlank(cl, C.FirstSlab(start), lo, SLAB_PAGES);
      ClearBlank(C.ClearBits(cl, C.FirstSlab(start), lo, SLAB_PAGES), C.LastSlab(start, |data|), 0,
                 lo + |data| - SLAB_PAGES);
    } else {
      assert C.AcceptWrite(cl, start, data, ctx).conns == cl.conns;
    }
  }

  lemma ActBlank(cl: C.Client, e: C.Event, slots: nat, pool: nat)
    requires ClientInv(cl, slots, pool) && Inv(cl.dev) && C.Enabled(cl, e, pool) && AllBlank(cl.conns)
    ensures AllBlank(C.Act(cl, e, pool).conns)
  {
    if C.IsThreadAct(e) {
      ThreadActBlank(cl, e, slots, pool);
    } else {
      match e
      case Write(start, data, ctx) => WriteBlank(cl, start, data, ctx);
      case Read(page, ctx) => assert C.AcceptRead(cl, page, ctx).conns == cl.conns;
      case PopFifo => assert C.PopBio(cl).conns == cl.conns;
      case TakeMessage(d) => ReceiveBlank(cl, d, slots, pool);
    }
  }

  // ---------------------------------------------------------------- every step

  ghost predicate SystemBlank(s: System) {
    forall k :: 0 <= k < |s.clients| ==> AllBlank(s.clients[k].conns)
  }

  lemma SetConnBlank(s: System, k: nat, d: nat, c: C.Conn)
    requires SystemBlank(s) && InRange(s, k, d) && SameHolds(ConnOf(s, k, d), c) && c.bits == ConnOf(s, k, d).bits
    ensures SystemBlank(SetConn(s, k, d, c))
  {
    assert AllBlank(s.clients[k].conns);
    FewerStaysBlank(ConnOf(s, k, d), c);
    SetBlank(s.clients[k].conns, d, c);
  }

  /** The connection after a message has been taken by the daemon. */
  lemma DeliveredSame(s: System, j: nat, e: nat) returns (c: C.Conn)
    requires InRange(s, j, e) && ConnOf(s, j, e).up != [] && ServerInv(s.servers[e], s.slots, |s.clients|)
    ensures SameHolds(ConnOf(s, j, e), c) && c.bits == ConnOf(s, j, e).bits
    ensures DeliverUp(s, j, e).clients == SetConn(s, j, e, c).clients
  {
    var t := s.servers[e].tables;
    c := ConnOf(s, j, e);
    match c.up[0]
    case Query => c := AnswerQuery(c, t);
    case Bind(_) => c := AnswerBind(c, t);
    case Activity(_) => c := TakeActivity(c);
    case Done(_, _) => c := TakeDone(c);
    case _ =>
      assert s.clients[j].conns[e := c] == s.clients[j].conns;
      assert s.clients[j := s.clients[j]] == s.clients;
  }

  /** An operation that can land is on a slot in use. */
  lemma FlightServed(cl: C.Client, ctx: Ctx, slots: nat, pool: nat)
    requires ClientInv(cl, slots, pool) && C.CanComplete(cl, ctx, slots)
    ensures var c := cl.conns[ctx.server];
            var i := cl.dev.flight[ctx].slot;
            !c.failed && i < |c.chunkMap| && i < |c.bits| && (c.chunkMap[i] >= 0 || i in C.Victims(c))
  {
    assert ConnInv(cl.conns[ctx.server], slots);
    assert FlightPlace(ctx, cl.dev.flight[ctx], cl.conns, slots, pool, |cl.dev.initial|);
  }

  lemma EndWriteBlank(cl: C.Client, ctx: Ctx, op: Op, c: C.Conn)
    requires ctx in cl.dev.flight && op == cl.dev.flight[ctx] && op.WriteOp? && ctx.server < |cl.conns|
    requires c == cl.conns[ctx.server] && AllBlank(cl.conns)
    requires !c.failed && op.slot < |c.chunkMap| && op.slot < |c.bits|
    requires c.chunkMap[op.slot] >= 0 || op.slot in C.Victims(c)
    ensures AllBlank(C.EndWrite(cl, ctx).conns)
  {
    var off := op.page % SLAB_PAGES;
    RecordBlank(c, op.slot, PageRange(off, off + op.len));
    SetBlank(cl.conns, ctx.server, c.(bits := c.bits[op.slot := c.bits[op.slot] + PageRange(off, off + op.len)]));
  }

  lemma LandBlank(s: System, k: nat, ctx: Ctx)
    requires Safe(s) && Enabled(s, Land(k, ctx)) && SystemBlank(s)
    ensures SystemBlank(LandOp(s, k, ctx))
  {
    assert AllBlank(s.clients[k].conns);
    if s.clients[k].dev.flight[ctx].WriteOp? {
      FlightServed(s.clients[k], ctx, s.slots, s.pool);
      EndWriteBlank(s.clients[k], ctx, s.clients[k].dev.flight[ctx], s.clients[k].conns[ctx.server]);
    }
  }

  lemma TalkSame(c: C.Conn, chosen: set<nat>, size: nat)
    ensures SameHolds(c, SendEvict(c)) && SameHolds(c, SendStop(c, chosen, size)) && SameHolds(c, C.CutConn(c))
  {
  }

  lemma TalkBlank(s: System, e: Step)
    requires Safe(s) && Enabled(s, e) && SystemBlank(s) && (e.StartRound? || e.Choose? || e.Cut?)
    ensures SystemBlank(Next(s, e))
  {
    var c := ConnOf(s, e.k, e.d);
    if e.StartRound? {
      TalkSame(c, {}, 0);
      SetConnBlank(s, e.k, e.d, SendEvict(c));
    } else if e.Choose? {
      TalkSame(c, e.chosen, e.size);
      SetConnBlank(s, e.k, e.d, SendStop(c, e.chosen, e.size));
    } else {
      TalkSame(c, {}, 0);
      SetConnBlank(s, e.k, e.d, C.CutConn(c));
    }
  }

  lemma StepBlank(s: System, e: Step)
    requires Safe(s) && Enabled(s, e) && SystemBlank(s)
    ensures SystemBlank(Next(s, e))
  {
    if e.AtClient? {
      assert AllBlank(s.clients[e.k].conns);
      ActBlank(s.clients[e.k], e.e, s.slots, s.pool);
    } else if e.Land? {
      LandBlank(s, e.k, e.ctx);
    } else if e.Deliver? {
      var c := DeliveredSame(s, e.k, e.d);
      SetConnBlank(s, e.k, e.d, c);
    } else if e.StartRound? || e.Choose? || e.Cut? {
      TalkBlank(s, e);
    } else {
      assert Next(s, e).clients == s.clients;
    }
  }

  /** In every run, a slot that is neither mapped nor being drained records nothing. */
  lemma BlankInEveryRun(s: System, steps: seq<Step>, t: System)
    requires Init(s) && Reaches(s, steps, t, AnyStep)
    ensures SystemBlank(t)
  {
    forall k, d | 0 <= k < |s.clients| && 0 <= d < |s.clients[k].conns| ensures Blank(s.clients[k].conns[d]) {
      assert FreshClient(s.clients[k], s.slots, |s.servers|, s.pool);
      assert FreshConn(s.clients[k].conns[d], s.slots);
    }
    forall u, e | Safe(u) && SystemBlank(u) && Enabled(u, e) && AnyStep(u, e) ensures SystemBlank(Next(u, e)) {
      StepBlank(u, e);
    }
    RunKeeps(s, steps, t, AnyStep, SystemBlank);
  }
}
