/** What the drain scan takes for granted of the rest of the system, proved of its steps: while a connection is
    draining, whatever else happens is the interference `DrainScan` allows.
 */
module SwapDrain {
  import opened BackupDisk
  import C = SwapClient
  import opened SwapInvariants
  import opened SwapClientProof
  import opened Swap
  import D = DrainScan

  /** What the scan of connection d would see: its contexts are one queue. */
  function LookOf(cl: C.Client, d: nat): D.Look
    requires d < |cl.conns|
  {
    D.Look(map x | x in cl.dev.flight && x.server == d :: D.Place(0, x.index) := cl.dev.flight[x].slot,
           cl.conns[d].chunkMap)
  }

  lemma SeenInFlight(cl: C.Client, d: nat, p: D.Place)
    requires d < |cl.conns|
    ensures p in LookOf(cl, d).flight <==> p.queue == 0 && Ctx(d, p.index) in cl.dev.flight
    ensures p in LookOf(cl, d).flight ==> LookOf(cl, d).flight[p] == cl.dev.flight[Ctx(d, p.index)].slot
  {
    if p.queue == 0 && Ctx(d, p.index) in cl.dev.flight {
      var x := Ctx(d, p.index);
      assert x in cl.dev.flight && x.server == d && D.Place(0, x.index) == p;
    }
  }

  /** The connection is draining, and all its victims are unmapped. */
  ghost predicate Scanning(c: C.Conn) {
    c.live && c.phase.Draining? && c.phase.todo == {}
  }

  /** An operation on connection d, if it is new, is on a mapped slot. */
  ghost predicate StartsMapped(cl: C.Client, cl': C.Client, d: nat, x: Ctx)
    requires x in cl'.dev.flight && d < |cl'.conns|
  {
    || (x in cl.dev.flight && cl.dev.flight[x].slot == cl'.dev.flight[x].slot)
    || (var i := cl'.dev.flight[x].slot; i < |cl'.conns[d].chunkMap| && cl'.conns[d].chunkMap[i] != -1)
  }

  /** Mapped slots stay mapped, and what is new in flight is on a mapped slot. */
  ghost predicate Gentle(cl: C.Client, cl': C.Client, d: nat) {
    && d < |cl.conns| == |cl'.conns| && |cl'.conns[d].chunkMap| == |cl.conns[d].chunkMap|
    && (forall i :: 0 <= i < |cl.conns[d].chunkMap| && cl.conns[d].chunkMap[i] != -1 ==> cl'.conns[d].chunkMap[i] != -1)
    && (forall x :: x in cl'.dev.flight && x.server == d ==> StartsMapped(cl, cl', d, x))
  }

  /** Nothing starts, and the slots stay. */
  lemma Undisturbed(cl: C.Client, cl': C.Client, d: nat)
    requires d < |cl.conns| == |cl'.conns| && cl'.conns[d].chunkMap == cl.conns[d].chunkMap
    requires forall x :: x in cl'.dev.flight ==> x in cl.dev.flight && cl'.dev.flight[x] == cl.dev.flight[x]
    ensures Gentle(cl, cl', d)
  {
  }

  /** One operation starts, on a mapped slot. */
  lemma OneStarts(cl: C.Client, cl': C.Client, ctx: Ctx, op: Op, d: nat)
    requires d < |cl.conns| && cl'.conns == cl.conns && cl'.dev.flight == cl.dev.flight[ctx := op]
    requires ctx.server < |cl.conns| && op.slot < |cl.conns[ctx.server].chunkMap|
    requires cl.conns[ctx.server].chunkMap[op.slot] != -1
    ensures Gentle(cl, cl', d)
  {
  }

  lemma GentleIsMeanwhile(cl: C.Client, cl': C.Client, d: nat)
    requires Gentle(cl, cl', d)
    ensures D.Meanwhile(LookOf(cl, d), LookOf(cl', d))
  {
    var l, l' := LookOf(cl, d), LookOf(cl', d);
    forall p | p in l'.flight && !(p in l.flight && l.flight[p] == l'.flight[p]) ensures D.OnMapped(l', p) {
      SeenInFlight(cl, d, p);
      SeenInFlight(cl', d, p);
    }
  }

  // ---------------------------------------------------------------- the client's actions

  lemma ThreadActFlight(cl: C.Client, e: C.Event, pool: nat)
    requires C.Enabled(cl, e, pool) && C.IsThreadAct(e)
    ensures forall x :: x in C.ThreadAct(cl, e, pool).dev.flight ==>
              x in cl.dev.flight && C.ThreadAct(cl, e, pool).dev.flight[x] == cl.dev.flight[x]
  {
  }

  lemma ThreadActSlots(cl: C.Client, e: C.Event, pool: nat, d: nat)
    requires C.Enabled(cl, e, pool) && C.IsThreadAct(e)
    requires d < |cl.conns| && Scanning(cl.conns[d]) && !cl.conns[d].failed
    ensures |C.ThreadAct(cl, e, pool).conns| == |cl.conns|
    ensures C.ThreadAct(cl, e, pool).conns[d].chunkMap == cl.conns[d].chunkMap
  {
  }

  lemma WriteGentle(cl: C.Client, start: nat, data: seq<Page>, ctx: Ctx, slots: nat, pool: nat, d: nat)
    requires ClientInv(cl, slots, pool) && C.CanWrite(cl, start, data, ctx, pool) && d < |cl.conns|
    ensures Gentle(cl, C.AcceptWrite(cl, start, data, ctx), d)
  {
    var cl' := C.AcceptWrite(cl, start, data, ctx);
    var path := C.WritePath(cl, start, |data|);
    if path.ToRemote? {
      LookupIsMapped(cl, C.FirstSlab(start), slots, pool);
      OneStarts(cl, cl', ctx, WriteOp(path.slot, start, |data|), d);
    } else if C.FirstSlab(start) != C.LastSlab(start, |data|) {
      ClearedOnlyBits(cl, start, |data|);
      Undisturbed(cl, cl', d);
    } else {
      Undisturbed(cl, cl', d);
    }
  }

  lemma ReadGentle(cl: C.Client, page: nat, ctx: Ctx, slots: nat, pool: nat, d: nat)
    requires ClientInv(cl, slots, pool) && C.CanRead(cl, page, ctx, pool) && d < |cl.conns|
    ensures Gentle(cl, C.AcceptRead(cl, page, ctx), d)
  {
    var cl' := C.AcceptRead(cl, page, ctx);
    var path := C.ReadPath(cl, page);
    if path.ToRemote? {
      LookupIsMapped(cl, C.FirstSlab(page), slots, pool);
      OneStarts(cl, cl', ctx, ReadOp(path.slot, page), d);
    } else {
      Undisturbed(cl, cl', d);
    }
  }

  lemma ReceiveGentle(cl: C.Client, e: nat, d: nat)
    requires C.CanReceive(cl, e) && d < |cl.conns|
    ensures Gentle(cl, C.Receive(cl, e), d)
  {
  }

  lemma ActGentle(cl: C.Client, e: C.Event, slots: nat, pool: nat, d: nat)
    requires ClientInv(cl, slots, pool) && Inv(cl.dev) && C.Enabled(cl, e, pool)
    requires d < |cl.conns| && Scanning(cl.conns[d])
    ensures Gentle(cl, C.Act(cl, e, pool), d)
  {
    if C.IsThreadAct(e) {
      assert ConnInv(cl.conns[d], slots);
      ThreadActFlight(cl, e, pool);
      ThreadActSlots(cl, e, pool, d);
      Undisturbed(cl, C.ThreadAct(cl, e, pool), d);
      assert C.Act(cl, e, pool) == C.ThreadAct(cl, e, pool);
    } else {
      match e
      case Write(start, data, ctx) => WriteGentle(cl, start, data, ctx, slots, pool, d);
      case Read(page, ctx) => ReadGentle(cl, page, ctx, slots, pool, d);
      case PopFifo => Undisturbed(cl, C.PopBio(cl), d);
      case TakeMessage(d') => ReceiveGentle(cl, d', d);
    }
  }

  // ---------------------------------------------------------------- every step

  lemma LandGentle(s: System, j: nat, ctx: Ctx, k: nat, d: nat)
    requires j < |s.clients| && ctx.server < |s.servers| && C.CanComplete(s.clients[j], ctx, s.slots)
    requires ServerInv(s.servers[ctx.server], s.slots, |s.clients|) && Inv(s.clients[j].dev)
    requires k < |s.clients| && d < |s.clients[k].conns|
    ensures Gentle(s.clients[k], LandOp(s, j, ctx).clients[k], d)
  {
  }

  lemma SetConnGentle(s: System, j: nat, e: nat, c: C.Conn, k: nat, d: nat)
    requires InRange(s, j, e) && c.chunkMap == ConnOf(s, j, e).chunkMap && k < |s.clients| && d < |s.clients[k].conns|
    ensures Gentle(s.clients[k], SetConn(s, j, e, c).clients[k], d)
  {
  }

  /** What a message taken by the daemon leaves of the connection. */
  lemma DeliveredConn(s: System, j: nat, e: nat) returns (c: C.Conn)
    requires InRange(s, j, e) && ConnOf(s, j, e).up != [] && ServerInv(s.servers[e], s.slots, |s.clients|)
    ensures c.chunkMap == ConnOf(s, j, e).chunkMap && DeliverUp(s, j, e).clients == SetConn(s, j, e, c).clients
  {
    var t := s.servers[e].tables;
    c := ConnOf(s, j, e);
    match c.up[0]
    case Query => c := AnswerQuery(c, t);
    case Bind(_) => c := AnswerBind(c, t);
    case Activity(_) => c := TakeActivity(c);
    case Done(_, _) => c := TakeDone(c);
    case _ =>
      assert s.clients[j].conns[e := c] == s.clients[j].conns;
      assert s.clients[j := s.clients[j]] == s.clients;
  }

  lemma DeliverGentle(s: System, j: nat, e: nat, k: nat, d: nat)
    requires InRange(s, j, e) && ConnOf(s, j, e).up != [] && ServerInv(s.servers[e], s.slots, |s.clients|)
    requires k < |s.clients| && d < |s.clients[k].conns|
    ensures Gentle(s.clients[k], DeliverUp(s, j, e).clients[k], d)
  {
    var c := DeliveredConn(s, j, e);
    SetConnGentle(s, j, e, c, k, d);
  }

  lemma RoundStepGentle(s: System, e: Step, k: nat, d: nat)
    requires Safe(s) && Enabled(s, e) && InRange(s, k, d) && (e.StartRound? || e.Choose? || e.Cut?)
    ensures k < |Next(s, e).clients| && Gentle(s.clients[k], Next(s, e).clients[k], d)
  {
    match e
    case StartRound(j, d') => SetConnGentle(s, j, d', SendEvict(ConnOf(s, j, d')), k, d);
    case Choose(j, d', chosen, size) => SetConnGentle(s, j, d', SendStop(ConnOf(s, j, d'), chosen, size), k, d);
    case Cut(j, d') => SetConnGentle(s, j, d', C.CutConn(ConnOf(s, j, d')), k, d);
  }

  lemma ClientStepGentle(s: System, j: nat, e: C.Event, k: nat, d: nat)
    requires Safe(s) && j < |s.clients| && C.Enabled(s.clients[j], e, s.pool)
    requires InRange(s, k, d) && Scanning(ConnOf(s, k, d))
    ensures Gentle(s.clients[k], s.clients[j := C.Act(s.clients[j], e, s.pool)][k], d)
  {
    if j == k {
      ActGentle(s.clients[k], e, s.slots, s.pool, d);
    } else {
      Undisturbed(s.clients[k], s.clients[k], d);
    }
  }

  lemma MoveGentle(s: System, e: Step, k: nat, d: nat)
    requires Safe(s) && Enabled(s, e) && InRange(s, k, d) && Scanning(ConnOf(s, k, d)) && (e.AtClient? || e.Land?)
    ensures k < |Next(s, e).clients| && Gentle(s.clients[k], Next(s, e).clients[k], d)
  {
    if e.AtClient? {
      ClientStepGentle(s, e.k, e.e, k, d);
    } else {
      LandGentle(s, e.k, e.ctx, k, d);
    }
  }

  lemma TalkGentle(s: System, e: Step, k: nat, d: nat)
    requires Safe(s) && Enabled(s, e) && InRange(s, k, d) && (e.Deliver? || e.StartRound? || e.Choose? || e.Cut?)
    ensures k < |Next(s, e).clients| && Gentle(s.clients[k], Next(s, e).clients[k], d)
  {
    if e.Deliver? {
      DeliverGentle(s, e.k, e.d, k, d);
    } else {
      RoundStepGentle(s, e, k, d);
    }
  }

  lemma AllocationGentle(s: System, e: Step, k: nat, d: nat)
    requires Safe(s) && Enabled(s, e) && InRange(s, k, d) && (e.DropSlots? || e.GrowSlots? || e.Destroy?)
    ensures k < |Next(s, e).clients| && Gentle(s.clients[k], Next(s, e).clients[k], d)
  {
    assert Next(s, e).clients == s.clients;
    Undisturbed(s.clients[k], s.clients[k], d);
  }

  lemma StepGentle(s: System, e: Step, s': System, k: nat, d: nat)
    requires Safe(s) && Enabled(s, e) && s' == Next(s, e) && InRange(s, k, d) && Scanning(ConnOf(s, k, d))
    ensures k < |s'.clients| && Gentle(s.clients[k], s'.clients[k], d)
  {
    if e.AtClient? || e.Land? {
      MoveGentle(s, e, k, d);
    } else if e.Deliver? || e.StartRound? || e.Choose? || e.Cut? {
      TalkGentle(s, e, k, d);
    } else {
      AllocationGentle(s, e, k, d);
    }
  }

  /** While client k drains on connection d, every step of the system is one the scan can live with. */
  lemma StepMeanwhile(s: System, e: Step, s': System, k: nat, d: nat)
    requires Safe(s) && Enabled(s, e) && s' == Next(s, e) && InRange(s, k, d) && Scanning(ConnOf(s, k, d))
    ensures k < |s'.clients| && d < |s'.clients[k].conns|
    ensures D.Meanwhile(LookOf(s.clients[k], d), LookOf(s'.clients[k], d))
  {
    StepGentle(s, e, s', k, d);
    GentleIsMeanwhile(s.clients[k], s'.clients[k], d);
  }

  /** One state of an endless run follows from the one before. */
  ghost predicate Follows(s: System, s': System) {
    Safe(s) && exists e :: Enabled(s, e) && s' == Next(s, e)
  }

  /** In such a state, client k is draining on connection d and the scan would see this. */
  ghost predicate Sees(s: System, k: nat, d: nat, l: D.Look) {
    InRange(s, k, d) && Scanning(ConnOf(s, k, d)) && l == LookOf(s.clients[k], d)
  }

  lemma LooksMeanwhile(s: System, s': System, k: nat, d: nat, l: D.Look, l': D.Look)
    requires Follows(s, s') && Sees(s, k, d, l) && Sees(s', k, d, l')
    ensures D.Meanwhile(l, l')
  {
    var e :| Enabled(s, e) && s' == Next(s, e);
    StepMeanwhile(s, e, s', k, d);
  }

  lemma LooksInRange(s: System, k: nat, d: nat, l: D.Look, p: D.Place)
    requires Safe(s) && Sees(s, k, d, l) && p in l.flight
    ensures l.flight[p] < |l.chunkMap|
  {
    var cl := s.clients[k];
    SeenInFlight(cl, d, p);
    var x := Ctx(d, p.index);
    assert FlightPlace(x, cl.dev.flight[x], cl.conns, s.slots, s.pool, |cl.dev.initial|);
  }

  /** So along every run in which client k keeps draining on connection d, what the scan sees meets its rely
      condition. */
  lemma RunMeetsRely(run: nat -> System, look: nat -> D.Look, k: nat, d: nat)
    requires forall t: nat :: Follows(run(t), run(t + 1))
    requires forall t: nat :: Sees(run(t), k, d, look(t))
    ensures D.Rely(look)
  {
    forall t: nat ensures D.Meanwhile(look(t), look(t + 1)) {
      LooksMeanwhile(run(t), run(t + 1), k, d, look(t), look(t + 1));
    }
    forall t: nat, p | p in look(t).flight ensures look(t).flight[p] < |look(t).chunkMap| {
      assert Follows(run(t), run(t + 1));
      LooksInRange(run(t), k, d, look(t), p);
    }
  }
}
