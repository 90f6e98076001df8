/** The daemons' redundant counters over whole runs with any number of clients. */
module SwapCounters {
  import opened BackupDisk
  import C = SwapClient
  import opened SwapInvariants
  import opened SwapClientProof
  import T = DaemonTables
  import opened Swap
  import opened SwapSafety

  ghost predicate AllCounts(servers: seq<Server>) {
    forall d :: 0 <= d < |servers| ==> T.CountsOk(servers[d].tables)
  }

  /** A BIND_SINGLE that reaches the daemon finds a slab to hand out. */
  ghost predicate BindFindsSlab(s: System, e: Step) {
    e.Deliver? && InRange(s, e.k, e.d) && ConnOf(s, e.k, e.d).up != [] && ConnOf(s, e.k, e.d).up[0].Bind? ==>
      T.Shaped(s.servers[e.d].tables) && T.FirstFree(s.servers[e.d].tables) < |s.servers[e.d].tables.malloc|
  }

  lemma SetTablesCounts(s: System, d: nat, t: T.Tables)
    requires AllCounts(s.servers) && d < |s.servers| && T.CountsOk(t)
    ensures AllCounts(SetTables(s, d, t).servers)
  {
  }

  /** A DONE that reaches the daemon carries the number of slabs it names. */
  ghost predicate DoneSizeRight(s: System, e: Step) {
    e.Deliver? && InRange(s, e.k, e.d) && ConnOf(s, e.k, e.d).up != [] && ConnOf(s, e.k, e.d).up[0].Done? ==>
      ConnOf(s, e.k, e.d).up[0].size == |ConnOf(s, e.k, e.d).up[0].slots|
  }

  /** New tables at one server count right exactly when all do. */
  lemma SetTablesExactly(s: System, d: nat, t: T.Tables)
    requires AllCounts(s.servers) && d < |s.servers|
    ensures AllCounts(SetTables(s, d, t).servers) <==> T.CountsOk(t)
  {
    assert SetTables(s, d, t).servers[d].tables == t;
  }

  lemma DeliverCounts(s: System, k: nat, d: nat)
    requires AllCounts(s.servers) && InRange(s, k, d) && ConnOf(s, k, d).up != []
    requires ServerInv(s.servers[d], s.slots, |s.clients|)
    requires ConnOf(s, k, d).up[0].Done? ==> ConnOf(s, k, d).up[0].slots <= T.OwnedBy(s.servers[d].tables.owner, k)
    ensures AllCounts(DeliverUp(s, k, d).servers) <==>
            BindFindsSlab(s, Deliver(k, d)) && DoneSizeRight(s, Deliver(k, d))
  {
    var t := s.servers[d].tables;
    match ConnOf(s, k, d).up[0]
    case Bind(_) =>
      T.BindCounts(t, k);
      SetTablesExactly(s, d, T.Bind(t, k));
    case Done(slots, size) =>
      T.ReleaseCounts(t, k, slots, size);
      SetTablesExactly(s, d, T.Release(t, k, slots, size));
    case _ =>
  }

  lemma DoneIsOwned(s: System, k: nat, d: nat)
    requires Safe(s) && DoneWaiting(s, k, d)
    ensures ConnOf(s, k, d).up[0].slots <= T.OwnedBy(s.servers[d].tables.owner, k)
  {
    forall i | i in ConnOf(s, k, d).up[0].slots ensures i in T.OwnedBy(s.servers[d].tables.owner, k) {
      DoneIsHandedBack(s, k, d, i);
      assert ServerInv(s.servers[d], s.slots, |s.clients|);
    }
  }

  lemma ServerChangeCounts(s: System, d: nat, v: Server)
    requires AllCounts(s.servers) && d < |s.servers| && T.CountsOk(v.tables)
    ensures AllCounts(s.servers[d := v])
  {
  }

  lemma LandCounts(s: System, k: nat, ctx: Ctx)
    requires k < |s.clients| && ctx.server < |s.servers| && C.CanComplete(s.clients[k], ctx, s.slots)
    requires ServerInv(s.servers[ctx.server], s.slots, |s.clients|) && Inv(s.clients[k].dev)
    requires AllCounts(s.servers)
    ensures AllCounts(LandOp(s, k, ctx).servers)
  {
  }

  lemma GrowCounts(s: System, d: nat, grown: set<nat>)
    requires AllCounts(s.servers) && d < |s.servers|
    requires forall i :: i in grown ==> i < |s.servers[d].tables.malloc| && !s.servers[d].tables.malloc[i]
    ensures AllCounts(s.servers[d := Grown(s.servers[d], grown)])
  {
    T.GrowCounts(s.servers[d].tables, grown);
    ServerChangeCounts(s, d, Grown(s.servers[d], grown));
  }

  lemma DropCounts(s: System, d: nat, dropped: set<nat>)
    requires AllCounts(s.servers) && d < |s.servers|
    requires forall i :: i in dropped ==> i < |s.servers[d].tables.malloc| && T.Free(s.servers[d].tables, i)
    ensures AllCounts(SetTables(s, d, T.Drop(s.servers[d].tables, dropped)).servers)
  {
    T.DropCounts(s.servers[d].tables, dropped);
    SetTablesCounts(s, d, T.Drop(s.servers[d].tables, dropped));
  }

  /** A step keeps every counter of every daemon equal to its count exactly when it is neither a bind that
      finds no slab nor a DONE whose size is not the number of slabs it names. */
  lemma StepCounts(s: System, e: Step)
    requires Safe(s) && AllCounts(s.servers) && Enabled(s, e)
    ensures AllCounts(Next(s, e).servers) <==> BindFindsSlab(s, e) && DoneSizeRight(s, e)
  {
    if LeavesServers(e) {
      ServersUntouched(s, e);
    } else {
      match e
      case Deliver(k, d) =>
        if ConnOf(s, k, d).up[0].Done? {
          DoneIsOwned(s, k, d);
        }
        DeliverCounts(s, k, d);
      case DropSlots(d, dropped) => DropCounts(s, d, dropped);
      case GrowSlots(d, grown) => GrowCounts(s, d, grown);
      case Destroy(k, d) =>
        T.DestroyCounts(s.servers[d].tables, k);
        SetTablesCounts(s, d, T.Destroy(s.servers[d].tables, k));
      case Land(k, ctx) => LandCounts(s, k, ctx);
    }
  }

  // ---------------------------------------------------------------- over runs

  /** Every STOP carries the number of slabs it names, as in rounds whose victims are on one connection, and
      every bind finds a slab. */
  ghost predicate CountingStep(s: System, e: Step) {
    BindFindsSlab(s, e) && (e.Choose? ==> e.size == |e.chosen|)
  }

  /** What the daemon waits for on a connection is of the size it sent. */
  ghost predicate SizeRight(c: C.Conn) {
    c.round.WaitDone? ==> c.round.size == |c.round.slots|
  }

  ghost predicate AllSizesRight(cls: seq<C.Client>) {
    forall k, d :: 0 <= k < |cls| && 0 <= d < |cls[k].conns| ==> SizeRight(cls[k].conns[d])
  }

  /** The client has no hand in the daemon's rounds. */
  ghost predicate SameRounds(conns: seq<C.Conn>, conns': seq<C.Conn>) {
    |conns'| == |conns| && forall d :: 0 <= d < |conns| ==> conns'[d].round == conns[d].round
  }

  lemma WriteKeepsRounds(cl: C.Client, start: nat, data: seq<Page>, ctx: Ctx)
    requires C.OnDevice(cl, start, |data|)
    ensures SameRounds(cl.conns, C.AcceptWrite(cl, start, data, ctx).conns)
  {
    if C.WritePath(cl, start, |data|).ToDisk? && C.FirstSlab(start) != C.LastSlab(start, |data|) {
      ClearedOnlyBits(cl, start, |data|);
    }
  }

  lemma ReceiveKeepsRounds(cl: C.Client, d: nat)
    requires C.CanReceive(cl, d)
    ensures SameRounds(cl.conns, C.Receive(cl, d).conns)
  {
  }

  lemma OthersKeepRounds(cl: C.Client, e: C.Event, pool: nat)
    requires Inv(cl.dev) && C.Enabled(cl, e, pool) && !e.Write? && !e.TakeMessage?
    ensures SameRounds(cl.conns, C.Act(cl, e, pool).conns)
  {
    if KeepsSlots(e) {
      ThreadActConns(cl, e, pool);
    } else {
      match e
      case Read(page, ctx) =>
      case PopFifo =>
      case UnmapVictim(d, i) => SetSameRound(cl.conns, d, C.UnmapSlot(cl.conns[d], i));
      case FinishEviction(d) => SetSameRound(cl.conns, d, C.SendDone(cl.conns[d]));
      case BeginFailure(d) => SetSameRound(cl.conns, d, C.FailConn(cl.conns[d]));
      case FailOneSlot(d, i) => SetSameRound(cl.conns, d, C.Released(cl.conns[d], i));
    }
  }

  lemma SetSameRound(conns: seq<C.Conn>, d: nat, c: C.Conn)
    requires d < |conns| && c.round == conns[d].round
    ensures SameRounds(conns, conns[d := c])
  {
  }

  lemma ActKeepsRounds(cl: C.Client, e: C.Event, pool: nat)
    requires Inv(cl.dev) && C.Enabled(cl, e, pool)
    ensures SameRounds(cl.conns, C.Act(cl, e, pool).conns)
  {
    if e.Write? {
      WriteKeepsRounds(cl, e.start, e.data, e.ctx);
    } else if e.TakeMessage? {
      ReceiveKeepsRounds(cl, e.d);
    } else {
      OthersKeepRounds(cl, e, pool);
    }
  }

  lemma ClientSizes(s: System, k: nat, cl: C.Client)
    requires AllSizesRight(s.clients) && k < |s.clients| && SameRounds(s.clients[k].conns, cl.conns)
    ensures AllSizesRight(s.clients[k := cl])
  {
    forall d | 0 <= d < |cl.conns| ensures SizeRight(cl.conns[d]) {
      assert SizeRight(s.clients[k].conns[d]);
    }
  }

  lemma SetConnSizes(s: System, k: nat, d: nat, c: C.Conn)
    requires AllSizesRight(s.clients) && InRange(s, k, d) && SizeRight(c)
    ensures AllSizesRight(SetConn(s, k, d, c).clients)
  {
  }

  lemma DeliverSizes(s: System, k: nat, d: nat)
    requires AllSizesRight(s.clients) && InRange(s, k, d) && ConnOf(s, k, d).up != []
    requires ServerInv(s.servers[d], s.slots, |s.clients|)
    ensures AllSizesRight(DeliverUp(s, k, d).clients)
  {
    var c := ConnOf(s, k, d);
    var t := s.servers[d].tables;
    assert SizeRight(c);
    match c.up[0]
    case Query => SetConnSizes(s, k, d, AnswerQuery(c, t));
    case Bind(_) => SetConnSizes(SetTables(s, d, T.Bind(t, k)), k, d, AnswerBind(c, t));
    case Activity(_) => SetConnSizes(s, k, d, TakeActivity(c));
    case Done(slots, size) => SetConnSizes(SetTables(s, d, T.Release(t, k, slots, size)), k, d, TakeDone(c));
    case _ =>
  }

  lemma LandSizes(s: System, k: nat, ctx: Ctx)
    requires k < |s.clients| && ctx.server < |s.servers| && C.CanComplete(s.clients[k], ctx, s.slots)
    requires ServerInv(s.servers[ctx.server], s.slots, |s.clients|) && Inv(s.clients[k].dev)
    requires AllSizesRight(s.clients)
    ensures AllSizesRight(LandOp(s, k, ctx).clients)
  {
  }

  lemma StepSizes(s: System, e: Step)
    requires Safe(s) && Enabled(s, e) && CountingStep(s, e) && AllSizesRight(s.clients)
    ensures AllSizesRight(Next(s, e).clients)
  {
    match e
    case AtClient(k, ev) =>
      ActKeepsRounds(s.clients[k], ev, s.pool);
      ClientSizes(s, k, C.Act(s.clients[k], ev, s.pool));
    case Land(k, ctx) => LandSizes(s, k, ctx);
    case Deliver(k, d) => DeliverSizes(s, k, d);
    case StartRound(k, d) => SetConnSizes(s, k, d, SendEvict(ConnOf(s, k, d)));
    case Choose(k, d, chosen, size) => SetConnSizes(s, k, d, SendStop(ConnOf(s, k, d), chosen, size));
    case Cut(k, d) =>
      assert SizeRight(ConnOf(s, k, d));
      SetConnSizes(s, k, d, C.CutConn(ConnOf(s, k, d)));
    case _ =>
  }

  /** A DONE repeats the size of the STOP it answers. */
  lemma DoneRepeatsSize(s: System, k: nat, d: nat)
    requires Safe(s) && DoneWaiting(s, k, d) && SizeRight(ConnOf(s, k, d))
    ensures ConnOf(s, k, d).up[0].size == |ConnOf(s, k, d).up[0].slots|
  {
    SafeConn(s, k, d);
    C.MessagesTake(ConnOf(s, k, d).up);
  }

  ghost predicate AllRight(s: System) {
    AllCounts(s.servers) && AllSizesRight(s.clients)
  }

  lemma StepAllRight(s: System, e: Step)
    requires Safe(s) && AllRight(s) && Enabled(s, e) && CountingStep(s, e)
    ensures AllRight(Next(s, e))
  {
    if e.Deliver? && ConnOf(s, e.k, e.d).up[0].Done? {
      assert SizeRight(ConnOf(s, e.k, e.d));
      DoneRepeatsSize(s, e.k, e.d);
    }
    StepCounts(s, e);
    StepSizes(s, e);
  }

  /** In every state of every run in which binds find a slab and STOPs carry their own size, all counters are
      right, and what a daemon advertises is exactly the number of slabs it could hand out. */
  lemma CountsInEveryRun(s: System, steps: seq<Step>, t: System)
    requires Init(s) && AllCounts(s.servers) && Reaches(s, steps, t, CountingStep)
    ensures AllCounts(t.servers)
    ensures forall d :: 0 <= d < |t.servers| ==>
              t.servers[d].tables.sizeGb - t.servers[d].tables.mappedSize == |T.FreeSlots(t.servers[d].tables)|
  {
    InitSizes(s);
    forall u, e | Safe(u) && AllRight(u) && Enabled(u, e) && CountingStep(u, e) ensures AllRight(Next(u, e)) {
      StepAllRight(u, e);
    }
    RunKeeps(s, steps, t, CountingStep, AllRight);
    forall d | 0 <= d < |t.servers|
      ensures t.servers[d].tables.sizeGb - t.servers[d].tables.mappedSize == |T.FreeSlots(t.servers[d].tables)|
    {
      T.AdvertisedIsFree(t.servers[d].tables);
    }
  }

  lemma InitSizes(s: System)
    requires Init(s)
    ensures AllSizesRight(s.clients)
  {
    forall k, d | 0 <= k < |s.clients| && 0 <= d < |s.clients[k].conns| ensures SizeRight(s.clients[k].conns[d]) {
      assert FreshClient(s.clients[k], s.slots, |s.servers|, s.pool);
    }
  }

  /** And that number is what a QUERY is answered with. */
  lemma QueryIsAnswered(s: System, k: nat, d: nat)
    requires InRange(s, k, d) && ConnOf(s, k, d).up != [] && ConnOf(s, k, d).up[0].Query?
    requires ServerInv(s.servers[d], s.slots, |s.clients|) && AllCounts(s.servers)
    ensures DeliverUp(s, k, d).clients[k].conns[d].down
            == ConnOf(s, k, d).down + [C.FreeSize(|T.FreeSlots(s.servers[d].tables)|)]
  {
    T.AdvertisedIsFree(s.servers[d].tables);
  }

  // ---------------------------------------------------------------- a DONE names what was chosen

  /** What the daemon last chose on connection d of client k. */
  function LastChosen(steps: seq<Step>, k: nat, d: nat): (set<nat>, nat) {
    if steps == [] then ({}, 0)
    else
      var e := steps[|steps| - 1];
      if e.Choose? && e.k == k && e.d == d then (e.chosen, e.size) else LastChosen(steps[..|steps| - 1], k, d)
  }

  ghost predicate WaitsForChosen(s: System, k: nat, d: nat, chosen: (set<nat>, nat)) {
    && InRange(s, k, d)
    && (ConnOf(s, k, d).round.WaitDone? ==> ConnOf(s, k, d).round == C.WaitDone(chosen.0, chosen.1))
  }

  lemma SetConnWaits(s: System, j: nat, e: nat, c: C.Conn, k: nat, d: nat, chosen: (set<nat>, nat))
    requires WaitsForChosen(s, k, d, chosen) && InRange(s, j, e)
    requires j == k && e == d ==> c.round == ConnOf(s, k, d).round || !c.round.WaitDone?
    ensures WaitsForChosen(SetConn(s, j, e, c), k, d, chosen)
  {
  }

  lemma DeliverWaits(s: System, j: nat, e: nat, k: nat, d: nat, chosen: (set<nat>, nat))
    requires WaitsForChosen(s, k, d, chosen) && InRange(s, j, e) && ConnOf(s, j, e).up != []
    requires ServerInv(s.servers[e], s.slots, |s.clients|)
    ensures WaitsForChosen(DeliverUp(s, j, e), k, d, chosen)
  {
    var c := ConnOf(s, j, e);
    var t := s.servers[e].tables;
    match c.up[0]
    case Query => SetConnWaits(s, j, e, AnswerQuery(c, t), k, d, chosen);
    case Bind(_) => SetConnWaits(SetTables(s, e, T.Bind(t, j)), j, e, AnswerBind(c, t), k, d, chosen);
    case Activity(_) => SetConnWaits(s, j, e, TakeActivity(c), k, d, chosen);
    case Done(slots, size) =>
      SetConnWaits(SetTables(s, e, T.Release(t, j, slots, size)), j, e, TakeDone(c), k, d, chosen);
    case _ =>
  }

  lemma ClientMoveWaits(s: System, j: nat, cl: C.Client, s': System, k: nat, d: nat, chosen: (set<nat>, nat))
    requires WaitsForChosen(s, k, d, chosen) && j < |s.clients| && SameRounds(s.clients[j].conns, cl.conns)
    requires s'.clients == s.clients[j := cl] && |s'.servers| == |s.servers|
    ensures WaitsForChosen(s', k, d, chosen)
  {
  }

  lemma LandRounds(s: System, k: nat, ctx: Ctx)
    requires k < |s.clients| && ctx.server < |s.servers| && C.CanComplete(s.clients[k], ctx, s.slots)
    requires ServerInv(s.servers[ctx.server], s.slots, |s.clients|) && Inv(s.clients[k].dev)
    ensures LandOp(s, k, ctx).clients == s.clients[k := LandOp(s, k, ctx).clients[k]]
    ensures |LandOp(s, k, ctx).servers| == |s.servers|
    ensures SameRounds(s.clients[k].conns, LandOp(s, k, ctx).clients[k].conns)
  {
  }

  lemma MoveWaits(s: System, e: Step, k: nat, d: nat, chosen: (set<nat>, nat))
    requires Safe(s) && Enabled(s, e) && WaitsForChosen(s, k, d, chosen) && (e.AtClient? || e.Land?)
    ensures WaitsForChosen(Next(s, e), k, d, chosen)
  {
    if e.AtClient? {
      ActKeepsRounds(s.clients[e.k], e.e, s.pool);
      ClientMoveWaits(s, e.k, C.Act(s.clients[e.k], e.e, s.pool), Next(s, e), k, d, chosen);
    } else {
      LandRounds(s, e.k, e.ctx);
      ClientMoveWaits(s, e.k, LandOp(s, e.k, e.ctx).clients[e.k], LandOp(s, e.k, e.ctx), k, d, chosen);
    }
  }

  lemma TalkWaits(s: System, e: Step, k: nat, d: nat, chosen: (set<nat>, nat))
    requires Safe(s) && Enabled(s, e) && WaitsForChosen(s, k, d, chosen) && (e.StartRound? || e.Cut?)
    ensures WaitsForChosen(Next(s, e), k, d, chosen)
  {
    if e.StartRound? {
      SetConnWaits(s, e.k, e.d, SendEvict(ConnOf(s, e.k, e.d)), k, d, chosen);
    } else {
      SetConnWaits(s, e.k, e.d, C.CutConn(ConnOf(s, e.k, e.d)), k, d, chosen);
    }
  }

  lemma ChooseWaits(s: System, e: Step, k: nat, d: nat, chosen: (set<nat>, nat))
    requires Safe(s) && Enabled(s, e) && WaitsForChosen(s, k, d, chosen) && e.Choose?
    ensures WaitsForChosen(Next(s, e), k, d, if e.k == k && e.d == d then (e.chosen, e.size) else chosen)
  {
  }

  lemma StepWaits(s: System, e: Step, k: nat, d: nat, chosen: (set<nat>, nat))
    requires Safe(s) && Enabled(s, e) && WaitsForChosen(s, k, d, chosen)
    ensures WaitsForChosen(Next(s, e), k, d, if e.Choose? && e.k == k && e.d == d then (e.chosen, e.size) else chosen)
  {
    if e.AtClient? || e.Land? {
      MoveWaits(s, e, k, d, chosen);
    } else if e.Deliver? {
      DeliverWaits(s, e.k, e.d, k, d, chosen);
    } else if e.Choose? {
      ChooseWaits(s, e, k, d, chosen);
    } else if e.StartRound? || e.Cut? {
      TalkWaits(s, e, k, d, chosen);
    } else {
      AllocationWaits(s, e, k, d, chosen);
    }
  }

  lemma AllocationWaits(s: System, e: Step, k: nat, d: nat, chosen: (set<nat>, nat))
    requires Safe(s) && Enabled(s, e) && WaitsForChosen(s, k, d, chosen) && (e.DropSlots? || e.GrowSlots? || e.Destroy?)
    ensures WaitsForChosen(Next(s, e), k, d, chosen)
  {
  }

  lemma LastChosenAppend(steps: seq<Step>, e: Step, k: nat, d: nat)
    ensures LastChosen(steps + [e], k, d)
         == if e.Choose? && e.k == k && e.d == d then (e.chosen, e.size) else LastChosen(steps, k, d)
  {
    assert (steps + [e])[..|steps + [e]| - 1] == steps;
  }

  lemma {:induction false} WaitsInEveryRun(s: System, steps: seq<Step>, t: System, ok: Rule, k: nat, d: nat)
    requires Init(s) && Reaches(s, steps, t, ok) && InRange(s, k, d)
    ensures WaitsForChosen(t, k, d, LastChosen(steps, k, d))
    decreases |steps|
  {
    if steps == [] {
      assert FreshClient(s.clients[k], s.slots, |s.servers|, s.pool);
      assert FreshConn(s.clients[k].conns[d], s.slots);
    } else {
      var u, pre, e := LastStep(s, steps, t, ok);
      WaitsInEveryRun(s, pre, u, ok, k, d);
      StepWaits(u, e, k, d, LastChosen(pre, k, d));
      LastChosenAppend(pre, e, k, d);
    }
  }

  /** In every run, a DONE that waits at the daemon names exactly the slots the daemon last chose on the
      connection, with the size it then gave. */
  lemma DoneNamesChosen(s: System, steps: seq<Step>, t: System, ok: Rule, k: nat, d: nat)
    requires Init(s) && Reaches(s, steps, t, ok) && InRange(s, k, d) && DoneWaiting(t, k, d)
    ensures (ConnOf(t, k, d).up[0].slots, ConnOf(t, k, d).up[0].size) == LastChosen(steps, k, d)
  {
    WaitsInEveryRun(s, steps, t, ok, k, d);
    RunSafe(s, steps, t, ok);
    SafeConn(t, k, d);
    C.MessagesTake(ConnOf(t, k, d).up);
  }
}
