/** What a client reports in an eviction round against what the daemon's tables say it has. */
module SwapRounds {
  import opened BackupDisk
  import C = SwapClient
  import opened SwapInvariants
  import opened SwapClientProof
  import T = DaemonTables
  import opened Swap
  import opened SwapSafety
  import EvictionRound

  // ---------------------------------------------------------------- one connection

  /** An INFO is under way behind the last EVICT, or at all when no EVICT is. */
  predicate InfoBehind(ms: seq<C.Msg>) {
    ms != [] && (ms[|ms| - 1].Info? || (!ms[|ms| - 1].Evict? && InfoBehind(ms[..|ms| - 1])))
  }

  lemma InfoBehindAppend(ms: seq<C.Msg>, m: C.Msg)
    ensures InfoBehind(ms + [m]) == (m.Info? || (!m.Evict? && InfoBehind(ms)))
  {
    assert (ms + [m])[..|ms + [m]| - 1] == ms;
  }

  lemma {:induction false} InfoBehindTake(ms: seq<C.Msg>)
    requires ms != [] && InfoBehind(ms[1..])
    ensures InfoBehind(ms)
  {
    if |ms| > 1 {
      var last := |ms| - 1;
      assert ms[1..][..last - 1] == ms[..last][1..];
      if !ms[last].Info? {
        InfoBehindTake(ms[..last]);
      }
    }
  }

  /** Without an EVICT under way, an INFO anywhere is behind it. */
  lemma {:induction false} InfoIsBehind(ms: seq<C.Msg>, i: nat)
    requires i < |ms| && ms[i].Info? && C.Evictions(ms) == []
    ensures InfoBehind(ms)
  {
    var last := |ms| - 1;
    assert ms == ms[..last] + [ms[last]];
    C.MessagesAppend(ms[..last], ms[last]);
    if i < last {
      InfoIsBehind(ms[..last], i);
    }
  }

  lemma {:induction false} InfoIsThere(ms: seq<C.Msg>)
    requires |C.Mappings(ms)| == 1 && C.Mappings(ms)[0].Info?
    ensures exists i :: 0 <= i < |ms| && ms[i].Info?
  {
    if C.IsEviction(ms[0]) {
      InfoIsThere(ms[1..]);
      var i :| 0 <= i < |ms[1..]| && ms[1..][i].Info?;
      assert ms[i + 1].Info?;
    }
  }

  /** With no eviction message and no INFO behind, no slab is on its way to the client. */
  lemma NoInfoSlot(c: C.Conn)
    requires C.Evictions(c.down) == [] && !InfoBehind(c.down)
    ensures C.InfoSlot(c) == -1
  {
    var ms := C.Mappings(c.down);
    if |ms| == 1 && ms[0].Info? {
      InfoIsThere(c.down);
      var i :| 0 <= i < |c.down| && c.down[i].Info?;
      InfoIsBehind(c.down, i);
    }
  }

  /** As long as no bind is answered after the EVICT of a round, the client's report is what it has mapped. */
  ghost predicate RoundOk(c: C.Conn) {
    c.live && !c.boundSince && (c.round.WaitActivity? || c.round.Reported?) ==>
      && !InfoBehind(c.down)
      && (c.round.WaitActivity? ==>
            forall j :: 0 <= j < |c.up| && c.up[j].Activity? ==> c.up[j].slots == C.MappedSlots(c))
      && (c.round.Reported? ==> c.round.slots == C.MappedSlots(c))
  }

  lemma SendUpRound(c: C.Conn, m: C.Msg)
    requires RoundOk(c) && !m.Activity?
    ensures RoundOk(C.SendUp(c, m))
  {
  }

  lemma ReportRound(c: C.Conn, slots: nat)
    requires RoundOk(c) && ConnInv(c, slots) && c.phase == C.Asked
    ensures RoundOk(C.SendActivity(c))
  {
    forall j | c.live && 0 <= j < |c.up| && c.up[j].Activity? ensures false {
      ActivityIsEviction(c.up, j);
    }
  }

  lemma {:induction false} ActivityIsEviction(ms: seq<C.Msg>, j: nat)
    requires j < |ms| && C.IsEviction(ms[j])
    ensures C.Evictions(ms) != []
  {
    if j > 0 {
      ActivityIsEviction(ms[1..], j - 1);
    }
  }

  /** A message is taken that brings no slab. */
  lemma TakeRound(c: C.Conn, c': C.Conn)
    requires RoundOk(c) && c.down != []
    requires c'.down == c.down[1..] && c'.up == c.up && c'.chunkMap == c.chunkMap
    requires c'.round == c.round && c'.boundSince == c.boundSince && c'.live == c.live
    ensures RoundOk(c')
  {
    if InfoBehind(c.down[1..]) {
      InfoBehindTake(c.down);
    }
    assert C.MappedSlots(c') == C.MappedSlots(c);
  }

  /** A slab is entered; no report is under way then, or a bind has been answered since the EVICT. */
  lemma EnterRound(c: C.Conn, slots: nat, slab: nat, slot: nat)
    requires RoundOk(c) && ConnInv(c, slots) && c.live && c.down != [] && c.down[0].Info?
    requires slot < |c.chunkMap| && slot < |c.bits|
    ensures RoundOk(Entered(c, slab, slot))
  {
    var c' := Entered(c, slab, slot);
    if InfoBehind(c.down[1..]) {
      InfoBehindTake(c.down);
    }
    if C.Evictions(c.down) == [] {
      InfoIsBehind(c.down, 0);
    } else {
      forall j | 0 <= j < |c.up| && c.up[j].Activity? ensures C.Evictions(c.up) != [] {
        ActivityIsEviction(c.up, j);
      }
    }
  }

  /** In a reported round without a bind since, the slots reported are all the client claims. */
  lemma ReportedIsClaimed(c: C.Conn, slots: nat, i: nat)
    requires RoundOk(c) && ConnInv(c, slots) && c.live && c.round.Reported? && !c.boundSince && i < slots
    ensures i in c.round.slots <==> C.Claimed(c, i)
  {
    NoInfoSlot(c);
    assert C.DoneSlots(c) == {} && C.Victims(c) == map[];
  }

  // ---------------------------------------------------------------- clients

  ghost predicate ConnsOk(conns: seq<C.Conn>) {
    forall d :: 0 <= d < |conns| ==> RoundOk(conns[d])
  }

  /** Nothing a round depends on has changed. */
  ghost predicate SameForRounds(c: C.Conn, c': C.Conn) {
    && (c'.live ==> c.live) && c'.round == c.round && c'.boundSince == c.boundSince
    && (c'.live ==> c'.up == c.up && c'.down == c.down && c'.chunkMap == c.chunkMap)
  }

  lemma SameRound(c: C.Conn, c': C.Conn)
    requires RoundOk(c) && SameForRounds(c, c')
    ensures RoundOk(c')
  {
    assert c'.live ==> C.MappedSlots(c') == C.MappedSlots(c);
  }

  lemma SetConnOk(conns: seq<C.Conn>, d: nat, c: C.Conn)
    requires ConnsOk(conns) && d < |conns| && RoundOk(c)
    ensures ConnsOk(conns[d := c])
  {
  }

  lemma SameConnsOk(conns: seq<C.Conn>, conns': seq<C.Conn>)
    requires ConnsOk(conns) && |conns'| == |conns|
    requires forall d :: 0 <= d < |conns| ==> SameForRounds(conns[d], conns'[d])
    ensures ConnsOk(conns')
  {
    forall d | 0 <= d < |conns| ensures RoundOk(conns'[d]) {
      SameRound(conns[d], conns'[d]);
    }
  }

  lemma ReceiveOk(cl: C.Client, d: nat, slots: nat, pool: nat)
    requires ClientInv(cl, slots, pool) && C.CanReceive(cl, d) && ConnsOk(cl.conns)
    ensures ConnsOk(C.Receive(cl, d).conns)
  {
    var c := cl.conns[d];
    var c' := C.Receive(cl, d).conns[d];
    assert RoundOk(c) && ConnInv(c, slots);
    if c.down[0].Info? && c.down[0].slot >= 0 {
      EnterRound(c, slots, c.down[0].slab, c.down[0].slot);
    } else {
      TakeRound(c, c');
    }
    SetConnOk(cl.conns, d, c');
  }

  lemma BitsConnsOk(cl: C.Client, cl': C.Client)
    requires SameButBits(cl, cl') && ConnsOk(cl.conns)
    ensures ConnsOk(cl'.conns)
  {
    SameConnsOk(cl.conns, cl'.conns);
  }

  lemma WriteOk(cl: C.Client, start: nat, data: seq<Page>, ctx: Ctx)
    requires C.OnDevice(cl, start, |data|) && ConnsOk(cl.conns)
    ensures ConnsOk(C.AcceptWrite(cl, start, data, ctx).conns)
  {
    if C.WritePath(cl, start, |data|).ToDisk? && C.FirstSlab(start) != C.LastSlab(start, |data|) {
      ClearedOnlyBits(cl, start, |data|);
      BitsConnsOk(cl, Cleared(cl, start, |data|));
      assert C.AcceptWrite(cl, start, data, ctx).conns == Cleared(cl, start, |data|).conns;
    } else {
      assert C.AcceptWrite(cl, start, data, ctx).conns == cl.conns;
    }
  }

  /** Draining and its end leave reports alone, for then the daemon waits for the DONE. */
  lemma DrainingOk(c: C.Conn, c': C.Conn, slots: nat)
    requires RoundOk(c) && ConnInv(c, slots) && c.phase.Draining?
    requires c'.live == c.live && c'.round == c.round
    ensures RoundOk(c')
  {
  }

  ghost predicate AboutRounds(e: C.Event) {
    e.Write? || e.TakeMessage? || e.ReportActivity? || e.UnmapVictim? || e.FinishEviction? || e.AskServer? || e.BindTo?
  }

  /** What the client does for itself on one connection. */
  lemma OwnActsOk(cl: C.Client, e: C.Event, pool: nat)
    requires forall d :: 0 <= d < |cl.conns| && cl.conns[d].failed ==> !cl.conns[d].live
    requires C.IsThreadAct(e) && C.Enabled(cl, e, pool) && !AboutRounds(e)
    ensures |C.ThreadAct(cl, e, pool).conns| == |cl.conns|
    ensures forall d :: 0 <= d < |cl.conns| ==> SameForRounds(cl.conns[d], C.ThreadAct(cl, e, pool).conns[d])
  {
    match e
    case ThreadMapping(d, slab) => SetSame(cl.conns, d, cl.conns[d].(again := cl.conns[d].again - {slab}));
    case ScanNext(d) => SetSame(cl.conns, d, C.ScanContext(cl.conns[d], d, cl.dev.flight));
    case ForgetSlab(d, b) => SetSame(cl.conns, d, C.Forgetting(cl.conns[d], b));
    case EndEviction(d) => SetSame(cl.conns, d, cl.conns[d].(evicting := false));
    case BeginFailure(d) => SetSame(cl.conns, d, C.FailConn(cl.conns[d]));
    case FailUnmapped(d) => SetSame(cl.conns, d, cl.conns[d].(failed := true));
    case FailOneSlot(d, i) => SetSame(cl.conns, d, C.Released(cl.conns[d], i));
    case EndFailure(d) => SetSame(cl.conns, d, cl.conns[d].(handler := C.Remapping));
    case ResumeTrigger(d) => SetSame(cl.conns, d, cl.conns[d].(handler := C.NoHandler));
    case _ =>
  }

  lemma SetSame(conns: seq<C.Conn>, d: nat, c: C.Conn)
    requires d < |conns| && SameForRounds(conns[d], c)
    ensures forall e :: 0 <= e < |conns| ==> SameForRounds(conns[e], conns[d := c][e])
  {
  }

  lemma OtherActsOk(cl: C.Client, e: C.Event, pool: nat)
    requires forall d :: 0 <= d < |cl.conns| && cl.conns[d].failed ==> !cl.conns[d].live
    requires Inv(cl.dev) && C.Enabled(cl, e, pool) && !AboutRounds(e)
    ensures |C.Act(cl, e, pool).conns| == |cl.conns|
    ensures forall d :: 0 <= d < |cl.conns| ==> SameForRounds(cl.conns[d], C.Act(cl, e, pool).conns[d])
  {
    if C.IsThreadAct(e) {
      OwnActsOk(cl, e, pool);
    } else {
      assert C.Act(cl, e, pool).conns == cl.conns;
    }
  }

  lemma ActOk(cl: C.Client, e: C.Event, slots: nat, pool: nat)
    requires ClientInv(cl, slots, pool) && Inv(cl.dev) && C.Enabled(cl, e, pool) && ConnsOk(cl.conns)
    ensures ConnsOk(C.Act(cl, e, pool).conns)
  {
    if !AboutRounds(e) {
      OtherActsOk(cl, e, pool);
      SameConnsOk(cl.conns, C.Act(cl, e, pool).conns);
    } else {
      match e
      case Write(start, data, ctx) => WriteOk(cl, start, data, ctx);
      case TakeMessage(d) => ReceiveOk(cl, d, slots, pool);
      case ReportActivity(d) =>
        ReportRound(cl.conns[d], slots);
        SetConnOk(cl.conns, d, C.SendActivity(cl.conns[d]));
      case UnmapVictim(d, i) =>
        DrainingOk(cl.conns[d], C.UnmapSlot(cl.conns[d], i), slots);
        SetConnOk(cl.conns, d, C.UnmapSlot(cl.conns[d], i));
      case FinishEviction(d) =>
        DrainingOk(cl.conns[d], C.SendDone(cl.conns[d]), slots);
        SetConnOk(cl.conns, d, C.SendDone(cl.conns[d]));
      case AskServer(d) =>
        SendUpRound(cl.conns[d], C.Query);
        SetConnOk(cl.conns, d, C.SendUp(cl.conns[d], C.Query));
      case BindTo(d) =>
        SendUpRound(cl.conns[d], C.Bind(cl.mapping.slab));
        SetConnOk(cl.conns, d, C.SendUp(cl.conns[d], C.Bind(cl.mapping.slab)));
    }
  }

  // ---------------------------------------------------------------- the system

  ghost predicate RoundsOk(s: System) {
    forall k :: 0 <= k < |s.clients| ==> ConnsOk(s.clients[k].conns)
  }

  lemma SetConnRounds(s: System, k: nat, d: nat, c: C.Conn)
    requires RoundsOk(s) && InRange(s, k, d) && RoundOk(c)
    ensures RoundsOk(SetConn(s, k, d, c))
  {
    assert ConnsOk(s.clients[k].conns);
    SetConnOk(s.clients[k].conns, d, c);
  }

  lemma AnswerQueryRound(c: C.Conn, t: T.Tables)
    requires RoundOk(c) && c.up != [] && c.up[0].Query?
    ensures RoundOk(AnswerQuery(c, t))
  {
    InfoBehindAppend(c.down, C.FreeSize(t.sizeGb - t.mappedSize));
    assert C.MappedSlots(AnswerQuery(c, t)) == C.MappedSlots(c);
  }

  lemma TakeActivityRound(c: C.Conn, slots: nat)
    requires RoundOk(c) && ConnInv(c, slots) && c.live && c.up != [] && c.up[0].Activity?
    ensures RoundOk(TakeActivity(c))
  {
    C.MessagesTake(c.up);
    assert C.MappedSlots(TakeActivity(c)) == C.MappedSlots(c);
  }

  lemma SendEvictRound(c: C.Conn, slots: nat)
    requires ConnInv(c, slots) && c.live && c.round.Quiet?
    ensures RoundOk(SendEvict(c))
  {
    InfoBehindAppend(c.down, C.Evict);
    forall j | 0 <= j < |c.up| && c.up[j].Activity? ensures false {
      ActivityIsEviction(c.up, j);
    }
  }

  lemma DeliverRounds(s: System, k: nat, d: nat)
    requires RoundsOk(s) && InRange(s, k, d) && ConnOf(s, k, d).up != [] && ConnOf(s, k, d).live
    requires ServerInv(s.servers[d], s.slots, |s.clients|) && ConnInv(ConnOf(s, k, d), s.slots)
    ensures RoundsOk(DeliverUp(s, k, d))
  {
    var c := ConnOf(s, k, d);
    var t := s.servers[d].tables;
    assert ConnsOk(s.clients[k].conns);
    assert RoundOk(c);
    match c.up[0]
    case Query =>
      AnswerQueryRound(c, t);
      SetConnRounds(s, k, d, AnswerQuery(c, t));
    case Bind(_) => SetConnRounds(SetTables(s, d, T.Bind(t, k)), k, d, AnswerBind(c, t));
    case Activity(_) =>
      TakeActivityRound(c, s.slots);
      SetConnRounds(s, k, d, TakeActivity(c));
    case Done(slots, size) => SetConnRounds(SetTables(s, d, T.Release(t, k, slots, size)), k, d, TakeDone(c));
    case _ =>
  }

  lemma LandRounds(s: System, k: nat, ctx: Ctx)
    requires k < |s.clients| && ctx.server < |s.servers| && C.CanComplete(s.clients[k], ctx, s.slots)
    requires ServerInv(s.servers[ctx.server], s.slots, |s.clients|) && Inv(s.clients[k].dev)
    requires RoundsOk(s)
    ensures RoundsOk(LandOp(s, k, ctx))
  {
    assert ConnsOk(s.clients[k].conns);
    SameConnsOk(s.clients[k].conns, LandOp(s, k, ctx).clients[k].conns);
  }

  lemma StepRounds(s: System, e: Step)
    requires Safe(s) && Enabled(s, e) && RoundsOk(s)
    ensures RoundsOk(Next(s, e))
  {
    match e
    case AtClient(k, ev) =>
      assert ConnsOk(s.clients[k].conns);
      ActOk(s.clients[k], ev, s.slots, s.pool);
    case Land(k, ctx) => LandRounds(s, k, ctx);
    case Deliver(k, d) =>
      SafeConn(s, k, d);
      DeliverRounds(s, k, d);
    case StartRound(k, d) =>
      SafeConn(s, k, d);
      SendEvictRound(ConnOf(s, k, d), s.slots);
      SetConnRounds(s, k, d, SendEvict(ConnOf(s, k, d)));
    case Choose(k, d, chosen, size) => SetConnRounds(s, k, d, SendStop(ConnOf(s, k, d), chosen, size));
    case Cut(k, d) => SetConnRounds(s, k, d, C.CutConn(ConnOf(s, k, d)));
    case _ =>
  }

  lemma InitRounds(s: System)
    requires Init(s)
    ensures RoundsOk(s)
  {
    forall k, d | 0 <= k < |s.clients| && 0 <= d < |s.clients[k].conns| ensures RoundOk(s.clients[k].conns[d]) {
      assert FreshClient(s.clients[k], s.slots, |s.servers|, s.pool);
    }
  }

  lemma RoundsInEveryRun(s: System, steps: seq<Step>, t: System)
    requires Init(s) && Reaches(s, steps, t, AnyStep)
    ensures RoundsOk(t)
  {
    InitRounds(s);
    forall u, e | Safe(u) && RoundsOk(u) && Enabled(u, e) && AnyStep(u, e) ensures RoundsOk(Next(u, e)) {
      StepRounds(u, e);
    }
    RunKeeps(s, steps, t, AnyStep, RoundsOk);
  }

  /** Client k has reported to daemon d, and no bind of it has been answered since the EVICT. */
  ghost predicate HasReported(s: System, k: nat, d: nat) {
    InRange(s, k, d) && ConnOf(s, k, d).live && ConnOf(s, k, d).round.Reported? && !ConnOf(s, k, d).boundSince
  }

  /** In every run, such a report names exactly the slabs the daemon's table gives the client. */
  lemma ReportIsWhatIsOwned(s: System, steps: seq<Step>, t: System, k: nat, d: nat)
    requires Init(s) && Reaches(s, steps, t, AnyStep) && HasReported(t, k, d)
    ensures forall i: nat :: i < t.slots ==>
            (i in ConnOf(t, k, d).round.slots <==> i in T.OwnedBy(t.servers[d].tables.owner, k))
  {
    RoundsInEveryRun(s, steps, t);
    RunSafe(s, steps, t, AnyStep);
    SafeConn(t, k, d);
    var c := ConnOf(t, k, d);
    assert ConnsOk(t.clients[k].conns);
    assert Owned(c, t.servers[d].tables.owner, k);
    forall i: nat | i < t.slots
      ensures i in c.round.slots <==> i in T.OwnedBy(t.servers[d].tables.owner, k)
    {
      ReportedIsClaimed(c, t.slots, i);
    }
  }

  /** The reports of the clients asked are as they have reported, a nonzero entry for exactly the slots. */
  ghost predicate Encoded(s: System, d: nat, send: seq<bool>, reports: seq<seq<nat>>) {
    && |reports| == |send| == |s.clients|
    && forall k :: 0 <= k < |send| && send[k] ==>
         && HasReported(s, k, d) && |reports[k]| == s.slots
         && forall m: nat :: m < s.slots ==> (reports[k][m] != 0 <==> m in ConnOf(s, k, d).round.slots)
  }

  /** So what the daemon's eviction round takes for granted of the reports holds in every run, as long as
      no bind of a client asked has been answered since its EVICT. */
  lemma ReportsHeldInEveryRun(s: System, steps: seq<Step>, t: System, d: nat, send: seq<bool>, reports: seq<seq<nat>>)
    requires Init(s) && Reaches(s, steps, t, AnyStep) && d < |t.servers| && Encoded(t, d, send, reports)
    ensures EvictionRound.ReportsHeld(t.servers[d].tables.owner, send, reports)
  {
    RunSafe(s, steps, t, AnyStep);
    assert ServerInv(t.servers[d], t.slots, |t.clients|);
    forall k: nat | k < |send| && send[k]
      ensures forall m: nat :: m < t.slots ==> (reports[k][m] != 0 <==> t.servers[d].tables.owner[m] == k)
    {
      ReportIsWhatIsOwned(s, steps, t, k, d);
      forall m: nat | m < t.slots ensures reports[k][m] != 0 <==> t.servers[d].tables.owner[m] == k {
        assert m in T.OwnedBy(t.servers[d].tables.owner, k) <==> t.servers[d].tables.owner[m] == k;
      }
    }
  }
}
