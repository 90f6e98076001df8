/** An eviction thread and a disconnect handler map again every slab they take away before they switch the
    trigger on, in every run in which they work one after the other.
 */
module SwapOwed {
  import opened BackupDisk
  import C = SwapClient
  import opened SwapInvariants
  import opened SwapClientProof
  import opened SwapSolo
  import opened Swap
  import opened SwapSafety
  import opened SwapTidyRuns

  /** The last piece of work on a connection: the slabs it takes away, and those it has begun to map again. */
  datatype Work = Work(taken: set<nat>, begun: set<nat>)

  /** The slabs at these slots. */
  function SlabsAt(c: C.Conn, slots: set<nat>): set<nat> {
    set i | i in slots && i < |c.chunkMap| && c.chunkMap[i] >= 0 :: c.chunkMap[i] as nat
  }

  /** All slabs of the connection. */
  function AllSlabs(c: C.Conn): set<nat> {
    set i | 0 <= i < |c.chunkMap| && c.chunkMap[i] >= 0 :: c.chunkMap[i] as nat
  }

  /** The work on connection d of client k after a step. */
  ghost function WorkAfter(s: System, e: Step, k: nat, d: nat, w: Work): Work
    requires InRange(s, k, d)
  {
    var c := ConnOf(s, k, d);
    if e == AtClient(k, C.TakeMessage(d)) && c.down != [] && c.down[0].Stop? && c.down[0].size != 0 then
      Work(SlabsAt(c, c.down[0].slots), {})
    else if e == AtClient(k, C.BeginFailure(d)) then Work(AllSlabs(c), {})
    else if e.AtClient? && e.k == k && e.e.ThreadMapping? && e.e.d == d then w.(begun := w.begun + {e.e.slab})
    else w
  }

  ghost predicate RunWork(s: System, steps: seq<Step>, t: System, k: nat, d: nat, w: Work)
    decreases |steps|
  {
    if steps == [] then t == s && w == Work({}, {})
    else
      var last := |steps| - 1;
      exists u, w' ::
        && RunWork(s, steps[..last], u, k, d, w')
        && Safe(u) && Enabled(u, steps[last]) && SoloStep(u, steps[last]) && t == Next(u, steps[last])
        && InRange(u, k, d) && w == WorkAfter(u, steps[last], k, d, w')
  }

  /** The thread or the handler will still map the slab. */
  ghost predicate Owed(c: C.Conn, b: nat) {
    || b in c.again
    || (c.handler == C.NoHandler
        && (|| b in c.remap
            || (exists i :: i in C.Victims(c) && C.Victims(c)[i] == b)
            || (c.phase.Draining? && exists i: nat :: i in c.phase.todo && i < |c.chunkMap| && c.chunkMap[i] == b)))
  }

  /** All that was taken is begun or owed. */
  ghost predicate Owes(c: C.Conn, w: Work) {
    Working(c) ==> forall b :: b in w.taken ==> b in w.begun || Owed(c, b)
  }

  // ---------------------------------------------------------------- one connection

  ghost predicate SameOwed(c: C.Conn, c': C.Conn) {
    && c'.again == c.again && c'.remap == c.remap && c'.chunkMap == c.chunkMap && c'.phase == c.phase
    && c'.handler == c.handler && c'.evicting == c.evicting
  }

  lemma OwesFrame(c: C.Conn, c': C.Conn, w: Work)
    requires Owes(c, w) && SameOwed(c, c')
    ensures Owes(c', w)
  {
    forall b | Owed(c, b) ensures Owed(c', b) {
    }
  }

  lemma ScanOwes(c: C.Conn, d: nat, flight: map<Ctx, Op>, w: Work)
    requires Owes(c, w) && c.phase.Draining?
    ensures Owes(C.ScanContext(c, d, flight), w)
  {
    var c' := C.ScanContext(c, d, flight);
    assert C.Victims(c') == C.Victims(c);
    forall b | Owed(c, b) ensures Owed(c', b) {
    }
  }

  lemma UnmapOwes(c: C.Conn, i: nat, w: Work)
    requires Owes(c, w) && c.phase.Draining? && i < |c.chunkMap| && c.chunkMap[i] >= 0
    requires i !in C.Victims(c)
    ensures Owes(C.UnmapSlot(c, i), w)
  {
    var c' := C.UnmapSlot(c, i);
    forall b: nat | Owed(c, b) ensures Owed(c', b) {
      if j :| j in C.Victims(c) && C.Victims(c)[j] == b {
        assert j in C.Victims(c') && C.Victims(c')[j] == b;
      } else if j: nat :| j in c.phase.todo && j < |c.chunkMap| && c.chunkMap[j] == b {
        if j == i {
          assert i in C.Victims(c') && C.Victims(c')[i] == b;
        } else {
          assert j in c'.phase.todo && c'.chunkMap[j] == b;
        }
      }
    }
  }

  lemma DoneOwes(c: C.Conn, w: Work)
    requires Owes(c, w) && c.phase.Draining? && c.phase.todo == {}
    ensures Owes(C.SendDone(c), w)
  {
    var c' := C.SendDone(c);
    forall b: nat | Owed(c, b) ensures Owed(c', b) {
      if j :| j in C.Victims(c) && C.Victims(c)[j] == b {
        assert b in c.phase.victims.Values;
      }
    }
  }

  lemma ForgetOwes(c: C.Conn, b: nat, w: Work)
    requires Owes(c, w)
    ensures Owes(C.Forgetting(c, b), w)
  {
    var c' := C.Forgetting(c, b);
    assert C.Victims(c') == C.Victims(c);
    forall x: nat | Owed(c, x) ensures Owed(c', x) {
    }
  }

  lemma BegunOwes(c: C.Conn, slab: nat, w: Work)
    requires Owes(c, w)
    ensures Owes(c.(again := c.again - {slab}), w.(begun := w.begun + {slab}))
  {
    var c' := c.(again := c.again - {slab});
    assert C.Victims(c') == C.Victims(c);
    forall x: nat | Owed(c, x) && x != slab ensures Owed(c', x) {
    }
  }

  /** With the handler at work only the list counts. */
  lemma HandlerOwes(c: C.Conn, c': C.Conn, w: Work)
    requires Owes(c, w) && c.handler != C.NoHandler && c'.handler != C.NoHandler && c'.again == c.again
    ensures Owes(c', w)
  {
    forall b | Owed(c, b) ensures Owed(c', b) {
    }
  }

  lemma EnteredOwes(c: C.Conn, slab: nat, slot: nat, w: Work)
    requires Owes(c, w) && c.down != [] && slot < |c.chunkMap| && slot < |c.bits|
    requires c.phase.Draining? ==> slot !in c.phase.todo
    ensures Owes(Entered(c, slab, slot), w)
  {
    var c' := Entered(c, slab, slot);
    assert C.Victims(c') == C.Victims(c);
    forall b: nat | Owed(c, b) ensures Owed(c', b) {
      if c.phase.Draining? {
        if j: nat :| j in c.phase.todo && j < |c.chunkMap| && c.chunkMap[j] == b {
          assert c'.chunkMap[j] == b;
        }
      }
    }
  }

  /** What a STOP names is still to be unmapped. */
  lemma StopOwes(c: C.Conn)
    requires c.down != [] && c.down[0].Stop? && c.down[0].size != 0 && c.handler == C.NoHandler
    ensures Owes(C.RecvStop(c), Work(SlabsAt(c, c.down[0].slots), {}))
  {
    var c' := C.RecvStop(c);
    forall b | b in SlabsAt(c, c.down[0].slots) ensures Owed(c', b) {
      var i: nat :| i in c.down[0].slots && i < |c.chunkMap| && c.chunkMap[i] >= 0 && c.chunkMap[i] as nat == b;
      assert i in c'.phase.todo && c'.chunkMap[i] == b;
    }
  }

  lemma FailOwes(c: C.Conn)
    ensures Owes(C.FailConn(c), Work(AllSlabs(c), {}))
  {
    forall b | b in AllSlabs(c) ensures Owed(C.FailConn(c), b) {
      var i :| 0 <= i < |c.chunkMap| && c.chunkMap[i] >= 0 && c.chunkMap[i] as nat == b;
      assert b in C.MappedSlabs(c);
    }
  }

  // ---------------------------------------------------------------- the client's actions

  /** The connection the action is about. */
  function Target(e: C.Event): int {
    match e
    case ThreadMapping(d, _) => d
    case AskServer(d) => d
    case BindTo(d) => d
    case ReportActivity(d) => d
    case UnmapVictim(d, _) => d
    case ScanNext(d) => d
    case FinishEviction(d) => d
    case ForgetSlab(d, _) => d
    case EndEviction(d) => d
    case BeginFailure(d) => d
    case FailUnmapped(d) => d
    case FailOneSlot(d, _) => d
    case EndFailure(d) => d
    case ResumeTrigger(d) => d
    case _ => -1
  }

  /** It leaves the others alone. */
  lemma ThreadActElsewhere(cl: C.Client, e: C.Event, pool: nat, d: nat)
    requires C.Enabled(cl, e, pool) && C.IsThreadAct(e) && d < |cl.conns| && Target(e) != d
    ensures d < |C.ThreadAct(cl, e, pool).conns| && C.ThreadAct(cl, e, pool).conns[d] == cl.conns[d]
  {
  }

  /** The work after an action of the client. */
  function WorkOf(c: C.Conn, e: C.Event, w: Work): Work {
    if e.BeginFailure? then Work(AllSlabs(c), {})
    else if e.ThreadMapping? then w.(begun := w.begun + {e.slab})
    else w
  }

  lemma EvictionActOwes(cl: C.Client, e: C.Event, slots: nat, pool: nat, d: nat, w: Work)
    requires ClientInv(cl, slots, pool) && C.Enabled(cl, e, pool) && C.IsThreadAct(e) && Target(e) == d
    requires e.UnmapVictim? || e.FinishEviction? || e.ForgetSlab? || e.ScanNext? || e.ThreadMapping?
    requires d < |cl.conns| && Owes(cl.conns[d], w)
    ensures Owes(C.ThreadAct(cl, e, pool).conns[d], WorkOf(cl.conns[d], e, w))
  {
    var c := cl.conns[d];
    assert ConnInv(c, slots);
    match e
    case UnmapVictim(_, i) => UnmapOwes(c, i, w);
    case FinishEviction(_) => DoneOwes(c, w);
    case ForgetSlab(_, b) => ForgetOwes(c, b, w);
    case ScanNext(_) => ScanOwes(c, d, cl.dev.flight, w);
    case ThreadMapping(_, slab) => BegunOwes(c, slab, w);
  }

  lemma FailureActOwes(cl: C.Client, e: C.Event, slots: nat, pool: nat, d: nat, w: Work)
    requires ClientInv(cl, slots, pool) && C.Enabled(cl, e, pool) && C.IsThreadAct(e) && Target(e) == d
    requires e.BeginFailure? || e.FailUnmapped? || e.FailOneSlot? || e.EndFailure? || e.ResumeTrigger? || e.EndEviction?
    requires d < |cl.conns| && Owes(cl.conns[d], w) && Solo(cl)
    ensures Owes(C.ThreadAct(cl, e, pool).conns[d], WorkOf(cl.conns[d], e, w))
  {
    var c := cl.conns[d];
    assert WorkOk(c, cl.slotMap, cl.mapping) && ConnInv(c, slots);
    match e
    case BeginFailure(_) => FailOwes(c);
    case FailUnmapped(_) => OwesFrame(c, c.(failed := true), w);
    case FailOneSlot(_, i) => HandlerOwes(c, C.Released(c, i), w);
    case EndFailure(_) => HandlerOwes(c, c.(handler := C.Remapping), w);
    case ResumeTrigger(_) =>
    case EndEviction(_) =>
  }

  lemma MessageActOwes(cl: C.Client, e: C.Event, pool: nat, d: nat, w: Work)
    requires C.Enabled(cl, e, pool) && C.IsThreadAct(e) && Target(e) == d
    requires e.AskServer? || e.BindTo? || e.ReportActivity?
    requires d < |cl.conns| && Owes(cl.conns[d], w) && Solo(cl)
    ensures Owes(C.ThreadAct(cl, e, pool).conns[d], WorkOf(cl.conns[d], e, w))
  {
    var c := cl.conns[d];
    assert WorkOk(c, cl.slotMap, cl.mapping);
    match e
    case AskServer(_) => OwesFrame(c, C.SendUp(c, C.Query), w);
    case BindTo(_) => OwesFrame(c, C.SendUp(c, C.Bind(cl.mapping.slab)), w);
    case ReportActivity(_) =>
      var c' := C.SendActivity(c);
      assert C.Victims(c') == C.Victims(c);
      forall b | Owed(c, b) ensures Owed(c', b) {
      }
  }

  lemma ThreadActOwes(cl: C.Client, e: C.Event, slots: nat, pool: nat, d: nat, w: Work)
    requires ClientInv(cl, slots, pool) && Solo(cl) && C.Enabled(cl, e, pool) && C.IsThreadAct(e)
    requires d < |cl.conns| && Owes(cl.conns[d], w)
    ensures d < |C.ThreadAct(cl, e, pool).conns|
    ensures Owes(C.ThreadAct(cl, e, pool).conns[d], if Target(e) == d then WorkOf(cl.conns[d], e, w) else w)
  {
    if Target(e) != d {
      ThreadActElsewhere(cl, e, pool, d);
    } else if e.UnmapVictim? || e.FinishEviction? || e.ForgetSlab? || e.ScanNext? || e.ThreadMapping? {
      EvictionActOwes(cl, e, slots, pool, d, w);
    } else if e.AskServer? || e.BindTo? || e.ReportActivity? {
      MessageActOwes(cl, e, pool, d, w);
    } else {
      FailureActOwes(cl, e, slots, pool, d, w);
    }
  }

  // ---------------------------------------------------------------- messages and requests

  lemma ReceiveElsewhere(cl: C.Client, d': nat, d: nat)
    requires C.CanReceive(cl, d') && d < |cl.conns| && d' != d
    ensures d < |C.Receive(cl, d').conns| && C.Receive(cl, d').conns[d] == cl.conns[d]
  {
  }

  lemma EvictOwes(c: C.Conn, w: Work)
    requires Owes(c, w) && c.down != [] && c.phase == C.Ready
    ensures Owes(C.RecvEvict(c), w)
  {
    var c' := C.RecvEvict(c);
    forall b | Owed(c, b) ensures Owed(c', b) {
    }
  }

  lemma EmptyStopOwes(c: C.Conn, w: Work)
    requires Owes(c, w) && c.down != [] && c.down[0].Stop? && c.down[0].size == 0 && c.phase == C.AwaitStop
    ensures Owes(C.RecvStop(c), w)
  {
    var c' := C.RecvStop(c);
    forall b | Owed(c, b) ensures Owed(c', b) {
    }
  }

  lemma InfoOwes(cl: C.Client, d: nat, slots: nat, pool: nat, w: Work)
    requires ClientInv(cl, slots, pool) && C.CanReceive(cl, d) && cl.conns[d].down[0].Info? && Owes(cl.conns[d], w)
    ensures Owes(C.RecvInfo(cl, d).conns[d], w)
  {
    var c := cl.conns[d];
    var m := c.down[0];
    assert ConnInv(c, slots);
    if m.slot >= 0 {
      InfoIsExpected(cl, d, slots, pool);
      EnteredKeepsConn(c, slots);
      EnteredOwes(c, m.slab, m.slot, w);
      assert C.RecvInfo(cl, d).conns[d] == Entered(c, m.slab, m.slot);
    } else {
      OwesFrame(c, c.(down := c.down[1..], wasMapped := true), w);
    }
  }

  lemma ReceiveOwes(s: System, k: nat, d: nat, w: Work)
    requires InRange(s, k, d) && ClientInv(s.clients[k], s.slots, s.pool) && Solo(s.clients[k])
    requires C.CanReceive(s.clients[k], d) && BeginsAlone(s.clients[k], C.TakeMessage(d)) && Owes(ConnOf(s, k, d), w)
    ensures d < |C.Receive(s.clients[k], d).conns|
    ensures Owes(C.Receive(s.clients[k], d).conns[d], WorkAfter(s, AtClient(k, C.TakeMessage(d)), k, d, w))
  {
    var c := ConnOf(s, k, d);
    match c.down[0]
    case FreeSize(_) => OwesFrame(c, c.(down := c.down[1..]), w);
    case Info(_, _) => InfoOwes(s.clients[k], d, s.slots, s.pool, w);
    case Evict => EvictOwes(c, w);
    case Stop(_, size) =>
      if size != 0 {
        StopOwes(c);
      } else {
        EmptyStopOwes(c, w);
      }
  }

  lemma BitsOwe(c: C.Conn, bits: seq<set<nat>>, w: Work)
    requires Owes(c, w)
    ensures Owes(c.(bits := bits), w)
  {
    OwesFrame(c, c.(bits := bits), w);
  }

  lemma WriteOwes(cl: C.Client, start: nat, data: seq<Page>, ctx: Ctx, d: nat, w: Work)
    requires C.OnDevice(cl, start, |data|) && d < |cl.conns| && Owes(cl.conns[d], w)
    ensures d < |C.AcceptWrite(cl, start, data, ctx).conns| && Owes(C.AcceptWrite(cl, start, data, ctx).conns[d], w)
  {
    if C.WritePath(cl, start, |data|).ToDisk? && C.FirstSlab(start) != C.LastSlab(start, |data|) {
      ClearedOnlyBits(cl, start, |data|);
      var conns := Cleared(cl, start, |data|).conns;
      BitsOwe(cl.conns[d], conns[d].bits, w);
      assert C.AcceptWrite(cl, start, data, ctx).conns == conns;
    } else {
      assert C.AcceptWrite(cl, start, data, ctx).conns == cl.conns;
    }
  }

  /** The work of a step is that of the action. */
  lemma WorkOfAct(s: System, k: nat, e: C.Event, d: nat, w: Work)
    requires InRange(s, k, d) && C.IsThreadAct(e)
    ensures WorkAfter(s, AtClient(k, e), k, d, w) == if Target(e) == d then WorkOf(ConnOf(s, k, d), e, w) else w
  {
  }

  lemma RequestActOwes(s: System, k: nat, e: C.Event, d: nat, w: Work)
    requires InRange(s, k, d) && ClientInv(s.clients[k], s.slots, s.pool) && Inv(s.clients[k].dev)
    requires C.Enabled(s.clients[k], e, s.pool) && !C.IsThreadAct(e)
    requires Solo(s.clients[k]) && BeginsAlone(s.clients[k], e) && Owes(ConnOf(s, k, d), w)
    ensures d < |C.Act(s.clients[k], e, s.pool).conns|
    ensures Owes(C.Act(s.clients[k], e, s.pool).conns[d], WorkAfter(s, AtClient(k, e), k, d, w))
  {
    if e.TakeMessage? {
      AnyMessageOwes(s, k, e.d, d, w);
    } else {
      DeviceActOwes(s.clients[k], e, s.pool, d, w);
      assert WorkAfter(s, AtClient(k, e), k, d, w) == w;
    }
  }

  lemma DeviceActOwes(cl: C.Client, e: C.Event, pool: nat, d: nat, w: Work)
    requires Inv(cl.dev) && C.Enabled(cl, e, pool) && (e.Write? || e.Read? || e.PopFifo?)
    requires d < |cl.conns| && Owes(cl.conns[d], w)
    ensures d < |C.Act(cl, e, pool).conns| && Owes(C.Act(cl, e, pool).conns[d], w)
  {
    match e
    case Write(start, data, ctx) => WriteOwes(cl, start, data, ctx, d, w);
    case Read(page, ctx) => assert C.AcceptRead(cl, page, ctx).conns == cl.conns;
    case PopFifo => assert C.PopBio(cl).conns == cl.conns;
  }

  lemma AnyMessageOwes(s: System, k: nat, d': nat, d: nat, w: Work)
    requires InRange(s, k, d) && ClientInv(s.clients[k], s.slots, s.pool) && Solo(s.clients[k])
    requires C.CanReceive(s.clients[k], d') && BeginsAlone(s.clients[k], C.TakeMessage(d')) && Owes(ConnOf(s, k, d), w)
    ensures d < |C.Receive(s.clients[k], d').conns|
    ensures Owes(C.Receive(s.clients[k], d').conns[d], WorkAfter(s, AtClient(k, C.TakeMessage(d')), k, d, w))
  {
    if d' == d {
      ReceiveOwes(s, k, d, w);
    } else {
      ReceiveElsewhere(s.clients[k], d', d);
    }
  }

  lemma ActOwes(s: System, k: nat, e: C.Event, d: nat, w: Work, cl: C.Client)
    requires InRange(s, k, d) && ClientInv(s.clients[k], s.slots, s.pool) && Inv(s.clients[k].dev)
    requires C.Enabled(s.clients[k], e, s.pool) && cl == C.Act(s.clients[k], e, s.pool)
    requires Solo(s.clients[k]) && BeginsAlone(s.clients[k], e) && Owes(ConnOf(s, k, d), w)
    ensures d < |cl.conns| && Owes(cl.conns[d], WorkAfter(s, AtClient(k, e), k, d, w))
  {
    if C.IsThreadAct(e) {
      ThreadActOwes(s.clients[k], e, s.slots, s.pool, d, w);
      WorkOfAct(s, k, e, d, w);
      assert cl == C.ThreadAct(s.clients[k], e, s.pool);
    } else {
      RequestActOwes(s, k, e, d, w);
    }
  }

  // ---------------------------------------------------------------- every step

  lemma SetConnOwes(s: System, j: nat, e: nat, c: C.Conn, k: nat, d: nat, w: Work)
    requires InRange(s, j, e) && SameOwed(ConnOf(s, j, e), c) && InRange(s, k, d) && Owes(ConnOf(s, k, d), w)
    ensures Owes(SetConn(s, j, e, c).clients[k].conns[d], w)
  {
    if j == k && e == d {
      OwesFrame(ConnOf(s, k, d), c, w);
    }
  }

  lemma DeliveredOwed(s: System, j: nat, e: nat) returns (c: C.Conn)
    requires InRange(s, j, e) && ConnOf(s, j, e).up != [] && ServerInv(s.servers[e], s.slots, |s.clients|)
    ensures SameOwed(ConnOf(s, j, e), c) && DeliverUp(s, j, e).clients == SetConn(s, j, e, c).clients
  {
    var t := s.servers[e].tables;
    c := ConnOf(s, j, e);
    match c.up[0]
    case Query => c := AnswerQuery(c, t);
    case Bind(_) => c := AnswerBind(c, t);
    case Activity(_) => c := TakeActivity(c);
    case Done(_, _) => c := TakeDone(c);
    case _ =>
      assert s.clients[j].conns[e := c] == s.clients[j].conns;
      assert s.clients[j := s.clients[j]] == s.clients;
  }

  lemma LandOwes(s: System, j: nat, ctx: Ctx, k: nat, d: nat, w: Work)
    requires j < |s.clients| && ctx.server < |s.servers| && C.CanComplete(s.clients[j], ctx, s.slots)
    requires ServerInv(s.servers[ctx.server], s.slots, |s.clients|) && Inv(s.clients[j].dev)
    requires InRange(s, k, d) && Owes(ConnOf(s, k, d), w)
    ensures k < |LandOp(s, j, ctx).clients| && d < |LandOp(s, j, ctx).clients[k].conns|
    ensures Owes(LandOp(s, j, ctx).clients[k].conns[d], w)
  {
    var c' := LandOp(s, j, ctx).clients[k].conns[d];
    OwesFrame(ConnOf(s, k, d), c', w);
  }

  lemma TalkSame(s: System, e: Step) returns (c: C.Conn)
    requires Safe(s) && Enabled(s, e) && (e.StartRound? || e.Choose? || e.Cut?)
    ensures InRange(s, e.k, e.d) && SameOwed(ConnOf(s, e.k, e.d), c)
    ensures Next(s, e).clients == SetConn(s, e.k, e.d, c).clients
  {
    c := ConnOf(s, e.k, e.d);
    match e
    case StartRound(_, _) => c := SendEvict(c);
    case Choose(_, _, chosen, size) => c := SendStop(c, chosen, size);
    case Cut(_, _) => c := C.CutConn(c);
  }

  lemma OtherStepOwes(s: System, e: Step, k: nat, d: nat, w: Work)
    requires Safe(s) && Enabled(s, e) && InRange(s, k, d) && Owes(ConnOf(s, k, d), w) && !e.AtClient?
    ensures k < |Next(s, e).clients| && d < |Next(s, e).clients[k].conns| && Owes(Next(s, e).clients[k].conns[d], w)
  {
    if e.Land? {
      LandOwes(s, e.k, e.ctx, k, d, w);
    } else if e.Deliver? {
      var c := DeliveredOwed(s, e.k, e.d);
      SetConnOwes(s, e.k, e.d, c, k, d, w);
    } else if e.StartRound? || e.Choose? || e.Cut? {
      var c := TalkSame(s, e);
      SetConnOwes(s, e.k, e.d, c, k, d, w);
    } else {
      assert Next(s, e).clients == s.clients;
    }
  }

  lemma ClientStepOwes(s: System, j: nat, e: C.Event, k: nat, d: nat, w: Work)
    requires Safe(s) && j < |s.clients| && C.Enabled(s.clients[j], e, s.pool)
    requires SoloStep(s, AtClient(j, e)) && AllSolo(s)
    requires InRange(s, k, d) && Owes(ConnOf(s, k, d), w)
    ensures var cl := s.clients[j := C.Act(s.clients[j], e, s.pool)][k];
            d < |cl.conns| && Owes(cl.conns[d], WorkAfter(s, AtClient(j, e), k, d, w))
  {
    if j == k {
      ActOwes(s, k, e, d, w, C.Act(s.clients[k], e, s.pool));
    }
  }

  lemma OtherWork(s: System, e: Step, k: nat, d: nat, w: Work)
    requires InRange(s, k, d) && !e.AtClient?
    ensures WorkAfter(s, e, k, d, w) == w
  {
  }

  lemma StepOwes(s: System, e: Step, s': System, k: nat, d: nat, w: Work)
    requires Safe(s) && Enabled(s, e) && SoloStep(s, e) && AllSolo(s) && s' == Next(s, e)
    requires InRange(s, k, d) && Owes(ConnOf(s, k, d), w)
    ensures k < |s'.clients| && d < |s'.clients[k].conns| && Owes(s'.clients[k].conns[d], WorkAfter(s, e, k, d, w))
  {
    if e.AtClient? {
      ClientStepOwes(s, e.k, e.e, k, d, w);
    } else {
      OtherStepOwes(s, e, k, d, w);
      OtherWork(s, e, k, d, w);
    }
  }

  // ---------------------------------------------------------------- over runs

  lemma WorkGoesOn(s: System, steps: seq<Step>, u: System, e: Step, t: System, k: nat, d: nat, w: Work)
    requires RunWork(s, steps, u, k, d, w) && Safe(u) && Enabled(u, e) && SoloStep(u, e) && t == Next(u, e)
    requires InRange(u, k, d)
    ensures RunWork(s, steps + [e], t, k, d, WorkAfter(u, e, k, d, w))
  {
    var all := steps + [e];
    assert all[..|all| - 1] == steps && all[|all| - 1] == e;
  }

  lemma StaysInRange(t: System, k: nat, d: nat)
    requires Safe(t) && k < |t.clients| && d < |t.clients[k].conns|
    ensures InRange(t, k, d)
  {
  }

  lemma {:induction false} OwesInEveryRun(s: System, steps: seq<Step>, t: System, k: nat, d: nat) returns (w: Work)
    requires Init(s) && Reaches(s, steps, t, SoloStep) && InRange(s, k, d)
    ensures InRange(t, k, d) && RunWork(s, steps, t, k, d, w) && Owes(ConnOf(t, k, d), w)
    decreases |steps|
  {
    if steps == [] {
      w := Work({}, {});
    } else {
      var u, pre, e := LastStep(s, steps, t, SoloStep);
      var w' := OwesInEveryRun(s, pre, u, k, d);
      TidyWhenAlone(s, pre, u);
      StepOwes(u, e, t, k, d, w');
      RunSafe(s, steps, t, SoloStep);
      StaysInRange(t, k, d);
      WorkGoesOn(s, pre, u, e, t, k, d, w');
      w := WorkAfter(u, e, k, d, w');
    }
  }

  /** In every such run, when the eviction thread or the handler of a connection can switch the trigger on, it has
      begun to map again every slab that the STOP named or the server had when it failed. */
  lemma AllMappedAgainFirst(s: System, steps: seq<Step>, t: System, k: nat, d: nat) returns (w: Work)
    requires Init(s) && Reaches(s, steps, t, SoloStep) && InRange(s, k, d)
    requires k < |t.clients| && (C.CanEndEviction(t.clients[k], d) || C.CanResume(t.clients[k], d))
    ensures RunWork(s, steps, t, k, d, w) && w.taken <= w.begun
  {
    w := OwesInEveryRun(s, steps, t, k, d);
    TidyWhenAlone(s, steps, t);
    assert Solo(t.clients[k]);
    NothingOwed(t.clients[k], d);
  }

  lemma NothingOwed(cl: C.Client, d: nat)
    requires Solo(cl) && (C.CanEndEviction(cl, d) || C.CanResume(cl, d))
    ensures Working(cl.conns[d]) && forall b :: !Owed(cl.conns[d], b)
  {
    assert WorkOk(cl.conns[d], cl.slotMap, cl.mapping);
  }
}
