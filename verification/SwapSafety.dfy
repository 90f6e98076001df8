/** Safety of slab ownership over whole runs. */
module SwapSafety {
  import opened BackupDisk
  import C = SwapClient
  import opened SwapInvariants
  import T = DaemonTables
  import opened Swap

  // ---------------------------------------------------------------- initial states and runs

  /** A connection before anything was sent on it. */
  ghost predicate FreshConn(c: C.Conn, slots: nat) {
    && c.live && !c.failed && !c.wasMapped && !c.boundSince
    && |c.chunkMap| == slots && |c.bits| == slots
    && (forall i :: 0 <= i < slots ==> c.chunkMap[i] == -1 && c.bits[i] == {})
    && c.phase == C.Ready && c.remap == {} && c.up == [] && c.down == [] && c.round == C.Quiet
    && c.again == {} && !c.evicting && c.handler == C.NoHandler
  }

  /** IS_session_create: nothing mapped, nothing in flight, every context free, the trigger on. */
  ghost predicate FreshClient(cl: C.Client, slots: nat, servers: nat, pool: nat) {
    && |cl.conns| == servers && (forall d :: 0 <= d < servers ==> FreshConn(cl.conns[d], slots))
    && |cl.cbIndexMap| == |cl.slotMap|
    && (forall b :: 0 <= b < |cl.slotMap| ==> cl.slotMap[b] == -1 && cl.cbIndexMap[b] == -1)
    && cl.freeIdx == |cl.slotMap| - 1
    && !cl.rdmaOn && cl.triggerOn && cl.mapping == C.NoMapping
    && |cl.dev.initial| == |cl.cbIndexMap| * SLAB_PAGES
    && cl.dev.disk == cl.dev.initial && cl.dev.fifo == [] && cl.dev.log == [] && cl.dev.done == []
    && cl.dev.flight == map[]
    && cl.dev.free == cl.dev.pool
    && (forall x: Ctx :: x in cl.dev.pool <==> x.server < servers && x.index < pool)
  }

  ghost predicate Init(s: System) {
    && (forall k :: 0 <= k < |s.clients| ==> FreshClient(s.clients[k], s.slots, |s.servers|, s.pool))
    && (forall d :: 0 <= d < |s.servers| ==>
          && ServerInv(s.servers[d], s.slots, |s.clients|)
          && forall i :: 0 <= i < s.slots ==> s.servers[d].tables.owner[i] == -1)
  }

  lemma FreshConnInv(c: C.Conn, slots: nat)
    requires FreshConn(c, slots)
    ensures ConnInv(c, slots)
    ensures forall i: nat :: i < slots ==> !C.Claimed(c, i)
    ensures forall b: nat :: !C.Holds(c, b)
  {
    assert C.DoneSlots(c) == {} && C.InfoSlot(c) == -1 && C.Victims(c) == map[];
  }

  lemma FreshClientInv(cl: C.Client, slots: nat, servers: nat, pool: nat)
    requires FreshClient(cl, slots, servers, pool)
    ensures ClientInv(cl, slots, pool) && Inv(cl.dev)
  {
    forall d | 0 <= d < servers
      ensures ConnInv(cl.conns[d], slots) && MappingMessages(cl.conns[d], cl.mapping, d)
      ensures forall b: nat :: !C.Holds(cl.conns[d], b)
    {
      FreshConnInv(cl.conns[d], slots);
    }
  }

  lemma InitSafe(s: System)
    requires Init(s)
    ensures Safe(s)
  {
    forall k | 0 <= k < |s.clients|
      ensures ClientInv(s.clients[k], s.slots, s.pool) && Inv(s.clients[k].dev)
    {
      FreshClientInv(s.clients[k], s.slots, |s.servers|, s.pool);
    }
    forall k, d | 0 <= k < |s.clients| && 0 <= d < |s.servers| && d < |s.clients[k].conns|
      ensures Owned(s.clients[k].conns[d], s.servers[d].tables.owner, k)
    {
      FreshConnInv(s.clients[k].conns[d], s.slots);
    }
  }

  /** Which steps a run may take. */
  type Rule = (System, Step) -> bool

  ghost predicate AnyStep(s: System, e: Step) {
    true
  }

  /** `t` is reached from the safe state `s` by taking the steps in order, each as the rule allows. Every
      state in between is safe, which `StepSafe` says of all states after a safe one. */
  ghost predicate Reaches(s: System, steps: seq<Step>, t: System, ok: Rule)
    decreases |steps|
  {
    if steps == [] then t == s && Safe(s)
    else
      exists u ::
        && Reaches(s, steps[..|steps| - 1], u, ok)
        && Safe(u) && Enabled(u, steps[|steps| - 1]) && ok(u, steps[|steps| - 1])
        && t == Next(u, steps[|steps| - 1])
  }

  /** A fresh system is where runs begin. */
  lemma RunBegins(s: System, ok: Rule)
    requires Init(s)
    ensures Reaches(s, [], s, ok)
  {
    InitSafe(s);
  }

  /** A run goes on with any step that is enabled and allowed. */
  lemma RunGoesOn(s: System, steps: seq<Step>, u: System, e: Step, t: System, ok: Rule)
    requires Reaches(s, steps, u, ok) && Safe(u) && Enabled(u, e) && ok(u, e) && t == Next(u, e)
    ensures Reaches(s, steps + [e], t, ok)
  {
    var all := steps + [e];
    assert all[..|all| - 1] == steps && all[|all| - 1] == e;
  }

  /** Every state of every run is safe. */
  lemma RunSafe(s: System, steps: seq<Step>, t: System, ok: Rule)
    requires Reaches(s, steps, t, ok)
    ensures Safe(t)
  {
    if steps != [] {
      var e := steps[|steps| - 1];
      var u :| Reaches(s, steps[..|steps| - 1], u, ok) && Safe(u) && Enabled(u, e) && ok(u, e) && t == Next(u, e);
      StepSafe(u, e);
    }
  }

  /** The last step of a run. */
  lemma LastStep(s: System, steps: seq<Step>, t: System, ok: Rule) returns (u: System, before: seq<Step>, e: Step)
    requires Reaches(s, steps, t, ok) && steps != []
    ensures steps == before + [e] && |before| < |steps|
    ensures Reaches(s, before, u, ok) && Safe(u) && Enabled(u, e) && ok(u, e) && t == Next(u, e)
  {
    before, e := steps[..|steps| - 1], steps[|steps| - 1];
    assert steps == before + [e];
    u :| Reaches(s, before, u, ok) && Safe(u) && Enabled(u, e) && ok(u, e) && t == Next(u, e);
  }

  /** Safety never stops a run: it goes on with every enabled step the rule allows. */
  lemma RunCanGoOn(s: System, steps: seq<Step>, u: System, e: Step, ok: Rule)
    requires Reaches(s, steps, u, ok) && Enabled(u, e) && ok(u, e)
    ensures Safe(u) && Reaches(s, steps + [e], Next(u, e), ok)
  {
    RunSafe(s, steps, u, ok);
    RunGoesOn(s, steps, u, e, Next(u, e), ok);
  }

  /** What the allowed steps keep holds at the end of a run. */
  lemma {:induction false} RunKeeps(s: System, steps: seq<Step>, t: System, ok: Rule, inv: System -> bool)
    requires Reaches(s, steps, t, ok) && inv(s)
    requires forall u, e :: Safe(u) && inv(u) && Enabled(u, e) && ok(u, e) ==> inv(Next(u, e))
    ensures inv(t)
    decreases |steps|
  {
    if steps != [] {
      var e := steps[|steps| - 1];
      var u :| Reaches(s, steps[..|steps| - 1], u, ok) && Safe(u) && Enabled(u, e) && ok(u, e) && t == Next(u, e);
      RunKeeps(s, steps[..|steps| - 1], u, ok, inv);
    }
  }

  // ---------------------------------------------------------------- what safety means

  /** Client k would send a request for session slab b to this slot. */
  ghost predicate MapsTo(s: System, k: nat, b: nat, d: nat, i: nat) {
    && k < |s.clients| && b < |s.clients[k].cbIndexMap| && b < |s.clients[k].slotMap|
    && s.clients[k].cbIndexMap[b] == d && s.clients[k].slotMap[b] == i
  }

  /** An RDMA operation of client k on this slot is in flight and can still land. */
  ghost predicate InFlightTo(s: System, k: nat, d: nat, i: nat) {
    && InRange(s, k, d) && ConnOf(s, k, d).live
    && exists x :: x in s.clients[k].dev.flight && x.server == d && s.clients[k].dev.flight[x].slot == i
  }

  /** On a live connection, a slab the client believes mapped is malloced and owned by it. */
  lemma MappedIsOwned(s: System, k: nat, b: nat, d: nat, i: nat)
    requires Safe(s) && MapsTo(s, k, b, d, i) && InRange(s, k, d) && ConnOf(s, k, d).live
    ensures i < s.slots && ConnOf(s, k, d).chunkMap[i] == b
    ensures s.servers[d].tables.malloc[i] && s.servers[d].tables.owner[i] == k
  {
    SafeConn(s, k, d);
    var cl := s.clients[k];
    assert ForwardOk(b, cl.cbIndexMap[b], cl.slotMap[b], cl.conns);
    assert C.Claimed(ConnOf(s, k, d), i);
    assert Owned(ConnOf(s, k, d), s.servers[d].tables.owner, k);
  }

  /** No slab serves two session slabs, or two clients. */
  lemma SlabServesOne(s: System, k: nat, b: nat, k': nat, b': nat, d: nat, i: nat)
    requires Safe(s) && MapsTo(s, k, b, d, i) && MapsTo(s, k', b', d, i)
    requires InRange(s, k, d) && ConnOf(s, k, d).live && InRange(s, k', d) && ConnOf(s, k', d).live
    ensures k == k' && b == b'
  {
    MappedIsOwned(s, k, b, d, i);
    MappedIsOwned(s, k', b', d, i);
  }

  /** An operation that can still land is on a slab its client owns. */
  lemma FlightIsOwned(s: System, k: nat, d: nat, i: nat)
    requires Safe(s) && InFlightTo(s, k, d, i)
    ensures i < s.slots && s.servers[d].tables.owner[i] == k && s.servers[d].tables.malloc[i]
    ensures ConnOf(s, k, d).chunkMap[i] >= 0 || i in C.Victims(ConnOf(s, k, d))
  {
    SafeConn(s, k, d);
    var f := s.clients[k].dev.flight;
    var x :| x in f && x.server == d && f[x].slot == i;
    assert FlightPlace(x, f[x], s.clients[k].conns, s.slots, s.pool, |s.clients[k].dev.initial|);
    assert C.Claimed(ConnOf(s, k, d), i);
    assert Owned(ConnOf(s, k, d), s.servers[d].tables.owner, k);
  }

  /** A DONE is waiting at the daemon. */
  ghost predicate DoneWaiting(s: System, k: nat, d: nat) {
    InRange(s, k, d) && ConnOf(s, k, d).live && ConnOf(s, k, d).up != [] && ConnOf(s, k, d).up[0].Done?
  }

  /** The slots a DONE names are still the client's at the daemon, but no longer in its hands. */
  lemma DoneIsHandedBack(s: System, k: nat, d: nat, i: nat)
    requires Safe(s) && DoneWaiting(s, k, d) && i in ConnOf(s, k, d).up[0].slots
    ensures i < s.slots && s.servers[d].tables.owner[i] == k
    ensures ConnOf(s, k, d).chunkMap[i] < 0 && i !in C.Victims(ConnOf(s, k, d))
  {
    var c := ConnOf(s, k, d);
    SafeConn(s, k, d);
    TakeDoneKeepsConn(c, s.slots);
    assert C.Claimed(c, i);
    assert Owned(c, s.servers[d].tables.owner, k);
  }

  /** When the daemon takes a DONE, no RDMA operation of any client on its slabs is in flight, and
      none can start: no client's maps lead there. */
  lemma EvictionHandshake(s: System, k: nat, d: nat, j: nat, i: nat)
    requires Safe(s) && DoneWaiting(s, k, d) && i in ConnOf(s, k, d).up[0].slots
    requires InRange(s, j, d) && ConnOf(s, j, d).live
    ensures !InFlightTo(s, j, d, i)
    ensures forall b: nat :: !MapsTo(s, j, b, d, i)
  {
    DoneIsHandedBack(s, k, d, i);
    if InFlightTo(s, j, d, i) {
      FlightIsOwned(s, j, d, i);
    }
    forall b: nat ensures !MapsTo(s, j, b, d, i) {
      if MapsTo(s, j, b, d, i) {
        MappedIsOwned(s, j, b, d, i);
      }
    }
  }

  /** The slab is still allocated and still given to the same client. */
  ghost predicate StillOwned(servers: seq<Server>, servers': seq<Server>, d: nat, i: nat) {
    && d < |servers| && d < |servers'|
    && i < |servers[d].tables.owner| && i < |servers'[d].tables.owner| && i < |servers'[d].tables.malloc|
    && servers'[d].tables.owner[i] == servers[d].tables.owner[i] && servers'[d].tables.malloc[i]
  }

  lemma DeliveryKeepsOwner(s: System, k: nat, d': nat, d: nat, i: nat)
    requires InRange(s, k, d') && ConnOf(s, k, d').up != [] && ServerInv(s.servers[d'], s.slots, |s.clients|)
    requires d < |s.servers| && ServerInv(s.servers[d], s.slots, |s.clients|)
    requires i < s.slots && s.servers[d].tables.owner[i] != -1
    requires d' == d && ConnOf(s, k, d).up[0].Done? ==> i !in ConnOf(s, k, d).up[0].slots
    ensures StillOwned(s.servers, DeliverUp(s, k, d').servers, d, i)
  {
  }

  lemma ServerChangeKeepsOwner(servers: seq<Server>, d': nat, v: Server, d: nat, i: nat)
    requires d < |servers| && d' < |servers| && i < |servers[d].tables.owner|
    requires i < |servers[d].tables.malloc| && servers[d].tables.malloc[i]
    requires d == d' ==> i < |v.tables.owner| && i < |v.tables.malloc|
    requires d == d' ==> v.tables.owner[i] == servers[d].tables.owner[i] && v.tables.malloc[i]
    ensures StillOwned(servers, servers[d' := v], d, i)
  {
  }

  /** Steps that touch no server. */
  ghost predicate LeavesServers(e: Step) {
    e.AtClient? || e.StartRound? || e.Choose? || e.Cut?
  }

  lemma ServersUntouched(s: System, e: Step)
    requires Safe(s) && Enabled(s, e) && LeavesServers(e)
    ensures Next(s, e).servers == s.servers
  {
  }

  lemma LandingKeepsOwner(s: System, k: nat, ctx: Ctx, d: nat, i: nat)
    requires k < |s.clients| && ctx.server < |s.servers| && C.CanComplete(s.clients[k], ctx, s.slots)
    requires ServerInv(s.servers[ctx.server], s.slots, |s.clients|) && Inv(s.clients[k].dev)
    requires d < |s.servers| && ServerInv(s.servers[d], s.slots, |s.clients|)
    requires i < s.slots && s.servers[d].tables.owner[i] != -1
    ensures StillOwned(s.servers, LandOp(s, k, ctx).servers, d, i)
  {
  }

  /** Allocation at a daemon, and the destruction of another client's connection. */
  lemma AllocationKeepsOwner(s: System, e: Step, d: nat, i: nat)
    requires Safe(s) && Enabled(s, e) && d < |s.servers| && i < s.slots
    requires e.DropSlots? || e.GrowSlots? || e.Destroy?
    requires s.servers[d].tables.owner[i] != -1
    requires !(e.Destroy? && e.d == d && e.k == s.servers[d].tables.owner[i])
    ensures StillOwned(s.servers, Next(s, e).servers, d, i)
  {
    assert ServerInv(s.servers[d], s.slots, |s.clients|);
    match e
    case DropSlots(d', dropped) =>
      ServerChangeKeepsOwner(s.servers, d', s.servers[d'].(tables := T.Drop(s.servers[d'].tables, dropped)), d, i);
    case GrowSlots(d', grown) =>
      ServerChangeKeepsOwner(s.servers, d', Grown(s.servers[d'], grown), d, i);
    case Destroy(k, d') =>
      ServerChangeKeepsOwner(s.servers, d', s.servers[d'].(tables := T.Destroy(s.servers[d'].tables, k)), d, i);
  }

  /** A slab leaves the hands of the client it was given to only by a DONE that names it or by the
      destruction of that client's connection: no other step of any run frees or reassigns it. */
  lemma OwnedUntilReturned(s: System, e: Step, d: nat, i: nat)
    requires Safe(s) && Enabled(s, e) && d < |s.servers| && i < s.slots
    requires s.servers[d].tables.owner[i] != -1
    requires !(e.Destroy? && e.d == d && e.k == s.servers[d].tables.owner[i])
    requires !(e.Deliver? && e.d == d && ConnOf(s, e.k, d).up[0].Done? && i in ConnOf(s, e.k, d).up[0].slots)
    ensures StillOwned(s.servers, Next(s, e).servers, d, i)
  {
    assert ServerInv(s.servers[d], s.slots, |s.clients|);
    if LeavesServers(e) {
      ServersUntouched(s, e);
    } else {
      match e
      case Deliver(k, d') => DeliveryKeepsOwner(s, k, d', d, i);
      case Land(k, ctx) => LandingKeepsOwner(s, k, ctx, d, i);
      case _ => AllocationKeepsOwner(s, e, d, i);
    }
  }

  /** The eviction thread finds the slab of a slot named by a STOP exactly when the slot is still mapped.
      It always is until the disconnect handler of the same connection has returned it; after that the
      thread would use -1 as an index. */
  lemma StopLookupInRange(s: System, k: nat, d: nat, i: nat)
    requires Safe(s) && InRange(s, k, d)
    requires ConnOf(s, k, d).phase.Draining? && i in ConnOf(s, k, d).phase.todo
    ensures i < |ConnOf(s, k, d).chunkMap|
    ensures C.CanUnmap(s.clients[k], d, i) <==> ConnOf(s, k, d).chunkMap[i] != -1
    ensures !ConnOf(s, k, d).failed ==> C.CanUnmap(s.clients[k], d, i)
  {
    SafeConn(s, k, d);
    if ConnOf(s, k, d).chunkMap[i] >= 0 {
      MappedInRange(s.clients[k], d, i, s.slots, s.pool);
    }
  }

  /** The same over runs: in any reachable state the handshake is safe. */
  lemma HandshakeInEveryRun(s: System, steps: seq<Step>, t: System, k: nat, d: nat, j: nat, i: nat)
    requires Init(s) && Reaches(s, steps, t, AnyStep)
    requires DoneWaiting(t, k, d) && i in ConnOf(t, k, d).up[0].slots
    requires InRange(t, j, d) && ConnOf(t, j, d).live
    ensures !InFlightTo(t, j, d, i) && forall b: nat :: !MapsTo(t, j, b, d, i)
  {
    RunSafe(s, steps, t, AnyStep);
    EvictionHandshake(t, k, d, j, i);
  }
}
