/** Block devices and memory daemons together: any number of clients and servers, with one
    connection between each pair. A run is an arbitrary interleaving of client actions, daemon
    actions, RDMA operations landing, and connections breaking.
 */
module Swap {
  import opened BackupDisk
  import C = SwapClient
  import opened SwapInvariants
  import opened SwapClientProof
  import T = DaemonTables

  datatype Server = Server(tables: T.Tables, mem: seq<seq<Page>>)

  datatype System = System(clients: seq<C.Client>, servers: seq<Server>, slots: nat, pool: nat)

  // ---------------------------------------------------------------- the daemon's half of a connection

  function AnswerQuery(c: C.Conn, t: T.Tables): C.Conn
    requires c.up != []
  {
    C.SendDown(c.(up := c.up[1..]), C.FreeSize(t.sizeGb - t.mappedSize))
  }

  /** send_single_mr: hand out the first free slab; without one the answer names no slab. */
  function AnswerBind(c: C.Conn, t: T.Tables): C.Conn
    requires c.up != [] && c.up[0].Bind? && T.Shaped(t)
  {
    var i := T.FirstFree(t);
    C.SendDown(c.(up := c.up[1..], boundSince := true), C.Info(c.up[0].slab, if i < |t.malloc| then i else -1))
  }

  function TakeActivity(c: C.Conn): C.Conn
    requires c.up != [] && c.up[0].Activity?
  {
    c.(up := c.up[1..], round := C.Reported(c.up[0].slots))
  }

  function TakeDone(c: C.Conn): C.Conn
    requires c.up != []
  {
    c.(up := c.up[1..], round := C.Quiet)
  }

  function SendEvict(c: C.Conn): C.Conn {
    C.SendDown(c, C.Evict).(round := C.WaitActivity, boundSince := false)
  }

  /** The daemon stops any selection of the reported slots, giving any size but that no slots go with size
      zero alone; a size of zero is not waited for. */
  function SendStop(c: C.Conn, slots: set<nat>, size: nat): C.Conn {
    C.SendDown(c, C.Stop(slots, size)).(round := if size == 0 then C.Quiet else C.WaitDone(slots, size))
  }

  // ---------------------------------------------------------------- steps

  datatype Step =
    | AtClient(k: nat, e: C.Event)
    | Land(k: nat, ctx: Ctx)
    | Deliver(k: nat, d: nat)
    | StartRound(k: nat, d: nat)
    | Choose(k: nat, d: nat, chosen: set<nat>, size: nat)
    | DropSlots(d: nat, dropped: set<nat>)
    | GrowSlots(d: nat, grown: set<nat>)
    | Cut(k: nat, d: nat)
    | Destroy(k: nat, d: nat)

  ghost predicate InRange(s: System, k: nat, d: nat) {
    k < |s.clients| && d < |s.servers| && d < |s.clients[k].conns|
  }

  function ConnOf(s: System, k: nat, d: nat): C.Conn
    requires InRange(s, k, d)
  {
    s.clients[k].conns[d]
  }

  ghost predicate Enabled(s: System, e: Step) {
    match e
    case AtClient(k, ev) => k < |s.clients| && C.Enabled(s.clients[k], ev, s.pool)
    case Land(k, ctx) => k < |s.clients| && ctx.server < |s.servers| && C.CanComplete(s.clients[k], ctx, s.slots)
    case Deliver(k, d) =>
      && InRange(s, k, d) && ConnOf(s, k, d).live && ConnOf(s, k, d).up != []
      && (var m := ConnOf(s, k, d).up[0]; m.Query? || m.Bind? || m.Activity? || m.Done?)
    case StartRound(k, d) => InRange(s, k, d) && ConnOf(s, k, d).live && ConnOf(s, k, d).round.Quiet?
    case Choose(k, d, chosen, size) =>
      && InRange(s, k, d) && ConnOf(s, k, d).live && ConnOf(s, k, d).round.Reported?
      && chosen <= ConnOf(s, k, d).round.slots && (size == 0 <==> chosen == {})
    case DropSlots(d, dropped) =>
      && d < |s.servers| && T.Shaped(s.servers[d].tables)
      && forall i :: i in dropped ==> i < |s.servers[d].tables.malloc| && T.Free(s.servers[d].tables, i)
    case GrowSlots(d, grown) =>
      && d < |s.servers|
      && forall i :: i in grown ==> i < |s.servers[d].tables.malloc| && !s.servers[d].tables.malloc[i]
    case Cut(k, d) => InRange(s, k, d)
    case Destroy(k, d) => InRange(s, k, d) && !ConnOf(s, k, d).live
  }

  function SetConn(s: System, k: nat, d: nat, c: C.Conn): System
    requires InRange(s, k, d)
  {
    s.(clients := s.clients[k := s.clients[k].(conns := s.clients[k].conns[d := c])])
  }

  function SetTables(s: System, d: nat, t: T.Tables): System
    requires d < |s.servers|
  {
    s.(servers := s.servers[d := s.servers[d].(tables := t)])
  }

  /** A slab's memory after an RDMA write of `data` at page offset `off`. */
  function Overlay(mem: seq<Page>, off: nat, data: seq<Page>): (r: seq<Page>)
    ensures |r| == |mem|
    ensures forall p :: 0 <= p < |mem| ==> r[p] == if off <= p < off + |data| then data[p - off] else mem[p]
  {
    seq(|mem|, p requires 0 <= p < |mem| => if off <= p < off + |data| then data[p - off] else mem[p])
  }

  ghost predicate ServerInv(v: Server, slots: nat, clients: nat) {
    && T.Shaped(v.tables) && |v.tables.malloc| == slots && |v.mem| == slots
    && |v.tables.chunkSize| == clients
    && (forall i :: 0 <= i < slots ==> |v.mem[i]| == SLAB_PAGES)
    && (forall i :: 0 <= i < slots && v.tables.owner[i] != -1 ==>
          v.tables.malloc[i] && 0 <= v.tables.owner[i] < clients)
  }

  function Landed(v: Server, slot: nat, off: nat, data: seq<Page>): Server
    requires slot < |v.mem|
  {
    v.(mem := v.mem[slot := Overlay(v.mem[slot], off, data)])
  }

  /** The RDMA operation of a context takes effect at the server and completes at the client. */
  function LandOp(s: System, k: nat, ctx: Ctx): System
    requires k < |s.clients| && ctx.server < |s.servers| && C.CanComplete(s.clients[k], ctx, s.slots)
    requires ServerInv(s.servers[ctx.server], s.slots, |s.clients|) && Inv(s.clients[k].dev)
  {
    var cl := s.clients[k];
    var op := cl.dev.flight[ctx];
    var v := s.servers[ctx.server];
    var off := op.page % SLAB_PAGES;
    match op
    case ReadOp(slot, _) => s.(clients := s.clients[k := C.EndRead(cl, ctx, v.mem[slot][off])])
    case WriteOp(slot, _, _) =>
      FlightBuffered(cl.dev, ctx);
      System(s.clients[k := C.EndWrite(cl, ctx)],
             s.servers[ctx.server := Landed(v, slot, off, cl.dev.buf[ctx])],
             s.slots, s.pool)
  }

  /** What a message does when it arrives at the daemon. */
  function DeliverUp(s: System, k: nat, d: nat): System
    requires InRange(s, k, d) && ConnOf(s, k, d).up != [] && ServerInv(s.servers[d], s.slots, |s.clients|)
  {
    var c := ConnOf(s, k, d);
    var t := s.servers[d].tables;
    match c.up[0]
    case Query => SetConn(s, k, d, AnswerQuery(c, t))
    case Bind(_) => SetConn(SetTables(s, d, T.Bind(t, k)), k, d, AnswerBind(c, t))
    case Activity(_) => SetConn(s, k, d, TakeActivity(c))
    case Done(slots, size) => SetConn(SetTables(s, d, T.Release(t, k, slots, size)), k, d, TakeDone(c))
    case _ => s
  }

  /** Newly allocated slabs are zeroed. */
  function Grown(v: Server, grown: set<nat>): Server
    requires T.Shaped(v.tables)
  {
    Server(T.Grow(v.tables, grown),
           seq(|v.mem|, i requires 0 <= i < |v.mem| =>
             if i in grown then seq(|v.mem[i]|, p => []) else v.mem[i]))
  }

  ghost function Next(s: System, e: Step): System
    requires Safe(s) && Enabled(s, e)
  {
    match e
    case AtClient(k, ev) => s.(clients := s.clients[k := C.Act(s.clients[k], ev, s.pool)])
    case Land(k, ctx) => LandOp(s, k, ctx)
    case Deliver(k, d) => DeliverUp(s, k, d)
    case StartRound(k, d) => SetConn(s, k, d, SendEvict(ConnOf(s, k, d)))
    case Choose(k, d, chosen, size) => SetConn(s, k, d, SendStop(ConnOf(s, k, d), chosen, size))
    case Cut(k, d) => SetConn(s, k, d, C.CutConn(ConnOf(s, k, d)))
    case _ => AllocationNext(s, e)
  }

  /** What a daemon does to its slabs by itself. */
  ghost function AllocationNext(s: System, e: Step): System
    requires Safe(s) && Enabled(s, e) && (e.DropSlots? || e.GrowSlots? || e.Destroy?)
  {
    match e
    case DropSlots(d, dropped) => SetTables(s, d, T.Drop(s.servers[d].tables, dropped))
    case GrowSlots(d, grown) => s.(servers := s.servers[d := Grown(s.servers[d], grown)])
    case Destroy(k, d) => SetTables(s, d, T.Destroy(s.servers[d].tables, k))
  }

  // ---------------------------------------------------------------- the system invariant

  /** What the client claims on a live connection is exactly what the daemon has given to that client. */
  ghost predicate Owned(c: C.Conn, owner: seq<int>, k: nat) {
    c.live ==> forall i: nat :: i < |c.chunkMap| && i < |owner| ==> (C.Claimed(c, i) <==> owner[i] == k)
  }

  ghost predicate Safe(s: System) {
    && (forall k :: 0 <= k < |s.clients| ==>
          && Inv(s.clients[k].dev)
          && ClientInv(s.clients[k], s.slots, s.pool)
          && |s.clients[k].conns| == |s.servers|)
    && (forall d :: 0 <= d < |s.servers| ==> ServerInv(s.servers[d], s.slots, |s.clients|))
    && (forall k, d :: 0 <= k < |s.clients| && 0 <= d < |s.servers| && d < |s.clients[k].conns| ==>
          Owned(s.clients[k].conns[d], s.servers[d].tables.owner, k))
  }

  /** The slots of all connections have the length the tables have. */
  lemma SafeConn(s: System, k: nat, d: nat)
    requires Safe(s) && k < |s.clients| && d < |s.servers|
    ensures InRange(s, k, d) && ConnInv(ConnOf(s, k, d), s.slots)
    ensures |ConnOf(s, k, d).chunkMap| == s.slots == |s.servers[d].tables.owner|
  {
  }

  lemma ClientStepSafe(s: System, k: nat, cl: C.Client)
    requires Safe(s) && k < |s.clients|
    requires Inv(cl.dev) && ClientInv(cl, s.slots, s.pool) && SameClaims(s.clients[k], cl, s.slots)
    ensures Safe(s.(clients := s.clients[k := cl]))
  {
    var s' := s.(clients := s.clients[k := cl]);
    forall j, d | 0 <= j < |s'.clients| && 0 <= d < |s'.servers| && d < |s'.clients[j].conns|
      ensures Owned(s'.clients[j].conns[d], s'.servers[d].tables.owner, j)
    {
      SafeConn(s, j, d);
      assert Owned(s.clients[j].conns[d], s.servers[d].tables.owner, j);
    }
  }

  /** No slab of another connection changes hands. */
  ghost predicate OthersKeep(owner: seq<int>, owner': seq<int>, k: nat) {
    && |owner'| == |owner|
    && forall i :: 0 <= i < |owner| && owner[i] != owner'[i] ==>
         (owner[i] == -1 || owner[i] == k) && (owner'[i] == -1 || owner'[i] == k)
  }

  /** The owner table in the hands of connection k changes no other connection's slabs. */
  lemma OthersOwned(c: C.Conn, owner: seq<int>, owner': seq<int>, j: nat, k: nat)
    requires Owned(c, owner, j) && OthersKeep(owner, owner', k) && j != k
    ensures Owned(c, owner', j)
  {
  }

  /** The daemon's half of a connection changes, in step with its tables. */
  lemma DaemonStepSafe(s: System, k: nat, d: nat, c: C.Conn, t: T.Tables)
    requires Safe(s) && InRange(s, k, d)
    requires ClientInv(s.clients[k].(conns := s.clients[k].conns[d := c]), s.slots, s.pool)
    requires ServerInv(s.servers[d].(tables := t), s.slots, |s.clients|)
    requires Owned(c, t.owner, k)
    requires OthersKeep(s.servers[d].tables.owner, t.owner, k)
    ensures Safe(SetConn(SetTables(s, d, t), k, d, c))
  {
    var s' := SetConn(SetTables(s, d, t), k, d, c);
    forall j, e | 0 <= j < |s'.clients| && 0 <= e < |s'.servers| && e < |s'.clients[j].conns|
      ensures Owned(s'.clients[j].conns[e], s'.servers[e].tables.owner, j)
    {
      assert Owned(s.clients[j].conns[e], s.servers[e].tables.owner, j);
      if e == d && j != k {
        OthersOwned(s.clients[j].conns[e], s.servers[e].tables.owner, t.owner, j, k);
      }
    }
  }

  // ---------------------------------------------------------------- daemon steps, seen by the client

  function WithConn(cl: C.Client, d: nat, c: C.Conn): C.Client
    requires d < |cl.conns|
  {
    cl.(conns := cl.conns[d := c])
  }

  /** The daemon answers the one mapping message on a connection. */
  lemma AnswerMapping(slabs: nat, m: C.Mapping, conns: seq<C.Conn>, d: nat, c: C.Conn, answer: C.Msg)
    requires MappingInv(slabs, m, conns) && d < |conns| && conns[d].live
    requires C.Mappings(conns[d].up) != [] && C.Mappings(c.up) == [] && C.Mappings(c.down) == [answer]
    requires C.Mappings(conns[d].up)[0].Query? ==> answer.FreeSize?
    requires C.Mappings(conns[d].up)[0].Bind? ==>
               answer.Info? && answer.slab == C.Mappings(conns[d].up)[0].slab && answer.slot >= -1
    ensures MappingInv(slabs, m, conns[d := c])
  {
    var conns' := conns[d := c];
    forall e | 0 <= e < |conns'| && conns'[e].live ensures MappingMessages(conns'[e], m, e) {
      assert conns[e].live ==> MappingMessages(conns[e], m, e);
    }
  }

  /** A mapping message waiting at the daemon is the only one on its connection. */
  lemma OnlyMappingMessage(slabs: nat, m: C.Mapping, conns: seq<C.Conn>, d: nat)
    requires MappingInv(slabs, m, conns) && d < |conns| && conns[d].live
    requires conns[d].up != [] && !C.IsEviction(conns[d].up[0])
    ensures C.Mappings(conns[d].up) == [conns[d].up[0]] && C.Mappings(conns[d].down) == []
    ensures C.Mappings(conns[d].up[1..]) == []
  {
    C.MessagesTake(conns[d].up);
    assert MappingMessages(conns[d], m, d);
  }

  /** A message changes one connection and nothing the maps or the scan depend on. */
  lemma MessageKeeps(cl: C.Client, d: nat, c: C.Conn, slots: nat, pool: nat)
    requires ClientInv(cl, slots, pool) && d < |cl.conns|
    requires ConnInv(c, slots) && SameMaps(cl.conns[d], c) && c.phase == cl.conns[d].phase
    requires MappingInv(|cl.slotMap|, cl.mapping, cl.conns[d := c])
    ensures ClientInv(WithConn(cl, d, c), slots, pool)
  {
    assert ScanInv(cl.dev.flight, cl.conns[d], d);
    ConnFrameInv(cl, WithConn(cl, d, c), d, c, slots, pool);
  }

  lemma QueryAnswered(c: C.Conn, t: T.Tables, slots: nat)
    requires ConnInv(c, slots) && c.up != [] && c.up[0].Query? && C.Mappings(c.down) == []
    ensures var c' := AnswerQuery(c, t);
            && ConnInv(c', slots) && SameMaps(c, c') && c'.phase == c.phase
            && C.Mappings(c'.up) == C.Mappings(c.up[1..])
            && C.Mappings(c'.down) == [C.FreeSize(t.sizeGb - t.mappedSize)]
            && forall i: nat :: i < slots ==> (C.Claimed(c', i) <==> C.Claimed(c, i))
  {
    C.MessagesTake(c.up);
    C.MessagesAppend(c.down, C.FreeSize(t.sizeGb - t.mappedSize));
    MappingMessageKeepsConn(c, AnswerQuery(c, t), slots);
  }

  lemma AnswerQueryKeeps(cl: C.Client, d: nat, t: T.Tables, slots: nat, pool: nat)
    requires ClientInv(cl, slots, pool) && d < |cl.conns| && cl.conns[d].live
    requires cl.conns[d].up != [] && cl.conns[d].up[0].Query?
    ensures ClientInv(WithConn(cl, d, AnswerQuery(cl.conns[d], t)), slots, pool)
    ensures forall i: nat :: i < slots ==> (C.Claimed(AnswerQuery(cl.conns[d], t), i) <==> C.Claimed(cl.conns[d], i))
  {
    var c := cl.conns[d];
    OnlyMappingMessage(|cl.slotMap|, cl.mapping, cl.conns, d);
    QueryAnswered(c, t, slots);
    AnswerMapping(|cl.slotMap|, cl.mapping, cl.conns, d, AnswerQuery(c, t), C.FreeSize(t.sizeGb - t.mappedSize));
    MessageKeeps(cl, d, AnswerQuery(c, t), slots, pool);
  }

  /** The answer to a bind is the only mapping message on the connection, and no eviction message moves. */
  lemma AnswerBindMessages(c: C.Conn, t: T.Tables)
    requires T.Shaped(t) && c.up != [] && c.up[0].Bind? && C.Mappings(c.down) == []
    ensures C.InfoSlot(AnswerBind(c, t)) == if T.FirstFree(t) < |t.malloc| then T.FirstFree(t) else -1
    ensures C.DoneSlots(AnswerBind(c, t)) == C.DoneSlots(c) && C.InfoSlot(c) == -1
    ensures C.Victims(AnswerBind(c, t)) == C.Victims(c)
    ensures C.Evictions(AnswerBind(c, t).up) == C.Evictions(c.up)
    ensures C.Evictions(AnswerBind(c, t).down) == C.Evictions(c.down)
  {
    var i := T.FirstFree(t);
    C.MessagesTake(c.up);
    C.MessagesAppend(c.down, C.Info(c.up[0].slab, if i < |t.malloc| then i else -1));
  }

  lemma AnswerBindOwned(c: C.Conn, t: T.Tables, k: nat)
    requires T.Shaped(t) && |t.malloc| == |c.chunkMap| && k < |t.chunkSize| && c.live
    requires c.up != [] && c.up[0].Bind? && C.Mappings(c.down) == []
    requires Owned(c, t.owner, k)
    ensures Owned(AnswerBind(c, t), T.Bind(t, k).owner, k)
    ensures var i := T.FirstFree(t); i < |t.malloc| ==> !C.Claimed(c, i)
  {
    AnswerBindMessages(c, t);
    var i := T.FirstFree(t);
    forall j: nat | j < |c.chunkMap|
      ensures C.Claimed(AnswerBind(c, t), j) <==> C.Claimed(c, j) || (i < |t.malloc| && j == i)
    {
    }
  }

  lemma AnswerBindKeepsConn(c: C.Conn, t: T.Tables, k: nat, slots: nat)
    requires ConnInv(c, slots) && c.live && T.Shaped(t) && |t.malloc| == slots
    requires c.up != [] && c.up[0].Bind? && C.Mappings(c.down) == []
    requires Owned(c, t.owner, k) && k < |t.chunkSize|
    ensures ConnInv(AnswerBind(c, t), slots) && SameMaps(c, AnswerBind(c, t))
  {
    AnswerBindMessages(c, t);
    AnswerBindOwned(c, t, k);
  }

  lemma AnswerBindKeeps(cl: C.Client, d: nat, t: T.Tables, k: nat, slots: nat, pool: nat)
    requires ClientInv(cl, slots, pool) && d < |cl.conns| && cl.conns[d].live
    requires cl.conns[d].up != [] && cl.conns[d].up[0].Bind?
    requires T.Shaped(t) && |t.malloc| == slots && k < |t.chunkSize| && Owned(cl.conns[d], t.owner, k)
    ensures ClientInv(WithConn(cl, d, AnswerBind(cl.conns[d], t)), slots, pool)
    ensures C.Mappings(cl.conns[d].down) == []
  {
    var c := cl.conns[d];
    var i := T.FirstFree(t);
    var answer := C.Info(c.up[0].slab, if i < |t.malloc| then i else -1);
    OnlyMappingMessage(|cl.slotMap|, cl.mapping, cl.conns, d);
    C.MessagesAppend(c.down, answer);
    AnswerBindKeepsConn(c, t, k, slots);
    AnswerMapping(|cl.slotMap|, cl.mapping, cl.conns, d, AnswerBind(c, t), answer);
    MessageKeeps(cl, d, AnswerBind(c, t), slots, pool);
  }

  lemma TakeActivityKeepsConn(c: C.Conn, slots: nat)
    requires ConnInv(c, slots) && c.live && c.up != [] && c.up[0].Activity?
    ensures ConnInv(TakeActivity(c), slots) && SameMaps(c, TakeActivity(c))
    ensures C.Mappings(TakeActivity(c).up) == C.Mappings(c.up)
    ensures forall i: nat :: i < slots ==> (C.Claimed(TakeActivity(c), i) <==> C.Claimed(c, i))
  {
    C.MessagesTake(c.up);
    assert C.DoneSlots(TakeActivity(c)) == {} && C.InfoSlot(TakeActivity(c)) == C.InfoSlot(c);
  }

  lemma TakeDoneKeepsConn(c: C.Conn, slots: nat)
    requires ConnInv(c, slots) && c.live && c.up != [] && c.up[0].Done?
    ensures ConnInv(TakeDone(c), slots) && SameMaps(c, TakeDone(c))
    ensures C.DoneSlots(c) == c.up[0].slots
    ensures forall i: nat :: i < slots ==> (C.Claimed(TakeDone(c), i) <==> C.Claimed(c, i) && i !in c.up[0].slots)
  {
    C.MessagesTake(c.up);
    assert C.DoneSlots(TakeDone(c)) == {} && C.InfoSlot(TakeDone(c)) == C.InfoSlot(c);
  }

  lemma EvictKeepsConn(c: C.Conn, slots: nat)
    requires ConnInv(c, slots) && c.live && c.round.Quiet?
    ensures ConnInv(SendEvict(c), slots) && SameMaps(c, SendEvict(c))
    ensures forall i: nat :: i < slots ==> (C.Claimed(SendEvict(c), i) <==> C.Claimed(c, i))
  {
    C.MessagesAppend(c.down, C.Evict);
    assert C.DoneSlots(SendEvict(c)) == C.DoneSlots(c) && C.InfoSlot(SendEvict(c)) == C.InfoSlot(c);
  }

  lemma StopKeepsConn(c: C.Conn, slots: nat, chosen: set<nat>, size: nat)
    requires ConnInv(c, slots) && c.live && c.round.Reported? && chosen <= c.round.slots
    requires size == 0 <==> chosen == {}
    ensures ConnInv(SendStop(c, chosen, size), slots) && SameMaps(c, SendStop(c, chosen, size))
    ensures forall i: nat :: i < slots ==> (C.Claimed(SendStop(c, chosen, size), i) <==> C.Claimed(c, i))
  {
    C.MessagesAppend(c.down, C.Stop(chosen, size));
    var c' := SendStop(c, chosen, size);
    assert C.DoneSlots(c') == C.DoneSlots(c) && C.InfoSlot(c') == C.InfoSlot(c);
  }

  /** An eviction message changes one connection and nothing the maps or the scan depend on. */
  lemma EvictionMessageKeeps(cl: C.Client, d: nat, c: C.Conn, slots: nat, pool: nat)
    requires ClientInv(cl, slots, pool) && d < |cl.conns|
    requires ConnInv(c, slots) && SameMaps(cl.conns[d], c) && c.phase == cl.conns[d].phase
    requires C.Mappings(c.up) == C.Mappings(cl.conns[d].up) && C.Mappings(c.down) == C.Mappings(cl.conns[d].down)
    ensures ClientInv(WithConn(cl, d, c), slots, pool)
  {
    MappingFrame(|cl.slotMap|, cl.mapping, cl.conns, d, c);
    MessageKeeps(cl, d, c, slots, pool);
  }

  // ---------------------------------------------------------------- every step keeps the system safe

  lemma MessageSafe(s: System, k: nat, d: nat, c: C.Conn)
    requires Safe(s) && InRange(s, k, d)
    requires ClientInv(WithConn(s.clients[k], d, c), s.slots, s.pool)
    requires |c.chunkMap| == s.slots && c.live && ConnOf(s, k, d).live
    requires forall i: nat :: i < s.slots ==> (C.Claimed(c, i) <==> C.Claimed(ConnOf(s, k, d), i))
    ensures Safe(SetConn(s, k, d, c))
  {
    SafeConn(s, k, d);
    var cl := s.clients[k];
    assert SameClaims(cl, WithConn(cl, d, c), s.slots) by {
      forall e | 0 <= e < |cl.conns| ensures |cl.conns[e].chunkMap| == s.slots {
        SafeConn(s, k, e);
      }
    }
    ClientStepSafe(s, k, WithConn(cl, d, c));
  }

  lemma QuerySafe(s: System, k: nat, d: nat)
    requires Safe(s) && Enabled(s, Deliver(k, d)) && ConnOf(s, k, d).up[0].Query?
    ensures Safe(DeliverUp(s, k, d))
  {
    var t := s.servers[d].tables;
    AnswerQueryKeeps(s.clients[k], d, t, s.slots, s.pool);
    MessageSafe(s, k, d, AnswerQuery(ConnOf(s, k, d), t));
  }

  lemma BindSafe(s: System, k: nat, d: nat)
    requires Safe(s) && Enabled(s, Deliver(k, d)) && ConnOf(s, k, d).up[0].Bind?
    ensures Safe(DeliverUp(s, k, d))
  {
    var c := ConnOf(s, k, d);
    var t := s.servers[d].tables;
    SafeConn(s, k, d);
    assert Owned(c, t.owner, k);
    AnswerBindKeeps(s.clients[k], d, t, k, s.slots, s.pool);
    AnswerBindOwned(c, t, k);
    DaemonStepSafe(s, k, d, AnswerBind(c, t), T.Bind(t, k));
  }

  lemma ActivityKeeps(cl: C.Client, d: nat, slots: nat, pool: nat)
    requires ClientInv(cl, slots, pool) && d < |cl.conns| && cl.conns[d].live
    requires cl.conns[d].up != [] && cl.conns[d].up[0].Activity?
    ensures ClientInv(WithConn(cl, d, TakeActivity(cl.conns[d])), slots, pool)
  {
    TakeActivityKeepsConn(cl.conns[d], slots);
    EvictionMessageKeeps(cl, d, TakeActivity(cl.conns[d]), slots, pool);
  }

  lemma ActivitySafe(s: System, k: nat, d: nat)
    requires Safe(s) && Enabled(s, Deliver(k, d)) && ConnOf(s, k, d).up[0].Activity?
    ensures Safe(DeliverUp(s, k, d))
  {
    var c := ConnOf(s, k, d);
    SafeConn(s, k, d);
    TakeActivityKeepsConn(c, s.slots);
    ActivityKeeps(s.clients[k], d, s.slots, s.pool);
    assert DeliverUp(s, k, d) == SetConn(s, k, d, TakeActivity(c));
    MessageSafe(s, k, d, TakeActivity(c));
  }

  /** Releasing slabs of connection k touches nobody else's, and leaves none of them claimed. */
  lemma ReleaseOwned(c: C.Conn, c': C.Conn, v: Server, k: nat, slots: nat, clients: nat, done: set<nat>, size: nat)
    requires ServerInv(v, slots, clients) && k < clients && |c.chunkMap| == slots == |c'.chunkMap|
    requires c.live && Owned(c, v.tables.owner, k)
    requires forall i: nat :: i in done && i < slots ==> C.Claimed(c, i)
    requires forall i: nat :: i < slots ==> (C.Claimed(c', i) <==> C.Claimed(c, i) && i !in done)
    ensures var t := T.Release(v.tables, k, done, size);
            && ServerInv(v.(tables := t), slots, clients)
            && Owned(c', t.owner, k) && OthersKeep(v.tables.owner, t.owner, k)
  {
  }

  lemma DoneSafe(s: System, k: nat, d: nat)
    requires Safe(s) && Enabled(s, Deliver(k, d)) && ConnOf(s, k, d).up[0].Done?
    ensures Safe(DeliverUp(s, k, d))
  {
    var c := ConnOf(s, k, d);
    var t := s.servers[d].tables;
    var slots := c.up[0].slots;
    SafeConn(s, k, d);
    C.MessagesTake(c.up);
    TakeDoneKeepsConn(c, s.slots);
    EvictionMessageKeeps(s.clients[k], d, TakeDone(c), s.slots, s.pool);
    assert Owned(c, t.owner, k);
    ReleaseOwned(c, TakeDone(c), s.servers[d], k, s.slots, |s.clients|, slots, c.up[0].size);
    DaemonStepSafe(s, k, d, TakeDone(c), T.Release(t, k, slots, c.up[0].size));
  }

  lemma RoundSafe(s: System, k: nat, d: nat)
    requires Safe(s) && Enabled(s, StartRound(k, d))
    ensures Safe(SetConn(s, k, d, SendEvict(ConnOf(s, k, d))))
  {
    var c := ConnOf(s, k, d);
    SafeConn(s, k, d);
    C.MessagesAppend(c.down, C.Evict);
    EvictKeepsConn(c, s.slots);
    EvictionMessageKeeps(s.clients[k], d, SendEvict(c), s.slots, s.pool);
    MessageSafe(s, k, d, SendEvict(c));
  }

  lemma ChooseSafe(s: System, k: nat, d: nat, chosen: set<nat>, size: nat)
    requires Safe(s) && Enabled(s, Choose(k, d, chosen, size))
    ensures Safe(SetConn(s, k, d, SendStop(ConnOf(s, k, d), chosen, size)))
  {
    var c := ConnOf(s, k, d);
    SafeConn(s, k, d);
    C.MessagesAppend(c.down, C.Stop(chosen, size));
    StopKeepsConn(c, s.slots, chosen, size);
    EvictionMessageKeeps(s.clients[k], d, SendStop(c, chosen, size), s.slots, s.pool);
    MessageSafe(s, k, d, SendStop(c, chosen, size));
  }

  /** Server state changes that leave every slab with its owner. */
  lemma ServerStepSafe(s: System, d: nat, v: Server)
    requires Safe(s) && d < |s.servers| && ServerInv(v, s.slots, |s.clients|)
    requires v.tables.owner == s.servers[d].tables.owner
    ensures Safe(s.(servers := s.servers[d := v]))
  {
    var s' := s.(servers := s.servers[d := v]);
    forall j, e | 0 <= j < |s'.clients| && 0 <= e < |s'.servers| && e < |s'.clients[j].conns|
      ensures Owned(s'.clients[j].conns[e], s'.servers[e].tables.owner, j)
    {
      SafeConn(s, j, e);
      assert Owned(s.clients[j].conns[e], s.servers[e].tables.owner, j);
    }
  }

  lemma CutSafe(s: System, k: nat, d: nat)
    requires Safe(s) && Enabled(s, Cut(k, d))
    ensures Safe(SetConn(s, k, d, C.CutConn(ConnOf(s, k, d))))
  {
    CutKeeps(s.clients[k], d, s.slots, s.pool);
    ClientStepSafe(s, k, WithConn(s.clients[k], d, C.CutConn(ConnOf(s, k, d))));
  }

  lemma DestroySafe(s: System, k: nat, d: nat)
    requires Safe(s) && Enabled(s, Destroy(k, d))
    ensures Safe(SetTables(s, d, T.Destroy(s.servers[d].tables, k)))
  {
    var c := ConnOf(s, k, d);
    var t := T.Destroy(s.servers[d].tables, k);
    assert WithConn(s.clients[k], d, c) == s.clients[k];
    DaemonStepSafe(s, k, d, c, t);
    assert SetConn(SetTables(s, d, t), k, d, c).clients == s.clients;
  }

  lemma LandReadSafe(s: System, k: nat, ctx: Ctx)
    requires Safe(s) && Enabled(s, Land(k, ctx)) && s.clients[k].dev.flight[ctx].ReadOp?
    ensures Safe(LandOp(s, k, ctx))
  {
    var cl := s.clients[k];
    var op := cl.dev.flight[ctx];
    var value := s.servers[ctx.server].mem[op.slot][op.page % SLAB_PAGES];
    EndReadKeeps(cl, ctx, value, s.slots, s.pool);
    ReadDoneKeepsInv(cl.dev, ctx, value);
    ClientStepSafe(s, k, C.EndRead(cl, ctx, value));
  }

  /** The client whose write has landed. */
  lemma EndWriteSafe(s: System, k: nat, ctx: Ctx)
    requires Safe(s) && k < |s.clients| && C.CanComplete(s.clients[k], ctx, s.slots)
    requires s.clients[k].dev.flight[ctx].WriteOp?
    ensures Safe(s.(clients := s.clients[k := C.EndWrite(s.clients[k], ctx)]))
  {
    EndWriteKeeps(s.clients[k], ctx, s.slots, s.pool);
    WriteDoneKeepsInv(s.clients[k].dev, ctx);
    ClientStepSafe(s, k, C.EndWrite(s.clients[k], ctx));
  }

  lemma LandWriteSafe(s: System, k: nat, ctx: Ctx)
    requires Safe(s) && Enabled(s, Land(k, ctx)) && s.clients[k].dev.flight[ctx].WriteOp?
    ensures Safe(LandOp(s, k, ctx))
  {
    var cl := s.clients[k];
    var op := cl.dev.flight[ctx];
    FlightBuffered(cl.dev, ctx);
    EndWriteSafe(s, k, ctx);
    var v := Landed(s.servers[ctx.server], op.slot, op.page % SLAB_PAGES, cl.dev.buf[ctx]);
    LandKeepsServer(s.servers[ctx.server], op.slot, op.page % SLAB_PAGES, cl.dev.buf[ctx], s.slots, |s.clients|);
    ServerStepSafe(s.(clients := s.clients[k := C.EndWrite(cl, ctx)]), ctx.server, v);
  }

  lemma LandKeepsServer(v: Server, slot: nat, off: nat, data: seq<Page>, slots: nat, clients: nat)
    requires ServerInv(v, slots, clients) && slot < slots
    ensures ServerInv(Landed(v, slot, off, data), slots, clients)
  {
  }

  lemma DropSafe(s: System, d: nat, dropped: set<nat>)
    requires Safe(s) && Enabled(s, DropSlots(d, dropped))
    ensures Safe(SetTables(s, d, T.Drop(s.servers[d].tables, dropped)))
  {
    ServerStepSafe(s, d, s.servers[d].(tables := T.Drop(s.servers[d].tables, dropped)));
  }

  lemma GrowSafe(s: System, d: nat, grown: set<nat>)
    requires Safe(s) && Enabled(s, GrowSlots(d, grown))
    ensures Safe(s.(servers := s.servers[d := Grown(s.servers[d], grown)]))
  {
    ServerStepSafe(s, d, Grown(s.servers[d], grown));
  }

  lemma StepSafe(s: System, e: Step)
    requires Safe(s) && Enabled(s, e)
    ensures Safe(Next(s, e))
  {
    match e
    case AtClient(k, ev) =>
      ActKeeps(s.clients[k], ev, s.slots, s.pool);
      ActKeepsDisk(s.clients[k], ev, s.slots, s.pool);
      ClientStepSafe(s, k, C.Act(s.clients[k], ev, s.pool));
    case Land(k, ctx) =>
      if s.clients[k].dev.flight[ctx].ReadOp? {
        LandReadSafe(s, k, ctx);
      } else {
        LandWriteSafe(s, k, ctx);
      }
    case Deliver(k, d) =>
      match ConnOf(s, k, d).up[0] {
        case Query => QuerySafe(s, k, d);
        case Bind(_) => BindSafe(s, k, d);
        case Activity(_) => ActivitySafe(s, k, d);
        case _ => DoneSafe(s, k, d);
      }
    case StartRound(k, d) => RoundSafe(s, k, d);
    case Choose(k, d, chosen, size) => ChooseSafe(s, k, d, chosen, size);
    case DropSlots(d, dropped) => DropSafe(s, d, dropped);
    case GrowSlots(d, grown) => GrowSafe(s, d, grown);
    case Cut(k, d) => CutSafe(s, k, d);
    case Destroy(k, d) => DestroySafe(s, k, d);
  }
}
