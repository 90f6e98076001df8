/** The block device with its connections: session slab maps, per-server slot maps and bitmaps, the
    eviction thread, mapping operations and the disconnect handler.

    Each function below is one atomic action of a request handler, a completion handler or one of
    the device's threads. Everything about a connection that is not remote memory or a daemon table
    is part of the client's state, including the messages under way in both directions.
 */
module SwapClient {
  import opened BackupDisk

  datatype Msg =
    | Query | FreeSize(n: int)
    | Bind(slab: nat) | Info(slab: nat, slot: int)
    | Evict | Activity(slots: set<nat>)
    | Stop(slots: set<nat>, size: nat) | Done(slots: set<nat>, size: nat)

  /** Where the client's eviction thread is: idle, about to report activity, waiting for STOP, or
      unmapping (`todo` still mapped, `victims` already unmapped) and then scanning the contexts,
      of which the first `scan` have been passed. `size` is what the STOP gave. */
  datatype Phase = Ready | Asked | AwaitStop | Draining(todo: set<nat>, victims: map<nat, nat>, scan: nat, size: nat)

  /** Where the daemon's eviction round is with this connection. */
  datatype Round = Quiet | WaitActivity | Reported(slots: set<nat>) | WaitDone(slots: set<nat>, size: nat)

  /** Where the disconnect handler of a connection is: not running, returning the server's slabs, or
      mapping them elsewhere. */
  datatype Handler = NoHandler | Returning | Remapping

  datatype Conn = Conn(
    live: bool,
    failed: bool,              // client: CB_FAIL
    wasMapped: bool,           // client: past CB_CONNECTED, an INFO has been received
    handler: Handler,          // client: the disconnect handler
    evicting: bool,            // client: the eviction thread is between its STOP and the trigger's switching on
    chunkMap: seq<int>,        // client: slot -> session slab, or -1
    bits: seq<set<nat>>,       // client: slot -> pages recorded in the slab's bitmap
    phase: Phase,              // client
    remap: set<nat>,           // client: evicted session slabs not yet returned to the unmapped ones
    again: set<nat>,           // client: session slabs that the eviction thread or the handler has yet to map again
    up: seq<Msg>,              // client to daemon
    down: seq<Msg>,            // daemon to client
    round: Round,              // daemon
    boundSince: bool)          // history: a bind has been answered since the round's EVICT

  /** The mapping operation a client has under way; they are serialised. */
  datatype Mapping =
    | NoMapping
    | Querying(slab: nat, server: nat, answers: map<nat, int>)
    | Known(slab: nat, answers: map<nat, int>)
    | Binding(slab: nat, server: nat)

  datatype Client = Client(
    dev: Dev,
    cbIndexMap: seq<int>,      // session slab -> server, or -1
    slotMap: seq<int>,         // chunk_map_cb_chunk: session slab -> slot, or -1
    rdmaOn: bool,
    triggerOn: bool,           // trigger_enable, one for all connections
    freeIdx: int,              // free_chunk_index
    mapping: Mapping,
    conns: seq<Conn>)          // one per server

  // ---------------------------------------------------------------- messages

  predicate IsEviction(m: Msg) {
    m.Evict? || m.Activity? || m.Stop? || m.Done?
  }

  function Evictions(ms: seq<Msg>): seq<Msg> {
    if ms == [] then []
    else if IsEviction(ms[0]) then [ms[0]] + Evictions(ms[1..])
    else Evictions(ms[1..])
  }

  function Mappings(ms: seq<Msg>): seq<Msg> {
    if ms == [] then []
    else if IsEviction(ms[0]) then Mappings(ms[1..])
    else [ms[0]] + Mappings(ms[1..])
  }

  lemma {:induction false} MessagesAppend(ms: seq<Msg>, m: Msg)
    ensures Evictions(ms + [m]) == if IsEviction(m) then Evictions(ms) + [m] else Evictions(ms)
    ensures Mappings(ms + [m]) == if IsEviction(m) then Mappings(ms) else Mappings(ms) + [m]
  {
    if ms == [] {
      assert ms + [m] == [m];
    } else {
      assert (ms + [m])[1..] == ms[1..] + [m];
      MessagesAppend(ms[1..], m);
    }
  }

  lemma MessagesTake(ms: seq<Msg>)
    requires ms != []
    ensures IsEviction(ms[0]) ==>
              && Evictions(ms) != [] && Evictions(ms)[0] == ms[0]
              && Evictions(ms[1..]) == Evictions(ms)[1..] && Mappings(ms[1..]) == Mappings(ms)
    ensures !IsEviction(ms[0]) ==>
              && Mappings(ms) != [] && Mappings(ms)[0] == ms[0]
              && Mappings(ms[1..]) == Mappings(ms)[1..] && Evictions(ms[1..]) == Evictions(ms)
  {
  }

  /** Messages sent on a dead connection are lost. */
  function SendUp(c: Conn, m: Msg): Conn {
    if c.live then c.(up := c.up + [m]) else c
  }

  function SendDown(c: Conn, m: Msg): Conn {
    c.(down := c.down + [m])
  }

  // ---------------------------------------------------------------- derived views

  function Victims(c: Conn): map<nat, nat> {
    if c.phase.Draining? then c.phase.victims else map[]
  }

  function DoneSlots(c: Conn): set<nat> {
    var es := Evictions(c.up);
    if |es| == 1 && es[0].Done? then es[0].slots else {}
  }

  function InfoSlot(c: Conn): int {
    var ms := Mappings(c.down);
    if |ms| == 1 && ms[0].Info? then ms[0].slot else -1
  }

  /** The slot is in the client's hands, or on its way to or from them. */
  ghost predicate Claimed(c: Conn, i: nat)
    requires i < |c.chunkMap|
  {
    c.chunkMap[i] >= 0 || i in Victims(c) || i in DoneSlots(c) || InfoSlot(c) == i
  }

  /** The session slab a slot serves, also while it is being drained. */
  function SlabAt(c: Conn, i: nat): int
    requires i < |c.chunkMap|
  {
    if c.chunkMap[i] >= 0 then c.chunkMap[i] else if i in Victims(c) then Victims(c)[i] else -1
  }

  /** The connection still answers for the session slab. */
  ghost predicate Holds(c: Conn, slab: nat) {
    slab in c.chunkMap || slab in c.remap || exists i :: i in Victims(c) && Victims(c)[i] == slab
  }

  // ---------------------------------------------------------------- requests

  datatype Path = ToDisk | ToRemote(server: nat, slot: nat)

  /** Where a request confined to one session slab goes. */
  function Lookup(cl: Client, slab: nat): Path
    requires slab < |cl.cbIndexMap| == |cl.slotMap|
  {
    if cl.cbIndexMap[slab] < 0 || cl.slotMap[slab] < 0 || !cl.rdmaOn then ToDisk
    else ToRemote(cl.cbIndexMap[slab], cl.slotMap[slab])
  }

  /** Clear the recorded pages [lo, hi) of a session slab, if it is mapped. */
  function ClearBits(cl: Client, slab: nat, lo: nat, hi: nat): Client
    requires slab < |cl.cbIndexMap| == |cl.slotMap|
  {
    var d := cl.cbIndexMap[slab];
    var i := cl.slotMap[slab];
    if 0 <= d < |cl.conns| && 0 <= i < |cl.conns[d].bits| then
      cl.(conns := cl.conns[d := cl.conns[d].(bits := cl.conns[d].bits[i := cl.conns[d].bits[i] - PageRange(lo, hi)])])
    else cl
  }

  /** A request the block layer may hand over: it lies on the device and spans at most two slabs. */
  ghost predicate OnDevice(cl: Client, start: nat, len: nat) {
    && 0 < len <= SLAB_PAGES
    && |cl.cbIndexMap| == |cl.slotMap|
    && start + len <= |cl.cbIndexMap| * SLAB_PAGES
  }

  function FirstSlab(start: nat): nat { start / SLAB_PAGES }

  function LastSlab(start: nat, len: nat): nat
    requires len > 0
  {
    (start + len - 1) / SLAB_PAGES
  }

  function WritePath(cl: Client, start: nat, len: nat): Path
    requires OnDevice(cl, start, len)
  {
    if FirstSlab(start) == LastSlab(start, len) then Lookup(cl, FirstSlab(start)) else ToDisk
  }

  /** A path to remote memory needs a free context of that server's pool. */
  ghost predicate HasContext(cl: Client, path: Path, ctx: Ctx, pool: nat) {
    path.ToRemote? ==> ctx in cl.dev.free && ctx.server == path.server && ctx.index < pool
  }

  ghost predicate CanWrite(cl: Client, start: nat, data: seq<Page>, ctx: Ctx, pool: nat) {
    && OnDevice(cl, start, |data|)
    && NoOverlap(cl.dev, start, |data|)
    && HasContext(cl, WritePath(cl, start, |data|), ctx, pool)
  }

  /** IS_request for a write, including the give-up branch of IS_rdma_write: a write inside one
      mapped slab goes to remote memory with RDMA on; any other goes to disk, and one across two
      slabs first clears the recorded bits of both. */
  function AcceptWrite(cl: Client, start: nat, data: seq<Page>, ctx: Ctx): Client
    requires OnDevice(cl, start, |data|)
  {
    match WritePath(cl, start, |data|)
    case ToRemote(_, slot) => cl.(dev := RdmaWrite(cl.dev, ctx, slot, start, data))
    case ToDisk =>
      var first := FirstSlab(start);
      var last := LastSlab(start, |data|);
      var cl' :=
        if first == last then cl
        else ClearBits(ClearBits(cl, first, start % SLAB_PAGES, SLAB_PAGES),
                       last, 0, start % SLAB_PAGES + |data| - SLAB_PAGES);
      cl'.(dev := DiskWrite(cl.dev, start, data))
  }

  /** Where IS_request sends a one-page read: remote only when the page is recorded there. */
  function ReadPath(cl: Client, page: nat): Path
    requires OnDevice(cl, page, 1)
  {
    match Lookup(cl, FirstSlab(page))
    case ToDisk => ToDisk
    case ToRemote(d, i) =>
      if d < |cl.conns| && i < |cl.conns[d].bits| && page % SLAB_PAGES in cl.conns[d].bits[i]
      then ToRemote(d, i) else ToDisk
  }

  /** Page p of the device is the target of an RDMA write in flight. */
  ghost predicate WriteInFlight(d: Dev, p: nat) {
    exists c :: c in d.flight && d.flight[c].WriteOp? && d.flight[c].Covers(p)
  }

  ghost predicate CanRead(cl: Client, page: nat, ctx: Ctx, pool: nat) {
    && OnDevice(cl, page, 1)
    && !WriteInFlight(cl.dev, page)
    && HasContext(cl, ReadPath(cl, page), ctx, pool)
  }

  function AcceptRead(cl: Client, page: nat, ctx: Ctx): Client
    requires OnDevice(cl, page, 1)
  {
    match ReadPath(cl, page)
    case ToDisk => cl.(dev := DiskRead(cl.dev, page))
    case ToRemote(_, slot) => cl.(dev := RdmaRead(cl.dev, ctx, slot, page))
  }

  // ---------------------------------------------------------------- completions

  ghost predicate CanComplete(cl: Client, ctx: Ctx, slots: nat) {
    && ctx in cl.dev.flight && ctx.server < |cl.conns| && cl.conns[ctx.server].live
    && cl.dev.flight[ctx].slot < slots == |cl.conns[ctx.server].bits|
  }

  /** client_write_done: the pages are recorded in the slab's bitmap. */
  function EndWrite(cl: Client, ctx: Ctx): Client
    requires ctx in cl.dev.flight && cl.dev.flight[ctx].WriteOp? && ctx.server < |cl.conns|
    requires cl.dev.flight[ctx].slot < |cl.conns[ctx.server].bits|
  {
    var op := cl.dev.flight[ctx];
    var off := op.page % SLAB_PAGES;
    var c := cl.conns[ctx.server];
    cl.(dev := WriteDone(cl.dev, ctx),
        conns := cl.conns[ctx.server := c.(bits := c.bits[op.slot := c.bits[op.slot] + PageRange(off, off + op.len)])])
  }

  /** client_read_done. */
  function EndRead(cl: Client, ctx: Ctx, value: Page): Client {
    cl.(dev := ReadDone(cl.dev, ctx, value))
  }

  /** The bio queue thread. */
  function PopBio(cl: Client): Client
    requires Inv(cl.dev) && cl.dev.fifo != []
  {
    PopIsDefined(cl.dev);
    cl.(dev := Pop(cl.dev))
  }

  // ---------------------------------------------------------------- mapping a slab

  /** What rdma_trigger tests before it maps a slab. It does not look at the slab's slot. */
  ghost predicate TriggerMaps(cl: Client, slab: nat) {
    cl.triggerOn && slab < |cl.cbIndexMap| && cl.cbIndexMap[slab] == -1
  }

  /** The eviction thread and the disconnect handler map again what they have returned, without a test. */
  ghost predicate ThreadMaps(cl: Client, d: nat, slab: nat) {
    && d < |cl.conns| && slab < |cl.slotMap| && slab in cl.conns[d].again
    && (cl.conns[d].evicting || cl.conns[d].handler == Remapping)
  }

  /** IS_single_chunk_map begins. */
  function StartMapping(cl: Client, slab: nat): Client {
    cl.(mapping := Known(slab, map[]))
  }

  function ThreadStarts(cl: Client, d: nat, slab: nat): Client
    requires d < |cl.conns|
  {
    StartMapping(cl.(conns := cl.conns[d := cl.conns[d].(again := cl.conns[d].again - {slab})]), slab)
  }

  ghost predicate CanQuery(cl: Client, d: nat) {
    d < |cl.conns| && !cl.conns[d].failed && cl.mapping.Known? && d !in cl.mapping.answers
  }

  function SendQuery(cl: Client, d: nat): Client
    requires d < |cl.conns| && cl.mapping.Known?
  {
    cl.(mapping := Querying(cl.mapping.slab, d, cl.mapping.answers),
        conns := cl.conns[d := SendUp(cl.conns[d], Query)])
  }

  /** A message is waiting at the client. An EVICT is taken up only by an idle eviction thread. */
  ghost predicate CanReceive(cl: Client, d: nat) {
    && d < |cl.conns| && cl.conns[d].live && cl.conns[d].down != []
    && match cl.conns[d].down[0]
       case FreeSize(_) => cl.mapping.Querying? && cl.mapping.server == d
       case Info(slab, slot) =>
         slot < |cl.conns[d].chunkMap| && slot < |cl.conns[d].bits| && slab < |cl.slotMap| == |cl.cbIndexMap|
       case Evict => cl.conns[d].phase == Ready
       case Stop(_, _) => cl.conns[d].phase == AwaitStop
       case _ => false
  }

  function RecvFreeSize(cl: Client, d: nat): Client
    requires CanReceive(cl, d) && cl.conns[d].down[0].FreeSize?
  {
    var c := cl.conns[d];
    cl.(mapping := Known(cl.mapping.slab, cl.mapping.answers[d := c.down[0].n]),
        conns := cl.conns[d := c.(down := c.down[1..])])
  }

  /** IS_single_chunk_init: enter the slab in both maps with an empty bitmap. An answer without a
      slab changes no map; either way the mapping operation ends with RDMA on. */
  function RecvInfo(cl: Client, d: nat): Client
    requires CanReceive(cl, d) && cl.conns[d].down[0].Info?
  {
    var c := cl.conns[d].(down := cl.conns[d].down[1..], wasMapped := true);
    var m := cl.conns[d].down[0];
    var cl' := cl.(mapping := NoMapping, rdmaOn := true);
    if m.slot < 0 then cl'.(conns := cl.conns[d := c])
    else
      cl'.(cbIndexMap := cl.cbIndexMap[m.slab := d],
           slotMap := cl.slotMap[m.slab := m.slot],
           freeIdx := cl.freeIdx - 1,
           conns := cl.conns[d := c.(chunkMap := c.chunkMap[m.slot := m.slab], bits := c.bits[m.slot := {}])])
  }

  function RecvEvict(c: Conn): Conn
    requires c.down != []
  {
    c.(down := c.down[1..], phase := Asked)
  }

  /** A size of zero means that no slab has to go. */
  function RecvStop(c: Conn): Conn
    requires c.down != [] && c.down[0].Stop?
  {
    var m := c.down[0];
    if m.size == 0 then c.(down := c.down[1..], phase := Ready)
    else c.(down := c.down[1..], phase := Draining(m.slots, map[], 0, m.size), evicting := true)
  }

  function Receive(cl: Client, d: nat): Client
    requires CanReceive(cl, d)
  {
    match cl.conns[d].down[0]
    case FreeSize(_) => RecvFreeSize(cl, d)
    case Info(_, _) => RecvInfo(cl, d)
    case Evict => cl.(conns := cl.conns[d := RecvEvict(cl.conns[d])])
    case Stop(_, size) => cl.(conns := cl.conns[d := RecvStop(cl.conns[d])], triggerOn := cl.triggerOn && size == 0)
  }

  /** Bind to a queried server of maximal free memory, unless that maximum is zero. */
  ghost predicate CanBind(cl: Client, d: nat) {
    && d < |cl.conns| && cl.mapping.Known? && !cl.conns[d].failed
    && d in cl.mapping.answers && cl.mapping.answers[d] != 0
    && forall e :: e in cl.mapping.answers ==> cl.mapping.answers[e] <= cl.mapping.answers[d]
  }

  function SendBind(cl: Client, d: nat): Client
    requires d < |cl.conns| && cl.mapping.Known?
  {
    cl.(mapping := Binding(cl.mapping.slab, d),
        conns := cl.conns[d := SendUp(cl.conns[d], Bind(cl.mapping.slab))])
  }

  function GiveUp(cl: Client): Client {
    cl.(mapping := NoMapping)
  }

  // ---------------------------------------------------------------- eviction

  ghost predicate CanReport(cl: Client, d: nat) {
    d < |cl.conns| && cl.conns[d].phase == Asked && !cl.conns[d].evicting
  }

  function MappedSlots(c: Conn): set<nat> {
    set i: nat | i < |c.chunkMap| && c.chunkMap[i] >= 0
  }

  /** IS_send_activity: a nonzero entry for exactly the mapped slots. */
  function SendActivity(c: Conn): Conn {
    SendUp(c, Activity(MappedSlots(c))).(phase := AwaitStop)
  }

  ghost predicate CanUnmap(cl: Client, d: nat, i: nat) {
    && d < |cl.conns| && cl.conns[d].phase.Draining? && i in cl.conns[d].phase.todo
    && i < |cl.conns[d].chunkMap| && 0 <= cl.conns[d].chunkMap[i] < |cl.cbIndexMap|
  }

  function UnmapSlot(c: Conn, i: nat): Conn
    requires c.phase.Draining? && i < |c.chunkMap| && c.chunkMap[i] >= 0
  {
    c.(chunkMap := c.chunkMap[i := -1],
       phase := c.phase.(todo := c.phase.todo - {i}, victims := c.phase.victims[i := c.chunkMap[i]]))
  }

  /** Stop new operations on one victim slab. */
  function Unmap(cl: Client, d: nat, i: nat): Client
    requires CanUnmap(cl, d, i)
  {
    cl.(cbIndexMap := cl.cbIndexMap[cl.conns[d].chunkMap[i] := -1],
        conns := cl.conns[d := UnmapSlot(cl.conns[d], i)])
  }

  ghost predicate CanScan(cl: Client, d: nat, pool: nat) {
    && d < |cl.conns| && cl.conns[d].phase.Draining?
    && cl.conns[d].phase.todo == {} && cl.conns[d].phase.scan < pool
  }

  /** Look at one context of the pool: a busy one on an unmapped slot restarts the scan. */
  function ScanContext(c: Conn, d: nat, flight: map<Ctx, Op>): Conn
    requires c.phase.Draining?
  {
    var x := Ctx(d, c.phase.scan);
    var busy := x in flight && flight[x].slot < |c.chunkMap| && c.chunkMap[flight[x].slot] < 0;
    c.(phase := c.phase.(scan := if busy then 0 else c.phase.scan + 1))
  }

  ghost predicate CanFinish(cl: Client, d: nat, pool: nat) {
    && d < |cl.conns| && cl.conns[d].phase.Draining?
    && cl.conns[d].phase.todo == {} && cl.conns[d].phase.scan == pool
  }

  /** The scan is through: forget the bitmaps and tell the daemon. */
  function SendDone(c: Conn): Conn
    requires c.phase.Draining?
  {
    var vs := c.phase.victims;
    SendUp(c, Done(vs.Keys, c.phase.size)).(
      bits := seq(|c.bits|, i requires 0 <= i < |c.bits| => if i in vs then {} else c.bits[i]),
      phase := Ready,
      remap := c.remap + vs.Values)
  }

  ghost predicate CanForget(cl: Client, d: nat, b: nat) {
    d < |cl.conns| && b in cl.conns[d].remap && b < |cl.slotMap|
  }

  /** The eviction thread returns one evicted session slab to the unmapped ones. */
  function Forget(cl: Client, d: nat, b: nat): Client
    requires CanForget(cl, d, b)
  {
    cl.(slotMap := cl.slotMap[b := -1], freeIdx := cl.freeIdx + 1,
        conns := cl.conns[d := Forgetting(cl.conns[d], b)])
  }

  function Forgetting(c: Conn, b: nat): Conn {
    c.(remap := c.remap - {b}, again := c.again + {b})
  }

  /** The thread or the handler has mapped again all it should. While both are at work on one connection,
      each may end before the other. */
  ghost predicate AllMappedAgain(c: Conn) {
    c.again == {} || (c.evicting && c.handler != NoHandler)
  }

  ghost predicate CanEndEviction(cl: Client, d: nat) {
    && d < |cl.conns| && cl.conns[d].evicting && !cl.conns[d].phase.Draining?
    && cl.conns[d].remap == {} && AllMappedAgain(cl.conns[d])
  }

  /** The end of the eviction thread's loop: the trigger is on again, whatever other connections do. */
  function EvictionEnds(cl: Client, d: nat): Client
    requires d < |cl.conns|
  {
    cl.(triggerOn := true, conns := cl.conns[d := cl.conns[d].(evicting := false)])
  }

  // ---------------------------------------------------------------- disconnects

  function CutConn(c: Conn): Conn {
    c.(live := false, up := [], down := [])
  }

  ghost predicate IsDown(cl: Client, d: nat) {
    d < |cl.conns| && !cl.conns[d].live
  }

  function MappedSlabs(c: Conn): set<nat> {
    set i | 0 <= i < |c.chunkMap| && c.chunkMap[i] >= 0 :: c.chunkMap[i] as nat
  }

  function FailConn(c: Conn): Conn {
    c.(failed := true, handler := Returning, again := c.again + MappedSlabs(c),
       bits := seq(|c.bits|, i requires 0 <= i < |c.bits| =>
         if i < |c.chunkMap| && c.chunkMap[i] >= 0 then {} else c.bits[i]))
  }

  /** IS_disconnect_handler, first part: trigger and RDMA off, and no request may use the server's slabs. */
  function FailBegin(cl: Client, d: nat): Client
    requires d < |cl.conns|
  {
    cl.(rdmaOn := false, triggerOn := false,
        cbIndexMap := seq(|cl.cbIndexMap|, b requires 0 <= b < |cl.cbIndexMap| =>
          if b in cl.conns[d].chunkMap then -1 else cl.cbIndexMap[b]),
        conns := cl.conns[d := FailConn(cl.conns[d])])
  }

  ghost predicate NothingMapped(c: Conn) {
    forall i :: 0 <= i < |c.chunkMap| ==> c.chunkMap[i] == -1
  }

  /** A server that was connected but never mapped only changes state, and RDMA stays as it is. */
  function FailIdle(cl: Client, d: nat): Client
    requires d < |cl.conns|
  {
    cl.(conns := cl.conns[d := cl.conns[d].(failed := true)])
  }

  ghost predicate CanAbandon(cl: Client, ctx: Ctx) {
    ctx in cl.dev.flight && ctx.server < |cl.conns| && cl.conns[ctx.server].failed
  }

  function AbandonCtx(cl: Client, ctx: Ctx): Client
    requires ctx in cl.dev.flight
  {
    cl.(dev := Abandon(cl.dev, ctx))
  }

  ghost predicate CanFailSlot(cl: Client, d: nat, i: nat) {
    && d < |cl.conns| && cl.conns[d].failed && i < |cl.conns[d].chunkMap|
    && 0 <= cl.conns[d].chunkMap[i] < |cl.slotMap|
  }

  /** Return one slab of a failed server to the unmapped ones. */
  function FailSlot(cl: Client, d: nat, i: nat): Client
    requires CanFailSlot(cl, d, i)
  {
    var c := cl.conns[d];
    cl.(slotMap := cl.slotMap[c.chunkMap[i] := -1], freeIdx := cl.freeIdx + 1,
        conns := cl.conns[d := Released(c, i)])
  }

  function Released(c: Conn, i: nat): Conn
    requires i < |c.chunkMap|
  {
    c.(chunkMap := c.chunkMap[i := -1])
  }

  ghost predicate CanEndFailure(cl: Client, d: nat) {
    d < |cl.conns| && cl.conns[d].handler == Returning && NothingMapped(cl.conns[d])
  }

  /** All slabs are returned: RDMA on, and the handler maps them elsewhere. */
  function FailEnd(cl: Client, d: nat): Client
    requires d < |cl.conns|
  {
    cl.(rdmaOn := true, conns := cl.conns[d := cl.conns[d].(handler := Remapping)])
  }

  ghost predicate CanResume(cl: Client, d: nat) {
    d < |cl.conns| && cl.conns[d].handler == Remapping && AllMappedAgain(cl.conns[d])
  }

  /** The end of the handler. */
  function Resume(cl: Client, d: nat): Client
    requires d < |cl.conns|
  {
    cl.(triggerOn := true, conns := cl.conns[d := cl.conns[d].(handler := NoHandler)])
  }

  // ---------------------------------------------------------------- all client actions

  datatype Event =
    | Write(start: nat, data: seq<Page>, ctx: Ctx)
    | Read(page: nat, ctx: Ctx)
    | PopFifo
    | TriggerMapping(slab: nat)
    | ThreadMapping(d: nat, slab: nat)
    | AskServer(d: nat)
    | TakeMessage(d: nat)
    | BindTo(d: nat)
    | StopMapping
    | ReportActivity(d: nat)
    | UnmapVictim(d: nat, i: nat)
    | ScanNext(d: nat)
    | FinishEviction(d: nat)
    | ForgetSlab(d: nat, b: nat)
    | EndEviction(d: nat)
    | BeginFailure(d: nat)
    | FailUnmapped(d: nat)
    | Abandoned(ctx: Ctx)
    | FailOneSlot(d: nat, i: nat)
    | EndFailure(d: nat)
    | ResumeTrigger(d: nat)

  ghost predicate Enabled(cl: Client, e: Event, pool: nat) {
    match e
    case Write(start, data, ctx) => CanWrite(cl, start, data, ctx, pool)
    case Read(page, ctx) => CanRead(cl, page, ctx, pool)
    case PopFifo => PopAllowed(cl.dev)
    case TriggerMapping(slab) => cl.mapping == NoMapping && TriggerMaps(cl, slab)
    case ThreadMapping(d, slab) => cl.mapping == NoMapping && ThreadMaps(cl, d, slab)
    case AskServer(d) => CanQuery(cl, d)
    case TakeMessage(d) => CanReceive(cl, d)
    case BindTo(d) => CanBind(cl, d)
    case StopMapping => cl.mapping.Known?
    case ReportActivity(d) => CanReport(cl, d)
    case UnmapVictim(d, i) => CanUnmap(cl, d, i)
    case ScanNext(d) => CanScan(cl, d, pool)
    case FinishEviction(d) => CanFinish(cl, d, pool)
    case ForgetSlab(d, b) => CanForget(cl, d, b)
    case EndEviction(d) => CanEndEviction(cl, d)
    case BeginFailure(d) => IsDown(cl, d) && !cl.conns[d].failed && cl.conns[d].wasMapped
    case FailUnmapped(d) => IsDown(cl, d) && !cl.conns[d].failed && !cl.conns[d].wasMapped
    case Abandoned(ctx) => CanAbandon(cl, ctx)
    case FailOneSlot(d, i) => CanFailSlot(cl, d, i)
    case EndFailure(d) => CanEndFailure(cl, d)
    case ResumeTrigger(d) => CanResume(cl, d)
  }

  ghost function Act(cl: Client, e: Event, pool: nat): Client
    requires Inv(cl.dev) && Enabled(cl, e, pool)
  {
    match e
    case Write(start, data, ctx) => AcceptWrite(cl, start, data, ctx)
    case Read(page, ctx) => AcceptRead(cl, page, ctx)
    case PopFifo => PopBio(cl)
    case TakeMessage(d) => Receive(cl, d)
    case _ => ThreadAct(cl, e, pool)
  }

  predicate IsThreadAct(e: Event) {
    !e.Write? && !e.Read? && !e.PopFifo? && !e.TakeMessage?
  }

  /** What mapping operations, eviction threads and disconnect handlers do by themselves. */
  ghost function ThreadAct(cl: Client, e: Event, pool: nat): Client
    requires Enabled(cl, e, pool) && IsThreadAct(e)
  {
    match e
    case TriggerMapping(slab) => StartMapping(cl, slab)
    case ThreadMapping(d, slab) => ThreadStarts(cl, d, slab)
    case AskServer(d) => SendQuery(cl, d)
    case BindTo(d) => SendBind(cl, d)
    case StopMapping => GiveUp(cl)
    case ReportActivity(d) => cl.(conns := cl.conns[d := SendActivity(cl.conns[d])])
    case UnmapVictim(d, i) => Unmap(cl, d, i)
    case ScanNext(d) => cl.(conns := cl.conns[d := ScanContext(cl.conns[d], d, cl.dev.flight)])
    case FinishEviction(d) => cl.(conns := cl.conns[d := SendDone(cl.conns[d])])
    case ForgetSlab(d, b) => Forget(cl, d, b)
    case EndEviction(d) => EvictionEnds(cl, d)
    case BeginFailure(d) => FailBegin(cl, d)
    case FailUnmapped(d) => FailIdle(cl, d)
    case Abandoned(ctx) => AbandonCtx(cl, ctx)
    case FailOneSlot(d, i) => FailSlot(cl, d, i)
    case EndFailure(d) => FailEnd(cl, d)
    case ResumeTrigger(d) => Resume(cl, d)
  }
}
