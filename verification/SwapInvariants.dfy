/** What every reachable client state satisfies, and the proof that each client action keeps it.

    The invariant is split so that an action only has to argue about the parts it touches: one
    connection by itself, the slab maps against all connections, the mapping operation, the RDMA
    operations in flight, and the drain scan.
 */
module SwapInvariants {
  import opened BackupDisk
  import opened SwapClient

  // ---------------------------------------------------------------- one connection

  ghost predicate AllMapped(c: Conn, slots: set<nat>) {
    forall i :: i in slots ==> i < |c.chunkMap| && c.chunkMap[i] >= 0
  }

  /** The eviction conversation on a live connection: exactly one party has the turn, and every slot
      named on the way to the client is one the client still has mapped. */
  ghost predicate Turn(c: Conn) {
    var down := Evictions(c.down);
    var up := Evictions(c.up);
    match c.round
    case Quiet =>
      up == [] && ((down == [] && c.phase == Ready) || (down == [Stop({}, 0)] && c.phase == AwaitStop))
    case WaitActivity =>
      || (up == [] && down == [Stop({}, 0), Evict] && c.phase == AwaitStop)
      || (up == [] && down == [Evict] && c.phase == Ready)
      || (up == [] && down == [] && c.phase == Asked)
      || (down == [] && c.phase == AwaitStop && |up| == 1 && up[0].Activity? && AllMapped(c, up[0].slots))
    case Reported(slots) =>
      up == [] && down == [] && c.phase == AwaitStop && AllMapped(c, slots)
    case WaitDone(slots, size) =>
      && size != 0
      && (|| (up == [] && down == [Stop(slots, size)] && c.phase == AwaitStop && slots != {} && AllMapped(c, slots))
          || (up == [] && down == [] && c.phase.Draining? && slots == c.phase.todo + c.phase.victims.Keys
                && size == c.phase.size && AllMapped(c, c.phase.todo))
          || (up == [Done(slots, size)] && down == [] && c.phase == Ready))
  }

  /** No slot is claimed twice. */
  ghost predicate ClaimsDistinct(c: Conn) {
    && (forall i :: 0 <= i < |c.chunkMap| && c.chunkMap[i] >= 0 ==>
          i !in Victims(c) && i !in DoneSlots(c) && InfoSlot(c) != i)
    && (forall i: nat :: i in Victims(c) ==> i < |c.chunkMap| && InfoSlot(c) != i)
    && (forall i: nat :: i in DoneSlots(c) ==> i < |c.chunkMap| && InfoSlot(c) != i)
    && InfoSlot(c) < |c.chunkMap|
  }

  /** A slot being drained is no longer mapped. */
  ghost predicate SlotsOk(c: Conn) {
    && (forall i :: 0 <= i < |c.chunkMap| ==> c.chunkMap[i] >= -1)
    && (forall i :: i in Victims(c) ==> i < |c.chunkMap| && c.chunkMap[i] == -1)
  }

  /** The slots still to be unmapped are mapped, unless the server has failed. */
  ghost predicate TodoOk(c: Conn) {
    c.phase.Draining? ==>
      forall i :: i in c.phase.todo ==> i < |c.chunkMap| && (!c.failed ==> c.chunkMap[i] >= 0)
  }

  ghost predicate ConnInv(c: Conn, slots: nat) {
    && |c.chunkMap| == slots && |c.bits| == slots
    && (c.failed ==> !c.live)
    && (c.wasMapped || NothingMapped(c))
    && TodoOk(c)
    && SlotsOk(c)
    && (c.live ==> Turn(c) && ClaimsDistinct(c))
  }

  /** The parts of a connection the slab maps depend on. */
  ghost predicate SameMaps(c: Conn, c': Conn) {
    && c'.chunkMap == c.chunkMap && |c'.bits| == |c.bits|
    && Victims(c') == Victims(c) && c'.remap == c.remap
    && c'.failed == c.failed && c'.live == c.live
  }

  /** Mapping messages other than a slab handed out do not matter to the connection. */
  lemma MappingMessageKeepsConn(c: Conn, c': Conn, slots: nat)
    requires ConnInv(c, slots)
    requires c' == c.(up := c'.up, down := c'.down, wasMapped := c'.wasMapped) && (c.wasMapped ==> c'.wasMapped)
    requires Evictions(c'.up) == Evictions(c.up) && Evictions(c'.down) == Evictions(c.down)
    requires InfoSlot(c') == InfoSlot(c)
    ensures ConnInv(c', slots) && SameMaps(c, c')
    ensures forall i: nat :: i < slots ==> (Claimed(c', i) <==> Claimed(c, i))
  {
    assert DoneSlots(c') == DoneSlots(c) && Victims(c') == Victims(c);
  }

  lemma SendMappingKeepsConn(c: Conn, slots: nat, m: Msg)
    requires ConnInv(c, slots) && !IsEviction(m)
    ensures ConnInv(SendUp(c, m), slots) && SameMaps(c, SendUp(c, m))
    ensures forall i: nat :: i < slots ==> (Claimed(SendUp(c, m), i) <==> Claimed(c, i))
  {
    MessagesAppend(c.up, m);
    MappingMessageKeepsConn(c, SendUp(c, m), slots);
  }

  lemma RecvFreeSizeKeepsConn(c: Conn, slots: nat)
    requires ConnInv(c, slots) && c.down != [] && c.down[0].FreeSize?
    requires Mappings(c.down) == [c.down[0]]
    ensures var c' := c.(down := c.down[1..]);
            ConnInv(c', slots) && SameMaps(c, c')
            && forall i: nat :: i < slots ==> (Claimed(c', i) <==> Claimed(c, i))
  {
    MessagesTake(c.down);
    MappingMessageKeepsConn(c, c.(down := c.down[1..]), slots);
  }

  lemma RecvEvictKeepsConn(c: Conn, slots: nat)
    requires ConnInv(c, slots) && c.live && c.down != [] && c.down[0].Evict? && c.phase == Ready
    ensures ConnInv(RecvEvict(c), slots) && SameMaps(c, RecvEvict(c))
    ensures forall i: nat :: i < slots ==> (Claimed(RecvEvict(c), i) <==> Claimed(c, i))
  {
    MessagesTake(c.down);
  }

  lemma RecvStopKeepsConn(c: Conn, slots: nat)
    requires ConnInv(c, slots) && c.live && c.down != [] && c.down[0].Stop? && c.phase == AwaitStop
    ensures ConnInv(RecvStop(c), slots) && SameMaps(c, RecvStop(c))
    ensures forall i: nat :: i < slots ==> (Claimed(RecvStop(c), i) <==> Claimed(c, i))
  {
    MessagesTake(c.down);
    assert Evictions(c.down) == [c.down[0]] + Evictions(c.down[1..]);
    var c' := RecvStop(c);
    assert Victims(c') == map[] == Victims(c) && DoneSlots(c') == DoneSlots(c) && InfoSlot(c') == InfoSlot(c);
  }

  lemma SendActivityKeepsConn(c: Conn, slots: nat)
    requires ConnInv(c, slots) && c.phase == Asked
    ensures ConnInv(SendActivity(c), slots) && SameMaps(c, SendActivity(c))
    ensures forall i: nat :: i < slots ==> (Claimed(SendActivity(c), i) <==> Claimed(c, i))
  {
    MessagesAppend(c.up, Activity(MappedSlots(c)));
    var c' := SendActivity(c);
    assert c.live ==> Evictions(c'.up) == [Activity(MappedSlots(c))];
    assert DoneSlots(c') == DoneSlots(c) && InfoSlot(c') == InfoSlot(c) && Victims(c') == Victims(c);
  }

  lemma ScanKeepsConn(c: Conn, slots: nat, d: nat, flight: map<Ctx, Op>)
    requires ConnInv(c, slots) && c.phase.Draining?
    ensures ConnInv(ScanContext(c, d, flight), slots) && SameMaps(c, ScanContext(c, d, flight))
    ensures forall i: nat :: i < slots ==> (Claimed(ScanContext(c, d, flight), i) <==> Claimed(c, i))
  {
    var c' := ScanContext(c, d, flight);
    assert c' == c.(phase := c.phase.(scan := c'.phase.scan));
    assert DoneSlots(c') == DoneSlots(c) && InfoSlot(c') == InfoSlot(c) && Victims(c') == Victims(c);
  }

  lemma UnmapKeepsConn(c: Conn, slots: nat, i: nat)
    requires ConnInv(c, slots) && c.phase.Draining? && i in c.phase.todo
    requires i < |c.chunkMap| && c.chunkMap[i] >= 0
    ensures ConnInv(UnmapSlot(c, i), slots)
    ensures forall j: nat :: j < slots ==> (Claimed(UnmapSlot(c, i), j) <==> Claimed(c, j))
  {
    var c' := UnmapSlot(c, i);
    assert c.phase.todo + c.phase.victims.Keys == c'.phase.todo + c'.phase.victims.Keys;
    assert DoneSlots(c') == DoneSlots(c) && InfoSlot(c') == InfoSlot(c);
  }

  lemma SendDoneKeepsConn(c: Conn, slots: nat)
    requires ConnInv(c, slots) && c.phase.Draining? && c.phase.todo == {}
    ensures ConnInv(SendDone(c), slots)
    ensures c.live ==> forall i: nat :: i < slots ==> (Claimed(SendDone(c), i) <==> Claimed(c, i))
  {
    var vs := c.phase.victims;
    MessagesAppend(c.up, Done(vs.Keys, c.phase.size));
    assert c.phase.todo + vs.Keys == vs.Keys;
    var c' := SendDone(c);
    assert c.live ==> Evictions(c'.up) == [Done(vs.Keys, c.phase.size)];
    assert c.live ==> DoneSlots(c') == vs.Keys && DoneSlots(c) == {};
    assert InfoSlot(c') == InfoSlot(c) && Victims(c') == map[] && Victims(c) == vs;
  }

  /** IS_single_chunk_init as seen by the connection. */
  function Entered(c: Conn, slab: nat, slot: nat): Conn
    requires slot < |c.chunkMap| && slot < |c.bits| && c.down != []
  {
    c.(down := c.down[1..], wasMapped := true, chunkMap := c.chunkMap[slot := slab], bits := c.bits[slot := {}])
  }

  lemma EnteredKeepsConn(c: Conn, slots: nat)
    requires ConnInv(c, slots) && c.live && c.down != [] && c.down[0].Info?
    requires Mappings(c.down) == [c.down[0]]
    requires 0 <= c.down[0].slot
    ensures c.down[0].slot < slots && c.chunkMap[c.down[0].slot] == -1 && c.down[0].slot !in Victims(c)
    ensures var c' := Entered(c, c.down[0].slab, c.down[0].slot);
            && ConnInv(c', slots)
            && forall i: nat :: i < slots ==> (Claimed(c', i) <==> Claimed(c, i))
  {
    MessagesTake(c.down);
    var m := c.down[0];
    assert InfoSlot(c) == m.slot;
    var c' := Entered(c, m.slab, m.slot);
    assert DoneSlots(c') == DoneSlots(c) && Victims(c') == Victims(c) && InfoSlot(c') == -1;
  }

  lemma CutKeepsConn(c: Conn, slots: nat)
    requires ConnInv(c, slots)
    ensures ConnInv(CutConn(c), slots)
    ensures forall b: nat :: Holds(CutConn(c), b) <==> Holds(c, b)
  {
    assert Victims(CutConn(c)) == Victims(c);
  }

  lemma FailKeepsConn(c: Conn, slots: nat)
    requires ConnInv(c, slots) && !c.live
    ensures ConnInv(FailConn(c), slots)
    ensures forall b: nat :: Holds(FailConn(c), b) <==> Holds(c, b)
  {
    assert Victims(FailConn(c)) == Victims(c);
  }

  lemma ReleasedKeepsConn(c: Conn, slots: nat, i: nat)
    requires ConnInv(c, slots) && c.failed && i < slots && c.chunkMap[i] >= 0
    ensures ConnInv(Released(c, i), slots)
    ensures forall b: nat :: Holds(Released(c, i), b) ==> Holds(c, b)
  {
    var c' := Released(c, i);
    forall b: nat | b in c'.chunkMap ensures b in c.chunkMap {
      var j :| 0 <= j < |c.chunkMap| && c'.chunkMap[j] == b;
      assert c.chunkMap[j] == b;
    }
    assert Victims(c') == Victims(c);
  }

  lemma ForgetKeepsConn(c: Conn, slots: nat, b: nat)
    requires ConnInv(c, slots)
    ensures ConnInv(Forgetting(c, b), slots)
    ensures forall x: nat :: Holds(Forgetting(c, b), x) ==> Holds(c, x)
    ensures forall i: nat :: i < slots ==> (Claimed(Forgetting(c, b), i) <==> Claimed(c, i))
  {
    var c' := Forgetting(c, b);
    assert Victims(c') == Victims(c) && DoneSlots(c') == DoneSlots(c) && InfoSlot(c') == InfoSlot(c);
  }

  /** Parts of a connection that only say where the client's threads are. */
  ghost predicate SameButThreads(c: Conn, c': Conn) {
    c' == c.(again := c'.again, evicting := c'.evicting, handler := c'.handler)
  }

  lemma ThreadsDoNotMatter(c: Conn, c': Conn, slots: nat)
    requires ConnInv(c, slots) && SameButThreads(c, c')
    ensures ConnInv(c', slots) && SameMaps(c, c') && c'.phase == c.phase
    ensures forall i: nat :: i < slots ==> (Claimed(c', i) <==> Claimed(c, i))
  {
    assert Victims(c') == Victims(c) && DoneSlots(c') == DoneSlots(c) && InfoSlot(c') == InfoSlot(c);
  }

  // ---------------------------------------------------------------- the slab maps

  /** What the client's forward map says of a session slab: its server has not failed and has the slab
      mapped, at the very slot the slot map names, if it names one. */
  ghost predicate ForwardOk(b: nat, d: int, i: int, conns: seq<Conn>) {
    d != -1 ==>
      && 0 <= d < |conns| && !conns[d].failed && b in conns[d].chunkMap
      && (i >= 0 ==> i < |conns[d].chunkMap| && conns[d].chunkMap[i] == b)
  }

  ghost predicate MapsForward(cbIndexMap: seq<int>, slotMap: seq<int>, conns: seq<Conn>, slots: nat) {
    && |cbIndexMap| == |slotMap|
    && (forall b :: 0 <= b < |slotMap| ==> -1 <= slotMap[b] < slots)
    && (forall b :: 0 <= b < |slotMap| ==> ForwardOk(b, cbIndexMap[b], slotMap[b], conns))
  }

  /** Connections only answer for session slabs there are. */
  ghost predicate HeldInRange(conns: seq<Conn>, slabs: nat) {
    forall d, b: nat {:trigger Holds(conns[d], b)} :: 0 <= d < |conns| && Holds(conns[d], b) ==> b < slabs
  }

  lemma ForwardFrame(b: nat, d: int, i: int, conns: seq<Conn>, e: nat, c: Conn)
    requires ForwardOk(b, d, i, conns) && e < |conns|
    requires d == e ==> c.failed == conns[e].failed && |c.chunkMap| == |conns[e].chunkMap|
    requires d == e ==> forall j :: 0 <= j < |c.chunkMap| && conns[e].chunkMap[j] == b ==> c.chunkMap[j] == b
    ensures ForwardOk(b, d, i, conns[e := c])
  {
    if d == e {
      var j :| 0 <= j < |conns[e].chunkMap| && conns[e].chunkMap[j] == b;
      assert c.chunkMap[j] == b;
    }
  }

  lemma MapsFrame(cbIndexMap: seq<int>, slotMap: seq<int>, conns: seq<Conn>, slots: nat, d: nat, c: Conn)
    requires MapsForward(cbIndexMap, slotMap, conns, slots)
    requires d < |conns| && c.chunkMap == conns[d].chunkMap && c.failed == conns[d].failed
    ensures MapsForward(cbIndexMap, slotMap, conns[d := c], slots)
  {
    forall b | 0 <= b < |slotMap| ensures ForwardOk(b, cbIndexMap[b], slotMap[b], conns[d := c]) {
      ForwardFrame(b, cbIndexMap[b], slotMap[b], conns, d, c);
    }
  }

  lemma HeldFrame(conns: seq<Conn>, slabs: nat, d: nat, c: Conn)
    requires HeldInRange(conns, slabs)
    requires d < |conns| && forall b: nat :: Holds(c, b) ==> Holds(conns[d], b)
    ensures HeldInRange(conns[d := c], slabs)
  {
    var conns' := conns[d := c];
    forall e, b: nat | 0 <= e < |conns'| && Holds(conns'[e], b) ensures Holds(conns[e], b) {
    }
  }

  lemma HoldsFrame(c: Conn, c': Conn)
    requires SameMaps(c, c')
    ensures forall b: nat :: Holds(c', b) <==> Holds(c, b)
  {
  }

  /** Entering slab b at slot i of server d, wherever it was before. */
  lemma EnterForward(cbIndexMap: seq<int>, slotMap: seq<int>, conns: seq<Conn>, slots: nat, d: nat, b: nat, i: nat,
                     c: Conn)
    requires MapsForward(cbIndexMap, slotMap, conns, slots)
    requires d < |conns| && b < |slotMap| && i < slots == |conns[d].chunkMap|
    requires !conns[d].failed && conns[d].chunkMap[i] == -1
    requires c.chunkMap == conns[d].chunkMap[i := b] && !c.failed
    ensures MapsForward(cbIndexMap[b := d], slotMap[b := i], conns[d := c], slots)
  {
    var cbIndexMap' := cbIndexMap[b := d];
    var slotMap' := slotMap[b := i];
    forall x | 0 <= x < |slotMap| ensures ForwardOk(x, cbIndexMap'[x], slotMap'[x], conns[d := c]) {
      if x == b {
        assert c.chunkMap[i] == b;
      } else {
        ForwardFrame(x, cbIndexMap[x], slotMap[x], conns, d, c);
      }
    }
  }

  /** A slot is taken out of the reverse map, and its slab out of the forward one. */
  lemma LeaveForward(cbIndexMap: seq<int>, slotMap: seq<int>, conns: seq<Conn>, slots: nat, d: nat, i: nat, c: Conn)
    requires MapsForward(cbIndexMap, slotMap, conns, slots)
    requires d < |conns| && i < |conns[d].chunkMap| && 0 <= conns[d].chunkMap[i] < |slotMap|
    requires c.chunkMap == conns[d].chunkMap[i := -1] && c.failed == conns[d].failed
    ensures MapsForward(cbIndexMap[conns[d].chunkMap[i] := -1], slotMap, conns[d := c], slots)
  {
    var b := conns[d].chunkMap[i];
    forall x | 0 <= x < |slotMap| ensures ForwardOk(x, cbIndexMap[b := -1][x], slotMap[x], conns[d := c]) {
      if x != b {
        ForwardFrame(x, cbIndexMap[x], slotMap[x], conns, d, c);
      }
    }
  }

  /** The slot of a slab is forgotten. */
  lemma ForgetForward(cbIndexMap: seq<int>, slotMap: seq<int>, conns: seq<Conn>, slots: nat, b: nat)
    requires MapsForward(cbIndexMap, slotMap, conns, slots) && b < |slotMap|
    ensures MapsForward(cbIndexMap, slotMap[b := -1], conns, slots)
  {
    forall x | 0 <= x < |slotMap| ensures ForwardOk(x, cbIndexMap[x], slotMap[b := -1][x], conns) {
      assert ForwardOk(x, cbIndexMap[x], slotMap[x], conns);
    }
  }

  // ---------------------------------------------------------------- the mapping operation

  /** The one mapping operation under way accounts for every mapping message. */
  ghost predicate MappingMessages(c: Conn, m: Mapping, d: nat) {
    var up := Mappings(c.up);
    var down := Mappings(c.down);
    if m.Querying? && m.server == d then
      (up == [Query] && down == []) || (up == [] && |down| == 1 && down[0].FreeSize?)
    else if m.Binding? && m.server == d then
      || (up == [Bind(m.slab)] && down == [])
      || (up == [] && |down| == 1 && down[0].Info? && down[0].slab == m.slab && down[0].slot >= -1)
    else
      up == [] && down == []
  }

  ghost predicate MappingInv(slabs: nat, m: Mapping, conns: seq<Conn>) {
    && (!m.NoMapping? ==> m.slab < slabs)
    && (m.Querying? || m.Binding? ==> m.server < |conns|)
    && (forall d :: 0 <= d < |conns| && conns[d].live ==> MappingMessages(conns[d], m, d))
  }

  lemma MappingFrame(slabs: nat, m: Mapping, conns: seq<Conn>, d: nat, c: Conn)
    requires MappingInv(slabs, m, conns) && d < |conns|
    requires c.live ==>
               conns[d].live && Mappings(c.up) == Mappings(conns[d].up) && Mappings(c.down) == Mappings(conns[d].down)
    ensures MappingInv(slabs, m, conns[d := c])
  {
    var conns' := conns[d := c];
    forall e | 0 <= e < |conns'| && conns'[e].live ensures MappingMessages(conns'[e], m, e) {
      assert MappingMessages(conns[e], m, e);
    }
  }

  // ---------------------------------------------------------------- operations in flight

  /** RDMA operations in flight stay inside one slab, do not overlap a write, and on a live
      connection target a slot the client still answers for. */
  ghost predicate FlightInv(f: map<Ctx, Op>, conns: seq<Conn>, slots: nat, pool: nat, pages: nat) {
    && (forall x :: x in f ==> FlightPlace(x, f[x], conns, slots, pool, pages))
    && (forall x, y, p :: x in f && y in f && x != y && f[x].WriteOp? && f[x].Covers(p) ==> !f[y].Covers(p))
  }

  ghost predicate FlightPlace(x: Ctx, op: Op, conns: seq<Conn>, slots: nat, pool: nat, pages: nat) {
    && x.server < |conns| && x.index < pool
    && op.slot < slots == |conns[x.server].chunkMap|
    && op.Len() > 0
    && op.page + op.Len() <= pages
    && (op.page + op.Len() - 1) / SLAB_PAGES == op.page / SLAB_PAGES
    && (conns[x.server].live ==> SlabAt(conns[x.server], op.slot) == op.page / SLAB_PAGES)
  }

  lemma FlightFrame(f: map<Ctx, Op>, conns: seq<Conn>, slots: nat, pool: nat, pages: nat, d: nat, c: Conn)
    requires FlightInv(f, conns, slots, pool, pages) && d < |conns| && |c.chunkMap| == slots
    requires c.live ==> conns[d].live && |conns[d].chunkMap| == slots
    requires c.live ==> forall i: nat :: i < slots && SlabAt(conns[d], i) >= 0 ==> SlabAt(c, i) == SlabAt(conns[d], i)
    ensures FlightInv(f, conns[d := c], slots, pool, pages)
  {
    forall x | x in f ensures FlightPlace(x, f[x], conns[d := c], slots, pool, pages) {
      assert FlightPlace(x, f[x], conns, slots, pool, pages);
    }
  }

  /** Contexts the drain scan has passed do not target an unmapped slot. */
  ghost predicate ScanInv(f: map<Ctx, Op>, c: Conn, d: nat) {
    c.live && c.phase.Draining? ==>
      && (c.phase.todo != {} ==> c.phase.scan == 0)
      && (forall x :: x in f && x.server == d && x.index < c.phase.scan && f[x].slot < |c.chunkMap| ==>
            c.chunkMap[f[x].slot] >= 0)
  }

  // ---------------------------------------------------------------- one client

  /** Everything about one client but its queue and disk, which `BackupDisk.Inv` speaks of. */
  ghost predicate ClientInv(cl: Client, slots: nat, pool: nat) {
    match cl
    case Client(dev, cbIndexMap, slotMap, _, _, _, mapping, conns) =>
      && |dev.initial| == |cbIndexMap| * SLAB_PAGES
      && (forall d :: 0 <= d < |conns| ==> ConnInv(conns[d], slots))
      && MapsForward(cbIndexMap, slotMap, conns, slots)
      && HeldInRange(conns, |slotMap|)
      && MappingInv(|slotMap|, mapping, conns)
      && FlightInv(dev.flight, conns, slots, pool, |dev.initial|)
      && (forall d :: 0 <= d < |conns| ==> ScanInv(dev.flight, conns[d], d))
  }

  lemma MappedInRange(cl: Client, d: nat, i: nat, slots: nat, pool: nat)
    requires ClientInv(cl, slots, pool) && d < |cl.conns| && i < |cl.conns[d].chunkMap|
    requires cl.conns[d].chunkMap[i] >= 0
    ensures cl.conns[d].chunkMap[i] < |cl.slotMap| == |cl.cbIndexMap|
  {
    assert cl.conns[d].chunkMap[i] in cl.conns[d].chunkMap;
    assert Holds(cl.conns[d], cl.conns[d].chunkMap[i]);
  }
}
