/** The slab maps when every mapping operation is begun on a slab that has no slot: the forward and reverse
    maps are inverse to each other, every placed slab is answered for by exactly one connection, and
    free_chunk_index counts the slabs that are not placed.

    The source does not test this. `EnterKeepsExactly` says what depends on it, and `SwapSolo` and
    `SwapLateRun` say in which runs it holds and give one in which it does not.
 */
module SwapTidy {
  import opened SwapClient
  import opened SwapInvariants

  // ---------------------------------------------------------------- counting unplaced slabs

  function Unplaced(m: seq<int>): nat {
    if m == [] then 0 else Unplaced(m[..|m| - 1]) + (if m[|m| - 1] == -1 then 1 else 0)
  }

  lemma {:induction false} UnplacedAfterUpdate(m: seq<int>, b: nat, x: int)
    requires b < |m|
    ensures Unplaced(m[b := x]) + (if m[b] == -1 then 1 else 0) == Unplaced(m) + (if x == -1 then 1 else 0)
  {
    var last := |m| - 1;
    if b < last {
      assert m[b := x][..last] == m[..last][b := x];
      UnplacedAfterUpdate(m[..last], b, x);
    } else {
      assert m[b := x][..last] == m[..last];
    }
  }

  lemma {:induction false} UnplacedAtMost(m: seq<int>)
    ensures Unplaced(m) <= |m|
  {
    if m != [] {
      UnplacedAtMost(m[..|m| - 1]);
    }
  }

  /** With a slab placed there is room for one more on the list of unplaced ones. */
  lemma RoomForOne(m: seq<int>, b: nat)
    requires b < |m| && m[b] != -1
    ensures Unplaced(m) < |m|
  {
    UnplacedAfterUpdate(m, b, -1);
    UnplacedAtMost(m[b := -1]);
  }

  lemma {:induction false} AllUnplaced(m: seq<int>)
    requires forall b :: 0 <= b < |m| ==> m[b] == -1
    ensures Unplaced(m) == |m|
  {
    if m != [] {
      AllUnplaced(m[..|m| - 1]);
    }
  }

  // ---------------------------------------------------------------- one connection

  /** No session slab is answered for twice by the same connection. */
  ghost predicate HoldsOnce(c: Conn) {
    && (forall i :: 0 <= i < |c.chunkMap| ==> c.chunkMap[i] >= -1)
    && (forall i, j :: 0 <= i < j < |c.chunkMap| && c.chunkMap[i] >= 0 ==> c.chunkMap[i] != c.chunkMap[j])
    && (forall i, j :: i in Victims(c) && j in Victims(c) && Victims(c)[i] == Victims(c)[j] ==> i == j)
    && (forall i :: i in Victims(c) ==>
          && i < |c.chunkMap| && c.chunkMap[i] == -1
          && Victims(c)[i] !in c.chunkMap && Victims(c)[i] !in c.remap)
    && (forall b :: b in c.remap ==> b !in c.chunkMap)
  }

  lemma UnmapHolds(c: Conn, i: nat, b: nat)
    requires c.phase.Draining? && HoldsOnce(c)
    requires i < |c.chunkMap| && c.chunkMap[i] >= 0
    ensures Holds(UnmapSlot(c, i), b) <==> Holds(c, b)
  {
    var c' := UnmapSlot(c, i);
    if b in c.chunkMap {
      var j :| 0 <= j < |c.chunkMap| && c.chunkMap[j] == b;
      assert j == i ==> i in Victims(c') && Victims(c')[i] == b;
      assert j != i ==> c'.chunkMap[j] == b;
    }
    if j :| j in Victims(c) && Victims(c)[j] == b {
      assert j in Victims(c') && Victims(c')[j] == b;
    }
    if j :| j in Victims(c') && Victims(c')[j] == b {
      assert j != i ==> j in Victims(c) && Victims(c)[j] == b;
    }
  }

  lemma UnmapHoldsOnce(c: Conn, i: nat)
    requires c.phase.Draining? && HoldsOnce(c)
    requires i < |c.chunkMap| && c.chunkMap[i] >= 0
    ensures HoldsOnce(UnmapSlot(c, i))
  {
    var c' := UnmapSlot(c, i);
    assert c.chunkMap[i] in c.chunkMap;
    forall b | b in c'.chunkMap && b >= 0 ensures b in c.chunkMap && b != c.chunkMap[i] {
      var j :| 0 <= j < |c'.chunkMap| && c'.chunkMap[j] == b;
      assert c.chunkMap[j] == b;
    }
  }

  lemma SendDoneHolds(c: Conn, b: nat)
    requires c.phase.Draining?
    ensures Holds(SendDone(c), b) <==> Holds(c, b)
  {
    var vs := c.phase.victims;
    assert forall i :: i !in Victims(SendDone(c));
    if i :| i in Victims(c) && Victims(c)[i] == b {
      assert vs[i] in vs.Values;
    }
  }

  lemma SendDoneHoldsOnce(c: Conn)
    requires c.phase.Draining? && HoldsOnce(c)
    ensures HoldsOnce(SendDone(c))
  {
    var vs := c.phase.victims;
    forall b | b in SendDone(c).remap ensures b !in c.chunkMap {
      if b in vs.Values {
        var i :| i in vs && vs[i] == b;
      }
    }
  }

  lemma EnteredHoldsOnce(c: Conn, slab: nat, slot: nat)
    requires HoldsOnce(c) && c.down != []
    requires slot < |c.chunkMap| && slot < |c.bits| && c.chunkMap[slot] == -1 && slot !in Victims(c)
    requires !Holds(c, slab)
    ensures HoldsOnce(Entered(c, slab, slot))
    ensures forall b: nat :: Holds(Entered(c, slab, slot), b) <==> (Holds(c, b) || b == slab)
  {
    var c' := Entered(c, slab, slot);
    assert c'.chunkMap[slot] == slab;
    forall b: nat ensures b in c'.chunkMap <==> (b in c.chunkMap || b == slab) {
      if b in c.chunkMap {
        var j :| 0 <= j < |c.chunkMap| && c.chunkMap[j] == b;
        assert c'.chunkMap[j] == b;
      }
    }
    assert Victims(c') == Victims(c);
  }

  lemma ReleasedHolds(c: Conn, i: nat)
    requires HoldsOnce(c) && i < |c.chunkMap| && c.chunkMap[i] >= 0
    ensures HoldsOnce(Released(c, i))
    ensures forall b: nat :: Holds(Released(c, i), b) <==> (Holds(c, b) && b != c.chunkMap[i])
  {
    var c' := Released(c, i);
    var s := c.chunkMap[i];
    assert s in c.chunkMap;
    forall b | b >= 0 ensures b in c'.chunkMap <==> (b in c.chunkMap && b != s) {
      if b in c'.chunkMap {
        var j :| 0 <= j < |c.chunkMap| && c'.chunkMap[j] == b;
        assert c.chunkMap[j] == b;
      }
      if b in c.chunkMap && b != s {
        var j :| 0 <= j < |c.chunkMap| && c.chunkMap[j] == b;
        assert c'.chunkMap[j] == b;
      }
    }
    assert Victims(c') == Victims(c);
  }

  lemma ForgettingHolds(c: Conn, b: nat)
    requires HoldsOnce(c) && b in c.remap
    ensures HoldsOnce(Forgetting(c, b))
    ensures forall x: nat :: Holds(Forgetting(c, b), x) <==> (Holds(c, x) && x != b)
  {
    assert Victims(Forgetting(c, b)) == Victims(c);
  }

  /** The parts of a connection that tidiness depends on. */
  ghost predicate SameHolds(c: Conn, c': Conn) {
    && c'.chunkMap == c.chunkMap && Victims(c') == Victims(c) && c'.remap == c.remap && c'.failed == c.failed
  }

  // ---------------------------------------------------------------- the maps

  /** The client's forward map (session slab to server and slot) and its reverse maps (slot to
      session slab) are inverse to each other. */
  ghost predicate MapsInverse(cbIndexMap: seq<int>, slotMap: seq<int>, conns: seq<Conn>, slots: nat) {
    && |cbIndexMap| == |slotMap|
    && (forall d :: 0 <= d < |conns| ==> |conns[d].chunkMap| == slots)
    && (forall b :: 0 <= b < |slotMap| ==> -1 <= slotMap[b] < slots)
    && (forall b :: 0 <= b < |cbIndexMap| && cbIndexMap[b] != -1 ==>
          && 0 <= cbIndexMap[b] < |conns|
          && slotMap[b] >= 0
          && !conns[cbIndexMap[b]].failed
          && conns[cbIndexMap[b]].chunkMap[slotMap[b]] == b)
    && (forall d, i :: 0 <= d < |conns| && 0 <= i < slots && conns[d].chunkMap[i] >= 0 ==>
          && conns[d].chunkMap[i] < |slotMap|
          && slotMap[conns[d].chunkMap[i]] == i
          && (!conns[d].failed ==> cbIndexMap[conns[d].chunkMap[i]] == d))
  }

  /** Each placed session slab is answered for by at most one connection. */
  ghost predicate HoldersUnique(slotMap: seq<int>, conns: seq<Conn>) {
    && (forall d, b: nat {:trigger Holds(conns[d], b)} :: 0 <= d < |conns| && Holds(conns[d], b) ==>
          b < |slotMap| && slotMap[b] != -1)
    && (forall d, e, b: nat :: 0 <= d < |conns| && 0 <= e < |conns| && d != e && Holds(conns[d], b) ==>
          !Holds(conns[e], b))
  }

  /** Entering slab b at slot i of server d in both directions. */
  lemma EnterMaps(cbIndexMap: seq<int>, slotMap: seq<int>, conns: seq<Conn>, slots: nat, d: nat, b: nat, i: nat,
                  c: Conn)
    requires MapsInverse(cbIndexMap, slotMap, conns, slots) && HoldersUnique(slotMap, conns)
    requires d < |conns| && b < |slotMap| && i < slots
    requires slotMap[b] == -1 && !conns[d].failed && conns[d].chunkMap[i] == -1
    requires c.chunkMap == conns[d].chunkMap[i := b] && !c.failed
    ensures MapsInverse(cbIndexMap[b := d], slotMap[b := i], conns[d := c], slots)
  {
    var conns' := conns[d := c];
    forall e, j | 0 <= e < |conns| && 0 <= j < slots && conns[e].chunkMap[j] >= 0
      ensures conns[e].chunkMap[j] != b
    {
      assert conns[e].chunkMap[j] in conns[e].chunkMap;
      assert Holds(conns[e], conns[e].chunkMap[j]);
    }
    forall e, j | 0 <= e < |conns'| && 0 <= j < slots && conns'[e].chunkMap[j] >= 0
      ensures conns'[e].chunkMap[j] < |slotMap|
           && slotMap[b := i][conns'[e].chunkMap[j]] == j
           && (!conns'[e].failed ==> cbIndexMap[b := d][conns'[e].chunkMap[j]] == e)
    {
    }
  }

  lemma EnterHolders(slotMap: seq<int>, conns: seq<Conn>, d: nat, b: nat, i: nat, c: Conn)
    requires HoldersUnique(slotMap, conns)
    requires d < |conns| && b < |slotMap| && slotMap[b] == -1
    requires forall x: nat :: Holds(c, x) <==> (Holds(conns[d], x) || x == b)
    ensures HoldersUnique(slotMap[b := i], conns[d := c])
  {
    var conns' := conns[d := c];
    forall e, x: nat | 0 <= e < |conns'| && Holds(conns'[e], x)
      ensures x < |slotMap| && slotMap[b := i][x] != -1
    {
      assert x != b ==> Holds(conns[e], x);
    }
    forall e, f, x: nat | 0 <= e < |conns'| && 0 <= f < |conns'| && e != f && Holds(conns'[e], x)
      ensures !Holds(conns'[f], x)
    {
      assert forall g :: 0 <= g < |conns| ==> !Holds(conns[g], b);
    }
  }

  /** Taking slot i of server d out of the reverse map, and its slab out of the forward one. */
  lemma LeaveMaps(cbIndexMap: seq<int>, cbIndexMap': seq<int>, slotMap: seq<int>, slotMap': seq<int>,
                  conns: seq<Conn>, slots: nat, d: nat, i: nat, c: Conn)
    requires MapsInverse(cbIndexMap, slotMap, conns, slots)
    requires d < |conns| && i < slots && conns[d].chunkMap[i] >= 0
    requires cbIndexMap' == cbIndexMap[conns[d].chunkMap[i] := -1]
    requires slotMap' == slotMap || slotMap' == slotMap[conns[d].chunkMap[i] := -1]
    requires forall e, j :: 0 <= e < |conns| && 0 <= j < slots && (e != d || j != i) ==>
               conns[e].chunkMap[j] != conns[d].chunkMap[i]
    requires c.chunkMap == conns[d].chunkMap[i := -1] && c.failed == conns[d].failed
    ensures MapsInverse(cbIndexMap', slotMap', conns[d := c], slots)
  {
    var b := conns[d].chunkMap[i];
    var conns' := conns[d := c];
    forall x | 0 <= x < |cbIndexMap'| && cbIndexMap'[x] != -1
      ensures 0 <= cbIndexMap'[x] < |conns'| && slotMap'[x] >= 0
           && !conns'[cbIndexMap'[x]].failed && conns'[cbIndexMap'[x]].chunkMap[slotMap'[x]] == x
    {
      assert x != b && cbIndexMap'[x] == cbIndexMap[x] && slotMap'[x] == slotMap[x];
    }
    forall e, j | 0 <= e < |conns'| && 0 <= j < slots && conns'[e].chunkMap[j] >= 0
      ensures conns'[e].chunkMap[j] < |slotMap'|
           && slotMap'[conns'[e].chunkMap[j]] == j
           && (!conns'[e].failed ==> cbIndexMap'[conns'[e].chunkMap[j]] == e)
    {
      assert conns'[e].chunkMap[j] == conns[e].chunkMap[j];
    }
  }

  lemma OnlyHolder(slotMap: seq<int>, conns: seq<Conn>, slots: nat, d: nat, i: nat)
    requires HoldersUnique(slotMap, conns)
    requires forall e :: 0 <= e < |conns| ==> |conns[e].chunkMap| == slots && HoldsOnce(conns[e])
    requires d < |conns| && i < slots && conns[d].chunkMap[i] >= 0
    ensures forall e, j :: 0 <= e < |conns| && 0 <= j < slots && (e != d || j != i) ==>
              conns[e].chunkMap[j] != conns[d].chunkMap[i]
  {
    var b := conns[d].chunkMap[i];
    assert b in conns[d].chunkMap && Holds(conns[d], b);
    forall e, j | 0 <= e < |conns| && 0 <= j < slots && (e != d || j != i)
      ensures conns[e].chunkMap[j] != b
    {
      assert conns[e].chunkMap[j] in conns[e].chunkMap;
      assert e != d ==> !Holds(conns[e], b);
    }
  }

  /** Giving up a held slab for good. */
  lemma LeaveHolders(slotMap: seq<int>, conns: seq<Conn>, d: nat, b: nat, c: Conn)
    requires HoldersUnique(slotMap, conns)
    requires d < |conns| && b < |slotMap| && Holds(conns[d], b)
    requires forall x: nat :: Holds(c, x) <==> (Holds(conns[d], x) && x != b)
    ensures HoldersUnique(slotMap[b := -1], conns[d := c])
  {
    var conns' := conns[d := c];
    forall e, x: nat | 0 <= e < |conns'| && Holds(conns'[e], x)
      ensures x < |slotMap| && slotMap[b := -1][x] != -1
    {
      assert Holds(conns[e], x);
    }
  }

  /** Every placed session slab is answered for. */
  ghost predicate PlacedHeld(slotMap: seq<int>, conns: seq<Conn>) {
    forall b: nat :: b < |slotMap| && slotMap[b] != -1 ==> HeldBySome(conns, b)
  }

  ghost predicate HeldBySome(conns: seq<Conn>, b: nat) {
    exists d :: 0 <= d < |conns| && Holds(conns[d], b)
  }

  lemma StillHeld(conns: seq<Conn>, b: nat, d: nat, c: Conn)
    requires HeldBySome(conns, b) && d < |conns| && (Holds(conns[d], b) ==> Holds(c, b))
    ensures HeldBySome(conns[d := c], b)
  {
    var e :| 0 <= e < |conns| && Holds(conns[e], b);
    assert Holds(conns[d := c][e], b);
  }

  // ---------------------------------------------------------------- a tidy client

  /** Maps, holders and index are right. */
  ghost predicate TidyMaps(cl: Client, slots: nat) {
    && (forall d :: 0 <= d < |cl.conns| ==> HoldsOnce(cl.conns[d]))
    && MapsInverse(cl.cbIndexMap, cl.slotMap, cl.conns, slots)
    && HoldersUnique(cl.slotMap, cl.conns) && PlacedHeld(cl.slotMap, cl.conns)
    && cl.freeIdx + 1 == Unplaced(cl.slotMap)
  }

  /** And the slab being mapped, if there is one, has no slot. */
  ghost predicate TidyMapping(m: Mapping, slotMap: seq<int>) {
    !m.NoMapping? ==> m.slab < |slotMap| && slotMap[m.slab] == -1
  }

  ghost predicate Tidy(cl: Client, slots: nat) {
    TidyMaps(cl, slots) && TidyMapping(cl.mapping, cl.slotMap)
  }
}
