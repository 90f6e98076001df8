/** How the slab maps get out of step. The trigger is one switch for all connections. While server A's
    eviction thread drains a slab, the end of server B's eviction switches the trigger on; the slab has no
    server, so the trigger maps it at a third one, although its former slot has not been given up. The free
    index then counts one slab too few, and when A's thread returns the slab it clears the slot of a slab that
    is mapped.
 */
module SwapLateRun {
  import opened BackupDisk
  import C = SwapClient
  import opened SwapTidy
  import T = DaemonTables
  import opened Swap
  import opened SwapSafety
  import opened SwapProgress
  import opened SwapEvictRun
  import opened SwapStaleRun

  /** Client k, its servers a, b and c, its slabs x and y, and the slots i and j they are mapped at first. */
  datatype Cast = Cast(k: nat, a: nat, b: nat, c: nat, x: nat, y: nat, i: nat, j: nat)

  // ---------------------------------------------------------------- what holds along the run

  /** Nothing is in flight, no mapping operation is under way, and the connection to server c is idle. */
  ghost predicate Scene(s: System, p: Cast) {
    && InRange(s, p.k, p.a) && InRange(s, p.k, p.b) && InRange(s, p.k, p.c)
    && p.a != p.b && p.b != p.c && p.a != p.c && p.x != p.y
    && var cl := s.clients[p.k];
       && p.x < |cl.slotMap| == |cl.cbIndexMap| && p.y < |cl.slotMap|
       && cl.dev.flight == map[] && Inv(cl.dev)
       && Reachable(cl.conns[p.c], s.servers[p.c])
  }

  ghost predicate Reachable(c: C.Conn, v: Server) {
    && c.live && !c.failed && c.up == [] && c.down == []
    && |c.chunkMap| == |c.bits| == |v.tables.malloc|
  }

  /** The eviction thread and the disconnect handler have nothing left to do. */
  ghost predicate Rested(c: C.Conn) {
    c.remap == {} && c.again == {} && c.handler == C.NoHandler
  }

  ghost predicate OffersTwice(t: T.Tables, k: nat) {
    Offers(t, k) && Offers(T.Bind(t, k), k)
  }

  // ---------------------------------------------------------------- server a drains slab x

  /** Slab x is mapped at server a and slab y at server b. */
  ghost predicate BothMapped(s: System, p: Cast) {
    && Scene(s, p) && s.clients[p.k].mapping == C.NoMapping && OffersTwice(s.servers[p.c].tables, p.k)
    && RoundReady(s.clients[p.k].conns[p.a], p.i, p.x)
    && RoundReady(s.clients[p.k].conns[p.b], p.j, p.y) && Rested(s.clients[p.k].conns[p.b])
    && s.clients[p.k].slotMap[p.x] == p.i
  }

  ghost predicate FirstUnmapped(s: System, p: Cast) {
    && Scene(s, p) && s.clients[p.k].mapping == C.NoMapping && OffersTwice(s.servers[p.c].tables, p.k)
    && Draining(s.clients[p.k].conns[p.a], p.i, p.x, 0)
    && RoundReady(s.clients[p.k].conns[p.b], p.j, p.y) && Rested(s.clients[p.k].conns[p.b])
    && s.clients[p.k].slotMap[p.x] == p.i && s.clients[p.k].cbIndexMap[p.x] == -1
  }

  lemma FirstIsUnmapped(s: System, p: Cast, s': System)
    requires BothMapped(s, p) && s' == WithClient(s, p.k, Unmapping(s.clients[p.k], p.a, p.i, p.x))
    ensures FirstUnmapped(s', p)
  {
  }

  lemma UnmapFirst(s0: System, steps: seq<Step>, s: System, p: Cast) returns (steps': seq<Step>, s': System)
    requires Reaches(s0, steps, s, AnyStep) && BothMapped(s, p)
    ensures Reaches(s0, steps', s', AnyStep) && FirstUnmapped(s', p)
    ensures s'.clients[p.k].freeIdx == s.clients[p.k].freeIdx && s'.clients[p.k].slotMap == s.clients[p.k].slotMap
    ensures s'.pool == s.pool
  {
    steps' := RoundGoesThrough(s0, steps, s, p.k, p.a, p.i, p.x);
    s' := WithClient(s, p.k, Unmapping(s.clients[p.k], p.a, p.i, p.x));
    FirstIsUnmapped(s, p, s');
  }

  // ---------------------------------------------------------------- server b evicts slab y

  /** Slab x is being drained: it has a slot, but no server. */
  ghost predicate Lingering(cl: C.Client, p: Cast) {
    && p.a < |cl.conns| && Draining(cl.conns[p.a], p.i, p.x, 0)
    && p.x < |cl.slotMap| == |cl.cbIndexMap| && cl.slotMap[p.x] == p.i && cl.cbIndexMap[p.x] == -1
  }

  ghost predicate BothUnmapped(s: System, p: Cast) {
    && Scene(s, p) && s.clients[p.k].mapping == C.NoMapping && OffersTwice(s.servers[p.c].tables, p.k)
    && Lingering(s.clients[p.k], p)
    && Draining(s.clients[p.k].conns[p.b], p.j, p.y, 0) && Rested(s.clients[p.k].conns[p.b])
    && s.clients[p.k].conns[p.b].evicting
  }

  lemma SecondIsUnmapped(s: System, p: Cast, s': System)
    requires FirstUnmapped(s, p) && s' == WithClient(s, p.k, Unmapping(s.clients[p.k], p.b, p.j, p.y))
    ensures BothUnmapped(s', p)
  {
  }

  lemma UnmapSecond(s0: System, steps: seq<Step>, s: System, p: Cast) returns (steps': seq<Step>, s': System)
    requires Reaches(s0, steps, s, AnyStep) && FirstUnmapped(s, p)
    ensures Reaches(s0, steps', s', AnyStep) && BothUnmapped(s', p)
    ensures s'.clients[p.k].freeIdx == s.clients[p.k].freeIdx && s'.clients[p.k].slotMap == s.clients[p.k].slotMap
  {
    steps' := RoundGoesThrough(s0, steps, s, p.k, p.b, p.j, p.y);
    s' := WithClient(s, p.k, Unmapping(s.clients[p.k], p.b, p.j, p.y));
    SecondIsUnmapped(s, p, s');
  }

  /** Server b's thread has returned slab y and is about to map it again. */
  ghost predicate SecondReturned(s: System, p: Cast) {
    && Scene(s, p) && s.clients[p.k].mapping == C.NoMapping && OffersTwice(s.servers[p.c].tables, p.k)
    && Lingering(s.clients[p.k], p)
    && var c := s.clients[p.k].conns[p.b];
       c.evicting && !c.phase.Draining? && c.remap == {} && c.again == {p.y} && c.handler == C.NoHandler
  }

  lemma ReturnedConn(c: C.Conn, i: nat, b: nat, pool: nat)
    requires c.remap == {} && c.again == {}
    ensures var c' := C.Forgetting(C.SendDone(c.(phase := C.Draining({}, map[i := b], pool, 1))), b);
            && !c'.phase.Draining? && c'.remap == {} && c'.again == {b}
            && c'.evicting == c.evicting && c'.handler == c.handler
  {
    assert map[i := b].Values == {b} by {
      assert map[i := b][i] == b;
    }
  }

  lemma ReturnSecond(s0: System, steps: seq<Step>, s: System, p: Cast) returns (steps': seq<Step>, s': System)
    requires Reaches(s0, steps, s, AnyStep) && BothUnmapped(s, p)
    ensures Reaches(s0, steps', s', AnyStep) && SecondReturned(s', p)
    ensures s'.clients[p.k].freeIdx == s.clients[p.k].freeIdx + 1
    ensures s'.clients[p.k].slotMap == s.clients[p.k].slotMap[p.y := -1]
  {
    steps' := DrainGoesThrough(s0, steps, s, p.k, p.b, p.j, p.y);
    s' := WithClient(s, p.k, Returned(s.clients[p.k], p.b, p.j, p.y, s.pool));
    ReturnedConn(s.clients[p.k].conns[p.b], p.j, p.y, s.pool);
  }

  ghost predicate SecondBegun(s: System, p: Cast) {
    && Scene(s, p) && s.clients[p.k].mapping == C.Known(p.y, map[]) && OffersTwice(s.servers[p.c].tables, p.k)
    && Lingering(s.clients[p.k], p) && Finished(s.clients[p.k].conns[p.b])
  }

  /** Nothing is left but to switch the trigger on. */
  ghost predicate Finished(c: C.Conn) {
    c.evicting && !c.phase.Draining? && Rested(c)
  }

  lemma SecondStarts(s: System, p: Cast, cl: C.Client)
    requires SecondReturned(s, p) && cl == C.ThreadStarts(s.clients[p.k], p.b, p.y)
    ensures C.ThreadMaps(s.clients[p.k], p.b, p.y) && SecondBegun(WithClient(s, p.k, cl), p)
    ensures cl.freeIdx == s.clients[p.k].freeIdx && cl.slotMap == s.clients[p.k].slotMap
  {
  }

  lemma BeginSecond(s0: System, steps: seq<Step>, s: System, p: Cast) returns (steps': seq<Step>, s': System)
    requires Reaches(s0, steps, s, AnyStep) && SecondReturned(s, p)
    ensures Reaches(s0, steps', s', AnyStep) && SecondBegun(s', p)
    ensures s'.clients[p.k].freeIdx == s.clients[p.k].freeIdx && s'.clients[p.k].slotMap == s.clients[p.k].slotMap
  {
    var cl' := C.ThreadStarts(s.clients[p.k], p.b, p.y);
    SecondStarts(s, p, cl');
    ClientStep(s0, steps, s, p.k, C.ThreadMapping(p.b, p.y), cl');
    steps', s' := steps + [AtClient(p.k, C.ThreadMapping(p.b, p.y))], WithClient(s, p.k, cl');
  }

  /** Slab y is mapped at server c. */
  ghost predicate SecondMapped(s: System, p: Cast) {
    && Scene(s, p) && s.clients[p.k].mapping == C.NoMapping && Offers(s.servers[p.c].tables, p.k)
    && Lingering(s.clients[p.k], p) && Finished(s.clients[p.k].conns[p.b])
  }

  lemma AfterSecond(s: System, p: Cast)
    requires SecondBegun(s, p) && CanStart(s, p.k, p.c, p.y)
    ensures var s' := AfterMapping(s, p.k, p.c, p.y);
            && SecondMapped(s', p) && s'.clients[p.k].freeIdx == s.clients[p.k].freeIdx - 1
            && s'.clients[p.k].slotMap == s.clients[p.k].slotMap[p.y := s'.clients[p.k].slotMap[p.y]]
            && s'.clients[p.k].slotMap[p.y] >= 0
  {
  }

  lemma MapSecond(s0: System, steps: seq<Step>, s: System, p: Cast) returns (steps': seq<Step>, s': System)
    requires Reaches(s0, steps, s, AnyStep) && SecondBegun(s, p)
    ensures Reaches(s0, steps', s', AnyStep) && SecondMapped(s', p)
    ensures s'.clients[p.k].freeIdx == s.clients[p.k].freeIdx - 1
    ensures s'.clients[p.k].slotMap == s.clients[p.k].slotMap[p.y := s'.clients[p.k].slotMap[p.y]]
    ensures s'.clients[p.k].slotMap[p.y] >= 0
  {
    OperationGoesThrough(s0, steps, s, p.k, p.c, p.y);
    AfterSecond(s, p);
    steps', s' := steps + MappingSteps(p.k, p.c), AfterMapping(s, p.k, p.c, p.y);
  }

  // ---------------------------------------------------------------- the trigger maps slab x

  /** The trigger is on, and slab x passes its test with its slot still set. */
  ghost predicate Tempting(s: System, p: Cast) {
    && Scene(s, p) && Offers(s.servers[p.c].tables, p.k)
    && Lingering(s.clients[p.k], p) && s.clients[p.k].mapping == C.NoMapping && C.TriggerMaps(s.clients[p.k], p.x)
  }

  lemma SwitchedOn(s: System, p: Cast, cl: C.Client)
    requires SecondMapped(s, p) && cl == C.EvictionEnds(s.clients[p.k], p.b)
    ensures C.CanEndEviction(s.clients[p.k], p.b) && Tempting(WithClient(s, p.k, cl), p)
    ensures cl.freeIdx == s.clients[p.k].freeIdx && cl.slotMap == s.clients[p.k].slotMap
  {
  }

  lemma SwitchOn(s0: System, steps: seq<Step>, s: System, p: Cast) returns (steps': seq<Step>, s': System)
    requires Reaches(s0, steps, s, AnyStep) && SecondMapped(s, p)
    ensures Reaches(s0, steps', s', AnyStep) && Tempting(s', p)
    ensures s'.clients[p.k].freeIdx == s.clients[p.k].freeIdx && s'.clients[p.k].slotMap == s.clients[p.k].slotMap
  {
    var cl' := C.EvictionEnds(s.clients[p.k], p.b);
    SwitchedOn(s, p, cl');
    ClientStep(s0, steps, s, p.k, C.EndEviction(p.b), cl');
    steps', s' := steps + [AtClient(p.k, C.EndEviction(p.b))], WithClient(s, p.k, cl');
  }

  /** Slab x is mapped at server c while server a is still draining it. */
  ghost predicate MappedTwice(s: System, p: Cast) {
    && Scene(s, p) && Draining(s.clients[p.k].conns[p.a], p.i, p.x, 0)
    && s.clients[p.k].cbIndexMap[p.x] == p.c && s.clients[p.k].slotMap[p.x] >= 0
  }

  lemma TemptingIsIdle(s: System, p: Cast)
    requires Tempting(s, p)
    ensures Idle(s, p.k, p.c, p.x)
  {
  }

  lemma TriggeredTwice(s: System, p: Cast)
    requires Tempting(s, p) && Idle(s, p.k, p.c, p.x)
    ensures var s' := Triggered(s, p.k, p.c, p.x);
            && MappedTwice(s', p) && s'.clients[p.k].freeIdx == s.clients[p.k].freeIdx - 1
            && s'.clients[p.k].slotMap == s.clients[p.k].slotMap[p.x := s'.clients[p.k].slotMap[p.x]]
  {
  }

  lemma MapAgain(s0: System, steps: seq<Step>, s: System, p: Cast) returns (steps': seq<Step>, s': System)
    requires Reaches(s0, steps, s, AnyStep) && Tempting(s, p)
    ensures Reaches(s0, steps', s', AnyStep) && MappedTwice(s', p)
    ensures s'.clients[p.k].freeIdx == s.clients[p.k].freeIdx - 1
    ensures s'.clients[p.k].slotMap == s.clients[p.k].slotMap[p.x := s'.clients[p.k].slotMap[p.x]]
  {
    TemptingIsIdle(s, p);
    TriggeredTwice(s, p);
    steps' := RunToTriggered(s0, steps, s, p.k, p.c, p.x);
    s' := Triggered(s, p.k, p.c, p.x);
  }

  /** Server a's thread clears the slot of the slab that is mapped at server c. */
  ghost predicate Cleared(s: System, p: Cast) {
    && InRange(s, p.k, p.a) && p.x < |s.clients[p.k].slotMap| == |s.clients[p.k].cbIndexMap|
    && s.clients[p.k].cbIndexMap[p.x] == p.c && s.clients[p.k].slotMap[p.x] == -1
  }

  lemma ReturnFirst(s0: System, steps: seq<Step>, s: System, p: Cast) returns (steps': seq<Step>, s': System)
    requires Reaches(s0, steps, s, AnyStep) && MappedTwice(s, p)
    ensures Reaches(s0, steps', s', AnyStep) && Cleared(s', p)
    ensures s'.clients[p.k].freeIdx == s.clients[p.k].freeIdx + 1
    ensures s'.clients[p.k].slotMap == s.clients[p.k].slotMap[p.x := -1]
  {
    steps' := DrainGoesThrough(s0, steps, s, p.k, p.a, p.i, p.x);
    s' := WithClient(s, p.k, Returned(s.clients[p.k], p.a, p.i, p.x, s.pool));
  }

  // ---------------------------------------------------------------- the whole run

  /** The index counts the slabs without a slot, up to `off` slabs. */
  ghost predicate Counts(cl: C.Client, off: int) {
    cl.freeIdx + 1 + off == Unplaced(cl.slotMap)
  }

  /** Server b's eviction, from the unmapping at server a to the switching on of the trigger. */
  lemma OtherEviction(s0: System, steps: seq<Step>, s: System, p: Cast) returns (steps': seq<Step>, s': System)
    requires Reaches(s0, steps, s, AnyStep) && FirstUnmapped(s, p) && s.clients[p.k].slotMap[p.y] != -1
    requires Counts(s.clients[p.k], 0)
    ensures Reaches(s0, steps', s', AnyStep) && Tempting(s', p) && Counts(s'.clients[p.k], 0)
    ensures s'.clients[p.k].freeIdx == s.clients[p.k].freeIdx && |s'.clients[p.k].slotMap| == |s.clients[p.k].slotMap|
  {
    var steps1, s1 := UnmapSecond(s0, steps, s, p);
    var steps2, s2 := ReturnSecond(s0, steps1, s1, p);
    var steps3, s3 := BeginSecond(s0, steps2, s2, p);
    var steps4, s4 := MapSecond(s0, steps3, s3, p);
    UnplacedAfterUpdate(s1.clients[p.k].slotMap, p.y, -1);
    UnplacedAfterUpdate(s3.clients[p.k].slotMap, p.y, s4.clients[p.k].slotMap[p.y]);
    steps', s' := SwitchOn(s0, steps4, s4, p);
  }

  /** From a state in which slab x is mapped at server a and slab y at server b: the trigger finds slab x with
      its slot set, maps it, and leaves the index one too low; then server a's thread returns it. */
  lemma LateRun(s0: System, steps: seq<Step>, s: System, p: Cast)
    returns (steps1: seq<Step>, s1: System, steps2: seq<Step>, s2: System, steps3: seq<Step>, s3: System)
    requires Reaches(s0, steps, s, AnyStep) && BothMapped(s, p) && s.clients[p.k].slotMap[p.y] != -1
    requires Counts(s.clients[p.k], 0)
    ensures Reaches(s0, steps1, s1, AnyStep) && Tempting(s1, p)
    ensures Reaches(s0, steps2, s2, AnyStep) && MappedTwice(s2, p) && Counts(s2.clients[p.k], 1)
    ensures s2.clients[p.k].freeIdx == s.clients[p.k].freeIdx - 1
    ensures Reaches(s0, steps3, s3, AnyStep) && Cleared(s3, p) && Counts(s3.clients[p.k], 1)
    ensures s3.clients[p.k].freeIdx == s.clients[p.k].freeIdx
  {
    var steps', s' := UnmapFirst(s0, steps, s, p);
    steps1, s1 := OtherEviction(s0, steps', s', p);
    steps2, s2 := MapAgain(s0, steps1, s1, p);
    UnplacedAfterUpdate(s1.clients[p.k].slotMap, p.x, s2.clients[p.k].slotMap[p.x]);
    steps3, s3 := ReturnFirst(s0, steps2, s2, p);
    UnplacedAfterUpdate(s2.clients[p.k].slotMap, p.x, -1);
  }

  // ---------------------------------------------------------------- from a fresh system

  /** A fresh system with a client of two slabs or more, two servers that offer a slab and one that offers two. */
  ghost predicate Ready(s: System, p: Cast) {
    && Init(s) && p.k < |s.clients| && p.a < |s.servers| && p.b < |s.servers| && p.c < |s.servers|
    && p.a != p.b && p.b != p.c && p.a != p.c && p.x != p.y
    && p.x < |s.clients[p.k].slotMap| && p.y < |s.clients[p.k].slotMap|
    && Offers(s.servers[p.a].tables, p.k) && Offers(s.servers[p.b].tables, p.k)
    && OffersTwice(s.servers[p.c].tables, p.k)
    && p.i == T.FirstFree(s.servers[p.a].tables) && p.j == T.FirstFree(s.servers[p.b].tables)
  }

  lemma FreshScene(s: System, p: Cast)
    requires Ready(s, p)
    ensures Scene(s, p) && Fresh(s.clients[p.k].conns[p.a]) && Fresh(s.clients[p.k].conns[p.b])
  {
    FreshClientInv(s.clients[p.k], s.slots, |s.servers|, s.pool);
    assert FreshConn(s.clients[p.k].conns[p.a], s.slots);
    assert FreshConn(s.clients[p.k].conns[p.b], s.slots);
    assert FreshConn(s.clients[p.k].conns[p.c], s.slots);
  }

  ghost predicate Fresh(c: C.Conn) {
    && c.live && !c.failed && c.phase == C.Ready && c.round == C.Quiet && c.up == [] && c.down == [] && !c.evicting
    && Rested(c)
  }

  /** The first mapping. */
  lemma FirstTriggered(s: System, p: Cast, s1: System)
    requires Scene(s, p) && Idle(s, p.k, p.a, p.x) && p.i == T.FirstFree(s.servers[p.a].tables)
    requires Fresh(s.clients[p.k].conns[p.a]) && Fresh(s.clients[p.k].conns[p.b])
    requires s1 == Triggered(s, p.k, p.a, p.x)
    ensures Scene(s1, p) && RoundReady(s1.clients[p.k].conns[p.a], p.i, p.x) && Fresh(s1.clients[p.k].conns[p.b])
    ensures s1.servers[p.b] == s.servers[p.b] && s1.servers[p.c] == s.servers[p.c]
    ensures s1.clients[p.k].slotMap == s.clients[p.k].slotMap[p.x := p.i]
    ensures s1.clients[p.k].freeIdx == s.clients[p.k].freeIdx - 1
  {
  }

  /** The second. */
  lemma SecondTriggered(s: System, p: Cast, s1: System)
    requires Scene(s, p) && Idle(s, p.k, p.b, p.y) && p.j == T.FirstFree(s.servers[p.b].tables)
    requires RoundReady(s.clients[p.k].conns[p.a], p.i, p.x) && Fresh(s.clients[p.k].conns[p.b])
    requires s.clients[p.k].slotMap[p.x] == p.i && OffersTwice(s.servers[p.c].tables, p.k)
    requires s1 == Triggered(s, p.k, p.b, p.y)
    ensures BothMapped(s1, p)
    ensures s1.clients[p.k].slotMap == s.clients[p.k].slotMap[p.y := p.j]
    ensures s1.clients[p.k].freeIdx == s.clients[p.k].freeIdx - 1
  {
  }

  lemma MapOne(s: System, p: Cast) returns (steps: seq<Step>, s1: System)
    requires Ready(s, p)
    ensures Reaches(s, steps, s1, AnyStep) && Scene(s1, p) && Idle(s1, p.k, p.b, p.y)
    ensures RoundReady(s1.clients[p.k].conns[p.a], p.i, p.x) && Fresh(s1.clients[p.k].conns[p.b])
    ensures s1.servers[p.b] == s.servers[p.b] && s1.servers[p.c] == s.servers[p.c]
    ensures s1.clients[p.k].slotMap == s.clients[p.k].slotMap[p.x := p.i]
    ensures s1.clients[p.k].freeIdx == s.clients[p.k].freeIdx - 1
  {
    RunBegins(s, AnyStep);
    FreshScene(s, p);
    FreshIsIdle(s, p.k, p.a, p.x);
    FreshIsIdle(s, p.k, p.b, p.y);
    IdleAgain(s, p.k, p.a, p.x, p.b, p.y);
    steps := RunToTriggered(s, [], s, p.k, p.a, p.x);
    s1 := Triggered(s, p.k, p.a, p.x);
    FirstTriggered(s, p, s1);
  }

  lemma MapOther(s: System, p: Cast) returns (steps: seq<Step>, t: System)
    requires Ready(s, p)
    ensures Reaches(s, steps, t, AnyStep) && BothMapped(t, p)
    ensures t.clients[p.k].slotMap == s.clients[p.k].slotMap[p.x := p.i][p.y := p.j]
    ensures t.clients[p.k].freeIdx == s.clients[p.k].freeIdx - 2
  {
    var steps1, s1 := MapOne(s, p);
    steps, t := MapNext(s, steps1, s1, p);
  }

  lemma MapNext(s0: System, steps: seq<Step>, s: System, p: Cast) returns (steps': seq<Step>, t: System)
    requires Reaches(s0, steps, s, AnyStep) && Scene(s, p) && Idle(s, p.k, p.b, p.y)
    requires p.j == T.FirstFree(s.servers[p.b].tables) && OffersTwice(s.servers[p.c].tables, p.k)
    requires RoundReady(s.clients[p.k].conns[p.a], p.i, p.x) && Fresh(s.clients[p.k].conns[p.b])
    requires s.clients[p.k].slotMap[p.x] == p.i
    ensures Reaches(s0, steps', t, AnyStep) && BothMapped(t, p)
    ensures t.clients[p.k].slotMap == s.clients[p.k].slotMap[p.y := p.j]
    ensures t.clients[p.k].freeIdx == s.clients[p.k].freeIdx - 1
  {
    steps' := RunToTriggered(s0, steps, s, p.k, p.b, p.y);
    t := Triggered(s, p.k, p.b, p.y);
    SecondTriggered(s, p, t);
  }

  lemma MapBoth(s: System, p: Cast) returns (steps: seq<Step>, t: System)
    requires Ready(s, p)
    ensures Reaches(s, steps, t, AnyStep) && BothMapped(t, p) && t.clients[p.k].slotMap[p.y] != -1
    ensures Counts(t.clients[p.k], 0) && t.clients[p.k].freeIdx == |s.clients[p.k].slotMap| - 3
  {
    steps, t := MapOther(s, p);
    FreshCounts(s, p);
    var m := s.clients[p.k].slotMap;
    UnplacedAfterUpdate(m, p.x, p.i);
    UnplacedAfterUpdate(m[p.x := p.i], p.y, p.j);
  }

  lemma FreshCounts(s: System, p: Cast)
    requires Ready(s, p)
    ensures Unplaced(s.clients[p.k].slotMap) == |s.clients[p.k].slotMap| == s.clients[p.k].freeIdx + 1
    ensures s.clients[p.k].slotMap[p.x] == -1 && s.clients[p.k].slotMap[p.y] == -1
  {
    assert FreshClient(s.clients[p.k], s.slots, |s.servers|, s.pool);
    AllUnplaced(s.clients[p.k].slotMap);
  }

  /** From every such fresh system, with two evictions under way at once: the trigger's test lets through a slab
      whose slot is set; mapping it leaves the index one below the number of unplaced slabs, which is below -1
      for a client of two slabs; and the thread that then returns the slab pushes it, for such a client, in
      front of the list, and leaves it with a server but without a slot. */
  lemma LateMappingFromFresh(s: System, p: Cast)
    returns (steps1: seq<Step>, s1: System, steps2: seq<Step>, s2: System, steps3: seq<Step>, s3: System)
    requires Ready(s, p)
    ensures Reaches(s, steps1, s1, AnyStep) && Tempting(s1, p)
    ensures Reaches(s, steps2, s2, AnyStep) && MappedTwice(s2, p) && Counts(s2.clients[p.k], 1)
    ensures s2.clients[p.k].freeIdx == |s.clients[p.k].slotMap| - 4
    ensures Reaches(s, steps3, s3, AnyStep) && Cleared(s3, p) && Counts(s3.clients[p.k], 1)
    ensures s3.clients[p.k].freeIdx == |s.clients[p.k].slotMap| - 3
  {
    var steps, t := MapBoth(s, p);
    steps1, s1, steps2, s2, steps3, s3 := LateRun(s, steps, t, p);
  }

  // ---------------------------------------------------------------- a concrete system

  function TwoSlabs(): T.Tables {
    T.Tables([true, true], [-1, -1], 2, 0, [0])
  }

  lemma TwoSlabsOffered()
    ensures OffersTwice(TwoSlabs(), 0) && T.FirstFree(TwoSlabs()) == 0
  {
    assert T.Free(TwoSlabs(), 0);
    var t := T.Bind(TwoSlabs(), 0);
    assert !T.Free(t, 0) && T.Free(t, 1);
  }

  function Untouched(): C.Conn {
    C.Conn(true, false, false, C.NoHandler, false, [-1, -1], [{}, {}], C.Ready, {}, {}, [], [], C.Quiet, false)
  }

  /** A client of two slabs with three servers of two slabs each. */
  function Trio(): System {
    var disk := EmptySlab() + EmptySlab();
    var pool := {Ctx(0, 0), Ctx(1, 0), Ctx(2, 0)};
    var v := Server(TwoSlabs(), [EmptySlab(), EmptySlab()]);
    System([C.Client(Dev(disk, disk, [], map[], pool, pool, map[], [], []), [-1, -1], [-1, -1], false, true, 1,
                     C.NoMapping, [Untouched(), Untouched(), Untouched()])],
           [v, v, v], 2, 1)
  }

  lemma TrioIsFresh()
    ensures Init(Trio())
  {
    assert FreshConn(Untouched(), 2) && ServerInv(Trio().servers[0], 2, 1);
    assert FreshClient(Trio().clients[0], 2, 3, 1);
  }

  /** There, the index reaches -2 and the returned slab is pushed at -1. */
  lemma LateMappingExample() returns (steps2: seq<Step>, s2: System, steps3: seq<Step>, s3: System)
    ensures Init(Trio()) && Reaches(Trio(), steps2, s2, AnyStep) && Reaches(Trio(), steps3, s3, AnyStep)
    ensures |s2.clients| > 0 && s2.clients[0].freeIdx == -2 && |s3.clients| > 0 && s3.clients[0].freeIdx == -1
    ensures !TidyMaps(s2.clients[0], 2) && !TidyMaps(s3.clients[0], 2)
  {
    TrioIsFresh();
    TwoSlabsOffered();
    var steps1, s1;
    steps1, s1, steps2, s2, steps3, s3 := LateMappingFromFresh(Trio(), Cast(0, 0, 1, 2, 0, 1, 0, 0));
  }
}
