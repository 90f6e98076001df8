/** An eviction of one slab as a run: the daemon's round up to the unmapping of the slab, and the client's draining
    and returning it.
 */
module SwapEvictRun {
  import opened BackupDisk
  import C = SwapClient
  import opened Swap
  import opened SwapSafety
  import opened SwapProgress

  // ---------------------------------------------------------------- steps on one connection

  lemma SetConnTwice(s: System, k: nat, d: nat, c: C.Conn, c': C.Conn)
    requires InRange(s, k, d)
    ensures SetConn(SetConn(s, k, d, c), k, d, c') == SetConn(s, k, d, c')
  {
    var cl := s.clients[k];
    assert cl.conns[d := c][d := c'] == cl.conns[d := c'];
    assert s.clients[k := WithConn(cl, d, c)][k := WithConn(cl, d, c')] == s.clients[k := WithConn(cl, d, c')];
  }

  lemma SetConnItself(s: System, k: nat, d: nat)
    requires InRange(s, k, d)
    ensures SetConn(s, k, d, ConnOf(s, k, d)) == s
  {
    assert s.clients[k].conns[d := ConnOf(s, k, d)] == s.clients[k].conns;
    assert s.clients[k := s.clients[k]] == s.clients;
  }

  /** The step leaves all but this connection alone. */
  ghost predicate OnConn(s: System, k: nat, d: nat, e: Step, c: C.Conn)
    requires InRange(s, k, d)
  {
    match e
    case StartRound(k', d') =>
      k' == k && d' == d && ConnOf(s, k, d).live && ConnOf(s, k, d).round.Quiet? && c == SendEvict(ConnOf(s, k, d))
    case Deliver(k', d') =>
      && k' == k && d' == d && ConnOf(s, k, d).live && ConnOf(s, k, d).up != [] && ConnOf(s, k, d).up[0].Activity?
      && c == TakeActivity(ConnOf(s, k, d))
    case Choose(k', d', chosen, size) =>
      && k' == k && d' == d && ConnOf(s, k, d).live && ConnOf(s, k, d).round.Reported?
      && chosen <= ConnOf(s, k, d).round.slots && (size == 0 <==> chosen == {})
      && c == SendStop(ConnOf(s, k, d), chosen, size)
    case _ => false
  }

  lemma DaemonStep(s0: System, steps: seq<Step>, s: System, k: nat, d: nat, e: Step, c: C.Conn)
    requires Reaches(s0, steps, s, AnyStep) && InRange(s, k, d) && OnConn(s, k, d, e, c)
    ensures Reaches(s0, steps + [e], SetConn(s, k, d, c), AnyStep)
  {
    RunSafe(s0, steps, s, AnyStep);
    OnConnNext(s, k, d, e, c);
    RunGoesOn(s0, steps, s, e, SetConn(s, k, d, c), AnyStep);
  }

  lemma OnConnNext(s: System, k: nat, d: nat, e: Step, c: C.Conn)
    requires Safe(s) && InRange(s, k, d) && OnConn(s, k, d, e, c)
    ensures Enabled(s, e) && Next(s, e) == SetConn(s, k, d, c)
  {
    match e
    case StartRound(_, _) =>
    case Deliver(_, _) =>
    case Choose(_, _, _, _) =>
  }

  /** The same, in a state that differs from s in this connection. */
  lemma DaemonTurn(s0: System, steps: seq<Step>, s: System, k: nat, d: nat, c: C.Conn, e: Step, c': C.Conn)
    requires InRange(s, k, d) && Reaches(s0, steps, SetConn(s, k, d, c), AnyStep)
    requires OnConn(SetConn(s, k, d, c), k, d, e, c')
    ensures Reaches(s0, steps + [e], SetConn(s, k, d, c'), AnyStep)
  {
    DaemonStep(s0, steps, SetConn(s, k, d, c), k, d, e, c');
    SetConnTwice(s, k, d, c, c');
  }

  lemma WithClientTwice(s: System, k: nat, cl: C.Client, cl': C.Client)
    requires k < |s.clients|
    ensures WithClient(WithClient(s, k, cl), k, cl') == WithClient(s, k, cl')
  {
    assert s.clients[k := cl][k := cl'] == s.clients[k := cl'];
  }

  /** The client's action in a state that differs from s in the client. */
  lemma ClientMove(s0: System, steps: seq<Step>, s: System, k: nat, cl: C.Client, e: C.Event, cl': C.Client)
    requires k < |s.clients| && Reaches(s0, steps, WithClient(s, k, cl), AnyStep)
    requires C.Enabled(cl, e, s.pool) && Inv(cl.dev) && cl' == C.Act(cl, e, s.pool)
    ensures Reaches(s0, steps + [AtClient(k, e)], WithClient(s, k, cl'), AnyStep)
  {
    ClientStep(s0, steps, WithClient(s, k, cl), k, e, cl');
    WithClientTwice(s, k, cl, cl');
  }

  /** An action of the client that leaves all but this connection alone. */
  lemma ClientTurn(s0: System, steps: seq<Step>, s: System, k: nat, d: nat, c: C.Conn, e: C.Event, c': C.Conn)
    requires InRange(s, k, d) && Reaches(s0, steps, SetConn(s, k, d, c), AnyStep)
    requires C.Enabled(WithConn(s.clients[k], d, c), e, s.pool) && Inv(s.clients[k].dev)
    requires WithConn(s.clients[k], d, c') == C.Act(WithConn(s.clients[k], d, c), e, s.pool)
    ensures Reaches(s0, steps + [AtClient(k, e)], SetConn(s, k, d, c'), AnyStep)
  {
    SetConnIs(s, k, d, c);
    SetConnIs(s, k, d, c');
    ClientMove(s0, steps, s, k, WithConn(s.clients[k], d, c), e, WithConn(s.clients[k], d, c'));
  }

  lemma SetConnIs(s: System, k: nat, d: nat, c: C.Conn)
    requires InRange(s, k, d)
    ensures SetConn(s, k, d, c) == WithClient(s, k, WithConn(s.clients[k], d, c))
  {
  }

  // ---------------------------------------------------------------- the daemon's round

  /** Nothing is under way on the connection, and slot i serves slab b. */
  ghost predicate RoundReady(c: C.Conn, i: nat, b: nat) {
    && c.live && !c.failed && c.phase == C.Ready && c.round == C.Quiet && c.up == [] && c.down == [] && !c.evicting
    && i < |c.chunkMap| && c.chunkMap[i] == b
  }

  function Told1(c: C.Conn): C.Conn {
    c.(round := C.WaitActivity, boundSince := false, down := [C.Evict])
  }

  function Told2(c: C.Conn): C.Conn {
    c.(round := C.WaitActivity, boundSince := false, phase := C.Asked)
  }

  function Told3(c: C.Conn): C.Conn {
    c.(round := C.WaitActivity, boundSince := false, phase := C.AwaitStop, up := [C.Activity(C.MappedSlots(c))])
  }

  function Told4(c: C.Conn): C.Conn {
    c.(round := C.Reported(C.MappedSlots(c)), boundSince := false, phase := C.AwaitStop)
  }

  function Told5(c: C.Conn, i: nat): C.Conn {
    c.(round := C.WaitDone({i}, 1), boundSince := false, phase := C.AwaitStop, down := [C.Stop({i}, 1)])
  }

  function Told6(c: C.Conn, i: nat): C.Conn {
    c.(round := C.WaitDone({i}, 1), boundSince := false, phase := C.Draining({i}, map[], 0, 1), evicting := true)
  }

  lemma Round1(c: C.Conn, i: nat, b: nat)
    requires RoundReady(c, i, b)
    ensures SendEvict(c) == Told1(c) && C.RecvEvict(Told1(c)) == Told2(c) && C.SendActivity(Told2(c)) == Told3(c)
  {
    assert c.down + [C.Evict] == [C.Evict] && [C.Evict][1..] == [];
    assert C.MappedSlots(Told2(c)) == C.MappedSlots(c);
    assert c.up + [C.Activity(C.MappedSlots(c))] == [C.Activity(C.MappedSlots(c))];
  }

  lemma Round2(c: C.Conn, i: nat, b: nat)
    requires RoundReady(c, i, b)
    ensures TakeActivity(Told3(c)) == Told4(c) && i in C.MappedSlots(c) && SendStop(Told4(c), {i}, 1) == Told5(c, i)
    ensures C.RecvStop(Told5(c, i)) == Told6(c, i)
  {
    assert c.down + [C.Stop({i}, 1)] == [C.Stop({i}, 1)] && [C.Stop({i}, 1)][1..] == [];
  }

  /** EVICT is sent and taken. */
  lemma Evicting(s0: System, steps: seq<Step>, s: System, k: nat, d: nat, i: nat, b: nat) returns (steps': seq<Step>)
    requires Reaches(s0, steps, s, AnyStep) && InRange(s, k, d) && RoundReady(ConnOf(s, k, d), i, b)
    ensures Reaches(s0, steps', SetConn(s, k, d, Told2(ConnOf(s, k, d))), AnyStep)
  {
    var c := ConnOf(s, k, d);
    Round1(c, i, b);
    RunInv(s0, steps, s, k);
    DaemonStep(s0, steps, s, k, d, StartRound(k, d), Told1(c));
    var steps1 := steps + [StartRound(k, d)];
    WithConnTwice(s.clients[k], d, Told1(c), Told2(c));
    ClientTurn(s0, steps1, s, k, d, Told1(c), C.TakeMessage(d), Told2(c));
    steps' := steps1 + [AtClient(k, C.TakeMessage(d))];
  }

  lemma WithConnTwice(cl: C.Client, d: nat, c: C.Conn, c': C.Conn)
    requires d < |cl.conns|
    ensures WithConn(WithConn(cl, d, c), d, c') == WithConn(cl, d, c')
  {
    assert cl.conns[d := c][d := c'] == cl.conns[d := c'];
  }

  /** ACTIVITY is sent and taken. */
  lemma Reporting(s0: System, steps: seq<Step>, s: System, k: nat, d: nat, i: nat, b: nat) returns (steps': seq<Step>)
    requires InRange(s, k, d) && RoundReady(ConnOf(s, k, d), i, b) && Inv(s.clients[k].dev)
    requires Reaches(s0, steps, SetConn(s, k, d, Told2(ConnOf(s, k, d))), AnyStep)
    ensures Reaches(s0, steps', SetConn(s, k, d, Told4(ConnOf(s, k, d))), AnyStep)
  {
    var c := ConnOf(s, k, d);
    Round1(c, i, b);
    Round2(c, i, b);
    WithConnTwice(s.clients[k], d, Told2(c), Told3(c));
    ClientTurn(s0, steps, s, k, d, Told2(c), C.ReportActivity(d), Told3(c));
    var steps1 := steps + [AtClient(k, C.ReportActivity(d))];
    DaemonTurn(s0, steps1, s, k, d, Told3(c), Deliver(k, d), Told4(c));
    steps' := steps1 + [Deliver(k, d)];
  }

  /** STOP is sent. */
  lemma Choosing(s0: System, steps: seq<Step>, s: System, k: nat, d: nat, i: nat, b: nat) returns (steps': seq<Step>)
    requires InRange(s, k, d) && RoundReady(ConnOf(s, k, d), i, b)
    requires Reaches(s0, steps, SetConn(s, k, d, Told4(ConnOf(s, k, d))), AnyStep)
    ensures Reaches(s0, steps', SetConn(s, k, d, Told5(ConnOf(s, k, d), i)), AnyStep)
  {
    var c := ConnOf(s, k, d);
    Round2(c, i, b);
    DaemonTurn(s0, steps, s, k, d, Told4(c), Choose(k, d, {i}, 1), Told5(c, i));
    steps' := steps + [Choose(k, d, {i}, 1)];
  }

  // ---------------------------------------------------------------- the slab is unmapped

  /** The client when the STOP has been taken. */
  function Stopped(cl: C.Client, d: nat, i: nat): C.Client
    requires d < |cl.conns|
  {
    WithConn(cl, d, Told6(cl.conns[d], i)).(triggerOn := false)
  }

  /** And when slot i, which served slab b, has been unmapped. */
  function Unmapping(cl: C.Client, d: nat, i: nat, b: nat): C.Client
    requires d < |cl.conns| && i < |cl.conns[d].chunkMap| && b < |cl.cbIndexMap|
  {
    var c := cl.conns[d];
    cl.(cbIndexMap := cl.cbIndexMap[b := -1], triggerOn := false,
        conns := cl.conns[d := c.(round := C.WaitDone({i}, 1), boundSince := false, evicting := true,
                                  phase := C.Draining({}, map[i := b], 0, 1), chunkMap := c.chunkMap[i := -1])])
  }

  lemma StoppedIs(cl: C.Client, d: nat, i: nat, b: nat)
    requires d < |cl.conns| && RoundReady(cl.conns[d], i, b)
    ensures var mid := WithConn(cl, d, Told5(cl.conns[d], i));
            C.CanReceive(mid, d) && C.Receive(mid, d) == Stopped(cl, d, i)
  {
    Round2(cl.conns[d], i, b);
    WithConnTwice(cl, d, Told5(cl.conns[d], i), Told6(cl.conns[d], i));
  }

  lemma UnmappingIs(cl: C.Client, d: nat, i: nat, b: nat)
    requires d < |cl.conns| && RoundReady(cl.conns[d], i, b) && b < |cl.cbIndexMap|
    ensures C.CanUnmap(Stopped(cl, d, i), d, i) && C.Unmap(Stopped(cl, d, i), d, i) == Unmapping(cl, d, i, b)
  {
    var c := C.UnmapSlot(Told6(cl.conns[d], i), i);
    assert {i} - {i} == {};
    assert c == Unmapping(cl, d, i, b).conns[d];
    assert Stopped(cl, d, i).conns[d := c] == cl.conns[d := c];
  }

  lemma Unmaps(s0: System, steps: seq<Step>, s: System, k: nat, d: nat, i: nat, b: nat) returns (steps': seq<Step>)
    requires InRange(s, k, d) && RoundReady(ConnOf(s, k, d), i, b) && Inv(s.clients[k].dev)
    requires b < |s.clients[k].cbIndexMap|
    requires Reaches(s0, steps, SetConn(s, k, d, Told5(ConnOf(s, k, d), i)), AnyStep)
    ensures Reaches(s0, steps', WithClient(s, k, Unmapping(s.clients[k], d, i, b)), AnyStep)
  {
    var cl := s.clients[k];
    StoppedIs(cl, d, i, b);
    UnmappingIs(cl, d, i, b);
    assert SetConn(s, k, d, Told5(cl.conns[d], i)) == WithClient(s, k, WithConn(cl, d, Told5(cl.conns[d], i)));
    ClientMove(s0, steps, s, k, WithConn(cl, d, Told5(cl.conns[d], i)), C.TakeMessage(d), Stopped(cl, d, i));
    var steps1 := steps + [AtClient(k, C.TakeMessage(d))];
    ClientMove(s0, steps1, s, k, Stopped(cl, d, i), C.UnmapVictim(d, i), Unmapping(cl, d, i, b));
    steps' := steps1 + [AtClient(k, C.UnmapVictim(d, i))];
  }

  /** From every state with nothing under way on the connection, the daemon's round leads to the unmapping of
      slot i. */
  lemma RoundGoesThrough(s0: System, steps: seq<Step>, s: System, k: nat, d: nat, i: nat, b: nat)
    returns (steps': seq<Step>)
    requires Reaches(s0, steps, s, AnyStep) && InRange(s, k, d) && RoundReady(ConnOf(s, k, d), i, b)
    requires b < |s.clients[k].cbIndexMap|
    ensures Reaches(s0, steps', WithClient(s, k, Unmapping(s.clients[k], d, i, b)), AnyStep)
  {
    RunInv(s0, steps, s, k);
    var steps1 := Evicting(s0, steps, s, k, d, i, b);
    var steps2 := Reporting(s0, steps1, s, k, d, i, b);
    var steps3 := Choosing(s0, steps2, s, k, d, i, b);
    steps' := Unmaps(s0, steps3, s, k, d, i, b);
  }

  // ---------------------------------------------------------------- draining

  /** Slot i of server d is being drained of slab b, and the scan has passed n contexts. */
  ghost predicate Draining(c: C.Conn, i: nat, b: nat, n: nat) {
    c.phase == C.Draining({}, map[i := b], n, 1)
  }

  function Scanned(cl: C.Client, d: nat, i: nat, b: nat, n: nat): C.Client
    requires d < |cl.conns|
  {
    WithConn(cl, d, cl.conns[d].(phase := C.Draining({}, map[i := b], n, 1)))
  }

  lemma ScanIs(cl: C.Client, d: nat, i: nat, b: nat, n: nat, pool: nat)
    requires d < |cl.conns| && n < pool && cl.dev.flight == map[]
    ensures var mid := Scanned(cl, d, i, b, n);
            && C.CanScan(mid, d, pool)
            && mid.(conns := mid.conns[d := C.ScanContext(mid.conns[d], d, mid.dev.flight)])
            == Scanned(cl, d, i, b, n + 1)
  {
    var c := Scanned(cl, d, i, b, n + 1).conns[d];
    WithConnTwice(cl, d, Scanned(cl, d, i, b, n).conns[d], c);
  }

  lemma ScanStep(s0: System, steps: seq<Step>, s: System, k: nat, d: nat, i: nat, b: nat, n: nat)
    requires InRange(s, k, d) && Inv(s.clients[k].dev) && s.clients[k].dev.flight == map[] && n < s.pool
    requires Reaches(s0, steps, WithClient(s, k, Scanned(s.clients[k], d, i, b, n)), AnyStep)
    ensures Reaches(s0, steps + [AtClient(k, C.ScanNext(d))],
                    WithClient(s, k, Scanned(s.clients[k], d, i, b, n + 1)), AnyStep)
  {
    var cl := s.clients[k];
    ScanIs(cl, d, i, b, n, s.pool);
    ClientMove(s0, steps, s, k, Scanned(cl, d, i, b, n), C.ScanNext(d), Scanned(cl, d, i, b, n + 1));
  }

  /** With nothing in flight the scan gets through. */
  lemma {:induction false} ScanGoesThrough(s0: System, steps: seq<Step>, s: System, k: nat, d: nat, i: nat, b: nat,
                                           n: nat)
    returns (steps': seq<Step>)
    requires InRange(s, k, d) && Inv(s.clients[k].dev) && s.clients[k].dev.flight == map[] && n <= s.pool
    requires Reaches(s0, steps, WithClient(s, k, Scanned(s.clients[k], d, i, b, n)), AnyStep)
    ensures Reaches(s0, steps', WithClient(s, k, Scanned(s.clients[k], d, i, b, s.pool)), AnyStep)
    decreases s.pool - n
  {
    if n == s.pool {
      steps' := steps;
    } else {
      ScanStep(s0, steps, s, k, d, i, b, n);
      var steps1 := steps + [AtClient(k, C.ScanNext(d))];
      steps' := ScanGoesThrough(s0, steps1, s, k, d, i, b, n + 1);
    }
  }

  /** DONE is sent and the slab is returned. */
  function Sent(cl: C.Client, d: nat, i: nat, b: nat, pool: nat): C.Client
    requires d < |cl.conns|
  {
    WithConn(cl, d, C.SendDone(Scanned(cl, d, i, b, pool).conns[d]))
  }

  function Returned(cl: C.Client, d: nat, i: nat, b: nat, pool: nat): C.Client
    requires d < |cl.conns| && b < |cl.slotMap|
  {
    cl.(slotMap := cl.slotMap[b := -1], freeIdx := cl.freeIdx + 1,
        conns := cl.conns[d := C.Forgetting(Sent(cl, d, i, b, pool).conns[d], b)])
  }

  lemma SentIs(cl: C.Client, d: nat, i: nat, b: nat, pool: nat)
    requires d < |cl.conns| && b < |cl.slotMap|
    ensures var mid := Scanned(cl, d, i, b, pool);
            && C.CanFinish(mid, d, pool)
            && mid.(conns := mid.conns[d := C.SendDone(mid.conns[d])]) == Sent(cl, d, i, b, pool)
    ensures C.CanForget(Sent(cl, d, i, b, pool), d, b)
    ensures C.Forget(Sent(cl, d, i, b, pool), d, b) == Returned(cl, d, i, b, pool)
  {
    var mid := Scanned(cl, d, i, b, pool);
    var c := C.SendDone(mid.conns[d]);
    WithConnTwice(cl, d, mid.conns[d], c);
    assert map[i := b][i] == b;
    assert cl.conns[d := c][d := C.Forgetting(c, b)] == cl.conns[d := C.Forgetting(c, b)];
  }

  lemma ScannedItself(s: System, k: nat, d: nat, i: nat, b: nat)
    requires InRange(s, k, d) && Draining(ConnOf(s, k, d), i, b, 0)
    ensures WithClient(s, k, Scanned(s.clients[k], d, i, b, 0)) == s
  {
    assert ConnOf(s, k, d).(phase := C.Draining({}, map[i := b], 0, 1)) == ConnOf(s, k, d);
    SetConnItself(s, k, d);
  }

  /** From every state with slot i unmapped and nothing in flight, the eviction thread gets as far as having
      returned the slab. */
  lemma DrainGoesThrough(s0: System, steps: seq<Step>, s: System, k: nat, d: nat, i: nat, b: nat)
    returns (steps': seq<Step>)
    requires Reaches(s0, steps, s, AnyStep) && InRange(s, k, d) && Draining(ConnOf(s, k, d), i, b, 0)
    requires s.clients[k].dev.flight == map[] && b < |s.clients[k].slotMap|
    ensures Reaches(s0, steps', WithClient(s, k, Returned(s.clients[k], d, i, b, s.pool)), AnyStep)
  {
    var cl := s.clients[k];
    RunInv(s0, steps, s, k);
    ScannedItself(s, k, d, i, b);
    var steps1 := ScanGoesThrough(s0, steps, s, k, d, i, b, 0);
    SentIs(cl, d, i, b, s.pool);
    ClientMove(s0, steps1, s, k, Scanned(cl, d, i, b, s.pool), C.FinishEviction(d), Sent(cl, d, i, b, s.pool));
    var steps2 := steps1 + [AtClient(k, C.FinishEviction(d))];
    ClientMove(s0, steps2, s, k, Sent(cl, d, i, b, s.pool), C.ForgetSlab(d, b), Returned(cl, d, i, b, s.pool));
    steps' := steps2 + [AtClient(k, C.ForgetSlab(d, b))];
  }
}
