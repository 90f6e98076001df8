/** The protocol can get somewhere: from every state in which a client is idle towards a daemon that has a
    free slab, a mapping operation that has begun goes through, and so does one the trigger begins.
 */
module SwapProgress {
  import opened BackupDisk
  import C = SwapClient
  import opened SwapInvariants
  import T = DaemonTables
  import opened Swap
  import opened SwapSafety

  // ---------------------------------------------------------------- one client, one server and the rest

  /** The system in which client k and server d are replaced. */
  function Pic(s: System, k: nat, cl: C.Client, d: nat, v: Server): System
    requires k < |s.clients| && d < |s.servers|
  {
    System(s.clients[k := cl], s.servers[d := v], s.slots, s.pool)
  }

  lemma PicOfItself(s: System, k: nat, d: nat)
    requires k < |s.clients| && d < |s.servers|
    ensures Pic(s, k, s.clients[k], d, s.servers[d]) == s
  {
    assert s.clients[k := s.clients[k]] == s.clients && s.servers[d := s.servers[d]] == s.servers;
  }

  lemma ClientNext(s: System, k: nat, cl: C.Client, d: nat, v: Server, e: C.Event)
    requires k < |s.clients| && d < |s.servers| && Safe(Pic(s, k, cl, d, v)) && C.Enabled(cl, e, s.pool) && Inv(cl.dev)
    ensures Enabled(Pic(s, k, cl, d, v), AtClient(k, e))
    ensures Next(Pic(s, k, cl, d, v), AtClient(k, e)) == Pic(s, k, C.Act(cl, e, s.pool), d, v)
  {
    var cl' := C.Act(cl, e, s.pool);
    assert s.clients[k := cl][k := cl'] == s.clients[k := cl'];
  }

  /** An action of the client goes on a run. */
  lemma ClientGoesOn(s0: System, steps: seq<Step>, s: System, k: nat, cl: C.Client, d: nat, v: Server, e: C.Event,
                     cl': C.Client)
    requires k < |s.clients| && d < |s.servers| && Reaches(s0, steps, Pic(s, k, cl, d, v), AnyStep)
    requires C.Enabled(cl, e, s.pool) && Inv(cl.dev) && cl' == C.Act(cl, e, s.pool)
    ensures Reaches(s0, steps + [AtClient(k, e)], Pic(s, k, cl', d, v), AnyStep)
  {
    var u := Pic(s, k, cl, d, v);
    RunSafe(s0, steps, u, AnyStep);
    ClientNext(s, k, cl, d, v, e);
    RunGoesOn(s0, steps, u, AtClient(k, e), Pic(s, k, cl', d, v), AnyStep);
  }

  function WithClient(s: System, k: nat, cl: C.Client): System
    requires k < |s.clients|
  {
    s.(clients := s.clients[k := cl])
  }

  lemma RunInv(s0: System, steps: seq<Step>, s: System, k: nat)
    requires Reaches(s0, steps, s, AnyStep) && k < |s.clients|
    ensures Inv(s.clients[k].dev) && ClientInv(s.clients[k], s.slots, s.pool)
  {
    RunSafe(s0, steps, s, AnyStep);
  }

  lemma ClientStep(s0: System, steps: seq<Step>, s: System, k: nat, e: C.Event, cl: C.Client)
    requires Reaches(s0, steps, s, AnyStep) && k < |s.clients| && C.Enabled(s.clients[k], e, s.pool)
    requires Inv(s.clients[k].dev) && cl == C.Act(s.clients[k], e, s.pool)
    ensures Reaches(s0, steps + [AtClient(k, e)], WithClient(s, k, cl), AnyStep)
  {
    RunSafe(s0, steps, s, AnyStep);
    RunGoesOn(s0, steps, s, AtClient(k, e), WithClient(s, k, cl), AnyStep);
  }

  /** What the daemon answers to a mapping message. */
  ghost predicate Answers(c: C.Conn, t: T.Tables, k: nat, c': C.Conn, t': T.Tables) {
    && c.live && c.up != [] && T.Shaped(t) && k < |t.chunkSize|
    && (|| (c.up[0].Query? && c' == AnswerQuery(c, t) && t' == t)
        || (c.up[0].Bind? && c' == AnswerBind(c, t) && t' == T.Bind(t, k)))
  }

  lemma DaemonNext(s: System, k: nat, cl: C.Client, d: nat, v: Server, c: C.Conn, t: T.Tables)
    requires k < |s.clients| && d < |s.servers| && Safe(Pic(s, k, cl, d, v))
    requires d < |cl.conns| && Answers(cl.conns[d], v.tables, k, c, t)
    ensures Enabled(Pic(s, k, cl, d, v), Deliver(k, d))
    ensures Next(Pic(s, k, cl, d, v), Deliver(k, d)) == Pic(s, k, WithConn(cl, d, c), d, v.(tables := t))
  {
    var cl' := WithConn(cl, d, c);
    assert s.clients[k := cl][k := cl'] == s.clients[k := cl'];
    assert s.servers[d := v][d := v.(tables := t)] == s.servers[d := v.(tables := t)];
  }

  /** So does a message taken by the daemon. */
  lemma DaemonGoesOn(s0: System, steps: seq<Step>, s: System, k: nat, cl: C.Client, d: nat, v: Server, c: C.Conn,
                     t: T.Tables, cl': C.Client)
    requires k < |s.clients| && d < |s.servers| && Reaches(s0, steps, Pic(s, k, cl, d, v), AnyStep)
    requires d < |cl.conns| && Answers(cl.conns[d], v.tables, k, c, t) && cl' == WithConn(cl, d, c)
    ensures Reaches(s0, steps + [Deliver(k, d)], Pic(s, k, cl', d, v.(tables := t)), AnyStep)
  {
    var u := Pic(s, k, cl, d, v);
    RunSafe(s0, steps, u, AnyStep);
    DaemonNext(s, k, cl, d, v, c, t);
    RunGoesOn(s0, steps, u, Deliver(k, d), Pic(s, k, cl', d, v.(tables := t)), AnyStep);
  }

  // ---------------------------------------------------------------- the client's part

  /** The client has begun to map slab b and its connection to d is idle. */
  ghost predicate IdleTowards(cl: C.Client, d: nat, b: nat) {
    && d < |cl.conns| && cl.conns[d].live && !cl.conns[d].failed && cl.conns[d].up == [] && cl.conns[d].down == []
    && b < |cl.slotMap| == |cl.cbIndexMap| && cl.mapping == C.Known(b, map[])
  }

  /** The daemon has a slab to hand out and says so. */
  ghost predicate Offers(t: T.Tables, k: nat) {
    T.Shaped(t) && k < |t.chunkSize| && T.FirstFree(t) < |t.malloc| && t.sizeGb - t.mappedSize > 0
  }

  /** What the daemon advertises. */
  function Size(v: Server): int {
    v.tables.sizeGb - v.tables.mappedSize
  }

  /** The client once slab b is mapped at slot i of server d, and nothing else is different. */
  function Mapped(cl: C.Client, d: nat, b: nat, i: nat): C.Client
    requires d < |cl.conns| && i < |cl.conns[d].chunkMap| && i < |cl.conns[d].bits|
    requires b < |cl.slotMap| == |cl.cbIndexMap|
  {
    var c := cl.conns[d];
    cl.(cbIndexMap := cl.cbIndexMap[b := d], slotMap := cl.slotMap[b := i], freeIdx := cl.freeIdx - 1, rdmaOn := true,
        mapping := C.NoMapping,
        conns := cl.conns[d := c.(chunkMap := c.chunkMap[i := b], bits := c.bits[i := {}],
                                  wasMapped := true, boundSince := true)])
  }

  /** QUERY and its answer. */
  function Asked(cl: C.Client, d: nat, b: nat): C.Client
    requires d < |cl.conns|
  {
    cl.(mapping := C.Querying(b, d, map[]), conns := cl.conns[d := C.SendUp(cl.conns[d], C.Query)])
  }

  function Told(cl: C.Client, d: nat, b: nat, size: int): C.Client
    requires d < |cl.conns|
  {
    cl.(mapping := C.Querying(b, d, map[]), conns := cl.conns[d := cl.conns[d].(down := [C.FreeSize(size)])])
  }

  function Knowing(cl: C.Client, d: nat, b: nat, size: int): C.Client {
    cl.(mapping := C.Known(b, map[d := size]))
  }

  function Binding(cl: C.Client, d: nat, b: nat): C.Client
    requires d < |cl.conns|
  {
    cl.(mapping := C.Binding(b, d), conns := cl.conns[d := cl.conns[d].(up := [C.Bind(b)])])
  }

  function Given(cl: C.Client, d: nat, b: nat, i: int): C.Client
    requires d < |cl.conns|
  {
    cl.(mapping := C.Binding(b, d), conns := cl.conns[d := cl.conns[d].(down := [C.Info(b, i)], boundSince := true)])
  }

  lemma ToldIs(cl: C.Client, d: nat, b: nat, v: Server, c: C.Conn)
    requires IdleTowards(cl, d, b)
    requires Asked(cl, d, b).conns[d].up != [] && c == AnswerQuery(Asked(cl, d, b).conns[d], v.tables)
    ensures WithConn(Asked(cl, d, b), d, c) == Told(cl, d, b, Size(v))
  {
    assert c == cl.conns[d].(down := [C.FreeSize(Size(v))]);
    assert Asked(cl, d, b).conns[d := c] == cl.conns[d := c];
  }

  lemma AskedIs(cl: C.Client, d: nat, b: nat)
    requires IdleTowards(cl, d, b)
    ensures C.CanQuery(cl, d) && C.SendQuery(cl, d) == Asked(cl, d, b)
    ensures Asked(cl, d, b).conns[d].up == [C.Query] && Asked(cl, d, b).conns[d].live
  {
  }

  lemma KnowingIs(cl: C.Client, d: nat, b: nat, size: int)
    requires IdleTowards(cl, d, b)
    ensures C.CanReceive(Told(cl, d, b, size), d) && C.Receive(Told(cl, d, b, size), d) == Knowing(cl, d, b, size)
  {
    assert C.Receive(Told(cl, d, b, size), d).conns[d] == cl.conns[d];
    assert C.Receive(Told(cl, d, b, size), d).conns == cl.conns;
  }

  lemma BindingIs(cl: C.Client, d: nat, b: nat, size: int)
    requires IdleTowards(cl, d, b) && size != 0
    ensures C.CanBind(Knowing(cl, d, b, size), d) && C.SendBind(Knowing(cl, d, b, size), d) == Binding(cl, d, b)
  {
    assert C.SendUp(cl.conns[d], C.Bind(b)) == cl.conns[d].(up := [C.Bind(b)]);
  }

  lemma GivenIs(cl: C.Client, d: nat, b: nat, t: T.Tables)
    requires IdleTowards(cl, d, b) && T.Shaped(t) && T.FirstFree(t) < |t.malloc|
    ensures Binding(cl, d, b).conns[d].up == [C.Bind(b)]
    ensures WithConn(Binding(cl, d, b), d, AnswerBind(Binding(cl, d, b).conns[d], t)) == Given(cl, d, b, T.FirstFree(t))
  {
    var c := AnswerBind(Binding(cl, d, b).conns[d], t);
    assert c == cl.conns[d].(down := [C.Info(b, T.FirstFree(t))], boundSince := true);
    assert Binding(cl, d, b).conns[d := c] == cl.conns[d := c];
  }

  lemma MappedIs(cl: C.Client, d: nat, b: nat, i: nat)
    requires IdleTowards(cl, d, b) && i < |cl.conns[d].chunkMap| && i < |cl.conns[d].bits|
    ensures C.CanReceive(Given(cl, d, b, i), d) && C.Receive(Given(cl, d, b, i), d) == Mapped(cl, d, b, i)
  {
    var cl' := C.Receive(Given(cl, d, b, i), d);
    assert cl'.conns[d] == Mapped(cl, d, b, i).conns[d];
    assert cl'.conns == Mapped(cl, d, b, i).conns;
  }

  // ---------------------------------------------------------------- the six steps

  /** A mapping operation for slab b has begun, and daemon d can serve it. */
  ghost predicate CanStart(s: System, k: nat, d: nat, b: nat) {
    && k < |s.clients| && d < |s.servers| && IdleTowards(s.clients[k], d, b) && Inv(s.clients[k].dev)
    && Offers(s.servers[d].tables, k)
    && |s.clients[k].conns[d].chunkMap| == |s.clients[k].conns[d].bits| == |s.servers[d].tables.malloc|
  }

  /** The server after the slab has been handed out. */
  function HandedOut(v: Server, k: nat): Server
    requires T.Shaped(v.tables) && k < |v.tables.chunkSize|
  {
    v.(tables := T.Bind(v.tables, k))
  }

  /** QUERY is sent. */
  lemma Ask(s0: System, steps: seq<Step>, s: System, k: nat, d: nat, b: nat)
    requires CanStart(s, k, d, b) && Reaches(s0, steps, s, AnyStep)
    ensures Reaches(s0, steps + [AtClient(k, C.AskServer(d))],
                    Pic(s, k, Asked(s.clients[k], d, b), d, s.servers[d]), AnyStep)
  {
    var cl, v := s.clients[k], s.servers[d];
    PicOfItself(s, k, d);
    AskedIs(cl, d, b);
    ClientGoesOn(s0, steps, s, k, cl, d, v, C.AskServer(d), Asked(cl, d, b));
  }

  /** FREE_SIZE is the answer. */
  lemma Answer(s0: System, steps: seq<Step>, s: System, k: nat, d: nat, b: nat)
    requires CanStart(s, k, d, b)
    requires Reaches(s0, steps, Pic(s, k, Asked(s.clients[k], d, b), d, s.servers[d]), AnyStep)
    ensures Reaches(s0, steps + [Deliver(k, d)],
                    Pic(s, k, Told(s.clients[k], d, b, Size(s.servers[d])), d, s.servers[d]), AnyStep)
  {
    var cl, v := s.clients[k], s.servers[d];
    AskedIs(cl, d, b);
    var c := AnswerQuery(Asked(cl, d, b).conns[d], v.tables);
    ToldIs(cl, d, b, v, c);
    DaemonGoesOn(s0, steps, s, k, Asked(cl, d, b), d, v, c, v.tables, Told(cl, d, b, Size(v)));
  }

  /** The answer is taken and the bind sent. */
  lemma Bind(s0: System, steps: seq<Step>, s: System, k: nat, d: nat, b: nat)
    requires CanStart(s, k, d, b)
    requires Reaches(s0, steps, Pic(s, k, Told(s.clients[k], d, b, Size(s.servers[d])), d, s.servers[d]), AnyStep)
    ensures Reaches(s0, steps + [AtClient(k, C.TakeMessage(d))] + [AtClient(k, C.BindTo(d))],
                    Pic(s, k, Binding(s.clients[k], d, b), d, s.servers[d]), AnyStep)
  {
    var cl, v := s.clients[k], s.servers[d];
    var size := Size(v);
    KnowingIs(cl, d, b, size);
    ClientGoesOn(s0, steps, s, k, Told(cl, d, b, size), d, v, C.TakeMessage(d), Knowing(cl, d, b, size));
    BindingIs(cl, d, b, size);
    ClientGoesOn(s0, steps + [AtClient(k, C.TakeMessage(d))], s, k, Knowing(cl, d, b, size), d, v, C.BindTo(d),
                 Binding(cl, d, b));
  }

  /** BIND_SINGLE is answered and INFO_SINGLE taken. */
  lemma Enter(s0: System, steps: seq<Step>, s: System, k: nat, d: nat, b: nat)
    requires CanStart(s, k, d, b)
    requires Reaches(s0, steps, Pic(s, k, Binding(s.clients[k], d, b), d, s.servers[d]), AnyStep)
    ensures Reaches(s0, steps + [Deliver(k, d)] + [AtClient(k, C.TakeMessage(d))], AfterMapping(s, k, d, b), AnyStep)
  {
    var cl, v := s.clients[k], s.servers[d];
    var i := T.FirstFree(v.tables);
    GivenIs(cl, d, b, v.tables);
    var c := AnswerBind(Binding(cl, d, b).conns[d], v.tables);
    DaemonGoesOn(s0, steps, s, k, Binding(cl, d, b), d, v, c, T.Bind(v.tables, k), Given(cl, d, b, i));
    MappedIs(cl, d, b, i);
    ClientGoesOn(s0, steps + [Deliver(k, d)], s, k, Given(cl, d, b, i), d, HandedOut(v, k), C.TakeMessage(d),
                 Mapped(cl, d, b, i));
  }

  /** The state a mapping operation leaves: the slab is mapped to the daemon's first free one, and nothing
      else has changed. */
  ghost function AfterMapping(s: System, k: nat, d: nat, b: nat): System
    requires CanStart(s, k, d, b)
  {
    var v := s.servers[d];
    Pic(s, k, Mapped(s.clients[k], d, b, T.FirstFree(v.tables)), d, HandedOut(v, k))
  }

  function MappingSteps(k: nat, d: nat): (steps: seq<Step>)
    ensures |steps| == 6
  {
    [AtClient(k, C.AskServer(d)), Deliver(k, d), AtClient(k, C.TakeMessage(d)),
     AtClient(k, C.BindTo(d)), Deliver(k, d), AtClient(k, C.TakeMessage(d))]
  }

  /** The conversation up to the bind. */
  lemma FirstFour(s0: System, steps: seq<Step>, s: System, k: nat, d: nat, b: nat, four: seq<Step>)
    requires CanStart(s, k, d, b) && Reaches(s0, steps, s, AnyStep)
    requires four == steps + [AtClient(k, C.AskServer(d))] + [Deliver(k, d)] + [AtClient(k, C.TakeMessage(d))]
                       + [AtClient(k, C.BindTo(d))]
    ensures Reaches(s0, four, Pic(s, k, Binding(s.clients[k], d, b), d, s.servers[d]), AnyStep)
  {
    Ask(s0, steps, s, k, d, b);
    var one := steps + [AtClient(k, C.AskServer(d))];
    Answer(s0, one, s, k, d, b);
    Bind(s0, one + [Deliver(k, d)], s, k, d, b);
  }

  lemma SixSteps(steps: seq<Step>, k: nat, d: nat, b: nat, four: seq<Step>)
    requires four == steps + [AtClient(k, C.AskServer(d))] + [Deliver(k, d)] + [AtClient(k, C.TakeMessage(d))]
                       + [AtClient(k, C.BindTo(d))]
    ensures four + [Deliver(k, d)] + [AtClient(k, C.TakeMessage(d))] == steps + MappingSteps(k, d)
  {
  }

  lemma SlabIsMapped(s: System, k: nat, d: nat, b: nat)
    requires CanStart(s, k, d, b)
    ensures MapsTo(AfterMapping(s, k, d, b), k, b, d, T.FirstFree(s.servers[d].tables))
  {
  }

  /** From every state in which client k has begun to map slab b, its connection to daemon d is idle and the
      daemon advertises a free slab, the six steps of the operation go through. */
  lemma OperationGoesThrough(s0: System, steps: seq<Step>, s: System, k: nat, d: nat, b: nat)
    requires CanStart(s, k, d, b) && Reaches(s0, steps, s, AnyStep)
    ensures Reaches(s0, steps + MappingSteps(k, d), AfterMapping(s, k, d, b), AnyStep)
    ensures MapsTo(AfterMapping(s, k, d, b), k, b, d, T.FirstFree(s.servers[d].tables))
  {
    var four := steps + [AtClient(k, C.AskServer(d))] + [Deliver(k, d)] + [AtClient(k, C.TakeMessage(d))]
      + [AtClient(k, C.BindTo(d))];
    FirstFour(s0, steps, s, k, d, b, four);
    Enter(s0, four, s, k, d, b);
    SixSteps(steps, k, d, b, four);
    SlabIsMapped(s, k, d, b);
  }

  // ---------------------------------------------------------------- with the trigger's beginning

  function Begun(s: System, k: nat, b: nat): System
    requires k < |s.clients|
  {
    WithClient(s, k, C.StartMapping(s.clients[k], b))
  }

  lemma TriggerBegins(s0: System, steps: seq<Step>, s: System, k: nat, b: nat)
    requires Reaches(s0, steps, s, AnyStep) && k < |s.clients|
    requires s.clients[k].mapping == C.NoMapping && C.TriggerMaps(s.clients[k], b)
    ensures Reaches(s0, steps + [AtClient(k, C.TriggerMapping(b))], Begun(s, k, b), AnyStep)
  {
    RunInv(s0, steps, s, k);
    ClientStep(s0, steps, s, k, C.TriggerMapping(b), C.StartMapping(s.clients[k], b));
  }

  /** Client k has no mapping operation under way, the trigger is on, slab b has no server, and daemon d, on an
      idle connection, advertises a free slab. */
  ghost predicate Idle(s: System, k: nat, d: nat, b: nat) {
    && k < |s.clients| && s.clients[k].mapping == C.NoMapping && C.TriggerMaps(s.clients[k], b)
    && CanStart(Begun(s, k, b), k, d, b)
  }

  lemma FreshIsIdle(s: System, k: nat, d: nat, b: nat)
    requires Init(s) && k < |s.clients| && d < |s.servers| && b < |s.clients[k].slotMap|
    requires Offers(s.servers[d].tables, k)
    ensures Idle(s, k, d, b)
  {
    FreshClientInv(s.clients[k], s.slots, |s.servers|, s.pool);
    assert FreshConn(s.clients[k].conns[d], s.slots);
  }

  /** The state after the trigger has had slab b mapped at server d. */
  ghost function Triggered(s: System, k: nat, d: nat, b: nat): System
    requires Idle(s, k, d, b)
  {
    AfterMapping(Begun(s, k, b), k, d, b)
  }

  /** A mapping operation with one server leaves the client ready for one with another. */
  lemma IdleAgain(s: System, k: nat, f: nat, c: nat, d: nat, b: nat)
    requires Idle(s, k, f, c) && Idle(s, k, d, b) && f != d && c != b
    ensures Idle(Triggered(s, k, f, c), k, d, b)
  {
  }

  /** From every such state the trigger has the slab mapped there. */
  lemma MappingGoesThrough(s0: System, steps: seq<Step>, s: System, k: nat, d: nat, b: nat)
    requires Reaches(s0, steps, s, AnyStep) && Idle(s, k, d, b)
    ensures Reaches(s0, steps + [AtClient(k, C.TriggerMapping(b))] + MappingSteps(k, d), Triggered(s, k, d, b), AnyStep)
    ensures MapsTo(Triggered(s, k, d, b), k, b, d, T.FirstFree(s.servers[d].tables))
  {
    TriggerBegins(s0, steps, s, k, b);
    OperationGoesThrough(s0, steps + [AtClient(k, C.TriggerMapping(b))], Begun(s, k, b), k, d, b);
  }

  lemma RunToTriggered(s0: System, steps: seq<Step>, s: System, k: nat, d: nat, b: nat) returns (steps': seq<Step>)
    requires Reaches(s0, steps, s, AnyStep) && Idle(s, k, d, b)
    ensures Reaches(s0, steps', Triggered(s, k, d, b), AnyStep)
  {
    MappingGoesThrough(s0, steps, s, k, d, b);
    steps' := steps + [AtClient(k, C.TriggerMapping(b))] + MappingSteps(k, d);
  }
}
