/** Tidy maps over whole runs of the system. */
module SwapTidyRuns {
  import opened BackupDisk
  import C = SwapClient
  import opened SwapClientProof
  import opened SwapTidy
  import opened SwapTidyProof
  import opened SwapSolo
  import T = DaemonTables
  import opened Swap
  import opened SwapSafety

  // ---------------------------------------------------------------- steps that are no client's

  /** Nothing tidiness or work depends on has changed. */
  ghost predicate Kept(cl: C.Client, cl': C.Client) {
    && AllSameHolds(cl.conns, cl'.conns) && AllSameWork(cl.conns, cl'.conns)
    && cl'.cbIndexMap == cl.cbIndexMap && cl'.slotMap == cl.slotMap && cl'.freeIdx == cl.freeIdx
    && cl'.mapping == cl.mapping && cl'.triggerOn == cl.triggerOn
  }

  lemma KeptTidy(cl: C.Client, cl': C.Client, slots: nat)
    requires Kept(cl, cl')
    ensures Tidy(cl, slots) ==> Tidy(cl', slots)
    ensures Solo(cl) ==> Solo(cl')
  {
    if Tidy(cl, slots) {
      TidyFrame(cl, cl', slots);
    }
    if Solo(cl) {
      SoloFrame(cl, cl');
    }
  }

  ghost predicate AllKept(cls: seq<C.Client>, cls': seq<C.Client>) {
    |cls'| == |cls| && forall k :: 0 <= k < |cls| ==> Kept(cls[k], cls'[k])
  }

  lemma KeptItself(cl: C.Client)
    ensures Kept(cl, cl)
  {
  }

  lemma AllKeptThemselves(cls: seq<C.Client>)
    ensures AllKept(cls, cls)
  {
    forall k | 0 <= k < |cls| ensures Kept(cls[k], cls[k]) {
      KeptItself(cls[k]);
    }
  }

  lemma OneKept(cls: seq<C.Client>, k: nat, cl: C.Client)
    requires k < |cls| && Kept(cls[k], cl)
    ensures AllKept(cls, cls[k := cl])
  {
    forall j | 0 <= j < |cls| ensures Kept(cls[j], cls[k := cl][j]) {
      KeptItself(cls[j]);
    }
  }

  lemma SetConnKept(s: System, k: nat, d: nat, c: C.Conn)
    requires InRange(s, k, d) && SameHolds(ConnOf(s, k, d), c) && SameWork(ConnOf(s, k, d), c)
    ensures AllKept(s.clients, SetConn(s, k, d, c).clients)
  {
    var cl := s.clients[k];
    OneSameHolds(cl.conns, d, c);
    OneSameWork(cl.conns, d, c);
    OneKept(s.clients, k, cl.(conns := cl.conns[d := c]));
  }

  ghost predicate SameAll(c: C.Conn, c': C.Conn) {
    SameHolds(c, c') && SameWork(c, c')
  }

  lemma AnswersSame(c: C.Conn, t: T.Tables)
    requires c.up != [] && T.Shaped(t)
    ensures SameAll(c, AnswerQuery(c, t)) && SameAll(c, TakeDone(c)) && SameAll(c, c)
    ensures c.up[0].Bind? ==> SameAll(c, AnswerBind(c, t))
    ensures c.up[0].Activity? ==> SameAll(c, TakeActivity(c))
  {
  }

  /** The connection after a message has been taken by the daemon. */
  lemma DeliverConn(s: System, k: nat, d: nat) returns (c: C.Conn)
    requires InRange(s, k, d) && ConnOf(s, k, d).up != [] && ServerInv(s.servers[d], s.slots, |s.clients|)
    ensures SameAll(ConnOf(s, k, d), c) && DeliverUp(s, k, d).clients == SetConn(s, k, d, c).clients
  {
    var t := s.servers[d].tables;
    c := ConnOf(s, k, d);
    AnswersSame(c, t);
    match c.up[0]
    case Query => c := AnswerQuery(c, t);
    case Bind(_) => c := AnswerBind(c, t);
    case Activity(_) => c := TakeActivity(c);
    case Done(slots, size) => c := TakeDone(c);
    case _ => assert SetConn(s, k, d, c) == s by {
      assert s.clients[k].conns[d := c] == s.clients[k].conns;
      assert s.clients[k := s.clients[k]] == s.clients;
    }
  }

  lemma DeliverKept(s: System, k: nat, d: nat)
    requires InRange(s, k, d) && ConnOf(s, k, d).up != [] && ServerInv(s.servers[d], s.slots, |s.clients|)
    ensures AllKept(s.clients, DeliverUp(s, k, d).clients)
  {
    var c := DeliverConn(s, k, d);
    SetConnKept(s, k, d, c);
  }

  lemma BitsKept(cl: C.Client, cl': C.Client)
    requires SameButBits(cl.(dev := cl'.dev), cl')
    ensures Kept(cl, cl')
  {
    forall d | 0 <= d < |cl.conns| ensures SameHolds(cl.conns[d], cl'.conns[d]) && SameWork(cl.conns[d], cl'.conns[d]) {
    }
  }

  lemma LandKept(s: System, k: nat, ctx: Ctx)
    requires k < |s.clients| && ctx.server < |s.servers| && C.CanComplete(s.clients[k], ctx, s.slots)
    requires ServerInv(s.servers[ctx.server], s.slots, |s.clients|) && Inv(s.clients[k].dev)
    ensures AllKept(s.clients, LandOp(s, k, ctx).clients)
  {
    var cl := s.clients[k];
    var cl' := LandOp(s, k, ctx).clients[k];
    if cl.dev.flight[ctx].WriteOp? {
      EndWriteOnlyBits(cl, ctx, s.slots);
    }
    BitsKept(cl, cl');
    OneKept(s.clients, k, cl');
  }

  lemma RoundStepKept(s: System, e: Step)
    requires Safe(s) && Enabled(s, e) && (e.StartRound? || e.Choose? || e.Cut?)
    ensures AllKept(s.clients, Next(s, e).clients)
  {
    match e
    case StartRound(k, d) => SetConnKept(s, k, d, SendEvict(ConnOf(s, k, d)));
    case Choose(k, d, chosen, size) => SetConnKept(s, k, d, SendStop(ConnOf(s, k, d), chosen, size));
    case Cut(k, d) => SetConnKept(s, k, d, C.CutConn(ConnOf(s, k, d)));
  }

  lemma AllocationKept(s: System, e: Step)
    requires Safe(s) && Enabled(s, e) && (e.DropSlots? || e.GrowSlots? || e.Destroy?)
    ensures AllKept(s.clients, Next(s, e).clients)
  {
    assert Next(s, e).clients == s.clients;
    AllKeptThemselves(s.clients);
  }

  lemma OtherStepKept(s: System, e: Step)
    requires Safe(s) && Enabled(s, e) && !e.AtClient?
    ensures AllKept(s.clients, Next(s, e).clients)
  {
    if e.Land? {
      LandKept(s, e.k, e.ctx);
    } else if e.Deliver? {
      DeliverKept(s, e.k, e.d);
    } else if e.StartRound? || e.Choose? || e.Cut? {
      RoundStepKept(s, e);
    } else {
      AllocationKept(s, e);
    }
  }

  // ---------------------------------------------------------------- runs

  ghost predicate AllTidy(s: System) {
    forall k :: 0 <= k < |s.clients| ==> Tidy(s.clients[k], s.slots)
  }

  ghost predicate AllSolo(s: System) {
    forall k :: 0 <= k < |s.clients| ==> Solo(s.clients[k])
  }

  /** Mapping operations are begun on slabs without a slot. */
  ghost predicate UnplacedStep(s: System, e: Step) {
    e.AtClient? && e.k < |s.clients| ==> BeginsUnplaced(s.clients[e.k], e.e)
  }

  /** Evictions and disconnects of a client begin one after the other. */
  ghost predicate SoloStep(s: System, e: Step) {
    e.AtClient? && e.k < |s.clients| ==> BeginsAlone(s.clients[e.k], e.e)
  }

  lemma AllKeptTidy(cls: seq<C.Client>, cls': seq<C.Client>, slots: nat)
    requires AllKept(cls, cls')
    ensures (forall k :: 0 <= k < |cls| ==> Tidy(cls[k], slots)) ==>
              forall k :: 0 <= k < |cls'| ==> Tidy(cls'[k], slots)
    ensures (forall k :: 0 <= k < |cls| ==> Solo(cls[k])) ==> forall k :: 0 <= k < |cls'| ==> Solo(cls'[k])
  {
    forall k | 0 <= k < |cls|
      ensures Tidy(cls[k], slots) ==> Tidy(cls'[k], slots)
      ensures Solo(cls[k]) ==> Solo(cls'[k])
    {
      KeptTidy(cls[k], cls'[k], slots);
    }
  }

  lemma OtherStepTidy(s: System, e: Step, s': System)
    requires Safe(s) && Enabled(s, e) && !e.AtClient? && s' == Next(s, e)
    ensures AllTidy(s) ==> AllTidy(s')
    ensures AllSolo(s) ==> AllSolo(s')
  {
    OtherStepKept(s, e);
    assert s'.slots == s.slots;
    AllKeptTidy(s.clients, s'.clients, s.slots);
  }

  lemma StepTidy(s: System, e: Step)
    requires Safe(s) && AllTidy(s) && Enabled(s, e) && UnplacedStep(s, e)
    ensures AllTidy(Next(s, e))
  {
    if e.AtClient? {
      ActTidy(s.clients[e.k], e.e, s.slots, s.pool);
    } else {
      OtherStepTidy(s, e, Next(s, e));
    }
  }

  lemma StepSolo(s: System, e: Step)
    requires Safe(s) && AllTidy(s) && AllSolo(s) && Enabled(s, e) && SoloStep(s, e)
    ensures AllTidy(Next(s, e)) && AllSolo(Next(s, e))
  {
    if e.AtClient? {
      ActSolo(s.clients[e.k], e.e, s.slots, s.pool);
    } else {
      OtherStepTidy(s, e, Next(s, e));
    }
  }

  lemma FreshTidy(cl: C.Client, slots: nat, servers: nat, pool: nat)
    requires FreshClient(cl, slots, servers, pool)
    ensures Tidy(cl, slots) && Solo(cl)
  {
    forall d | 0 <= d < servers
      ensures HoldsOnce(cl.conns[d]) && !Working(cl.conns[d]) && WorkOk(cl.conns[d], cl.slotMap, cl.mapping)
      ensures forall b: nat :: !C.Holds(cl.conns[d], b)
    {
      assert FreshConn(cl.conns[d], slots);
      FreshConnInv(cl.conns[d], slots);
    }
    AllUnplaced(cl.slotMap);
  }

  lemma InitTidy(s: System)
    requires Init(s)
    ensures AllTidy(s) && AllSolo(s)
  {
    forall k | 0 <= k < |s.clients| ensures Tidy(s.clients[k], s.slots) && Solo(s.clients[k]) {
      FreshTidy(s.clients[k], s.slots, |s.servers|, s.pool);
    }
  }

  /** In every run whose mapping operations are begun on slabs without a slot, the maps are inverse, every
      placed slab is answered for by one connection, and the index counts the slabs that are not placed. */
  lemma TidyInEveryRun(s: System, steps: seq<Step>, t: System)
    requires Init(s) && Reaches(s, steps, t, UnplacedStep)
    ensures AllTidy(t)
  {
    InitTidy(s);
    forall u, e | Safe(u) && AllTidy(u) && Enabled(u, e) && UnplacedStep(u, e) ensures AllTidy(Next(u, e)) {
      StepTidy(u, e);
    }
    RunKeeps(s, steps, t, UnplacedStep, AllTidy);
  }

  /** So it is in every run in which evictions and disconnects of a client begin one after the other: there,
      the tests of the source let no operation begin on a slab with a slot. */
  lemma TidyWhenAlone(s: System, steps: seq<Step>, t: System)
    requires Init(s) && Reaches(s, steps, t, SoloStep)
    ensures AllTidy(t) && AllSolo(t)
    ensures forall k, e :: 0 <= k < |t.clients| && C.Enabled(t.clients[k], e, t.pool) ==>
              BeginsUnplaced(t.clients[k], e)
  {
    InitTidy(s);
    var inv := u => AllTidy(u) && AllSolo(u);
    forall u, e | Safe(u) && inv(u) && Enabled(u, e) && SoloStep(u, e) ensures inv(Next(u, e)) {
      StepSolo(u, e);
    }
    RunKeeps(s, steps, t, SoloStep, inv);
    forall k, e | 0 <= k < |t.clients| && C.Enabled(t.clients[k], e, t.pool) ensures BeginsUnplaced(t.clients[k], e) {
      SoloBeginsUnplaced(t.clients[k], e, t.slots, t.pool);
    }
  }

  /** free_chunk_index counts the session slabs not placed anywhere, so pushing one more on the list
      of unmapped slabs stays inside it. */
  lemma FreeIndexInBounds(cl: C.Client, slots: nat)
    requires Tidy(cl, slots)
    ensures cl.freeIdx + 1 == Unplaced(cl.slotMap) && -1 <= cl.freeIdx < |cl.slotMap|
    ensures forall d, b: nat :: 0 <= d < |cl.conns| && C.Holds(cl.conns[d], b) ==> cl.freeIdx + 1 < |cl.slotMap|
  {
    UnplacedAtMost(cl.slotMap);
    forall d, b: nat | 0 <= d < |cl.conns| && C.Holds(cl.conns[d], b) ensures Unplaced(cl.slotMap) < |cl.slotMap| {
      RoomForOne(cl.slotMap, b);
    }
  }

  /** A request across two slabs looks up the slot of each slab that has a server. While the maps are tidy there
      is one; after `SwapLateRun` there need not be. */
  lemma CrossLookupInRange(cl: C.Client, slots: nat, b: nat)
    requires TidyMaps(cl, slots) && b < |cl.cbIndexMap|
    ensures cl.cbIndexMap[b] != -1 ==> 0 <= cl.slotMap[b] < slots
  {
  }
}
