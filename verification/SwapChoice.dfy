/** What a mapping operation binds to, over whole runs: the largest of all sizes the servers have answered since
    the operation began, for the slab it began on.
 */
module SwapChoice {
  import opened BackupDisk
  import C = SwapClient
  import opened SwapClientProof
  import opened Swap
  import opened SwapSafety
  import opened SwapTidyRuns
  import S = ServerChoice

  /** The last operation begun: its slab, and the sizes received since. */
  datatype Operation = Operation(slab: nat, sizes: map<nat, int>)

  /** A FREE_SIZE waits at client k from server d. */
  ghost predicate SizeWaits(s: System, k: nat, d: nat) {
    && k < |s.clients| && d < |s.clients[k].conns|
    && s.clients[k].conns[d].down != [] && s.clients[k].conns[d].down[0].FreeSize?
  }

  /** The operation of client k after a step, read off the step and the message it takes. */
  ghost function OperationAfter(s: System, e: Step, k: nat, o: Operation): Operation {
    if !(e.AtClient? && e.k == k) then o
    else
      match e.e
      case TriggerMapping(slab) => Operation(slab, map[])
      case ThreadMapping(_, slab) => Operation(slab, map[])
      case TakeMessage(d) =>
        if SizeWaits(s, k, d) then o.(sizes := o.sizes[d := s.clients[k].conns[d].down[0].n]) else o
      case _ => o
  }

  /** The operation of client k at the end of a run. */
  ghost predicate RunOperation(s: System, steps: seq<Step>, t: System, ok: Rule, k: nat, o: Operation)
    decreases |steps|
  {
    if steps == [] then t == s && o == Operation(0, map[])
    else
      var last := |steps| - 1;
      exists u, o' ::
        && RunOperation(s, steps[..last], u, ok, k, o')
        && Safe(u) && Enabled(u, steps[last]) && ok(u, steps[last]) && t == Next(u, steps[last])
        && o == OperationAfter(u, steps[last], k, o')
  }

  /** The client remembers the operation as it was. */
  ghost predicate Remembers(m: C.Mapping, o: Operation) {
    match m
    case NoMapping => true
    case Querying(slab, _, answers) => slab == o.slab && answers == o.sizes
    case Known(slab, answers) => slab == o.slab && answers == o.sizes
    case Binding(slab, _) => slab == o.slab
  }

  // ---------------------------------------------------------------- every step

  lemma ReceiveRemembers(s: System, k: nat, d: nat, o: Operation)
    requires k < |s.clients| && C.CanReceive(s.clients[k], d) && Remembers(s.clients[k].mapping, o)
    ensures Remembers(C.Receive(s.clients[k], d).mapping, OperationAfter(s, AtClient(k, C.TakeMessage(d)), k, o))
  {
  }

  lemma ThreadActRemembers(s: System, k: nat, e: C.Event, o: Operation)
    requires k < |s.clients| && C.Enabled(s.clients[k], e, s.pool) && C.IsThreadAct(e)
    requires Remembers(s.clients[k].mapping, o)
    ensures Remembers(C.ThreadAct(s.clients[k], e, s.pool).mapping, OperationAfter(s, AtClient(k, e), k, o))
  {
  }

  lemma ActRemembers(s: System, k: nat, e: C.Event, o: Operation)
    requires k < |s.clients| && C.Enabled(s.clients[k], e, s.pool) && Inv(s.clients[k].dev)
    requires Remembers(s.clients[k].mapping, o)
    ensures Remembers(C.Act(s.clients[k], e, s.pool).mapping, OperationAfter(s, AtClient(k, e), k, o))
  {
    if C.IsThreadAct(e) {
      ThreadActRemembers(s, k, e, o);
    } else if e.TakeMessage? {
      ReceiveRemembers(s, k, e.d, o);
    } else {
      assert C.Act(s.clients[k], e, s.pool).mapping == s.clients[k].mapping;
    }
  }

  lemma OthersKeepMapping(s: System, e: Step, k: nat)
    requires Safe(s) && Enabled(s, e) && k < |s.clients| && !(e.AtClient? && e.k == k)
    ensures k < |Next(s, e).clients| && Next(s, e).clients[k].mapping == s.clients[k].mapping
  {
    if !e.AtClient? {
      OtherStepKept(s, e);
      assert Kept(s.clients[k], Next(s, e).clients[k]);
    }
  }

  lemma StepRemembers(s: System, e: Step, k: nat, o: Operation)
    requires Safe(s) && Enabled(s, e) && k < |s.clients| && Remembers(s.clients[k].mapping, o)
    ensures k < |Next(s, e).clients| && Remembers(Next(s, e).clients[k].mapping, OperationAfter(s, e, k, o))
  {
    if e.AtClient? && e.k == k {
      ActRemembers(s, k, e.e, o);
    } else {
      OthersKeepMapping(s, e, k);
    }
  }

  // ---------------------------------------------------------------- over runs

  lemma OperationGoesOn(s: System, steps: seq<Step>, u: System, e: Step, t: System, ok: Rule, k: nat, o: Operation)
    requires RunOperation(s, steps, u, ok, k, o) && Safe(u) && Enabled(u, e) && ok(u, e) && t == Next(u, e)
    ensures RunOperation(s, steps + [e], t, ok, k, OperationAfter(u, e, k, o))
  {
    var all := steps + [e];
    assert all[..|all| - 1] == steps && all[|all| - 1] == e;
  }

  lemma {:induction false} RememberedInEveryRun(s: System, steps: seq<Step>, t: System, ok: Rule, k: nat)
    returns (o: Operation)
    requires Init(s) && Reaches(s, steps, t, ok) && k < |s.clients|
    ensures k < |t.clients| && RunOperation(s, steps, t, ok, k, o) && Remembers(t.clients[k].mapping, o)
    decreases |steps|
  {
    if steps == [] {
      o := Operation(0, map[]);
      assert FreshClient(s.clients[k], s.slots, |s.servers|, s.pool);
    } else {
      var u, pre, e := LastStep(s, steps, t, ok);
      var o' := RememberedInEveryRun(s, pre, u, ok, k);
      StepRemembers(u, e, k, o');
      OperationGoesOn(s, pre, u, e, t, ok, k, o');
      o := OperationAfter(u, e, k, o');
    }
  }

  /** In every run, a client that can bind to a server has had a size from it since the operation began that is
      not zero and not below any other received since, and the bind is for the slab the operation began on. */
  lemma BindsToLargest(s: System, steps: seq<Step>, t: System, ok: Rule, k: nat, d: nat) returns (o: Operation)
    requires Init(s) && Reaches(s, steps, t, ok) && k < |s.clients| && k < |t.clients|
    requires C.Enabled(t.clients[k], C.BindTo(d), t.pool)
    ensures RunOperation(s, steps, t, ok, k, o)
    ensures d in o.sizes && o.sizes[d] != 0 && forall e :: e in o.sizes ==> o.sizes[e] <= o.sizes[d]
    ensures t.clients[k].conns[d].live ==>
              C.SendBind(t.clients[k], d).conns[d].up == t.clients[k].conns[d].up + [C.Bind(o.slab)]
  {
    o := RememberedInEveryRun(s, steps, t, ok, k);
  }

  /** And the slab that an INFO enters is that one. */
  lemma EntersBegunSlab(s: System, steps: seq<Step>, t: System, ok: Rule, k: nat, d: nat) returns (o: Operation)
    requires Init(s) && Reaches(s, steps, t, ok) && k < |s.clients| && k < |t.clients|
    requires C.CanReceive(t.clients[k], d) && t.clients[k].conns[d].down[0].Info?
    ensures RunOperation(s, steps, t, ok, k, o) && t.clients[k].conns[d].down[0].slab == o.slab
  {
    o := RememberedInEveryRun(s, steps, t, ok, k);
    RunSafe(s, steps, t, ok);
    InfoIsExpected(t.clients[k], d, t.slots, t.pool);
  }

  // ---------------------------------------------------------------- a server that has failed

  /** A disconnect of server d has been handled, or its handling begun. */
  predicate Disconnects(e: Step, k: nat, d: nat) {
    e == AtClient(k, C.BeginFailure(d)) || e == AtClient(k, C.FailUnmapped(d))
  }

  ghost predicate HasFailed(s: System, k: nat, d: nat) {
    k < |s.clients| && d < |s.clients[k].conns| && s.clients[k].conns[d].failed
  }

  lemma ThreadActFails(cl: C.Client, e: C.Event, pool: nat, d: nat)
    requires C.Enabled(cl, e, pool) && C.IsThreadAct(e) && d < |cl.conns|
    ensures d < |C.ThreadAct(cl, e, pool).conns|
    ensures cl.conns[d].failed || e == C.BeginFailure(d) || e == C.FailUnmapped(d) ==>
              C.ThreadAct(cl, e, pool).conns[d].failed
  {
  }

  lemma ReceiveFails(cl: C.Client, d': nat, d: nat)
    requires C.CanReceive(cl, d') && d < |cl.conns| && cl.conns[d].failed
    ensures d < |C.Receive(cl, d').conns| && C.Receive(cl, d').conns[d].failed
  {
  }

  lemma RequestActFails(cl: C.Client, e: C.Event, pool: nat, d: nat)
    requires Inv(cl.dev) && C.Enabled(cl, e, pool) && !C.IsThreadAct(e) && d < |cl.conns| && cl.conns[d].failed
    ensures d < |C.Act(cl, e, pool).conns| && C.Act(cl, e, pool).conns[d].failed
  {
    match e
    case Write(start, data, ctx) =>
      if C.WritePath(cl, start, |data|).ToDisk? && C.FirstSlab(start) != C.LastSlab(start, |data|) {
        ClearedOnlyBits(cl, start, |data|);
        assert C.AcceptWrite(cl, start, data, ctx).conns == Cleared(cl, start, |data|).conns;
      } else {
        assert C.AcceptWrite(cl, start, data, ctx).conns == cl.conns;
      }
    case Read(page, ctx) => assert C.AcceptRead(cl, page, ctx).conns == cl.conns;
    case PopFifo => assert C.PopBio(cl).conns == cl.conns;
    case TakeMessage(d') => ReceiveFails(cl, d', d);
  }

  /** A failed server stays so. */
  lemma StepFails(s: System, e: Step, k: nat, d: nat)
    requires Safe(s) && Enabled(s, e) && k < |s.clients| && d < |s.clients[k].conns|
    requires HasFailed(s, k, d) || Disconnects(e, k, d)
    ensures HasFailed(Next(s, e), k, d)
  {
    if !e.AtClient? {
      OtherStepKept(s, e);
      assert Kept(s.clients[k], Next(s, e).clients[k]);
    } else if e.k == k {
      ActFails(s.clients[k], e.e, s.pool, d);
    }
  }

  lemma ActFails(cl: C.Client, e: C.Event, pool: nat, d: nat)
    requires Inv(cl.dev) && C.Enabled(cl, e, pool) && d < |cl.conns|
    requires cl.conns[d].failed || e == C.BeginFailure(d) || e == C.FailUnmapped(d)
    ensures d < |C.Act(cl, e, pool).conns| && C.Act(cl, e, pool).conns[d].failed
  {
    if C.IsThreadAct(e) {
      ThreadActFails(cl, e, pool, d);
    } else {
      RequestActFails(cl, e, pool, d);
    }
  }

  lemma SplitAt(steps: seq<Step>, before: seq<Step>, e: Step, j: nat)
    requires steps == before + [e] && j < |steps|
    ensures steps[j] == if j < |before| then before[j] else e
  {
  }

  lemma {:induction false} FailedInEveryRun(s: System, steps: seq<Step>, t: System, ok: Rule, k: nat, d: nat, j: nat,
                                            x: Step)
    requires Reaches(s, steps, t, ok) && j < |steps| && x == steps[j] && Disconnects(x, k, d)
    ensures HasFailed(t, k, d)
    decreases |steps|
  {
    var u, pre, e := LastStep(s, steps, t, ok);
    SplitAt(steps, pre, e, j);
    if j < |pre| {
      FailedInEveryRun(s, pre, u, ok, k, d, j, x);
    }
    FailsOn(u, e, t, k, d);
  }

  lemma FailsOn(u: System, e: Step, t: System, k: nat, d: nat)
    requires Safe(u) && Enabled(u, e) && t == Next(u, e) && (HasFailed(u, k, d) || Disconnects(e, k, d))
    ensures HasFailed(t, k, d)
  {
    StepFails(u, e, k, d);
  }

  /** In every run, a server whose disconnect has been handled is never asked or bound to again. */
  lemma NeverAskedAgain(s: System, steps: seq<Step>, t: System, ok: Rule, k: nat, d: nat, j: nat)
    requires Reaches(s, steps, t, ok) && j < |steps| && Disconnects(steps[j], k, d)
    ensures k < |t.clients| && !C.CanQuery(t.clients[k], d) && !C.CanBind(t.clients[k], d)
  {
    FailedInEveryRun(s, steps, t, ok, k, d, j, steps[j]);
  }

  // ---------------------------------------------------------------- the choice of a server

  /** The client knows what the queried servers answered. */
  ghost predicate Knows(cl: C.Client, queried: seq<nat>, answers: seq<int>) {
    && cl.mapping.Known?
    && (forall d :: d in cl.mapping.answers <==> d in queried)
    && (forall d :: d in queried ==> d < |answers| && cl.mapping.answers[d] == answers[d])
    && (forall d :: d in queried ==> d < |cl.conns| && !cl.conns[d].failed)
  }

  /** The server that `ServerChoice.ChooseServer` picks is one the protocol lets the client bind to, and when it
      picks none the protocol lets it bind to none. */
  lemma ChoiceIsBind(cl: C.Client, queried: seq<nat>, answers: seq<int>, server: int)
    requires Knows(cl, queried, answers) && S.Chosen(server, queried, answers)
    ensures server >= 0 ==> C.CanBind(cl, server)
    ensures server == -1 ==> forall d: nat :: !C.CanBind(cl, d)
  {
  }
}
