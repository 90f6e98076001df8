/** Every accepted read is answered once, with the last write of its page, or still waits: over whole runs,
    disconnects included.
 */
module SwapAnswers {
  import opened BackupDisk
  import opened Outstanding
  import C = SwapClient
  import opened SwapClientProof
  import opened Swap
  import opened SwapSafety
  import opened SwapReads
  import opened SwapRuns

  // ---------------------------------------------------------------- one step

  /** The step accepts a read of page p from client k. */
  predicate Asks(e: Step, k: nat, p: nat) {
    e.AtClient? && e.k == k && e.e.Read? && e.e.page == p
  }

  /** The step answers a read of page p by client k: from remote memory, or from the disk. */
  ghost predicate AnswersRemote(s: System, e: Step, k: nat, p: nat) {
    && e.Land? && e.k == k && k < |s.clients| && e.ctx in s.clients[k].dev.flight
    && s.clients[k].dev.flight[e.ctx].ReadOp? && s.clients[k].dev.flight[e.ctx].page == p
  }

  ghost predicate AnswersDisk(s: System, e: Step, k: nat, p: nat) {
    && e == AtClient(k, C.PopFifo) && k < |s.clients|
    && s.clients[k].dev.fifo != [] && s.clients[k].dev.fifo[0] == ReadBio(p)
  }

  lemma WriteWaits(cl: C.Client, start: nat, data: seq<Page>, ctx: Ctx, pool: nat, p: nat)
    requires Inv(cl.dev) && C.CanWrite(cl, start, data, ctx, pool)
    ensures Waiting(C.AcceptWrite(cl, start, data, ctx).dev, p) == Waiting(cl.dev, p)
  {
    match C.WritePath(cl, start, |data|)
    case ToDisk => DiskWriteWaits(cl.dev, start, data, p);
    case ToRemote(_, slot) => RdmaWriteWaits(cl.dev, ctx, slot, start, data, p);
  }

  lemma ReadWaits(cl: C.Client, page: nat, ctx: Ctx, pool: nat, p: nat)
    requires Inv(cl.dev) && C.CanRead(cl, page, ctx, pool)
    ensures Waiting(C.AcceptRead(cl, page, ctx).dev, p) == Waiting(cl.dev, p) + One(page == p)
  {
    match C.ReadPath(cl, page)
    case ToDisk => DiskReadWaits(cl.dev, page, p);
    case ToRemote(_, slot) => RdmaReadWaits(cl.dev, ctx, slot, page, p);
  }

  /** An accepted read is posted once, for its page, to the disk's queue or to remote memory, and nothing else
      happens. */
  lemma ReadIsPosted(cl: C.Client, page: nat, ctx: Ctx, pool: nat)
    requires C.CanRead(cl, page, ctx, pool)
    ensures var cl' := C.AcceptRead(cl, page, ctx);
            && cl' == cl.(dev := cl'.dev)
            && (|| cl'.dev == cl.dev.(fifo := cl.dev.fifo + [ReadBio(page)])
                || exists slot: nat :: cl'.dev == cl.dev.(free := cl.dev.free - {ctx},
                                                          flight := cl.dev.flight[ctx := ReadOp(slot, page)]))
  {
    var path := C.ReadPath(cl, page);
    if path.ToRemote? {
      assert C.AcceptRead(cl, page, ctx).dev
          == cl.dev.(free := cl.dev.free - {ctx}, flight := cl.dev.flight[ctx := ReadOp(path.slot, page)]);
    }
  }

  lemma ActWaits(cl: C.Client, e: C.Event, pool: nat, p: nat)
    requires Inv(cl.dev) && C.Enabled(cl, e, pool)
    ensures Waiting(C.Act(cl, e, pool).dev, p) + One(e.PopFifo? && cl.dev.fifo[0] == ReadBio(p))
         == Waiting(cl.dev, p) + One(e.Read? && e.page == p)
  {
    if !TouchesDevice(e) {
      ActLeavesDevice(cl, e, pool);
    } else {
      match e
      case Write(start, data, ctx) => WriteWaits(cl, start, data, ctx, pool, p);
      case Read(page, ctx) => ReadWaits(cl, page, ctx, pool, p);
      case PopFifo =>
        PopIsDefined(cl.dev);
        PopWaits(cl.dev, p);
      case Abandoned(ctx) => AbandonWaits(cl.dev, ctx, p);
    }
  }

  lemma LandWaits(s: System, j: nat, ctx: Ctx, k: nat, p: nat)
    requires j < |s.clients| && ctx.server < |s.servers| && C.CanComplete(s.clients[j], ctx, s.slots)
    requires ServerInv(s.servers[ctx.server], s.slots, |s.clients|) && Inv(s.clients[j].dev) && k < |s.clients|
    ensures |LandOp(s, j, ctx).clients| == |s.clients|
    ensures Waiting(LandOp(s, j, ctx).clients[k].dev, p) + One(AnswersRemote(s, Land(j, ctx), k, p))
         == Waiting(s.clients[k].dev, p)
  {
    var dev := s.clients[j].dev;
    match dev.flight[ctx]
    case ReadOp(slot, page) => ReadDoneWaits(dev, ctx, s.servers[ctx.server].mem[slot][page % SLAB_PAGES], p);
    case WriteOp(_, _, _) => WriteDoneWaits(dev, ctx, p);
  }

  lemma SetConnLeavesDevice(s: System, j: nat, d: nat, c: C.Conn, k: nat)
    requires InRange(s, j, d) && k < |s.clients|
    ensures SetConn(s, j, d, c).clients[k].dev == s.clients[k].dev
  {
  }

  lemma DeliverLeavesDevice(s: System, j: nat, d: nat, k: nat)
    requires InRange(s, j, d) && ConnOf(s, j, d).up != [] && ServerInv(s.servers[d], s.slots, |s.clients|)
    requires k < |s.clients|
    ensures |DeliverUp(s, j, d).clients| == |s.clients| && DeliverUp(s, j, d).clients[k].dev == s.clients[k].dev
  {
  }

  /** Steps other than a client's own and landings leave every device alone. */
  lemma OtherStepsLeaveDevices(s: System, e: Step, k: nat)
    requires Safe(s) && Enabled(s, e) && !e.AtClient? && !e.Land? && k < |s.clients|
    ensures k < |Next(s, e).clients| && Next(s, e).clients[k].dev == s.clients[k].dev
  {
    if e.Deliver? {
      DeliverLeavesDevice(s, e.k, e.d, k);
    } else if e.StartRound? {
      SetConnLeavesDevice(s, e.k, e.d, SendEvict(ConnOf(s, e.k, e.d)), k);
    } else if e.Choose? {
      SetConnLeavesDevice(s, e.k, e.d, SendStop(ConnOf(s, e.k, e.d), e.chosen, e.size), k);
    } else if e.Cut? {
      SetConnLeavesDevice(s, e.k, e.d, C.CutConn(ConnOf(s, e.k, e.d)), k);
    }
  }

  /** Every step keeps the reads that wait, but for the one it accepts or answers. */
  lemma StepWaits(s: System, e: Step, k: nat, p: nat)
    requires Safe(s) && Enabled(s, e) && k < |s.clients|
    ensures k < |Next(s, e).clients|
    ensures Waiting(Next(s, e).clients[k].dev, p) + One(AnswersRemote(s, e, k, p) || AnswersDisk(s, e, k, p))
         == Waiting(s.clients[k].dev, p) + One(Asks(e, k, p))
  {
    if e.AtClient? {
      if e.k == k {
        ActWaits(s.clients[k], e.e, s.pool, p);
      }
    } else if e.Land? {
      LandWaits(s, e.k, e.ctx, k, p);
    } else {
      OtherStepsLeaveDevices(s, e, k);
    }
  }

  // ---------------------------------------------------------------- what is answered

  /** An answer: the number of steps before it, the page, the value the client gets, and where from. */
  datatype Reply = Reply(at: nat, page: nat, value: Page, remote: bool)

  /** The answers client k gets in one step. A remote read leaves its value in the context's buffer; the disk
      gives what it holds. */
  ghost predicate Replies(s: System, e: Step, s': System, k: nat, at: nat, rs: seq<Reply>)
    requires k < |s.clients| && k < |s'.clients|
  {
    var dev := s.clients[k].dev;
    if e.Land? && e.k == k && e.ctx in dev.flight && dev.flight[e.ctx].ReadOp? then
      && |rs| == 1 && rs[0].at == at && rs[0].page == dev.flight[e.ctx].page && rs[0].remote
      && e.ctx in s'.clients[k].dev.buf && s'.clients[k].dev.buf[e.ctx] == [rs[0].value]
    else if e == AtClient(k, C.PopFifo) && dev.fifo != [] && dev.fifo[0].ReadBio? then
      && |rs| == 1 && rs[0].at == at && rs[0].page == dev.fifo[0].page && !rs[0].remote
      && rs[0].page < |dev.disk| && rs[0].value == dev.disk[rs[0].page]
    else rs == []
  }

  /** The answers client k gets in a run. */
  ghost predicate RunReplies(s: System, steps: seq<Step>, t: System, ok: Rule, k: nat, rs: seq<Reply>)
    decreases |steps|
  {
    if steps == [] then t == s && rs == []
    else
      var last := |steps| - 1;
      exists u, before, now ::
        && RunReplies(s, steps[..last], u, ok, k, before)
        && Safe(u) && Enabled(u, steps[last]) && ok(u, steps[last]) && t == Next(u, steps[last])
        && k < |u.clients| && k < |t.clients| && Replies(u, steps[last], t, k, last, now)
        && rs == before + now
  }

  /** How often page p is asked for in a run, and answered. */
  function AskedFor(steps: seq<Step>, k: nat, p: nat): nat {
    if steps == [] then 0 else AskedFor(steps[..|steps| - 1], k, p) + One(Asks(steps[|steps| - 1], k, p))
  }

  function AnswersTo(rs: seq<Reply>, p: nat): nat {
    if rs == [] then 0 else AnswersTo(rs[..|rs| - 1], p) + One(rs[|rs| - 1].page == p)
  }

  lemma AnswersAppend(rs: seq<Reply>, now: seq<Reply>, p: nat)
    requires |now| <= 1
    ensures AnswersTo(rs + now, p) == AnswersTo(rs, p) + One(now != [] && now[0].page == p)
  {
    if now == [] {
      assert rs + now == rs;
    } else {
      assert (rs + now)[..|rs + now| - 1] == rs && now == [now[0]];
    }
  }

  /** The value a landed read leaves in its context's buffer is the one at the page of the slab it asked for. */
  lemma LandedValue(s: System, k: nat, ctx: Ctx, op: Op)
    requires Safe(s) && Enabled(s, Land(k, ctx)) && op == s.clients[k].dev.flight[ctx] && op.ReadOp?
    ensures op.slot < |s.servers[ctx.server].mem| && op.page % SLAB_PAGES < |s.servers[ctx.server].mem[op.slot]|
    ensures var dev := Next(s, Land(k, ctx)).clients[k].dev;
            ctx in dev.buf && dev.buf[ctx] == [s.servers[ctx.server].mem[op.slot][op.page % SLAB_PAGES]]
  {
    assert ServerInv(s.servers[ctx.server], s.slots, |s.clients|);
  }

  /** The answers of one step. */
  lemma StepReplies(s: System, e: Step, k: nat, at: nat) returns (rs: seq<Reply>)
    requires Safe(s) && Enabled(s, e) && k < |s.clients|
    ensures k < |Next(s, e).clients| && Replies(s, e, Next(s, e), k, at, rs)
  {
    var dev := s.clients[k].dev;
    StepWaits(s, e, k, 0);
    if e.Land? && e.k == k && dev.flight[e.ctx].ReadOp? {
      var op := dev.flight[e.ctx];
      LandedValue(s, k, e.ctx, op);
      rs := [Reply(at, op.page, s.servers[e.ctx.server].mem[op.slot][op.page % SLAB_PAGES], true)];
    } else if e == AtClient(k, C.PopFifo) && dev.fifo[0].ReadBio? {
      rs := [Reply(at, dev.fifo[0].page, dev.disk[dev.fifo[0].page], false)];
    } else {
      rs := [];
    }
  }

  /** What the step answers is what its reply is of. */
  lemma RepliesAreAnswers(s: System, e: Step, s': System, k: nat, at: nat, rs: seq<Reply>, p: nat)
    requires k < |s.clients| && k < |s'.clients| && Replies(s, e, s', k, at, rs)
    ensures |rs| <= 1
    ensures One(rs != [] && rs[0].page == p) == One(AnswersRemote(s, e, k, p) || AnswersDisk(s, e, k, p))
  {
  }

  // ---------------------------------------------------------------- no read is lost

  /** Accepted reads are answered or wait, page by page. */
  ghost predicate AllAccounted(steps: seq<Step>, k: nat, rs: seq<Reply>, dev: Dev) {
    forall p: nat :: AskedFor(steps, k, p) == AnswersTo(rs, p) + Waiting(dev, p)
  }

  lemma OneMoreAccounted(s: System, steps: seq<Step>, u: System, e: Step, t: System, k: nat, before: seq<Reply>,
                         now: seq<Reply>)
    requires Safe(u) && Enabled(u, e) && t == Next(u, e) && k < |u.clients| && k < |t.clients|
    requires AllAccounted(steps, k, before, u.clients[k].dev) && Replies(u, e, t, k, |steps|, now)
    ensures AllAccounted(steps + [e], k, before + now, t.clients[k].dev)
  {
    forall p: nat ensures AskedFor(steps + [e], k, p) == AnswersTo(before + now, p) + Waiting(t.clients[k].dev, p) {
      assert (steps + [e])[..|steps + [e]| - 1] == steps;
      StepWaits(u, e, k, p);
      RepliesAreAnswers(u, e, t, k, |steps|, now, p);
      AnswersAppend(before, now, p);
    }
  }

  lemma FreshWaits(s: System, k: nat)
    requires Init(s) && k < |s.clients|
    ensures AllAccounted([], k, [], s.clients[k].dev)
  {
    assert FreshClient(s.clients[k], s.slots, |s.servers|, s.pool);
    forall p: nat ensures Waiting(s.clients[k].dev, p) == 0 {
      assert Readers(map[], p) == {};
    }
  }

  /** A run's answers go on with those of one more step. */
  lemma RepliesGoOn(s: System, steps: seq<Step>, u: System, e: Step, t: System, ok: Rule, k: nat, before: seq<Reply>,
                    now: seq<Reply>)
    requires RunReplies(s, steps, u, ok, k, before)
    requires Safe(u) && Enabled(u, e) && ok(u, e) && t == Next(u, e)
    requires k < |u.clients| && k < |t.clients| && Replies(u, e, t, k, |steps|, now)
    ensures RunReplies(s, steps + [e], t, ok, k, before + now)
  {
    var all := steps + [e];
    assert all[..|all| - 1] == steps && all[|all| - 1] == e;
  }

  lemma AnswersGoOn(s: System, steps: seq<Step>, u: System, e: Step, t: System, ok: Rule, k: nat, before: seq<Reply>)
    returns (rs: seq<Reply>, now: seq<Reply>)
    requires RunReplies(s, steps, u, ok, k, before) && k < |u.clients|
    requires AllAccounted(steps, k, before, u.clients[k].dev)
    requires Safe(u) && Enabled(u, e) && ok(u, e) && t == Next(u, e)
    ensures k < |t.clients| && Replies(u, e, t, k, |steps|, now) && rs == before + now
    ensures RunReplies(s, steps + [e], t, ok, k, rs) && AllAccounted(steps + [e], k, rs, t.clients[k].dev)
  {
    now := StepReplies(u, e, k, |steps|);
    OneMoreAccounted(s, steps, u, e, t, k, before, now);
    RepliesGoOn(s, steps, u, e, t, ok, k, before, now);
    rs := before + now;
  }

  // ---------------------------------------------------------------- every answer is the last write

  /** The answers, or those of the disk, are the last writes at their moments. */
  ghost predicate RightReplies(s: System, steps: seq<Step>, k: nat, rs: seq<Reply>, remoteToo: bool) {
    forall i :: 0 <= i < |rs| && (remoteToo || !rs[i].remote) ==> RightReply(s, steps, k, rs[i])
  }

  ghost predicate RightReply(s: System, steps: seq<Step>, k: nat, r: Reply) {
    r.at < |steps| && IsLastWrite(r.value, s, steps[..r.at], k, r.page)
  }

  lemma RightStays(s: System, steps: seq<Step>, e: Step, k: nat, r: Reply)
    requires RightReply(s, steps, k, r)
    ensures RightReply(s, steps + [e], k, r)
  {
    assert (steps + [e])[..r.at] == steps[..r.at];
  }

  lemma RightNow(s: System, steps: seq<Step>, e: Step, k: nat, r: Reply)
    requires r.at == |steps| && IsLastWrite(r.value, s, steps, k, r.page)
    ensures RightReply(s, steps + [e], k, r)
  {
    assert (steps + [e])[..r.at] == steps;
  }

  lemma RightGoesOn(s: System, steps: seq<Step>, e: Step, k: nat, before: seq<Reply>, now: seq<Reply>, remoteToo: bool)
    requires RightReplies(s, steps, k, before, remoteToo) && |now| <= 1
    requires now != [] && (remoteToo || !now[0].remote) ==> RightReply(s, steps + [e], k, now[0])
    ensures RightReplies(s, steps + [e], k, before + now, remoteToo)
  {
    forall i | 0 <= i < |before + now| && (remoteToo || !(before + now)[i].remote)
      ensures RightReply(s, steps + [e], k, (before + now)[i])
    {
      if i < |before| {
        RightStays(s, steps, e, k, before[i]);
      }
    }
  }

  /** What the disk holds of a queued read's page is its last write, in every run. */
  lemma DiskValue(s: System, steps: seq<Step>, u: System, ok: Rule, k: nat, page: nat, value: Page)
    requires Init(s) && Reaches(s, steps, u, ok) && k < |s.clients| && k < |u.clients|
    requires u.clients[k].dev.fifo != [] && u.clients[k].dev.fifo[0] == ReadBio(page)
    requires page < |u.clients[k].dev.disk| && value == u.clients[k].dev.disk[page]
    ensures IsLastWrite(value, s, steps, k, page)
  {
    RunSafe(s, steps, u, ok);
    RunLog(s, steps, u, ok, k);
    DiskReadReturnsLastWrite(u, k);
    RunFlat(s, steps, u, ok, k, page);
  }

  /** What a read brings back from remote memory is its last write, in runs whose disconnects leave no other
      server mapped. */
  lemma RemoteValue(s: System, steps: seq<Step>, u: System, k: nat, ctx: Ctx, op: Op, value: Page)
    requires Init(s) && Reaches(s, steps, u, LoneStep) && k < |s.clients| && ReadCanLand(u, k, ctx)
    requires op == u.clients[k].dev.flight[ctx]
    requires value == u.servers[ctx.server].mem[op.slot][op.page % SLAB_PAGES]
    ensures IsLastWrite(value, s, steps, k, op.page)
  {
    RemoteReadsInEveryRun(s, steps, u, k, ctx);
  }

  /** A read of client k is answered in the step, and this is the answer. */
  lemma DiskReply(s: System, steps: seq<Step>, u: System, e: Step, t: System, ok: Rule, k: nat, now: seq<Reply>)
    requires Init(s) && Reaches(s, steps, u, ok) && k < |s.clients| && k < |u.clients| && k < |t.clients|
    requires Replies(u, e, t, k, |steps|, now) && now != [] && !now[0].remote
    ensures RightReply(s, steps + [e], k, now[0])
  {
    DiskValue(s, steps, u, ok, k, now[0].page, now[0].value);
    RightNow(s, steps, e, k, now[0]);
  }

  lemma RemoteReply(s: System, steps: seq<Step>, u: System, e: Step, t: System, k: nat, now: seq<Reply>)
    requires Init(s) && Reaches(s, steps, u, LoneStep) && k < |s.clients| && k < |u.clients| && k < |t.clients|
    requires Safe(u) && Enabled(u, e) && t == Next(u, e)
    requires Replies(u, e, t, k, |steps|, now) && now != [] && now[0].remote
    ensures RightReply(s, steps + [e], k, now[0])
  {
    var op := u.clients[k].dev.flight[e.ctx];
    LandedValue(u, k, e.ctx, op);
    RemoteValue(s, steps, u, k, e.ctx, op, now[0].value);
    RightNow(s, steps, e, k, now[0]);
  }

  /** The same said of the state after the step: the context's buffer then holds the last write of the page. */
  lemma LandedReadIsLastWrite(s: System, steps: seq<Step>, t: System, k: nat, ctx: Ctx) returns (x: Page)
    requires Init(s) && Reaches(s, steps, t, LoneStep) && k < |s.clients|
    requires Enabled(t, Land(k, ctx)) && t.clients[k].dev.flight[ctx].ReadOp?
    ensures Safe(t) && k < |Next(t, Land(k, ctx)).clients|
    ensures var dev := Next(t, Land(k, ctx)).clients[k].dev; ctx in dev.buf && dev.buf[ctx] == [x]
    ensures IsLastWrite(x, s, steps, k, t.clients[k].dev.flight[ctx].page)
  {
    RunSafe(s, steps, t, LoneStep);
    var op := t.clients[k].dev.flight[ctx];
    LandedValue(t, k, ctx, op);
    x := t.servers[ctx.server].mem[op.slot][op.page % SLAB_PAGES];
    RemoteValue(s, steps, t, k, ctx, op, x);
  }

  // ---------------------------------------------------------------- over runs

  /** The answers of a run account for its reads and are right. */
  ghost predicate Answered(s: System, steps: seq<Step>, t: System, ok: Rule, k: nat, rs: seq<Reply>, remoteToo: bool) {
    && k < |t.clients| && RunReplies(s, steps, t, ok, k, rs)
    && AllAccounted(steps, k, rs, t.clients[k].dev)
    && RightReplies(s, steps, k, rs, remoteToo)
  }

  lemma NoneAnswered(s: System, ok: Rule, k: nat, remoteToo: bool)
    requires Init(s) && k < |s.clients|
    ensures Answered(s, [], s, ok, k, [], remoteToo)
  {
    FreshWaits(s, k);
  }

  /** One more step, whose answer is right. */
  lemma AnsweredGoesOn(s: System, steps: seq<Step>, u: System, e: Step, t: System, ok: Rule, k: nat, before: seq<Reply>)
    returns (rs: seq<Reply>)
    requires Answered(s, steps, u, ok, k, before, false)
    requires Init(s) && Reaches(s, steps, u, ok) && k < |s.clients|
    requires Safe(u) && Enabled(u, e) && ok(u, e) && t == Next(u, e)
    ensures Answered(s, steps + [e], t, ok, k, rs, false)
  {
    var now;
    rs, now := AnswersGoOn(s, steps, u, e, t, ok, k, before);
    if now != [] && !now[0].remote {
      DiskReply(s, steps, u, e, t, ok, k, now);
    }
    RepliesAreAnswers(u, e, t, k, |steps|, now, 0);
    RightGoesOn(s, steps, e, k, before, now, false);
  }

  lemma AnsweredGoesOnLone(s: System, steps: seq<Step>, u: System, e: Step, t: System, k: nat, before: seq<Reply>)
    returns (rs: seq<Reply>)
    requires Answered(s, steps, u, LoneStep, k, before, true)
    requires Init(s) && Reaches(s, steps, u, LoneStep) && k < |s.clients|
    requires Safe(u) && Enabled(u, e) && LoneStep(u, e) && t == Next(u, e)
    ensures Answered(s, steps + [e], t, LoneStep, k, rs, true)
  {
    var now;
    rs, now := AnswersGoOn(s, steps, u, e, t, LoneStep, k, before);
    RepliesAreAnswers(u, e, t, k, |steps|, now, 0);
    if now != [] && now[0].remote {
      RemoteReply(s, steps, u, e, t, k, now);
    } else if now != [] {
      DiskReply(s, steps, u, e, t, LoneStep, k, now);
    }
    RightGoesOn(s, steps, e, k, before, now, true);
  }

  /** In every run, disconnects included, each accepted read has been answered or still waits, and each answer
      from the disk is the last write of its page at that moment. */
  lemma {:induction false} ReadsInEveryRun(s: System, steps: seq<Step>, t: System, ok: Rule, k: nat)
    returns (rs: seq<Reply>)
    requires Init(s) && Reaches(s, steps, t, ok) && k < |s.clients|
    ensures Answered(s, steps, t, ok, k, rs, false)
    decreases |steps|
  {
    if steps == [] {
      rs := [];
      NoneAnswered(s, ok, k, false);
    } else {
      var u, pre, e := LastStep(s, steps, t, ok);
      var before := ReadsInEveryRun(s, pre, u, ok, k);
      rs := AnsweredGoesOn(s, pre, u, e, t, ok, k, before);
    }
  }

  /** In every run whose disconnects leave no other server mapped, each accepted read has been answered or still
      waits, and each answer, from the disk or from remote memory, is the last write of its page at that moment. */
  lemma {:induction false} ReadsInEveryLoneRun(s: System, steps: seq<Step>, t: System, k: nat) returns (rs: seq<Reply>)
    requires Init(s) && Reaches(s, steps, t, LoneStep) && k < |s.clients|
    ensures Answered(s, steps, t, LoneStep, k, rs, true)
    decreases |steps|
  {
    if steps == [] {
      rs := [];
      NoneAnswered(s, LoneStep, k, true);
    } else {
      var u, pre, e := LastStep(s, steps, t, LoneStep);
      var before := ReadsInEveryLoneRun(s, pre, u, k);
      rs := AnsweredGoesOnLone(s, pre, u, e, t, k, before);
    }
  }
}
