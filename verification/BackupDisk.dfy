/** The write-through side of the block device: the bio queue in front of the backup disk, the RDMA
    contexts whose buffers the queue refers to, and the log of accepted writes.

    Nothing here depends on which slab is mapped where. Every step the device can take, on every
    path and through disconnects, is one of the transitions below, and all of them keep `Inv`.
 */
module BackupDisk {

  const SLAB_PAGES: nat := 262144   // ONE_GB / IS_PAGE_SIZE

  type Page = seq<bv8>

  /** An RDMA context belongs to the pool of one server. */
  datatype Ctx = Ctx(server: nat, index: nat)

  /** An RDMA operation in flight: the slab slot at the server and the device page it concerns. */
  datatype Op = ReadOp(slot: nat, page: nat) | WriteOp(slot: nat, page: nat, len: nat) {
    function Len(): nat {
      if ReadOp? then 1 else len
    }

    predicate Covers(p: nat) {
      page <= p < page + Len()
    }
  }

  /** A queued bio. The disk copy of an RDMA write points into the context's buffer; every other
      write bio carries one page of the request itself. */
  datatype Bio = PageBio(page: nat, data: Page) | CtxBio(start: nat, len: nat, ctx: Ctx) | ReadBio(page: nat)

  datatype PageWrite = PageWrite(page: nat, data: Page)

  datatype Dev = Dev(
    initial: seq<Page>,          // what the disk held before the first request
    disk: seq<Page>,
    fifo: seq<Bio>,
    buf: map<Ctx, seq<Page>>,
    pool: set<Ctx>,              // all contexts, as set up with the connections
    free: set<Ctx>,
    flight: map<Ctx, Op>,
    log: seq<PageWrite>,         // page writes of all accepted requests, in order
    done: seq<PageWrite>)        // page writes the disk has applied, in order

  // ---------------------------------------------------------------- memory and logs

  function Apply(mem: seq<Page>, ws: seq<PageWrite>): (r: seq<Page>)
    requires forall i :: 0 <= i < |ws| ==> ws[i].page < |mem|
    ensures |r| == |mem|
  {
    if ws == [] then mem
    else
      var w := ws[|ws| - 1];
      Apply(mem, ws[..|ws| - 1])[w.page := w.data]
  }

  function PagesOf(start: nat, data: seq<Page>): (ws: seq<PageWrite>)
    ensures |ws| == |data|
    ensures forall i :: 0 <= i < |data| ==> ws[i] == PageWrite(start + i, data[i])
  {
    seq(|data|, i requires 0 <= i < |data| => PageWrite(start + i, data[i]))
  }

  lemma {:induction false} ApplyConcat(mem: seq<Page>, a: seq<PageWrite>, b: seq<PageWrite>)
    requires forall i :: 0 <= i < |a| ==> a[i].page < |mem|
    requires forall i :: 0 <= i < |b| ==> b[i].page < |mem|
    ensures Apply(mem, a + b) == Apply(Apply(mem, a), b)
  {
    if b == [] {
      assert a + b == a;
    } else {
      assert (a + b)[..|a + b| - 1] == a + b[..|b| - 1];
      ApplyConcat(mem, a, b[..|b| - 1]);
    }
  }

  lemma {:induction false} ApplyElsewhere(mem: seq<Page>, ws: seq<PageWrite>, p: nat)
    requires forall i :: 0 <= i < |ws| ==> ws[i].page < |mem|
    requires p < |mem| && forall i :: 0 <= i < |ws| ==> ws[i].page != p
    ensures Apply(mem, ws)[p] == mem[p]
  {
    if ws != [] {
      ApplyElsewhere(mem, ws[..|ws| - 1], p);
    }
  }

  lemma {:induction false} ApplyPages(mem: seq<Page>, start: nat, data: seq<Page>, p: nat)
    requires start + |data| <= |mem| && p < |mem|
    ensures Apply(mem, PagesOf(start, data))[p]
         == if start <= p < start + |data| then data[p - start] else mem[p]
  {
    if data != [] {
      var n := |data| - 1;
      assert PagesOf(start, data)[..n] == PagesOf(start, data[..n]);
      ApplyPages(mem, start, data[..n], p);
    }
  }

  /** The pages lo, lo + 1, ..., hi - 1. */
  function PageRange(lo: nat, hi: nat): (r: set<nat>)
    ensures forall p :: p in r <==> lo <= p < hi
    decreases hi
  {
    if hi <= lo then {} else PageRange(lo, hi - 1) + {hi - 1}
  }

  // ---------------------------------------------------------------- the queue

  /** The page writes a bio will make, given the context buffers. */
  function BioWrites(b: Bio, buf: map<Ctx, seq<Page>>): seq<PageWrite> {
    match b
    case PageBio(page, data) => [PageWrite(page, data)]
    case CtxBio(start, len, ctx) => if ctx in buf then PagesOf(start, buf[ctx]) else []
    case ReadBio(_) => []
  }

  function QueueWrites(fifo: seq<Bio>, buf: map<Ctx, seq<Page>>): seq<PageWrite> {
    if fifo == [] then [] else BioWrites(fifo[0], buf) + QueueWrites(fifo[1..], buf)
  }

  function PageBios(start: nat, data: seq<Page>): (bs: seq<Bio>)
    ensures |bs| == |data|
    ensures forall i :: 0 <= i < |data| ==> bs[i] == PageBio(start + i, data[i])
  {
    seq(|data|, i requires 0 <= i < |data| => PageBio(start + i, data[i]))
  }

  predicate WritesPage(b: Bio, p: nat) {
    match b
    case PageBio(page, _) => page == p
    case CtxBio(start, len, _) => start <= p < start + len
    case ReadBio(_) => false
  }

  lemma {:induction false} QueueConcat(a: seq<Bio>, b: seq<Bio>, buf: map<Ctx, seq<Page>>)
    ensures QueueWrites(a + b, buf) == QueueWrites(a, buf) + QueueWrites(b, buf)
  {
    if a == [] {
      assert a + b == b;
    } else {
      assert (a + b)[1..] == a[1..] + b;
      QueueConcat(a[1..], b, buf);
    }
  }

  lemma {:induction false} QueueOfPageBios(start: nat, data: seq<Page>, buf: map<Ctx, seq<Page>>)
    ensures QueueWrites(PageBios(start, data), buf) == PagesOf(start, data)
    decreases |data|
  {
    if data == [] {
    } else {
      assert PageBios(start, data)[1..] == PageBios(start + 1, data[1..]);
      QueueOfPageBios(start + 1, data[1..], buf);
      assert PagesOf(start, data) == [PageWrite(start, data[0])] + PagesOf(start + 1, data[1..]);
    }
  }

  /** A buffer the queue does not refer to may change freely. */
  lemma {:induction false} QueueIgnoresBuffer(fifo: seq<Bio>, buf: map<Ctx, seq<Page>>, ctx: Ctx, data: seq<Page>)
    requires forall i :: 0 <= i < |fifo| && fifo[i].CtxBio? ==> fifo[i].ctx != ctx
    ensures QueueWrites(fifo, buf[ctx := data]) == QueueWrites(fifo, buf)
  {
    if fifo != [] {
      QueueIgnoresBuffer(fifo[1..], buf, ctx, data);
    }
  }

  lemma {:induction false} QueueWritesCovered(fifo: seq<Bio>, buf: map<Ctx, seq<Page>>, p: nat)
    requires forall i :: 0 <= i < |fifo| ==> !WritesPage(fifo[i], p)
    requires forall i :: 0 <= i < |fifo| && fifo[i].CtxBio? ==>
               fifo[i].ctx in buf && |buf[fifo[i].ctx]| == fifo[i].len
    ensures forall w :: w in QueueWrites(fifo, buf) ==> w.page != p
  {
    if fifo != [] {
      assert !WritesPage(fifo[0], p);
      QueueWritesCovered(fifo[1..], buf, p);
    }
  }

  // ---------------------------------------------------------------- invariants

  /** Every accepted page write is either on disk or queued, exactly once and in order. */
  ghost predicate WriteThrough(d: Dev) {
    && |d.disk| == |d.initial|
    && (forall i :: 0 <= i < |d.log| ==> d.log[i].page < |d.initial|)
    && d.log == d.done + QueueWrites(d.fifo, d.buf)
    && (forall i :: 0 <= i < |d.done| ==> d.done[i].page < |d.initial|)
    && d.disk == Apply(d.initial, d.done)
  }

  /** No context is in two hands: a free one is neither in flight nor queued, a queued one is queued once
      and can only be in flight as the write it is the copy of, and a write in flight is always queued,
      so that its buffer is not reissued before the disk has the copy. */
  ghost predicate CtxOk(d: Dev) {
    && (forall i :: 0 <= i < |d.fifo| && d.fifo[i].CtxBio? ==>
          && d.fifo[i].ctx !in d.free
          && d.fifo[i].ctx in d.buf
          && |d.buf[d.fifo[i].ctx]| == d.fifo[i].len
          && (d.fifo[i].ctx in d.flight ==>
                && d.flight[d.fifo[i].ctx].WriteOp?
                && d.flight[d.fifo[i].ctx].page == d.fifo[i].start
                && d.flight[d.fifo[i].ctx].len == d.fifo[i].len))
    && (forall i, j :: 0 <= i < j < |d.fifo| && d.fifo[i].CtxBio? && d.fifo[j].CtxBio? ==>
          d.fifo[i].ctx != d.fifo[j].ctx)
    && (forall c :: c in d.flight ==> c !in d.free)
    && (forall c :: c in d.flight && d.flight[c].WriteOp? ==> Queued(d.fifo, c))
  }

  ghost predicate Queued(fifo: seq<Bio>, c: Ctx) {
    exists i :: 0 <= i < |fifo| && fifo[i].CtxBio? && fifo[i].ctx == c
  }

  /** No context is lost: each one is free, or in flight, or queued, and no others are about. */
  ghost predicate Conserved(d: Dev) {
    && (forall c :: c in d.pool ==> c in d.free || c in d.flight || Queued(d.fifo, c))
    && d.free <= d.pool
    && (forall c :: c in d.flight ==> c in d.pool)
    && (forall i :: 0 <= i < |d.fifo| && d.fifo[i].CtxBio? ==> d.fifo[i].ctx in d.pool)
  }

  /** No write behind a queued read touches its page. */
  ghost predicate ReadsOrdered(d: Dev) {
    && (forall i :: 0 <= i < |d.fifo| && d.fifo[i].ReadBio? ==> d.fifo[i].page < |d.disk|)
    && (forall i, j :: 0 <= i < j < |d.fifo| && d.fifo[i].ReadBio? ==> !WritesPage(d.fifo[j], d.fifo[i].page))
  }

  ghost predicate Inv(d: Dev) {
    WriteThrough(d) && CtxOk(d) && ReadsOrdered(d) && Conserved(d)
  }

  /** The memory the device must appear to be: the initial disk under all accepted writes. */
  function Flat(d: Dev): (r: seq<Page>)
    requires forall i :: 0 <= i < |d.log| ==> d.log[i].page < |d.initial|
    ensures |r| == |d.initial|
  {
    Apply(d.initial, d.log)
  }

  // ---------------------------------------------------------------- transitions

  /** No outstanding request that a write of these pages could overtake: no RDMA operation on them
      and no queued read of them. Requests that do not overlap in flight always satisfy this. */
  ghost predicate NoOverlap(d: Dev, start: nat, len: nat) {
    && (forall c, p :: c in d.flight && start <= p < start + len ==> !d.flight[c].Covers(p))
    && (forall i :: 0 <= i < |d.fifo| && d.fifo[i].ReadBio? ==> !(start <= d.fifo[i].page < start + len))
  }

  /** A write that goes to disk alone: one bio per page, as make_request2 and make_request4 queue it. */
  function DiskWrite(d: Dev, start: nat, data: seq<Page>): Dev {
    d.(fifo := d.fifo + PageBios(start, data), log := d.log + PagesOf(start, data))
  }

  /** A write posted to remote memory: the data is gathered into the context's buffer, the disk copy
      of that buffer is queued, and the RDMA write is in flight. */
  function RdmaWrite(d: Dev, ctx: Ctx, slot: nat, start: nat, data: seq<Page>): Dev {
    d.(free := d.free - {ctx},
       buf := d.buf[ctx := data],
       fifo := d.fifo + [CtxBio(start, |data|, ctx)],
       flight := d.flight[ctx := WriteOp(slot, start, |data|)],
       log := d.log + PagesOf(start, data))
  }

  function DiskRead(d: Dev, page: nat): Dev {
    d.(fifo := d.fifo + [ReadBio(page)])
  }

  function RdmaRead(d: Dev, ctx: Ctx, slot: nat, page: nat): Dev {
    d.(free := d.free - {ctx}, flight := d.flight[ctx := ReadOp(slot, page)])
  }

  /** client_write_done: the context stays out of the pool until its disk copy ends. */
  function WriteDone(d: Dev, ctx: Ctx): Dev {
    d.(flight := d.flight - {ctx})
  }

  /** client_read_done: the page landed in the context's buffer and the context is returned. */
  function ReadDone(d: Dev, ctx: Ctx, value: Page): Dev {
    d.(flight := d.flight - {ctx}, buf := d.buf[ctx := [value]], free := d.free + {ctx})
  }

  /** The disconnect handler's treatment of one context: a read is sent to disk and its context
      returned; a write is simply ended, its disk copy being queued already. */
  function Abandon(d: Dev, ctx: Ctx): Dev
    requires ctx in d.flight
  {
    match d.flight[ctx]
    case ReadOp(_, page) =>
      d.(flight := d.flight - {ctx}, fifo := d.fifo + [ReadBio(page)], free := d.free + {ctx})
    case WriteOp(_, _, _) =>
      d.(flight := d.flight - {ctx})
  }

  /** The queue thread takes the first bio; the disk end of a context's bio returns the context. */
  function Pop(d: Dev): Dev
    requires d.fifo != [] && forall w :: w in BioWrites(d.fifo[0], d.buf) ==> w.page < |d.disk|
  {
    var b := d.fifo[0];
    var ws := BioWrites(b, d.buf);
    d.(fifo := d.fifo[1..],
       disk := Apply(d.disk, ws),
       done := d.done + ws,
       free := if b.CtxBio? then d.free + {b.ctx} else d.free)
  }

  // ---------------------------------------------------------------- preservation

  /** Accepting page writes and queueing them are one thing. */
  lemma AcceptKeepsLog(d: Dev, e: Dev, ws: seq<PageWrite>)
    requires WriteThrough(d)
    requires e.initial == d.initial && e.disk == d.disk && e.done == d.done && e.log == d.log + ws
    requires QueueWrites(e.fifo, e.buf) == QueueWrites(d.fifo, d.buf) + ws
    requires forall i :: 0 <= i < |ws| ==> ws[i].page < |d.initial|
    ensures WriteThrough(e)
  {
    assert d.done + QueueWrites(d.fifo, d.buf) + ws == d.done + (QueueWrites(d.fifo, d.buf) + ws);
  }

  lemma DiskWriteQueue(d: Dev, start: nat, data: seq<Page>)
    ensures QueueWrites(d.fifo + PageBios(start, data), d.buf) == QueueWrites(d.fifo, d.buf) + PagesOf(start, data)
  {
    QueueConcat(d.fifo, PageBios(start, data), d.buf);
    QueueOfPageBios(start, data, d.buf);
  }

  lemma DiskWriteKeepsLog(d: Dev, start: nat, data: seq<Page>)
    requires WriteThrough(d) && start + |data| <= |d.disk|
    ensures WriteThrough(DiskWrite(d, start, data))
  {
    DiskWriteQueue(d, start, data);
    AcceptKeepsLog(d, DiskWrite(d, start, data), PagesOf(start, data));
  }

  lemma QueuedStays(fifo: seq<Bio>, more: seq<Bio>, c: Ctx)
    requires Queued(fifo, c)
    ensures Queued(fifo + more, c)
  {
    var i :| 0 <= i < |fifo| && fifo[i].CtxBio? && fifo[i].ctx == c;
    assert (fifo + more)[i] == fifo[i];
  }

  /** Queueing bios without a context loses none. */
  lemma QueueingConserves(d: Dev, more: seq<Bio>)
    requires Conserved(d) && forall j :: 0 <= j < |more| ==> !more[j].CtxBio?
    ensures Conserved(d.(fifo := d.fifo + more))
  {
    forall c | Queued(d.fifo, c) ensures Queued(d.fifo + more, c) {
      QueuedStays(d.fifo, more, c);
    }
  }

  lemma RdmaWriteConserves(d: Dev, ctx: Ctx, slot: nat, start: nat, data: seq<Page>)
    requires Conserved(d) && ctx in d.free
    ensures Conserved(RdmaWrite(d, ctx, slot, start, data))
  {
    var bio := [CtxBio(start, |data|, ctx)];
    forall c | Queued(d.fifo, c) ensures Queued(d.fifo + bio, c) {
      QueuedStays(d.fifo, bio, c);
    }
    assert (d.fifo + bio)[|d.fifo|].ctx == ctx;
  }

  lemma WriteDoneConserves(d: Dev, ctx: Ctx)
    requires CtxOk(d) && Conserved(d) && ctx in d.flight && d.flight[ctx].WriteOp?
    ensures Conserved(WriteDone(d, ctx))
  {
    assert Queued(d.fifo, ctx);
  }

  lemma ReadDoneConserves(d: Dev, ctx: Ctx, value: Page)
    requires Conserved(d) && ctx in d.flight
    ensures Conserved(ReadDone(d, ctx, value))
  {
  }

  lemma AbandonConserves(d: Dev, ctx: Ctx)
    requires CtxOk(d) && Conserved(d) && ctx in d.flight
    ensures Conserved(Abandon(d, ctx))
  {
    if d.flight[ctx].ReadOp? {
      QueueingConserves(d, [ReadBio(d.flight[ctx].page)]);
    } else {
      WriteDoneConserves(d, ctx);
    }
  }

  lemma PopConserves(d: Dev)
    requires Conserved(d) && d.fifo != []
    requires forall w :: w in BioWrites(d.fifo[0], d.buf) ==> w.page < |d.disk|
    ensures Conserved(Pop(d))
  {
    forall c | Queued(d.fifo, c) && !(d.fifo[0].CtxBio? && d.fifo[0].ctx == c) ensures Queued(d.fifo[1..], c) {
      var i :| 0 <= i < |d.fifo| && d.fifo[i].CtxBio? && d.fifo[i].ctx == c;
      assert d.fifo[1..][i - 1] == d.fifo[i];
    }
  }

  lemma DiskWriteKeepsInv(d: Dev, start: nat, data: seq<Page>)
    requires Inv(d) && start + |data| <= |d.disk| && NoOverlap(d, start, |data|)
    ensures Inv(DiskWrite(d, start, data))
  {
    DiskWriteKeepsLog(d, start, data);
    QueueGrows(d, PageBios(start, data));
    QueueingConserves(d, PageBios(start, data));
  }

  /** Queueing bios that neither hold a context nor touch a queued read keeps the bookkeeping. */
  lemma QueueGrows(d: Dev, more: seq<Bio>)
    requires CtxOk(d) && ReadsOrdered(d)
    requires forall j :: 0 <= j < |more| ==> !more[j].CtxBio?
    requires forall j :: 0 <= j < |more| && more[j].ReadBio? ==> more[j].page < |d.disk|
    requires forall j, k :: 0 <= j < k < |more| && more[j].ReadBio? ==> !WritesPage(more[k], more[j].page)
    requires forall i, j :: 0 <= i < |d.fifo| && 0 <= j < |more| && d.fifo[i].ReadBio? ==>
               !WritesPage(more[j], d.fifo[i].page)
    ensures CtxOk(d.(fifo := d.fifo + more)) && ReadsOrdered(d.(fifo := d.fifo + more))
  {
    var e := d.(fifo := d.fifo + more);
    forall c | c in e.flight && e.flight[c].WriteOp? ensures Queued(e.fifo, c) {
      var i :| 0 <= i < |d.fifo| && d.fifo[i].CtxBio? && d.fifo[i].ctx == c;
      assert e.fifo[i] == d.fifo[i];
    }
    forall i, j | 0 <= i < j < |e.fifo| && e.fifo[i].ReadBio? ensures !WritesPage(e.fifo[j], e.fifo[i].page) {
      if i < |d.fifo| <= j {
        assert e.fifo[j] == more[j - |d.fifo|];
      } else if |d.fifo| <= i {
        assert e.fifo[i] == more[i - |d.fifo|] && e.fifo[j] == more[j - |d.fifo|];
      }
    }
  }

  lemma RdmaWriteQueue(fifo: seq<Bio>, buf: map<Ctx, seq<Page>>, ctx: Ctx, start: nat, data: seq<Page>)
    requires forall i :: 0 <= i < |fifo| && fifo[i].CtxBio? ==> fifo[i].ctx != ctx
    ensures QueueWrites(fifo + [CtxBio(start, |data|, ctx)], buf[ctx := data])
            == QueueWrites(fifo, buf) + PagesOf(start, data)
  {
    var bio := [CtxBio(start, |data|, ctx)];
    var buf' := buf[ctx := data];
    QueueIgnoresBuffer(fifo, buf, ctx, data);
    QueueConcat(fifo, bio, buf');
    assert QueueWrites(bio, buf') == BioWrites(bio[0], buf') + QueueWrites(bio[1..], buf');
  }

  lemma RdmaWriteKeepsLog(d: Dev, ctx: Ctx, slot: nat, start: nat, data: seq<Page>)
    requires WriteThrough(d) && CtxOk(d) && start + |data| <= |d.disk|
    requires ctx in d.free
    ensures WriteThrough(RdmaWrite(d, ctx, slot, start, data))
  {
    RdmaWriteQueue(d.fifo, d.buf, ctx, start, data);
    AcceptKeepsLog(d, RdmaWrite(d, ctx, slot, start, data), PagesOf(start, data));
  }

  lemma RdmaWriteKeepsCtx(d: Dev, ctx: Ctx, slot: nat, start: nat, data: seq<Page>)
    requires CtxOk(d) && ctx in d.free
    ensures CtxOk(RdmaWrite(d, ctx, slot, start, data))
  {
    var e := RdmaWrite(d, ctx, slot, start, data);
    forall c | c in e.flight && e.flight[c].WriteOp? ensures Queued(e.fifo, c) {
      if c == ctx {
        assert e.fifo[|d.fifo|].ctx == ctx;
      } else {
        var i :| 0 <= i < |d.fifo| && d.fifo[i].CtxBio? && d.fifo[i].ctx == c;
        assert e.fifo[i] == d.fifo[i];
      }
    }
  }

  lemma RdmaWriteKeepsInv(d: Dev, ctx: Ctx, slot: nat, start: nat, data: seq<Page>)
    requires Inv(d) && start + |data| <= |d.disk| && NoOverlap(d, start, |data|)
    requires ctx in d.free
    ensures Inv(RdmaWrite(d, ctx, slot, start, data))
  {
    RdmaWriteKeepsLog(d, ctx, slot, start, data);
    RdmaWriteKeepsCtx(d, ctx, slot, start, data);
    RdmaWriteConserves(d, ctx, slot, start, data);
  }

  lemma DiskReadKeepsLog(d: Dev, page: nat)
    requires WriteThrough(d)
    ensures WriteThrough(DiskRead(d, page))
  {
    QueueConcat(d.fifo, [ReadBio(page)], d.buf);
    assert QueueWrites([ReadBio(page)], d.buf) == [];
    AcceptKeepsLog(d, DiskRead(d, page), []);
  }

  lemma DiskReadKeepsInv(d: Dev, page: nat)
    requires Inv(d) && page < |d.disk|
    ensures Inv(DiskRead(d, page))
  {
    DiskReadKeepsLog(d, page);
    QueueGrows(d, [ReadBio(page)]);
    QueueingConserves(d, [ReadBio(page)]);
  }

  lemma RdmaReadKeepsInv(d: Dev, ctx: Ctx, slot: nat, page: nat)
    requires Inv(d) && ctx in d.free
    ensures Inv(RdmaRead(d, ctx, slot, page))
  {
  }

  lemma FlightBuffered(d: Dev, ctx: Ctx)
    requires CtxOk(d) && ctx in d.flight && d.flight[ctx].WriteOp?
    ensures ctx in d.buf && |d.buf[ctx]| == d.flight[ctx].len
  {
    var i :| 0 <= i < |d.fifo| && d.fifo[i].CtxBio? && d.fifo[i].ctx == ctx;
  }

  lemma WriteDoneKeepsInv(d: Dev, ctx: Ctx)
    requires Inv(d) && ctx in d.flight && d.flight[ctx].WriteOp?
    ensures Inv(WriteDone(d, ctx))
  {
    WriteDoneConserves(d, ctx);
  }

  lemma ReadDoneKeepsInv(d: Dev, ctx: Ctx, value: Page)
    requires Inv(d) && ctx in d.flight && d.flight[ctx].ReadOp?
    ensures Inv(ReadDone(d, ctx, value))
  {
    QueueIgnoresBuffer(d.fifo, d.buf, ctx, [value]);
    ReadDoneConserves(d, ctx, value);
  }

  lemma AbandonKeepsInv(d: Dev, ctx: Ctx)
    requires Inv(d) && ctx in d.flight && d.flight[ctx].page < |d.disk|
    ensures Inv(Abandon(d, ctx))
  {
    if d.flight[ctx].ReadOp? {
      DiskReadKeepsInv(d, d.flight[ctx].page);
    }
    AbandonConserves(d, ctx);
  }

  lemma PopIsDefined(d: Dev)
    requires Inv(d) && d.fifo != []
    ensures forall w :: w in BioWrites(d.fifo[0], d.buf) ==> w.page < |d.disk|
  {
    var ws := BioWrites(d.fifo[0], d.buf);
    forall w | w in ws ensures w.page < |d.disk| {
      var i :| 0 <= i < |ws| && ws[i] == w;
      assert d.log[|d.done| + i] == w;
    }
  }

  /** The disk end of a context's copy comes after the end of its RDMA write. */
  ghost predicate PopAllowed(d: Dev) {
    d.fifo != [] && (d.fifo[0].CtxBio? ==> d.fifo[0].ctx !in d.flight)
  }

  lemma PopKeepsLog(d: Dev)
    requires WriteThrough(d) && d.fifo != []
    requires forall w :: w in BioWrites(d.fifo[0], d.buf) ==> w.page < |d.disk|
    ensures WriteThrough(Pop(d))
  {
    var ws := BioWrites(d.fifo[0], d.buf);
    assert d.log == (d.done + ws) + QueueWrites(d.fifo[1..], d.buf);
    ApplyConcat(d.initial, d.done, ws);
  }

  lemma PopKeepsCtx(d: Dev)
    requires CtxOk(d) && ReadsOrdered(d) && PopAllowed(d)
    requires forall w :: w in BioWrites(d.fifo[0], d.buf) ==> w.page < |d.disk|
    ensures CtxOk(Pop(d)) && ReadsOrdered(Pop(d))
  {
    var e := Pop(d);
    forall c | c in e.flight && e.flight[c].WriteOp? ensures Queued(e.fifo, c) {
      var i :| 0 <= i < |d.fifo| && d.fifo[i].CtxBio? && d.fifo[i].ctx == c;
      assert e.fifo[i - 1] == d.fifo[i];
    }
  }

  lemma PopKeepsInv(d: Dev)
    requires Inv(d) && PopAllowed(d)
    requires forall w :: w in BioWrites(d.fifo[0], d.buf) ==> w.page < |d.disk|
    ensures Inv(Pop(d))
  {
    PopKeepsLog(d);
    PopKeepsCtx(d);
    PopConserves(d);
  }

  /** Each context is in exactly one of three places: free, held by a read in flight, or held by a queued
      copy of a write, which may itself still be in flight. */
  lemma ContextInOnePlace(d: Dev, c: Ctx)
    requires Inv(d) && c in d.pool
    ensures c in d.free || (c in d.flight && d.flight[c].ReadOp?) || Queued(d.fifo, c)
    ensures !(c in d.free && c in d.flight) && !(c in d.free && Queued(d.fifo, c))
    ensures !(c in d.flight && d.flight[c].ReadOp? && Queued(d.fifo, c))
  {
  }

  /** Whenever the queue reaches a read, the disk page is the last accepted write of it. */
  lemma DiskReadSeesLastWrite(d: Dev)
    requires Inv(d) && d.fifo != [] && d.fifo[0].ReadBio?
    ensures d.fifo[0].page < |d.disk|
    ensures d.disk[d.fifo[0].page] == Flat(d)[d.fifo[0].page]
  {
    var p := d.fifo[0].page;
    var ws := QueueWrites(d.fifo, d.buf);
    QueueWritesCovered(d.fifo, d.buf, p);
    forall i | 0 <= i < |ws| ensures ws[i].page != p && ws[i].page < |d.initial| {
      assert ws[i] in ws;
      assert d.log[|d.done| + i] == ws[i];
    }
    ApplyConcat(d.initial, d.done, ws);
    ApplyElsewhere(Apply(d.initial, d.done), ws, p);
  }

  /** An accepted write changes the flat memory on its own pages only. */
  lemma FlatAfterWrite(d: Dev, start: nat, data: seq<Page>, log': seq<PageWrite>, p: nat)
    requires forall i :: 0 <= i < |d.log| ==> d.log[i].page < |d.initial|
    requires start + |data| <= |d.initial| && p < |d.initial|
    requires log' == d.log + PagesOf(start, data)
    ensures forall i :: 0 <= i < |log'| ==> log'[i].page < |d.initial|
    ensures Apply(d.initial, log')[p]
         == if start <= p < start + |data| then data[p - start] else Flat(d)[p]
  {
    ApplyConcat(d.initial, d.log, PagesOf(start, data));
    ApplyPages(Flat(d), start, data, p);
  }
}
