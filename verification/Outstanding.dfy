/** The reads a device has accepted and not yet answered: those in flight to remote memory and those queued for
    the disk, counted page by page. No transition of the device loses one or adds one by itself.
 */
module Outstanding {
  import opened BackupDisk

  /** The contexts with a read of page p in flight. */
  function Readers(flight: map<Ctx, Op>, p: nat): set<Ctx> {
    set c | c in flight && flight[c].ReadOp? && flight[c].page == p
  }

  /** How many reads of page p are queued. */
  function QueuedReads(fifo: seq<Bio>, p: nat): nat {
    if fifo == [] then 0 else (if fifo[0] == ReadBio(p) then 1 else 0) + QueuedReads(fifo[1..], p)
  }

  /** How many reads of page p wait for an answer. */
  function Waiting(d: Dev, p: nat): nat {
    |Readers(d.flight, p)| + QueuedReads(d.fifo, p)
  }

  function One(b: bool): nat {
    if b then 1 else 0
  }

  // ---------------------------------------------------------------- the queue

  lemma {:induction false} QueuedConcat(a: seq<Bio>, b: seq<Bio>, p: nat)
    ensures QueuedReads(a + b, p) == QueuedReads(a, p) + QueuedReads(b, p)
  {
    if a == [] {
      assert a + b == b;
    } else {
      assert (a + b)[1..] == a[1..] + b;
      QueuedConcat(a[1..], b, p);
    }
  }

  lemma {:induction false} NoReadsQueued(more: seq<Bio>, p: nat)
    requires forall i :: 0 <= i < |more| ==> !more[i].ReadBio?
    ensures QueuedReads(more, p) == 0
  {
    if more != [] {
      NoReadsQueued(more[1..], p);
    }
  }

  lemma OneMoreQueued(fifo: seq<Bio>, b: Bio, p: nat)
    ensures QueuedReads(fifo + [b], p) == QueuedReads(fifo, p) + One(b == ReadBio(p))
  {
    QueuedConcat(fifo, [b], p);
    assert [b][1..] == [];
    assert QueuedReads([b], p) == One(b == ReadBio(p)) + QueuedReads([b][1..], p);
  }

  // ---------------------------------------------------------------- operations in flight

  lemma ReadersStart(flight: map<Ctx, Op>, ctx: Ctx, op: Op, p: nat)
    requires ctx !in flight
    ensures |Readers(flight[ctx := op], p)| == |Readers(flight, p)| + One(op.ReadOp? && op.page == p)
  {
    assert Readers(flight[ctx := op], p)
        == if op.ReadOp? && op.page == p then Readers(flight, p) + {ctx} else Readers(flight, p);
  }

  lemma ReadersEnd(flight: map<Ctx, Op>, ctx: Ctx, p: nat)
    requires ctx in flight
    ensures |Readers(flight, p)| == |Readers(flight - {ctx}, p)| + One(flight[ctx].ReadOp? && flight[ctx].page == p)
  {
    assert Readers(flight, p)
        == if flight[ctx].ReadOp? && flight[ctx].page == p then Readers(flight - {ctx}, p) + {ctx}
           else Readers(flight - {ctx}, p);
  }

  // ---------------------------------------------------------------- the transitions

  lemma DiskWriteWaits(d: Dev, start: nat, data: seq<Page>, p: nat)
    ensures Waiting(DiskWrite(d, start, data), p) == Waiting(d, p)
  {
    QueuedConcat(d.fifo, PageBios(start, data), p);
    NoReadsQueued(PageBios(start, data), p);
  }

  lemma RdmaWriteWaits(d: Dev, ctx: Ctx, slot: nat, start: nat, data: seq<Page>, p: nat)
    requires ctx !in d.flight
    ensures Waiting(RdmaWrite(d, ctx, slot, start, data), p) == Waiting(d, p)
  {
    OneMoreQueued(d.fifo, CtxBio(start, |data|, ctx), p);
    ReadersStart(d.flight, ctx, WriteOp(slot, start, |data|), p);
  }

  lemma DiskReadWaits(d: Dev, page: nat, p: nat)
    ensures Waiting(DiskRead(d, page), p) == Waiting(d, p) + One(page == p)
  {
    OneMoreQueued(d.fifo, ReadBio(page), p);
  }

  lemma RdmaReadWaits(d: Dev, ctx: Ctx, slot: nat, page: nat, p: nat)
    requires ctx !in d.flight
    ensures Waiting(RdmaRead(d, ctx, slot, page), p) == Waiting(d, p) + One(page == p)
  {
    ReadersStart(d.flight, ctx, ReadOp(slot, page), p);
  }

  lemma WriteDoneWaits(d: Dev, ctx: Ctx, p: nat)
    requires ctx in d.flight && d.flight[ctx].WriteOp?
    ensures Waiting(WriteDone(d, ctx), p) == Waiting(d, p)
  {
    ReadersEnd(d.flight, ctx, p);
  }

  lemma ReadDoneWaits(d: Dev, ctx: Ctx, value: Page, p: nat)
    requires ctx in d.flight && d.flight[ctx].ReadOp?
    ensures Waiting(d, p) == Waiting(ReadDone(d, ctx, value), p) + One(d.flight[ctx].page == p)
  {
    ReadersEnd(d.flight, ctx, p);
  }

  /** The disconnect handler answers nothing and forgets nothing. */
  lemma AbandonWaits(d: Dev, ctx: Ctx, p: nat)
    requires ctx in d.flight
    ensures Waiting(Abandon(d, ctx), p) == Waiting(d, p)
  {
    ReadersEnd(d.flight, ctx, p);
    if d.flight[ctx].ReadOp? {
      OneMoreQueued(d.fifo, ReadBio(d.flight[ctx].page), p);
    }
  }

  lemma PopWaits(d: Dev, p: nat)
    requires d.fifo != [] && forall w :: w in BioWrites(d.fifo[0], d.buf) ==> w.page < |d.disk|
    ensures Waiting(d, p) == Waiting(Pop(d), p) + One(d.fifo[0] == ReadBio(p))
  {
  }
}
