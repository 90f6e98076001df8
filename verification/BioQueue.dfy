/** The queue in front of the backup disk as an object: requests append bios under a lock, and a thread
    takes them off in order. What it queues is what the transitions of `BackupDisk` queue.
 */
module BioQueue {
  import opened BackupDisk

  class StackDevice {
    var active: bool            // the disk is open and the device started
    var fifo: seq<Bio>          // bio_list

    /** stackbd_make_request2 and stackbd_make_request4 for a write: one clone per page, the last one
        carrying the end of the request. An inactive device refuses. */
    method QueuePages(start: nat, data: seq<Page>) returns (queued: bool)
      requires data != []
      modifies this`fifo
      ensures queued == active
      ensures fifo == if active then old(fifo) + PageBios(start, data) else old(fifo)
    {
      if !active {
        return false;
      }
      var i := 0;
      while i < |data| - 1
        invariant 0 <= i <= |data| - 1
        invariant fifo == old(fifo) + PageBios(start, data)[..i]
      {
        fifo := fifo + [PageBio(start + i, data[i])];
        i := i + 1;
      }
      fifo := fifo + [PageBio(start + i, data[i])];
      assert PageBios(start, data) == PageBios(start, data)[..i] + [PageBio(start + i, data[i])];
      queued := true;
    }

    /** stackbd_make_request5: the disk copy of a context's buffer. */
    method QueueBio(b: Bio) returns (queued: bool)
      modifies this`fifo
      ensures queued == active
      ensures fifo == if active then old(fifo) + [b] else old(fifo)
    {
      if active {
        fifo := fifo + [b];
      }
      queued := active;
    }

    /** One turn of stackbd_threadfn. */
    method Take() returns (taken: bool, b: Bio)
      modifies this`fifo
      ensures taken <==> old(fifo) != []
      ensures taken ==> old(fifo) == [b] + fifo
      ensures !taken ==> fifo == old(fifo)
    {
      b := ReadBio(0);
      taken := fifo != [];
      if taken {
        b := fifo[0];
        fifo := fifo[1..];
      }
    }
  }

  /** A write queued page by page is an accepted disk write of the device: queueing it keeps every
      accepted page write on disk or queued exactly once. */
  lemma QueuedWriteIsDiskWrite(d: Dev, start: nat, data: seq<Page>, fifo: seq<Bio>)
    requires WriteThrough(d) && start + |data| <= |d.disk| && fifo == d.fifo + PageBios(start, data)
    ensures WriteThrough(d.(fifo := fifo, log := d.log + PagesOf(start, data)))
    ensures QueueWrites(fifo, d.buf) == QueueWrites(d.fifo, d.buf) + PagesOf(start, data)
  {
    DiskWriteKeepsLog(d, start, data);
    DiskWriteQueue(d, start, data);
  }

  /** The disk copy of a context's buffer is queued with an RDMA write, and stands for the write's pages. */
  lemma QueuedCopyIsRdmaWrite(d: Dev, ctx: Ctx, slot: nat, start: nat, data: seq<Page>, fifo: seq<Bio>)
    requires WriteThrough(d) && CtxOk(d) && ctx in d.free && start + |data| <= |d.disk|
    requires fifo == d.fifo + [CtxBio(start, |data|, ctx)]
    ensures RdmaWrite(d, ctx, slot, start, data).fifo == fifo && WriteThrough(RdmaWrite(d, ctx, slot, start, data))
    ensures QueueWrites(fifo, d.buf[ctx := data]) == QueueWrites(d.fifo, d.buf) + PagesOf(start, data)
  {
    RdmaWriteKeepsLog(d, ctx, slot, start, data);
    RdmaWriteQueue(d.fifo, d.buf, ctx, start, data);
  }
}
