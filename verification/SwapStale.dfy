/** The one way a recorded page goes stale. While the disconnect handler of one server has RDMA
    switched off, a write inside one slab goes to disk without clearing the slab's recorded bits. If
    the slab is mapped on another, live server, the bits stay set over old data.
 */
module SwapStale {
  import opened BackupDisk
  import opened SwapClient
  import opened Swap
  import opened SwapCoherence
  import opened SwapRequests

  ghost predicate StaysCoherent(cl: Client, servers: seq<Server>, start: nat, data: seq<Page>)
    requires WriteThrough(DiskWrite(cl.dev, start, data))
  {
    Coherent(cl.(dev := DiskWrite(cl.dev, start, data)), servers)
  }

  /** Some page other than the given one. */
  function Other(p: Page): (r: Page)
    ensures r != p
  {
    if p == [] then [0] else []
  }

  lemma RecordedGoesStale(cl: Client, servers: seq<Server>, start: nat, data: seq<Page>, d: nat, i: nat, p: nat)
    requires Inv(cl.dev) && Coherent(cl, servers) && NoOverlap(cl.dev, start, |data|)
    requires start + |data| <= |cl.dev.initial| && WriteThrough(DiskWrite(cl.dev, start, data))
    requires d < |cl.conns| && cl.conns[d].live && i < |cl.conns[d].chunkMap| && i < |cl.conns[d].bits|
    requires Seen(cl)[d].chunkMap[i] >= 0 && p in cl.conns[d].bits[i] && i < |servers[d].mem| && p < |servers[d].mem[i]|
    requires start <= Seen(cl)[d].chunkMap[i] * SLAB_PAGES + p < start + |data|
    requires data[Seen(cl)[d].chunkMap[i] * SLAB_PAGES + p - start] != servers[d].mem[i][p]
    ensures !StaysCoherent(cl, servers, start, data)
  {
    var dev' := DiskWrite(cl.dev, start, data);
    var c := Seen(cl)[d];
    var q := c.chunkMap[i] * SLAB_PAGES + p;
    AcceptedFlat(cl.dev, dev', start, data);
    SeenSame(cl, cl.(dev := dev'));
    assert !Rewriting(dev'.flight, d, i, q);
    assert !PageOk(c.chunkMap[i], p, d, i, servers[d].mem[i], dev'.flight, Flat(dev'));
    assert !SlotOk(c, i, d, servers[d].mem[i], dev'.flight, Flat(dev'));
    assert !ConnData(c, d, servers[d].mem, dev'.flight, Flat(dev'));
  }

  /** With RDMA off, writes of these pages keep the recorded pages right, whatever their data,
      exactly when none of the pages is recorded on a live server at the slot the maps lead to. */
  lemma OffWriteHarmlessExactlyWhenUnrecorded(cl: Client, servers: seq<Server>, start: nat, len: nat, ctx: Ctx)
    requires Inv(cl.dev) && Coherent(cl, servers)
    requires |cl.dev.initial| == |cl.cbIndexMap| * SLAB_PAGES
    requires !cl.rdmaOn && OnDevice(cl, start, len) && FirstSlab(start) == LastSlab(start, len)
    requires NoOverlap(cl.dev, start, len)
    ensures Unrecorded(Seen(cl), start, len) <==>
              forall data: seq<Page> :: |data| == len ==>
                && WriteThrough(AcceptWrite(cl, start, data, ctx).dev)
                && Coherent(AcceptWrite(cl, start, data, ctx), servers)
  {
    if Unrecorded(Seen(cl), start, len) {
      forall data: seq<Page> | |data| == len
        ensures WriteThrough(AcceptWrite(cl, start, data, ctx).dev)
             && Coherent(AcceptWrite(cl, start, data, ctx), servers)
      {
        LocalWriteCoherent(cl, start, data, servers);
      }
    } else {
      var data := RecordedHasCounterexample(cl, servers, start, len);
      assert AcceptWrite(cl, start, data, ctx) == cl.(dev := DiskWrite(cl.dev, start, data));
    }
  }

  /** A write over a recorded page that makes it stale. */
  lemma RecordedHasCounterexample(cl: Client, servers: seq<Server>, start: nat, len: nat) returns (data: seq<Page>)
    requires Inv(cl.dev) && Coherent(cl, servers) && start + len <= |cl.dev.initial|
    requires NoOverlap(cl.dev, start, len) && !Unrecorded(Seen(cl), start, len)
    ensures |data| == len && WriteThrough(DiskWrite(cl.dev, start, data)) && !StaysCoherent(cl, servers, start, data)
  {
    var conns := Seen(cl);
    var d, i: nat, p: nat :|
      0 <= d < |conns| && i < |conns[d].chunkMap| && i < |conns[d].bits| &&
      conns[d].live && conns[d].chunkMap[i] >= 0 && p in conns[d].bits[i] &&
      start <= conns[d].chunkMap[i] * SLAB_PAGES + p < start + len;
    assert ConnData(conns[d], d, servers[d].mem, cl.dev.flight, Flat(cl.dev));
    assert SlotOk(conns[d], i, d, servers[d].mem[i], cl.dev.flight, Flat(cl.dev));
    assert PageOk(conns[d].chunkMap[i], p, d, i, servers[d].mem[i], cl.dev.flight, Flat(cl.dev));
    data := seq(len, _ => Other(servers[d].mem[i][p]));
    DiskWriteKeepsInv(cl.dev, start, data);
    RecordedGoesStale(cl, servers, start, data, d, i, p);
  }

  /** Page q is recorded on a live server, at the slot both maps name. */
  ghost predicate RecordedLive(cl: Client, q: nat) {
    var b := q / SLAB_PAGES;
    && b < |cl.cbIndexMap| == |cl.slotMap|
    && 0 <= cl.cbIndexMap[b] < |cl.conns| && cl.conns[cl.cbIndexMap[b]].live
    && 0 <= cl.slotMap[b] < |cl.conns[cl.cbIndexMap[b]].bits| == |cl.conns[cl.cbIndexMap[b]].chunkMap|
    && cl.conns[cl.cbIndexMap[b]].chunkMap[cl.slotMap[b]] == b
    && q % SLAB_PAGES in cl.conns[cl.cbIndexMap[b]].bits[cl.slotMap[b]]
  }

  /** Without a write of it under way, a recorded page at the server is the last accepted write. */
  lemma RecordedIsLast(cl: Client, servers: seq<Server>, q: nat, d: nat, i: nat)
    requires Inv(cl.dev) && Coherent(cl, servers) && |cl.dev.initial| == |cl.cbIndexMap| * SLAB_PAGES
    requires q < |cl.dev.initial| && NoOverlap(cl.dev, q, 1) && RecordedLive(cl, q)
    requires d == cl.cbIndexMap[q / SLAB_PAGES] && i == cl.slotMap[q / SLAB_PAGES]
    ensures i < |servers[d].mem| && q % SLAB_PAGES < |servers[d].mem[i]|
    ensures servers[d].mem[i][q % SLAB_PAGES] == Flat(cl.dev)[q]
  {
    assert ConnData(Seen(cl)[d], d, servers[d].mem, cl.dev.flight, Flat(cl.dev));
    assert SlotOk(Seen(cl)[d], i, d, servers[d].mem[i], cl.dev.flight, Flat(cl.dev));
    assert PageOk(q / SLAB_PAGES, q % SLAB_PAGES, d, i, servers[d].mem[i], cl.dev.flight, Flat(cl.dev));
  }

  /** A write with RDMA off touches nothing but the queue and the log. */
  lemma OffWriteGoesToDisk(cl: Client, q: nat, v: Page, ctx: Ctx, cl': Client)
    requires Inv(cl.dev) && |cl.dev.initial| == |cl.cbIndexMap| * SLAB_PAGES && |cl.cbIndexMap| == |cl.slotMap|
    requires !cl.rdmaOn && q < |cl.dev.initial| && NoOverlap(cl.dev, q, 1)
    requires OnDevice(cl, q, 1) && cl' == AcceptWrite(cl, q, [v], ctx)
    ensures cl' == cl.(dev := DiskWrite(cl.dev, q, [v]))
    ensures WriteThrough(cl'.dev) && Flat(cl'.dev)[q] == v
  {
    assert cl' == cl.(dev := DiskWrite(cl.dev, q, [v]));
    DiskWriteKeepsInv(cl.dev, q, [v]);
    AcceptedFlat(cl.dev, cl'.dev, q, [v]);
  }

  /** With RDMA on a recorded page is read from its server. */
  lemma RecordedIsRead(cl: Client, q: nat, ctx: Ctx, pool: nat)
    requires cl.rdmaOn && q < |cl.cbIndexMap| * SLAB_PAGES && RecordedLive(cl, q) && !WriteInFlight(cl.dev, q)
    requires ctx in cl.dev.free && ctx.server == cl.cbIndexMap[q / SLAB_PAGES] && ctx.index < pool
    ensures CanRead(cl, q, ctx, pool) && ReadPath(cl, q) == ToRemote(ctx.server, cl.slotMap[q / SLAB_PAGES])
  {
  }

  /** The handler of a server f ends; nothing that is recorded changes. */
  lemma StillRecorded(cl: Client, cl': Client, q: nat, f: nat)
    requires RecordedLive(cl, q) && f < |cl.conns| && cl'.cbIndexMap == cl.cbIndexMap && cl'.slotMap == cl.slotMap
    requires cl'.conns == FailEnd(cl, f).conns
    ensures RecordedLive(cl', q)
  {
  }

  /** In every such state the stale page is then read: a write of page q while RDMA is off, the end of
      the disconnect handling, and a read of page q, which goes to remote memory and finds the value
      from before the write. */
  lemma StaleReadFollows(cl: Client, servers: seq<Server>, f: nat, q: nat, v: Page, ctx: Ctx, pool: nat)
    requires Inv(cl.dev) && Coherent(cl, servers) && |cl.dev.initial| == |cl.cbIndexMap| * SLAB_PAGES
    requires !cl.rdmaOn && q < |cl.dev.initial| && NoOverlap(cl.dev, q, 1) && RecordedLive(cl, q) && f < |cl.conns|
    requires ctx in cl.dev.free && ctx.server == cl.cbIndexMap[q / SLAB_PAGES] && ctx.index < pool
    ensures CanWrite(cl, q, [v], ctx, pool)
    ensures var cl' := FailEnd(AcceptWrite(cl, q, [v], ctx), f);
            var path := ToRemote(ctx.server, cl.slotMap[q / SLAB_PAGES]);
            && WriteThrough(cl'.dev) && q < |cl'.dev.initial| && Flat(cl'.dev)[q] == v
            && CanRead(cl', q, ctx, pool) && ReadPath(cl', q) == path
            && path.slot < |servers[path.server].mem| && q % SLAB_PAGES < |servers[path.server].mem[path.slot]|
            && servers[path.server].mem[path.slot][q % SLAB_PAGES] == Flat(cl.dev)[q]
  {
    RecordedIsLast(cl, servers, q, ctx.server, cl.slotMap[q / SLAB_PAGES]);
    var mid := AcceptWrite(cl, q, [v], ctx);
    OffWriteGoesToDisk(cl, q, v, ctx, mid);
    var cl' := FailEnd(mid, f);
    StillRecorded(mid, cl', q, f);
    RecordedIsRead(cl', q, ctx, pool);
  }
}
