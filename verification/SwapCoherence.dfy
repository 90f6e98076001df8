/** Remote memory as a cache of the backup disk: a recorded page holds the last accepted write, and
    what follows from that for reads.

    `flat` below is always the memory the device must appear to be, the initial disk under all
    accepted writes.
 */
module SwapCoherence {
  import opened BackupDisk
  import C = SwapClient
  import opened SwapInvariants
  import opened Swap

  // ---------------------------------------------------------------- coherence of one client

  /** An RDMA write to the same slot is about to replace the page. */
  ghost predicate Rewriting(f: map<Ctx, Op>, d: nat, i: nat, q: nat) {
    exists x :: x in f && x.server == d && f[x].WriteOp? && f[x].slot == i && f[x].Covers(q)
  }

  /** Page p of slot i, which serves session slab b, holds the last accepted write. */
  ghost predicate PageOk(b: nat, p: nat, d: nat, i: nat, mem: seq<Page>, f: map<Ctx, Op>, flat: seq<Page>) {
    && p < SLAB_PAGES && p < |mem| && b * SLAB_PAGES + p < |flat|
    && (Rewriting(f, d, i, b * SLAB_PAGES + p) || mem[p] == flat[b * SLAB_PAGES + p])
  }

  ghost predicate SlotOk(c: C.Conn, i: nat, d: nat, mem: seq<Page>, f: map<Ctx, Op>, flat: seq<Page>)
    requires i < |c.chunkMap| && i < |c.bits|
  {
    c.live && c.chunkMap[i] >= 0 ==>
      forall p: nat :: p in c.bits[i] ==> PageOk(c.chunkMap[i], p, d, i, mem, f, flat)
  }

  ghost predicate ConnData(c: C.Conn, d: nat, mem: seq<seq<Page>>, f: map<Ctx, Op>, flat: seq<Page>) {
    && |c.bits| == |c.chunkMap| == |mem|
    && forall i: nat :: i < |c.chunkMap| ==> SlotOk(c, i, d, mem[i], f, flat)
  }

  /** An operation in flight carries, or will find, the last accepted write. */
  ghost predicate OpOk(x: Ctx, op: Op, live: bool, mem: seq<seq<Page>>, buf: map<Ctx, seq<Page>>, flat: seq<Page>) {
    match op
    case WriteOp(_, page, len) =>
      && x in buf && |buf[x]| == len && page + len <= |flat|
      && forall j :: 0 <= j < len ==> buf[x][j] == flat[page + j]
    case ReadOp(slot, page) =>
      live ==>
        && slot < |mem| && page % SLAB_PAGES < |mem[slot]| && page < |flat|
        && mem[slot][page % SLAB_PAGES] == flat[page]
  }

  ghost predicate ClientData(conns: seq<C.Conn>, f: map<Ctx, Op>, buf: map<Ctx, seq<Page>>, servers: seq<Server>,
                             flat: seq<Page>) {
    && |conns| == |servers|
    && (forall d :: 0 <= d < |conns| ==> ConnData(conns[d], d, servers[d].mem, f, flat))
    && (forall x :: x in f ==>
          && x.server < |conns|
          && OpOk(x, f[x], conns[x.server].live, servers[x.server].mem, buf, flat))
  }

  /** Both maps lead from session slab b to slot i of server d. */
  predicate Leads(cbIndexMap: seq<int>, slotMap: seq<int>, b: int, d: nat, i: nat) {
    0 <= b < |cbIndexMap| && b < |slotMap| && cbIndexMap[b] == d && slotMap[b] == i
  }

  /** The slots of a connection that requests can reach: a slab may be mapped at other slots as well, when it
      was mapped again before its former slot was given up, but the maps do not lead there. */
  function SeenMap(cbIndexMap: seq<int>, slotMap: seq<int>, chunkMap: seq<int>, d: nat): (r: seq<int>)
    ensures |r| == |chunkMap|
    ensures forall i :: 0 <= i < |r| ==>
              r[i] == if Leads(cbIndexMap, slotMap, chunkMap[i], d, i) then chunkMap[i] else -1
  {
    seq(|chunkMap|, i requires 0 <= i < |chunkMap| =>
      if Leads(cbIndexMap, slotMap, chunkMap[i], d, i) then chunkMap[i] else -1)
  }

  function Seen(cl: C.Client): (r: seq<C.Conn>)
    ensures |r| == |cl.conns|
    ensures forall d :: 0 <= d < |r| ==>
              r[d] == cl.conns[d].(chunkMap := SeenMap(cl.cbIndexMap, cl.slotMap, cl.conns[d].chunkMap, d))
  {
    seq(|cl.conns|, d requires 0 <= d < |cl.conns| =>
      cl.conns[d].(chunkMap := SeenMap(cl.cbIndexMap, cl.slotMap, cl.conns[d].chunkMap, d)))
  }

  /** Recorded pages that requests can reach are right. */
  ghost predicate Coherent(cl: C.Client, servers: seq<Server>)
    requires WriteThrough(cl.dev)
  {
    ClientData(Seen(cl), cl.dev.flight, cl.dev.buf, servers, Flat(cl.dev))
  }

  ghost predicate DataOk(s: System) {
    forall k :: 0 <= k < |s.clients| ==> WriteThrough(s.clients[k].dev) && Coherent(s.clients[k], s.servers)
  }

  // ---------------------------------------------------------------- steps that accept no write

  /** The connection maps no new slot with recorded pages, and records nothing new. */
  ghost predicate QuietConn(c: C.Conn, c': C.Conn) {
    && (c'.live ==> c.live)
    && |c'.chunkMap| == |c.chunkMap| && |c'.bits| == |c.bits|
    && forall i: nat :: i < |c.chunkMap| && i < |c.bits| && c'.live && c'.chunkMap[i] >= 0 ==>
         c'.bits[i] == {} || (c'.chunkMap[i] == c.chunkMap[i] && c'.bits[i] <= c.bits[i])
  }

  /** Nothing starts, and a write leaves only with its connection. */
  ghost predicate QuietFlight(f: map<Ctx, Op>, buf: map<Ctx, seq<Page>>, f': map<Ctx, Op>, buf': map<Ctx, seq<Page>>,
                              conns': seq<C.Conn>) {
    && (forall x :: x in f' ==>
          && x in f && f'[x] == f[x]
          && (f[x].WriteOp? && x in buf ==> x in buf' && buf'[x] == buf[x]))
    && (forall x :: x in f && f[x].WriteOp? && x !in f' ==> x.server < |conns'| && !conns'[x.server].live)
  }

  ghost predicate QuietConns(conns: seq<C.Conn>, conns': seq<C.Conn>) {
    |conns'| == |conns| && forall d :: 0 <= d < |conns| ==> QuietConn(conns[d], conns'[d])
  }

  lemma QuietSlot(c: C.Conn, c': C.Conn, i: nat, d: nat, mem: seq<Page>, f: map<Ctx, Op>, f': map<Ctx, Op>,
                  flat: seq<Page>)
    requires QuietConn(c, c') && i < |c.chunkMap| && i < |c.bits| && SlotOk(c, i, d, mem, f, flat)
    requires c'.live ==> forall q: nat :: Rewriting(f, d, i, q) ==> Rewriting(f', d, i, q)
    ensures SlotOk(c', i, d, mem, f', flat)
  {
    if c'.live && c'.chunkMap[i] >= 0 {
      forall p: nat | p in c'.bits[i] ensures PageOk(c'.chunkMap[i], p, d, i, mem, f', flat) {
        assert PageOk(c.chunkMap[i], p, d, i, mem, f, flat);
      }
    }
  }

  lemma QuietData(conns: seq<C.Conn>, f: map<Ctx, Op>, buf: map<Ctx, seq<Page>>,
                  conns': seq<C.Conn>, f': map<Ctx, Op>, buf': map<Ctx, seq<Page>>, servers: seq<Server>,
                  flat: seq<Page>)
    requires ClientData(conns, f, buf, servers, flat)
    requires QuietConns(conns, conns') && QuietFlight(f, buf, f', buf', conns')
    ensures ClientData(conns', f', buf', servers, flat)
  {
    forall d: nat | d < |conns'| ensures ConnData(conns'[d], d, servers[d].mem, f', flat) {
      assert ConnData(conns[d], d, servers[d].mem, f, flat);
      forall i: nat | i < |conns[d].chunkMap| ensures SlotOk(conns'[d], i, d, servers[d].mem[i], f', flat) {
        forall q: nat | conns'[d].live && Rewriting(f, d, i, q) ensures Rewriting(f', d, i, q) {
          var x :| x in f && x.server == d && f[x].WriteOp? && f[x].slot == i && f[x].Covers(q);
          assert x in f';
        }
        QuietSlot(conns[d], conns'[d], i, d, servers[d].mem[i], f, f', flat);
      }
    }
    forall x | x in f'
      ensures x.server < |conns'| && OpOk(x, f'[x], conns'[x.server].live, servers[x.server].mem, buf', flat)
    {
      assert OpOk(x, f[x], conns[x.server].live, servers[x.server].mem, buf, flat);
      assert QuietConn(conns[x.server], conns'[x.server]);
    }
  }

  // ---------------------------------------------------------------- memory of slots a client does not use

  /** The slots a live connection of the client uses are untouched. */
  ghost predicate UsedSlotsSame(conns: seq<C.Conn>, servers: seq<Server>, servers': seq<Server>) {
    && |servers'| == |servers| && |conns| == |servers|
    && forall d, i: nat :: 0 <= d < |conns| && i < |conns[d].chunkMap| ==>
         && |servers'[d].mem| == |servers[d].mem|
         && (conns[d].live && C.Claimed(conns[d], i) && i < |servers[d].mem| ==>
             servers'[d].mem[i] == servers[d].mem[i])
  }

  /** The slots seen are slots mapped. */
  ghost predicate SeenOf(conns: seq<C.Conn>, seen: seq<C.Conn>) {
    && |seen| == |conns|
    && forall d :: 0 <= d < |conns| ==>
         && seen[d] == conns[d].(chunkMap := seen[d].chunkMap) && |seen[d].chunkMap| == |conns[d].chunkMap|
         && forall i :: 0 <= i < |conns[d].chunkMap| ==>
              seen[d].chunkMap[i] == -1 || seen[d].chunkMap[i] == conns[d].chunkMap[i]
  }

  lemma SeenIsMapped(cl: C.Client)
    ensures SeenOf(cl.conns, Seen(cl))
  {
  }

  lemma MemoryFrame(conns: seq<C.Conn>, seen: seq<C.Conn>, f: map<Ctx, Op>, buf: map<Ctx, seq<Page>>,
                    servers: seq<Server>, servers': seq<Server>, flat: seq<Page>, slots: nat, pool: nat)
    requires ClientData(seen, f, buf, servers, flat) && SeenOf(conns, seen)
    requires FlightInv(f, conns, slots, pool, |flat|)
    requires UsedSlotsSame(conns, servers, servers')
    requires forall d :: 0 <= d < |servers| ==> |servers'[d].mem| == |servers[d].mem|
    ensures ClientData(seen, f, buf, servers', flat)
  {
    forall d: nat | d < |conns| ensures ConnData(seen[d], d, servers'[d].mem, f, flat) {
      assert ConnData(seen[d], d, servers[d].mem, f, flat);
      forall i: nat | i < |conns[d].chunkMap| ensures SlotOk(seen[d], i, d, servers'[d].mem[i], f, flat) {
        assert SlotOk(seen[d], i, d, servers[d].mem[i], f, flat);
        assert seen[d].chunkMap[i] >= 0 ==> C.Claimed(conns[d], i);
      }
    }
    forall x | x in f
      ensures x.server < |seen| && OpOk(x, f[x], seen[x.server].live, servers'[x.server].mem, buf, flat)
    {
      assert OpOk(x, f[x], seen[x.server].live, servers[x.server].mem, buf, flat);
      assert FlightPlace(x, f[x], conns, slots, pool, |flat|);
      assert conns[x.server].live ==> C.Claimed(conns[x.server], f[x].slot);
    }
  }

  // ---------------------------------------------------------------- accepted writes

  /** No recorded page of a live mapped slot is among these device pages. */
  ghost predicate Unrecorded(conns: seq<C.Conn>, start: nat, len: nat) {
    forall d, i: nat, p: nat ::
      0 <= d < |conns| && i < |conns[d].chunkMap| && i < |conns[d].bits| &&
      conns[d].live && conns[d].chunkMap[i] >= 0 && p in conns[d].bits[i] ==>
        !(start <= conns[d].chunkMap[i] * SLAB_PAGES + p < start + len)
  }

  /** `flat'` is `flat` with the data written at `start`. */
  ghost predicate Written(flat: seq<Page>, flat': seq<Page>, start: nat, data: seq<Page>) {
    && |flat'| == |flat| && start + |data| <= |flat|
    && forall q :: 0 <= q < |flat| ==> flat'[q] == if start <= q < start + |data| then data[q - start] else flat[q]
  }

  lemma OpsAfterWrite(x: Ctx, op: Op, live: bool, mem: seq<seq<Page>>, buf: map<Ctx, seq<Page>>,
                      buf': map<Ctx, seq<Page>>, flat: seq<Page>, flat': seq<Page>, start: nat, data: seq<Page>)
    requires OpOk(x, op, live, mem, buf, flat) && Written(flat, flat', start, data)
    requires op.WriteOp? ==> x in buf' && x in buf && buf'[x] == buf[x]
    requires forall p :: start <= p < start + |data| ==> !op.Covers(p)
    ensures OpOk(x, op, live, mem, buf', flat')
  {
    match op
    case WriteOp(_, page, len) =>
      forall j | 0 <= j < len ensures buf'[x][j] == flat'[page + j] {
        assert op.Covers(page + j);
      }
    case ReadOp(_, page) =>
      assert op.Covers(page);
  }

  /** A write that goes to disk alone keeps coherence when it hits no recorded page. */
  lemma DiskWriteData(conns: seq<C.Conn>, f: map<Ctx, Op>, buf: map<Ctx, seq<Page>>, servers: seq<Server>,
                      flat: seq<Page>, flat': seq<Page>, start: nat, data: seq<Page>)
    requires ClientData(conns, f, buf, servers, flat) && Written(flat, flat', start, data)
    requires forall x, p :: x in f && start <= p < start + |data| ==> !f[x].Covers(p)
    requires Unrecorded(conns, start, |data|)
    ensures ClientData(conns, f, buf, servers, flat')
  {
    forall d: nat | d < |conns| ensures ConnData(conns[d], d, servers[d].mem, f, flat') {
      var c := conns[d];
      assert ConnData(c, d, servers[d].mem, f, flat);
      forall i: nat | i < |c.chunkMap| ensures SlotOk(c, i, d, servers[d].mem[i], f, flat') {
        assert SlotOk(c, i, d, servers[d].mem[i], f, flat);
      }
    }
    forall x | x in f
      ensures x.server < |conns| && OpOk(x, f[x], conns[x.server].live, servers[x.server].mem, buf, flat')
    {
      OpsAfterWrite(x, f[x], conns[x.server].live, servers[x.server].mem, buf, buf, flat, flat', start, data);
    }
  }

  /** No slot but slot i of server d serves the session slab. */
  ghost predicate ServedBy(conns: seq<C.Conn>, slab: nat, d: int, i: int) {
    forall e, j: nat ::
      0 <= e < |conns| && j < |conns[e].chunkMap| && conns[e].chunkMap[j] == slab ==> e == d && j == i
  }

  lemma RemoteWriteSlot(c: C.Conn, i: nat, e: nat, mem: seq<Page>, f: map<Ctx, Op>, flat: seq<Page>, flat': seq<Page>,
                        ctx: Ctx, slot: nat, start: nat, data: seq<Page>)
    requires i < |c.chunkMap| && i < |c.bits| && SlotOk(c, i, e, mem, f, flat)
    requires Written(flat, flat', start, data) && |data| > 0 && ctx !in f
    requires (start + |data| - 1) / SLAB_PAGES == start / SLAB_PAGES
    requires c.chunkMap[i] == start / SLAB_PAGES ==> e == ctx.server && i == slot
    ensures SlotOk(c, i, e, mem, f[ctx := WriteOp(slot, start, |data|)], flat')
  {
    var f' := f[ctx := WriteOp(slot, start, |data|)];
    if c.live && c.chunkMap[i] >= 0 {
      forall p: nat | p in c.bits[i] ensures PageOk(c.chunkMap[i], p, e, i, mem, f', flat') {
        assert PageOk(c.chunkMap[i], p, e, i, mem, f, flat);
        var q := c.chunkMap[i] * SLAB_PAGES + p;
        if start <= q < start + |data| {
          assert q / SLAB_PAGES == c.chunkMap[i];
          assert f'[ctx].Covers(q);
        } else if Rewriting(f, e, i, q) {
          var x :| x in f && x.server == e && f[x].WriteOp? && f[x].slot == i && f[x].Covers(q);
          assert x in f' && f'[x] == f[x];
        }
      }
    }
  }

  lemma RemoteWriteData(conns: seq<C.Conn>, f: map<Ctx, Op>, buf: map<Ctx, seq<Page>>, servers: seq<Server>,
                        flat: seq<Page>, flat': seq<Page>, ctx: Ctx, slot: nat, start: nat, data: seq<Page>)
    requires ClientData(conns, f, buf, servers, flat) && Written(flat, flat', start, data)
    requires |data| > 0 && (start + |data| - 1) / SLAB_PAGES == start / SLAB_PAGES
    requires forall x, p :: x in f && start <= p < start + |data| ==> !f[x].Covers(p)
    requires ctx !in f && ctx.server < |conns| && ServedBy(conns, start / SLAB_PAGES, ctx.server, slot)
    ensures ClientData(conns, f[ctx := WriteOp(slot, start, |data|)], buf[ctx := data], servers, flat')
  {
    var f' := f[ctx := WriteOp(slot, start, |data|)];
    forall d: nat | d < |conns| ensures ConnData(conns[d], d, servers[d].mem, f', flat') {
      var c := conns[d];
      assert ConnData(c, d, servers[d].mem, f, flat);
      forall i: nat | i < |c.chunkMap| ensures SlotOk(c, i, d, servers[d].mem[i], f', flat') {
        RemoteWriteSlot(c, i, d, servers[d].mem[i], f, flat, flat', ctx, slot, start, data);
      }
    }
    forall x | x in f'
      ensures x.server < |conns| && OpOk(x, f'[x], conns[x.server].live, servers[x.server].mem, buf[ctx := data], flat')
    {
      if x != ctx {
        OpsAfterWrite(x, f[x], conns[x.server].live, servers[x.server].mem, buf, buf[ctx := data], flat, flat',
                      start, data);
      }
    }
  }

  // ---------------------------------------------------------------- RDMA operations

  /** A read posted for a recorded page will find the last accepted write. */
  lemma LaunchReadData(conns: seq<C.Conn>, f: map<Ctx, Op>, buf: map<Ctx, seq<Page>>, servers: seq<Server>,
                       flat: seq<Page>, ctx: Ctx, slot: nat, page: nat)
    requires ClientData(conns, f, buf, servers, flat)
    requires ctx !in f && ctx.server < |conns| && slot < |conns[ctx.server].chunkMap|
    requires conns[ctx.server].chunkMap[slot] == page / SLAB_PAGES
    requires page % SLAB_PAGES in conns[ctx.server].bits[slot]
    requires !Rewriting(f, ctx.server, slot, page)
    ensures ClientData(conns, f[ctx := ReadOp(slot, page)], buf, servers, flat)
  {
    var f' := f[ctx := ReadOp(slot, page)];
    var d := ctx.server;
    assert ConnData(conns[d], d, servers[d].mem, f, flat);
    assert SlotOk(conns[d], slot, d, servers[d].mem[slot], f, flat);
    assert conns[d].live ==> PageOk(page / SLAB_PAGES, page % SLAB_PAGES, d, slot, servers[d].mem[slot], f, flat);
    assert page / SLAB_PAGES * SLAB_PAGES + page % SLAB_PAGES == page;
    forall e: nat | e < |conns| ensures ConnData(conns[e], e, servers[e].mem, f', flat) {
      assert ConnData(conns[e], e, servers[e].mem, f, flat);
      forall i: nat | i < |conns[e].chunkMap| ensures SlotOk(conns[e], i, e, servers[e].mem[i], f', flat) {
        forall q: nat | Rewriting(f, e, i, q) ensures Rewriting(f', e, i, q) {
          var x :| x in f && x.server == e && f[x].WriteOp? && f[x].slot == i && f[x].Covers(q);
          assert x in f' && f'[x] == f[x];
        }
        QuietSlot(conns[e], conns[e], i, e, servers[e].mem[i], f, f', flat);
      }
    }
  }

  /** The recorded pages after the write's own completion handler. */
  function Record(c: C.Conn, op: Op): C.Conn
    requires op.WriteOp? && op.slot < |c.bits|
  {
    var off := op.page % SLAB_PAGES;
    c.(bits := c.bits[op.slot := c.bits[op.slot] + PageRange(off, off + op.len)])
  }

  /** The slot the write landed in. */
  lemma LandedSlot(c: C.Conn, d: nat, mem: seq<Page>, f: map<Ctx, Op>, flat: seq<Page>, ctx: Ctx, data: seq<Page>)
    requires ctx in f && ctx.server == d && f[ctx].WriteOp? && f[ctx].slot < |c.chunkMap| && f[ctx].slot < |c.bits|
    requires SlotOk(c, f[ctx].slot, d, mem, f, flat) && |mem| == SLAB_PAGES
    requires c.live && (c.chunkMap[f[ctx].slot] >= 0 ==> c.chunkMap[f[ctx].slot] == f[ctx].page / SLAB_PAGES)
    requires |data| == f[ctx].len > 0 && f[ctx].page + |data| <= |flat|
    requires (f[ctx].page + |data| - 1) / SLAB_PAGES == f[ctx].page / SLAB_PAGES
    requires forall j :: 0 <= j < |data| ==> data[j] == flat[f[ctx].page + j]
    ensures SlotOk(Record(c, f[ctx]), f[ctx].slot, d, Overlay(mem, f[ctx].page % SLAB_PAGES, data), f - {ctx}, flat)
  {
    var op := f[ctx];
    var off := op.page % SLAB_PAGES;
    var c' := Record(c, op);
    var mem' := Overlay(mem, off, data);
    if c.chunkMap[op.slot] >= 0 {
      var b := c.chunkMap[op.slot];
      assert b * SLAB_PAGES + off == op.page && off + op.len <= SLAB_PAGES;
      forall p: nat | p in c'.bits[op.slot] ensures PageOk(b, p, d, op.slot, mem', f - {ctx}, flat) {
        if off <= p < off + op.len {
          assert mem'[p] == flat[op.page + (p - off)];
        } else {
          assert PageOk(b, p, d, op.slot, mem, f, flat);
          var q := b * SLAB_PAGES + p;
          if Rewriting(f, d, op.slot, q) {
            var x :| x in f && x.server == d && f[x].WriteOp? && f[x].slot == op.slot && f[x].Covers(q);
            assert x != ctx && x in f - {ctx};
          }
        }
      }
    }
  }

  /** Any other slot. */
  lemma LandedElsewhere(c: C.Conn, i: nat, d: nat, mem: seq<Page>, f: map<Ctx, Op>, flat: seq<Page>, ctx: Ctx)
    requires i < |c.chunkMap| && i < |c.bits| && SlotOk(c, i, d, mem, f, flat)
    requires ctx in f && (ctx.server == d ==> f[ctx].slot != i)
    ensures SlotOk(c, i, d, mem, f - {ctx}, flat)
  {
    if c.live && c.chunkMap[i] >= 0 {
      forall p: nat | p in c.bits[i] ensures PageOk(c.chunkMap[i], p, d, i, mem, f - {ctx}, flat) {
        assert PageOk(c.chunkMap[i], p, d, i, mem, f, flat);
        var q := c.chunkMap[i] * SLAB_PAGES + p;
        if Rewriting(f, d, i, q) {
          var x :| x in f && x.server == d && f[x].WriteOp? && f[x].slot == i && f[x].Covers(q);
          assert x != ctx && x in f - {ctx};
        }
      }
    }
  }

  /** An operation still in flight when another one's write lands. */
  lemma LandedOp(x: Ctx, ctx: Ctx, f: map<Ctx, Op>, live: bool, mem: seq<seq<Page>>, buf: map<Ctx, seq<Page>>,
                 flat: seq<Page>, data: seq<Page>)
    requires x in f && ctx in f && x != ctx && f[ctx].WriteOp? && |data| == f[ctx].len > 0
    requires OpOk(x, f[x], live, mem, buf, flat)
    requires f[ctx].slot < |mem|
    requires live && f[x].slot == f[ctx].slot ==> f[x].page / SLAB_PAGES == f[ctx].page / SLAB_PAGES
    requires forall p :: f[ctx].Covers(p) ==> !f[x].Covers(p)
    ensures OpOk(x, f[x], live, mem[f[ctx].slot := Overlay(mem[f[ctx].slot], f[ctx].page % SLAB_PAGES, data)],
                 buf, flat)
  {
    if f[x].ReadOp? {
      assert f[x].Covers(f[x].page);
    }
  }

  /** The client whose write lands. */
  lemma LandWriteData(conns: seq<C.Conn>, seen: seq<C.Conn>, f: map<Ctx, Op>, buf: map<Ctx, seq<Page>>,
                      servers: seq<Server>, flat: seq<Page>, ctx: Ctx, slots: nat, pool: nat)
    requires ClientData(seen, f, buf, servers, flat) && SeenOf(conns, seen)
    requires FlightInv(f, conns, slots, pool, |flat|)
    requires ctx in f && f[ctx].WriteOp? && conns[ctx.server].live
    requires forall i :: 0 <= i < |servers[ctx.server].mem| ==> |servers[ctx.server].mem[i]| == SLAB_PAGES
    ensures f[ctx].slot < |seen[ctx.server].bits| && ctx in buf && f[ctx].slot < |servers[ctx.server].mem|
    ensures ClientData(seen[ctx.server := Record(seen[ctx.server], f[ctx])], f - {ctx}, buf,
                       servers[ctx.server := Landed(servers[ctx.server], f[ctx].slot, f[ctx].page % SLAB_PAGES,
                                                    buf[ctx])], flat)
  {
    var d := ctx.server;
    var op := f[ctx];
    var c := seen[d];
    assert ConnData(c, d, servers[d].mem, f, flat);
    assert FlightPlace(ctx, op, conns, slots, pool, |flat|);
    assert OpOk(ctx, op, true, servers[d].mem, buf, flat);
    var seen' := seen[d := Record(c, op)];
    var v := Landed(servers[d], op.slot, op.page % SLAB_PAGES, buf[ctx]);
    var servers' := servers[d := v];
    forall e: nat | e < |seen| ensures ConnData(seen'[e], e, servers'[e].mem, f - {ctx}, flat) {
      assert ConnData(seen[e], e, servers[e].mem, f, flat);
      forall i: nat | i < |seen[e].chunkMap| ensures SlotOk(seen'[e], i, e, servers'[e].mem[i], f - {ctx}, flat) {
        assert SlotOk(seen[e], i, e, servers[e].mem[i], f, flat);
        if e == d && i == op.slot {
          LandedSlot(c, d, servers[d].mem[i], f, flat, ctx, buf[ctx]);
        } else {
          LandedElsewhere(seen[e], i, e, servers[e].mem[i], f, flat, ctx);
        }
      }
    }
    forall x | x in f - {ctx}
      ensures x.server < |seen'| && OpOk(x, f[x], seen'[x.server].live, servers'[x.server].mem, buf, flat)
    {
      assert FlightPlace(x, f[x], conns, slots, pool, |flat|);
      assert OpOk(x, f[x], seen[x.server].live, servers[x.server].mem, buf, flat);
      if x.server == d {
        LandedOp(x, ctx, f, true, servers[d].mem, buf, flat, buf[ctx]);
      }
    }
  }
}
