/** The demand-paging simulator: a page table whose resident entries form a ring threaded through
    `cnext`, a clock hand, reference and dirty marks, and a backing store reached only by loading
    and flushing whole pages.

    Two things are proved of it. Seen from outside it is a flat byte array that starts at zero.
    Seen from inside it is the array clock of module `Clock`.
 */
module PagedMemory {
  import Clock

  const PAGE_SIZE: nat := 4096

  type Byte = b: int | 0 <= b < 256

  /** `clear` is -1 for an absent page, 1 for a marked one and 0 for an unmarked one. */
  datatype Entry = Entry(pframe: nat, cnext: nat, clear: int, dirty: int)

  datatype Op = Get(addr: nat) | Put(addr: nat, value: Byte)

  function Zeros(): (z: seq<Byte>)
    ensures |z| == PAGE_SIZE && forall i :: 0 <= i < PAGE_SIZE ==> z[i] == 0
  {
    seq(PAGE_SIZE, _ => 0)
  }

  /** A page as the store holds it; a page never flushed reads as zeros. */
  function Stored(store: map<nat, seq<Byte>>, page: nat): seq<Byte> {
    if page in store then store[page] else Zeros()
  }

  ghost predicate StoreOk(store: map<nat, seq<Byte>>) {
    forall p :: p in store ==> |store[p]| == PAGE_SIZE
  }

  function FrameBytes(phys: seq<Byte>, f: nat): (s: seq<Byte>)
    requires (f + 1) * PAGE_SIZE <= |phys|
    ensures |s| == PAGE_SIZE
  {
    phys[f * PAGE_SIZE..(f + 1) * PAGE_SIZE]
  }

  ghost predicate IsResident(table: seq<Entry>, page: nat) {
    page < |table| && table[page].clear != -1
  }

  /** Resident pages and frames are in bijection: `resident[f]` is the page held in frame f. */
  ghost predicate FramesOk(table: seq<Entry>, resident: seq<nat>) {
    && (forall f :: 0 <= f < |resident| ==>
          && IsResident(table, resident[f])
          && table[resident[f]].pframe == f)
    && (forall p :: 0 <= p < |table| && table[p].clear != -1 ==>
          && table[p].clear in {0, 1} && table[p].dirty in {0, 1}
          && table[p].pframe < |resident|
          && resident[table[p].pframe] == p)
  }

  /** Following `cnext` from the page in frame f leads to the page in frame f + 1 modulo n. */
  ghost predicate RingOk(table: seq<Entry>, resident: seq<nat>) {
    forall f {:trigger Clock.Next(f, |resident|)} :: 0 <= f < |resident| && resident[f] < |table| ==>
      table[resident[f]].cnext == resident[Clock.Next(f, |resident|)]
  }

  /** A clean resident page equals its copy in the store. */
  ghost predicate CleanOk(table: seq<Entry>, phys: seq<Byte>, store: map<nat, seq<Byte>>, frames: nat) {
    && StoreOk(store)
    && frames * PAGE_SIZE <= |phys|
    && forall p :: 0 <= p < |table| && table[p].clear != -1 && table[p].dirty == 0
                   && table[p].pframe < frames ==>
         FrameBytes(phys, table[p].pframe) == Stored(store, p)
  }

  /** The bytes a program sees in page `p`: its frame if it is resident, else the store. */
  function PageBytes(table: seq<Entry>, phys: seq<Byte>, store: map<nat, seq<Byte>>, p: nat): seq<Byte>
    requires p < |table|
    requires table[p].clear != -1 ==> (table[p].pframe + 1) * PAGE_SIZE <= |phys|
  {
    if table[p].clear != -1 then FrameBytes(phys, table[p].pframe) else Stored(store, p)
  }

  /** The ring seen as an array clock. */
  ghost function ClockOf(table: seq<Entry>, resident: seq<nat>, curr: nat): (s: Clock.State)
    requires FramesOk(table, resident)
    requires curr < |table|
    ensures |s.frames| == |resident|
  {
    Clock.State(
      seq(|resident|, f requires 0 <= f < |resident| =>
        Clock.Frame(resident[f], table[resident[f]].clear == 1, table[resident[f]].dirty == 1)),
      table[curr].pframe)
  }

  /** The page reached by following `cnext` k times. */
  ghost function Follow(table: seq<Entry>, resident: seq<nat>, page: nat, k: nat): (p: nat)
    requires FramesOk(table, resident) && RingOk(table, resident)
    requires IsResident(table, page)
    ensures IsResident(table, p)
  {
    if k == 0 then page
    else
      var q := Follow(table, resident, page, k - 1);
      var f := table[q].pframe;
      assert resident[f] == q;
      assert table[q].cnext == resident[Clock.Next(f, |resident|)];
      table[q].cnext
  }

  lemma {:induction false} FollowIsAhead(table: seq<Entry>, resident: seq<nat>, page: nat, k: nat)
    requires FramesOk(table, resident) && RingOk(table, resident)
    requires IsResident(table, page)
    requires k <= |resident|
    ensures Follow(table, resident, page, k) == resident[Clock.Ahead(table[page].pframe, k, |resident|)]
  {
    assert resident[table[page].pframe] == page;
    if k > 0 {
      FollowIsAhead(table, resident, page, k - 1);
      var f := Clock.Ahead(table[page].pframe, k - 1, |resident|);
      assert table[resident[f]].cnext == resident[Clock.Next(f, |resident|)];
    }
  }

  lemma FollowIsInjective(table: seq<Entry>, resident: seq<nat>, page: nat, i: nat, j: nat)
    requires FramesOk(table, resident) && RingOk(table, resident)
    requires IsResident(table, page)
    requires i < j < |resident|
    ensures Follow(table, resident, page, i) != Follow(table, resident, page, j)
  {
    FollowIsAhead(table, resident, page, i);
    FollowIsAhead(table, resident, page, j);
    var f := Clock.Ahead(table[page].pframe, i, |resident|);
    var g := Clock.Ahead(table[page].pframe, j, |resident|);
    assert f != g && table[resident[f]].pframe == f && table[resident[g]].pframe == g;
  }

  /** Walking the ring from any resident page visits every resident page exactly once and comes
      back after n steps. */
  lemma RingVisitsEachPageOnce(table: seq<Entry>, resident: seq<nat>, page: nat, q: nat)
    requires FramesOk(table, resident) && RingOk(table, resident)
    requires IsResident(table, page) && IsResident(table, q)
    ensures Follow(table, resident, page, |resident|) == page
    ensures exists i :: 0 <= i < |resident| && Follow(table, resident, page, i) == q
    ensures forall i, j :: 0 <= i < j < |resident| ==>
              Follow(table, resident, page, i) != Follow(table, resident, page, j)
  {
    FollowIsAhead(table, resident, page, |resident|);
    assert resident[table[page].pframe] == page;
    var k := Clock.Distance(table[page].pframe, table[q].pframe, |resident|);
    FollowIsAhead(table, resident, page, k);
    assert resident[table[q].pframe] == q;
    forall i, j | 0 <= i < j < |resident|
      ensures Follow(table, resident, page, i) != Follow(table, resident, page, j)
    {
      FollowIsInjective(table, resident, page, i, j);
    }
  }

  /** From this table and hand the array clock's scan ends in `goal`. */
  ghost predicate Toward(table: seq<Entry>, resident: seq<nat>, curr: nat, goal: Clock.Scanned) {
    && FramesOk(table, resident) && RingOk(table, resident)
    && IsResident(table, curr)
    && table[curr].pframe < |resident|
    && Clock.Scan(ClockOf(table, resident, curr).frames, table[curr].pframe) == goal
  }

  /** One turn of the scan loop: clear the mark under the hand and follow `cnext`. */
  lemma SweepOne(table: seq<Entry>, resident: seq<nat>, curr: nat, goal: Clock.Scanned)
    requires Toward(table, resident, curr, goal) && table[curr].clear != 0
    ensures goal.moves > 0
    ensures var swept := table[curr := table[curr].(clear := 0)];
            && Toward(swept, resident, table[curr].cnext, goal.(moves := goal.moves - 1))
            && IsResident(swept, curr) && Swept(table, swept)
  {
    var swept := table[curr := table[curr].(clear := 0)];
    var f := table[curr].pframe;
    assert resident[f] == curr;
    assert table[curr].cnext == resident[Clock.Next(f, |resident|)];
    var s := ClockOf(table, resident, curr);
    assert ClockOf(swept, resident, table[curr].cnext).frames == Clock.Unmark(s.frames, s.hand);
  }

  /** `swept` is `table` with some marks of resident pages cleared. */
  ghost predicate Swept(table: seq<Entry>, swept: seq<Entry>) {
    && |swept| == |table|
    && forall p :: 0 <= p < |table| ==>
         swept[p] == table[p] || (table[p].clear == 1 && swept[p] == table[p].(clear := 0))
  }

  lemma SweepKeepsBytes(table: seq<Entry>, swept: seq<Entry>, phys: seq<Byte>, store: map<nat, seq<Byte>>, frames: nat)
    requires Swept(table, swept) && CleanOk(table, phys, store, frames)
    requires forall p :: 0 <= p < |table| && table[p].clear != -1 ==> table[p].pframe < frames
    ensures CleanOk(swept, phys, store, frames)
    ensures forall p :: 0 <= p < |table| ==> (swept[p].clear == -1) == (table[p].clear == -1)
    ensures forall p :: 0 <= p < |table| ==> PageBytes(swept, phys, store, p) == PageBytes(table, phys, store, p)
  {
  }

  /** The table after the victim under the hand has been replaced by `page`. */
  function Relinked(table: seq<Entry>, last: nat, curr: nat, page: nat): seq<Entry>
    requires last < |table| && curr < |table| && page < |table|
  {
    var t1 := table[curr := table[curr].(clear := -1)];
    var t2 := t1[last := t1[last].(cnext := page)];
    t2[page := Entry(t2[curr].pframe, t2[curr].cnext, 1, 0)]
  }

  lemma RelinkKeepsFrames(table: seq<Entry>, resident: seq<nat>, last: nat, curr: nat, page: nat)
    requires FramesOk(table, resident)
    requires IsResident(table, curr) && IsResident(table, last)
    requires page < |table| && table[page].clear == -1
    ensures FramesOk(Relinked(table, last, curr, page), resident[table[curr].pframe := page])
    ensures forall p :: 0 <= p < |table| && p != curr && p != page ==>
              var e := Relinked(table, last, curr, page)[p];
              e == table[p].(cnext := e.cnext) && (p != last ==> e == table[p])
  {
    var g := table[curr].pframe;
    assert resident[g] == curr;
    forall f | 0 <= f < |resident| && f != g
      ensures resident[f] != curr && resident[f] != page
    {
      assert table[resident[f]].pframe == f;
    }
  }

  lemma RelinkMatchesClock(table: seq<Entry>, resident: seq<nat>, last: nat, curr: nat, page: nat)
    requires FramesOk(table, resident)
    requires IsResident(table, curr) && IsResident(table, last)
    requires page < |table| && table[page].clear == -1
    requires FramesOk(Relinked(table, last, curr, page), resident[table[curr].pframe := page])
    ensures ClockOf(Relinked(table, last, curr, page), resident[table[curr].pframe := page], page)
         == Clock.State(
              ClockOf(table, resident, curr).frames[table[curr].pframe := Clock.Frame(page, true, false)],
              table[curr].pframe)
  {
    RelinkKeepsFrames(table, resident, last, curr, page);
    var g := table[curr].pframe;
    var t := Relinked(table, last, curr, page);
    var r := resident[g := page];
    assert resident[g] == curr;
    forall f | 0 <= f < |resident| && f != g
      ensures r[f] != curr && r[f] != page
    {
      assert table[resident[f]].pframe == f;
    }
    assert ClockOf(t, r, page).frames
        == ClockOf(table, resident, curr).frames[g := Clock.Frame(page, true, false)];
  }

  /** Relinking keeps the ring, whether the entry behind the hand is another page or, with a single
      frame, the victim itself. */
  lemma RelinkKeepsRing(table: seq<Entry>, resident: seq<nat>, last: nat, curr: nat, page: nat)
    requires FramesOk(table, resident) && RingOk(table, resident)
    requires IsResident(table, curr) && IsResident(table, last)
    requires table[last].cnext == curr
    requires page < |table| && table[page].clear == -1
    ensures RingOk(Relinked(table, last, curr, page), resident[table[curr].pframe := page])
  {
    RelinkKeepsFrames(table, resident, last, curr, page);
    var n := |resident|;
    var g := table[curr].pframe;
    var l := table[last].pframe;
    var t := Relinked(table, last, curr, page);
    var r := resident[g := page];
    assert resident[g] == curr && resident[l] == last;
    assert Clock.Next(l, n) == g by {
      assert table[resident[l]].cnext == resident[Clock.Next(l, n)];
      assert table[resident[Clock.Next(l, n)]].pframe == Clock.Next(l, n);
    }
    forall f | 0 <= f < n ensures t[r[f]].cnext == r[Clock.Next(f, n)] {
      assert table[resident[f]].cnext == resident[Clock.Next(f, n)];
      assert table[resident[f]].pframe == f;
      assert f != l ==> Clock.Next(f, n) != g;
    }
  }

  lemma OtherFrame(phys: seq<Byte>, phys': seq<Byte>, g: nat, f: nat)
    requires |phys'| == |phys| && (g + 1) * PAGE_SIZE <= |phys| && (f + 1) * PAGE_SIZE <= |phys|
    requires forall i :: 0 <= i < |phys| && !(g * PAGE_SIZE <= i < (g + 1) * PAGE_SIZE) ==> phys'[i] == phys[i]
    requires f != g
    ensures FrameBytes(phys', f) == FrameBytes(phys, f)
  {
  }

  /** Swapping a page in and the victim out changes no visible byte. */
  lemma SwapKeepsBytes(table: seq<Entry>, resident: seq<nat>, last: nat, curr: nat, page: nat,
                       phys: seq<Byte>, phys': seq<Byte>, store: map<nat, seq<Byte>>, store': map<nat, seq<Byte>>)
    requires FramesOk(table, resident) && CleanOk(table, phys, store, |resident|)
    requires IsResident(table, curr) && IsResident(table, last)
    requires page < |table| && table[page].clear == -1
    requires var g := table[curr].pframe;
             && store' == (if table[curr].dirty == 1 then store[curr := FrameBytes(phys, g)] else store)
             && |phys'| == |phys|
             && (forall i :: 0 <= i < |phys| && !(g * PAGE_SIZE <= i < (g + 1) * PAGE_SIZE) ==> phys'[i] == phys[i])
             && FrameBytes(phys', g) == Stored(store', page)
    requires FramesOk(Relinked(table, last, curr, page), resident[table[curr].pframe := page])
    ensures CleanOk(Relinked(table, last, curr, page), phys', store', |resident|)
    ensures forall p :: 0 <= p < |table| ==>
              PageBytes(Relinked(table, last, curr, page), phys', store', p) == PageBytes(table, phys, store, p)
  {
    RelinkKeepsFrames(table, resident, last, curr, page);
    var t := Relinked(table, last, curr, page);
    var g := table[curr].pframe;
    assert resident[g] == curr;
    forall p | 0 <= p < |table| && table[p].clear != -1 && p != curr
      ensures FrameBytes(phys', table[p].pframe) == FrameBytes(phys, table[p].pframe)
    {
      assert resident[table[p].pframe] == p;
      OtherFrame(phys, phys', g, table[p].pframe);
    }
  }

  lemma ResidentMatchesClock(table: seq<Entry>, resident: seq<nat>, curr: nat, page: nat)
    requires FramesOk(table, resident) && curr < |table| && page < |table|
    ensures Clock.Resident(ClockOf(table, resident, curr), page) <==> table[page].clear != -1
    ensures table[page].clear != -1 ==>
              Clock.FrameOf(ClockOf(table, resident, curr), page) == table[page].pframe
  {
    var s := ClockOf(table, resident, curr);
    if table[page].clear != -1 {
      assert s.frames[table[page].pframe].page == page;
      assert table[resident[Clock.FrameOf(s, page)]].pframe == Clock.FrameOf(s, page);
    }
  }

  function Touched(e: Entry, write: bool): Entry {
    e.(clear := 1, dirty := if write then 1 else e.dirty)
  }

  lemma TouchMatchesClock(table: seq<Entry>, resident: seq<nat>, curr: nat, page: nat, write: bool)
    requires FramesOk(table, resident) && IsResident(table, curr) && IsResident(table, page)
    ensures var t := table[page := Touched(table[page], write)];
            && FramesOk(t, resident)
            && (RingOk(table, resident) ==> RingOk(t, resident))
            && IsResident(t, curr)
            && Clock.Resident(ClockOf(table, resident, curr), page)
            && ClockOf(t, resident, curr)
               == Clock.Touch(ClockOf(table, resident, curr), Clock.Access(page, write))
  {
    ResidentMatchesClock(table, resident, curr, page);
    var t := table[page := Touched(table[page], write)];
    var s := ClockOf(table, resident, curr);
    var f := table[page].pframe;
    assert resident[f] == page;
    forall g | 0 <= g < |resident| && g != f ensures resident[g] != page {
      assert table[resident[g]].pframe == g;
    }
    assert ClockOf(t, resident, curr).frames
        == s.frames[f := Clock.Frame(page, true, s.frames[f].dirty || write)];
  }

  /** Marking a resident page, and on a write storing one byte and dirtying it, changes exactly
      that byte. */
  lemma TouchKeepsBytes(table: seq<Entry>, resident: seq<nat>, page: nat, write: bool,
                        phys: seq<Byte>, store: map<nat, seq<Byte>>, frames: nat, off: nat, c: Byte)
    requires FramesOk(table, resident) && CleanOk(table, phys, store, frames) && |resident| <= frames
    requires IsResident(table, page) && off < PAGE_SIZE
    ensures var t := table[page := Touched(table[page], write)];
            var a := table[page].pframe * PAGE_SIZE + off;
            var phys' := if write then phys[a := c] else phys;
            && CleanOk(t, phys', store, frames)
            && (forall p :: 0 <= p < |table| ==>
                  PageBytes(t, phys', store, p) ==
                  if p == page && write then PageBytes(table, phys, store, p)[off := c]
                  else PageBytes(table, phys, store, p))
  {
    var t := table[page := Touched(table[page], write)];
    var g := table[page].pframe;
    var phys' := if write then phys[g * PAGE_SIZE + off := c] else phys;
    assert resident[g] == page;
    forall p | 0 <= p < |table| && table[p].clear != -1 && p != page
      ensures FrameBytes(phys', table[p].pframe) == FrameBytes(phys, table[p].pframe)
    {
      assert resident[table[p].pframe] == p;
      OtherFrame(phys, phys', g, table[p].pframe);
    }
    assert write ==> FrameBytes(phys', g) == FrameBytes(phys, g)[off := c];
  }

  /** The plain memory a program believes it has. */
  function FlatWrite(flat: seq<Byte>, op: Op): seq<Byte>
    requires op.addr < |flat|
  {
    match op
    case Get(_) => flat
    case Put(addr, value) => flat[addr := value]
  }

  function FlatPage(flat: seq<Byte>, p: nat): seq<Byte>
    requires (p + 1) * PAGE_SIZE <= |flat|
  {
    flat[p * PAGE_SIZE..(p + 1) * PAGE_SIZE]
  }

  lemma FlatPageOfWrite(flat: seq<Byte>, addr: nat, c: Byte, p: nat)
    requires addr < |flat| && (p + 1) * PAGE_SIZE <= |flat|
    ensures FlatPage(flat[addr := c], p)
         == if p == addr / PAGE_SIZE then FlatPage(flat, p)[addr % PAGE_SIZE := c] else FlatPage(flat, p)
  {
  }

  function AccessOf(op: Op): Clock.Access {
    Clock.Access(op.addr / PAGE_SIZE, op.Put?)
  }

  /** Whole pages only: the table has one entry per full page of virtual memory. */
  function FlatZeros(virMemSize: nat): (z: seq<Byte>)
    ensures |z| == virMemSize / PAGE_SIZE * PAGE_SIZE
    ensures forall a :: 0 <= a < |z| ==> z[a] == 0
  {
    seq(virMemSize / PAGE_SIZE * PAGE_SIZE, _ => 0)
  }

  lemma FlatZerosPage(virMemSize: nat, p: nat)
    requires p < virMemSize / PAGE_SIZE
    ensures FlatPage(FlatZeros(virMemSize), p) == Zeros()
  {
  }

  function InitialEntry(page: nat, frames: nat): Entry {
    if page < frames then Entry(page, Clock.Next(page, frames), 1, 0) else Entry(0, 0, -1, 0)
  }

  lemma InitialFields(page: nat, frames: nat)
    requires 0 < frames
    ensures var e := InitialEntry(page, frames);
            && (e.clear == 1 <==> page < frames) && (e.clear == -1 <==> page >= frames) && e.dirty == 0
            && (page < frames ==> e.pframe == page && e.cnext == (page + 1) % frames)
  {
    if page < frames {
      Clock.AheadIsModular(page, 1, frames);
    }
  }

  ghost function Identity(r: nat): seq<nat> {
    seq(r, f => f)
  }

  lemma InitialTable(table: seq<Entry>, phys: seq<Byte>, frames: nat, r: nat)
    requires 0 < frames && r == if frames <= |table| then frames else |table|
    requires forall q :: 0 <= q < |table| ==> table[q] == InitialEntry(q, frames)
    requires frames * PAGE_SIZE <= |phys|
    requires forall a :: 0 <= a < |phys| ==> phys[a] == 0
    ensures FramesOk(table, Identity(r))
    ensures frames <= |table| ==> RingOk(table, Identity(r))
    ensures CleanOk(table, phys, map[], frames)
    ensures forall p :: 0 <= p < |table| ==> PageBytes(table, phys, map[], p) == Zeros()
  {
  }

  /** The clock a fresh memory starts from: the first pages, as many as there are frames or pages, in frame
      order, all marked and clean, with the hand at the first. */
  ghost function InitialClock(frames: nat, pages: nat): Clock.State {
    Clock.State(seq(if frames <= pages then frames else pages, f requires f >= 0 => Clock.Frame(f, true, false)), 0)
  }

  /** The loop of init_page_table: the first frames' worth of pages start resident, in a ring. */
  method InitPageTable(numPages: nat, initNp: nat) returns (table: array<Entry>)
    requires 0 < initNp
    ensures fresh(table) && table.Length == numPages
    ensures forall q :: 0 <= q < numPages ==> table[q] == InitialEntry(q, initNp)
  {
    table := new Entry[numPages](_ => Entry(0, 0, -1, 0));
    for i := 0 to numPages
      invariant forall q :: 0 <= q < i ==> table[q] == InitialEntry(q, initNp)
    {
      if i < initNp {
        Clock.AheadIsModular(i, 1, initNp);
        table[i] := Entry(i, (i + 1) % initNp, 1, 0);
      } else {
        table[i] := Entry(0, 0, -1, 0);
      }
    }
  }

  class Memory {
    const frames: nat            // PHYS_MEM_SIZE / PAGE_SIZE
    const phys: array<Byte>
    const pgtable: array<Entry>
    var last: nat                // last_c, as an index
    var curr: nat                // curr_c, as an index
    var store: map<nat, seq<Byte>>

    ghost var resident: seq<nat>
    ghost var moves: nat         // times the hand has moved
    ghost var flushes: nat       // pages written back

    /** What holds inside a fault, where the entry under the hand may be unmarked. When there are
        more frames than pages every page is resident for good and no fault ever looks at the ring. */
    ghost predicate Linked()
      reads this, pgtable, phys
    {
      && frames * PAGE_SIZE <= phys.Length
      && 0 < |resident| <= frames
      && (frames <= pgtable.Length ==> |resident| == frames && RingOk(pgtable[..], resident))
      && (frames > pgtable.Length ==> forall p :: 0 <= p < pgtable.Length ==> pgtable[p].clear != -1)
      && FramesOk(pgtable[..], resident)
      && CleanOk(pgtable[..], phys[..], store, frames)
      && IsResident(pgtable[..], curr)
    }

    ghost predicate Valid()
      reads this, pgtable, phys
    {
      Linked() && pgtable[curr].clear == 1
    }

    ghost function View(): Clock.State
      requires Linked()
      reads this, pgtable, phys
    {
      ClockOf(pgtable[..], resident, curr)
    }

    /** The flat memory this paged memory stands for, page by page. */
    ghost function Page(p: nat): (s: seq<Byte>)
      requires Linked() && p < pgtable.Length
      reads this, pgtable, phys
      ensures |s| == PAGE_SIZE
    {
      PageBytes(pgtable[..], phys[..], store, p)
    }

    ghost predicate Mirrors(flat: seq<Byte>)
      requires Linked()
      reads this, pgtable, phys
    {
      && |flat| == pgtable.Length * PAGE_SIZE
      && forall p :: 0 <= p < pgtable.Length ==> Page(p) == FlatPage(flat, p)
    }

    constructor (physMemSize: nat, virMemSize: nat)
      requires PAGE_SIZE <= physMemSize && PAGE_SIZE <= virMemSize
      ensures Valid() && fresh(phys) && fresh(pgtable)
      ensures frames == physMemSize / PAGE_SIZE && pgtable.Length == virMemSize / PAGE_SIZE
      ensures Mirrors(FlatZeros(virMemSize))
      ensures |resident| <= frames && moves == 0 && flushes == 0
      ensures Clock.Valid(View()) && View() == InitialClock(frames, pgtable.Length)
      ensures curr == 0 && forall q :: 0 <= q < pgtable.Length ==> pgtable[q] == InitialEntry(q, frames)
    {
      var numPages := virMemSize / PAGE_SIZE;
      var initNp := physMemSize / PAGE_SIZE;
      frames := initNp;
      var table := InitPageTable(numPages, initNp);
      pgtable := table;
      var ram := new Byte[physMemSize](_ => 0);
      phys := ram;
      last := initNp - 1;
      curr := 0;
      store := map[];
      var r := if initNp <= numPages then initNp else numPages;
      resident := Identity(r);
      moves, flushes := 0, 0;
      new;
      assert forall a :: 0 <= a < phys.Length ==> phys[a] == 0;
      InitialTable(pgtable[..], phys[..], frames, |resident|);
      forall p | 0 <= p < pgtable.Length ensures FlatPage(FlatZeros(virMemSize), p) == Zeros() {
        FlatZerosPage(virMemSize, p);
      }
    }

    method PageLoad(vframe: nat, pframe: nat)
      requires (pframe + 1) * PAGE_SIZE <= phys.Length && StoreOk(store)
      modifies phys
      ensures FrameBytes(phys[..], pframe) == Stored(store, vframe)
      ensures forall i :: 0 <= i < phys.Length && !(pframe * PAGE_SIZE <= i < (pframe + 1) * PAGE_SIZE) ==>
                phys[i] == old(phys[i])
    {
      var a := pframe * PAGE_SIZE;
      var page := if vframe in store then store[vframe] else Zeros();
      forall i | a <= i < a + PAGE_SIZE {
        phys[i] := page[i - a];
      }
    }

    method PageFlush(vframe: nat)
      requires vframe < pgtable.Length && (pgtable[vframe].pframe + 1) * PAGE_SIZE <= phys.Length
      modifies this`store, this`flushes
      ensures store == old(store)[vframe := FrameBytes(phys[..], pgtable[vframe].pframe)]
      ensures flushes == old(flushes) + 1
    {
      var a := pgtable[vframe].pframe * PAGE_SIZE;
      store := store[vframe := phys[a..a + PAGE_SIZE]];
      flushes := flushes + 1;
    }

    /** The scan loop of a fault: clear marks until an unmarked page is under the hand. */
    method FollowRing(ghost goal: Clock.Scanned)
      requires Toward(pgtable[..], resident, curr, goal) && pgtable[curr].clear != 0
      modifies this`last, this`curr, this`moves, pgtable
      ensures Toward(pgtable[..], resident, curr, goal.(moves := 0)) && pgtable[curr].clear == 0
      ensures IsResident(pgtable[..], last) && pgtable[last].cnext == curr
      ensures Swept(old(pgtable[..]), pgtable[..]) && moves == old(moves) + goal.moves
    {
      ghost var table := pgtable[..];
      ghost var left := goal.moves;
      while pgtable[curr].clear != 0
        invariant Toward(pgtable[..], resident, curr, goal.(moves := left))
        invariant pgtable[curr].clear == 0 ==> IsResident(pgtable[..], last) && pgtable[last].cnext == curr
        invariant Swept(table, pgtable[..])
        invariant moves + left == old(moves) + goal.moves
        decreases left
      {
        ghost var before := pgtable[..];
        SweepOne(before, resident, curr, goal.(moves := left));
        pgtable[curr] := pgtable[curr].(clear := 0);
        last := curr;
        curr := pgtable[curr].cnext;
        moves, left := moves + 1, left - 1;
        assert pgtable[..] == before[last := before[last].(clear := 0)];
      }
    }

    /** The scan of a fault, proved to be the array clock's scan. */
    method Sweep()
      requires Valid() && frames <= pgtable.Length
      modifies this`last, this`curr, this`moves, pgtable
      ensures Linked() && pgtable[curr].clear == 0
      ensures IsResident(pgtable[..], last) && pgtable[last].cnext == curr
      ensures var r := Clock.Scan(old(View()).frames, old(View()).hand);
              && View() == Clock.State(r.frames, r.hand)
              && moves == old(moves) + r.moves
      ensures forall p :: 0 <= p < pgtable.Length ==>
                (pgtable[p].clear == -1) == (old(pgtable[p].clear) == -1)
      ensures forall p :: 0 <= p < pgtable.Length ==> Page(p) == old(Page(p))
    {
      ghost var table := pgtable[..];
      assert resident[pgtable[curr].pframe] == curr;
      FollowRing(Clock.Scan(View().frames, View().hand));
      SweepKeepsBytes(table, pgtable[..], phys[..], store, frames);
    }

    /** Write the page under the hand back if it is dirty, and load another into its frame. */
    method FlushAndLoad(vframe: nat)
      requires curr < pgtable.Length && (pgtable[curr].pframe + 1) * PAGE_SIZE <= phys.Length && StoreOk(store)
      modifies this`store, this`flushes, phys
      ensures var g := pgtable[curr].pframe;
              && store == (if pgtable[curr].dirty == 1 then old(store)[curr := FrameBytes(old(phys[..]), g)]
                           else old(store))
              && FrameBytes(phys[..], g) == Stored(store, vframe)
              && (forall i :: 0 <= i < phys.Length && !(g * PAGE_SIZE <= i < (g + 1) * PAGE_SIZE) ==>
                  phys[i] == old(phys[i]))
      ensures flushes == old(flushes) + if pgtable[curr].dirty == 1 then 1 else 0
    {
      if pgtable[curr].dirty == 1 {
        PageFlush(curr);
      }
      PageLoad(vframe, pgtable[curr].pframe);
    }

    /** Put the page in the place of the one under the hand, in its frame and in the ring. */
    method Relink(vframe: nat)
      requires curr < pgtable.Length && last < pgtable.Length && vframe < pgtable.Length
      modifies this`curr, pgtable
      ensures pgtable[..] == Relinked(old(pgtable[..]), last, old(curr), vframe) && curr == vframe
    {
      pgtable[curr] := pgtable[curr].(clear := -1);
      pgtable[last] := pgtable[last].(cnext := vframe);
      pgtable[vframe] := Entry(pgtable[curr].pframe, pgtable[curr].cnext, 1, 0);
      curr := vframe;
    }

    /** The rest of a fault: write the victim back if it is dirty, load the page into its frame and put
        it in the victim's place in the ring. */
    method Replace(vframe: nat)
      requires Linked() && frames <= pgtable.Length
      requires vframe < pgtable.Length && pgtable[vframe].clear == -1
      requires IsResident(pgtable[..], last) && pgtable[last].cnext == curr
      modifies this, pgtable, phys
      ensures Valid() && curr == vframe && moves == old(moves)
      ensures var s := old(View());
              && View() == Clock.State(s.frames[s.hand := Clock.Frame(vframe, true, false)], s.hand)
              && flushes == old(flushes) + if s.frames[s.hand].dirty then 1 else 0
      ensures forall p :: 0 <= p < pgtable.Length ==> Page(p) == old(Page(p))
    {
      ghost var table := pgtable[..];
      ghost var bytes := phys[..];
      ghost var victim := curr;
      assert resident[pgtable[curr].pframe] == curr;
      FlushAndLoad(vframe);
      Relink(vframe);
      RelinkKeepsFrames(table, resident, last, victim, vframe);
      RelinkKeepsRing(table, resident, last, victim, vframe);
      RelinkMatchesClock(table, resident, last, victim, vframe);
      SwapKeepsBytes(table, resident, last, victim, vframe, bytes, phys[..], old(store), store);
      resident := resident[table[victim].pframe := vframe];
    }

    method PageFault(vframe: nat)
      requires Valid()
      requires vframe < pgtable.Length && pgtable[vframe].clear == -1
      modifies this, pgtable, phys
      ensures Valid() && curr == vframe
      ensures View() == Clock.Fault(old(View()), vframe)
      ensures moves == old(moves) + Clock.Scan(old(View()).frames, old(View()).hand).moves
      ensures var r := Clock.Scan(old(View()).frames, old(View()).hand);
              flushes == old(flushes) + if r.frames[r.hand].dirty then 1 else 0
      ensures forall p :: 0 <= p < pgtable.Length ==> Page(p) == old(Page(p))
    {
      Sweep();
      Replace(vframe);
    }

    /** Bring the page in if it is absent. */
    method Require(vframe: nat)
      requires Valid() && vframe < pgtable.Length
      modifies this, pgtable, phys
      ensures Valid() && pgtable[vframe].clear != -1
      ensures View() == if Clock.Resident(old(View()), vframe) then old(View()) else Clock.Fault(old(View()), vframe)
      ensures old(pgtable[vframe].clear) != -1 ==> pgtable[..] == old(pgtable[..]) && curr == old(curr)
      ensures Clock.Cost(moves, flushes)
           == Clock.Cost(old(moves), old(flushes)).Plus(Clock.StepCost(old(View()), Clock.Access(vframe, false)))
      ensures forall p :: 0 <= p < pgtable.Length ==> Page(p) == old(Page(p))
    {
      ResidentMatchesClock(pgtable[..], resident, curr, vframe);
      if pgtable[vframe].clear == -1 {
        PageFault(vframe);
      }
    }

    /** Mark a resident page and read a byte of it. */
    method ReadByte(vframe: nat, off: nat) returns (c: Byte)
      requires Valid() && vframe < pgtable.Length && pgtable[vframe].clear != -1 && off < PAGE_SIZE
      modifies pgtable
      ensures Valid()
      ensures c == old(Page(vframe))[off]
      ensures forall p :: 0 <= p < pgtable.Length ==> Page(p) == old(Page(p))
      ensures Clock.Resident(old(View()), vframe) && View() == Clock.Touch(old(View()), Clock.Access(vframe, false))
      ensures pgtable[vframe].clear == 1 && pgtable[vframe].dirty == old(pgtable[vframe].dirty)
      ensures forall p :: 0 <= p < pgtable.Length && p != vframe ==> pgtable[p] == old(pgtable[p])
    {
      ghost var table := pgtable[..];
      TouchMatchesClock(table, resident, curr, vframe, false);
      TouchKeepsBytes(table, resident, vframe, false, phys[..], store, frames, off, 0);
      pgtable[vframe] := pgtable[vframe].(clear := 1);
      assert pgtable[..] == table[vframe := Touched(table[vframe], false)];
      c := phys[pgtable[vframe].pframe * PAGE_SIZE + off];
      assert c == Page(vframe)[off];
    }

    method Get(vaddr: nat) returns (c: Byte)
      requires Valid() && vaddr < pgtable.Length * PAGE_SIZE
      modifies this, pgtable, phys
      ensures Valid()
      ensures c == old(Page(vaddr / PAGE_SIZE))[vaddr % PAGE_SIZE]
      ensures forall p :: 0 <= p < pgtable.Length ==> Page(p) == old(Page(p))
      ensures pgtable[vaddr / PAGE_SIZE].clear == 1
      ensures old(pgtable[vaddr / PAGE_SIZE].clear) != -1 ==>
                && curr == old(curr) && pgtable[vaddr / PAGE_SIZE].dirty == old(pgtable[vaddr / PAGE_SIZE].dirty)
                && forall p :: 0 <= p < pgtable.Length && p != vaddr / PAGE_SIZE ==> pgtable[p] == old(pgtable[p])
      ensures View() == Clock.Step(old(View()), Clock.Access(vaddr / PAGE_SIZE, false))
      ensures Clock.Cost(moves, flushes)
           == Clock.Cost(old(moves), old(flushes)).Plus(
                Clock.StepCost(old(View()), Clock.Access(vaddr / PAGE_SIZE, false)))
    {
      Require(vaddr / PAGE_SIZE);
      c := ReadByte(vaddr / PAGE_SIZE, vaddr % PAGE_SIZE);
    }

    /** Mark a resident page dirty and write a byte of it. */
    method WriteByte(vframe: nat, off: nat, c: Byte)
      requires Valid() && vframe < pgtable.Length && pgtable[vframe].clear != -1 && off < PAGE_SIZE
      modifies pgtable, phys
      ensures Valid()
      ensures forall p :: 0 <= p < pgtable.Length ==>
                Page(p) == if p == vframe then old(Page(p))[off := c] else old(Page(p))
      ensures Clock.Resident(old(View()), vframe) && View() == Clock.Touch(old(View()), Clock.Access(vframe, true))
      ensures pgtable[vframe].clear == 1 && pgtable[vframe].dirty == 1
      ensures forall p :: 0 <= p < pgtable.Length && p != vframe ==> pgtable[p] == old(pgtable[p])
    {
      ghost var table := pgtable[..];
      ghost var ram := phys[..];
      TouchMatchesClock(table, resident, curr, vframe, true);
      TouchKeepsBytes(table, resident, vframe, true, ram, store, frames, off, c);
      pgtable[vframe] := pgtable[vframe].(dirty := 1);
      pgtable[vframe] := pgtable[vframe].(clear := 1);
      assert pgtable[..] == table[vframe := Touched(table[vframe], true)];
      phys[pgtable[vframe].pframe * PAGE_SIZE + off] := c;
      assert phys[..] == ram[table[vframe].pframe * PAGE_SIZE + off := c];
    }

    method Put(vaddr: nat, c: Byte)
      requires Valid() && vaddr < pgtable.Length * PAGE_SIZE
      modifies this, pgtable, phys
      ensures Valid()
      ensures forall p :: 0 <= p < pgtable.Length ==>
                Page(p) == if p == vaddr / PAGE_SIZE then old(Page(p))[vaddr % PAGE_SIZE := c] else old(Page(p))
      ensures pgtable[vaddr / PAGE_SIZE].clear == 1 && pgtable[vaddr / PAGE_SIZE].dirty == 1
      ensures old(pgtable[vaddr / PAGE_SIZE].clear) != -1 ==>
                && curr == old(curr)
                && forall p :: 0 <= p < pgtable.Length && p != vaddr / PAGE_SIZE ==> pgtable[p] == old(pgtable[p])
      ensures View() == Clock.Step(old(View()), Clock.Access(vaddr / PAGE_SIZE, true))
      ensures Clock.Cost(moves, flushes)
           == Clock.Cost(old(moves), old(flushes)).Plus(
                Clock.StepCost(old(View()), Clock.Access(vaddr / PAGE_SIZE, true)))
    {
      Require(vaddr / PAGE_SIZE);
      WriteByte(vaddr / PAGE_SIZE, vaddr % PAGE_SIZE, c);
    }

    /** One operation of a program, checked against the flat memory it should act like. */
    method Perform(op: Op, ghost flat: seq<Byte>) returns (c: Byte)
      requires Valid() && Mirrors(flat) && op.addr < |flat|
      modifies this, pgtable, phys
      ensures Valid() && Mirrors(FlatWrite(flat, op))
      ensures op.Get? ==> c == flat[op.addr]
      ensures View() == Clock.Step(old(View()), AccessOf(op))
      ensures Clock.Cost(moves, flushes)
           == Clock.Cost(old(moves), old(flushes)).Plus(Clock.StepCost(old(View()), AccessOf(op)))
    {
      match op
      case Get(addr) =>
        c := Get(addr);
      case Put(addr, value) =>
        c := value;
        Put(addr, value);
        forall p | 0 <= p < pgtable.Length ensures Page(p) == FlatPage(flat[addr := value], p) {
          FlatPageOfWrite(flat, addr, value, p);
        }
    }
  }

  function FlatRun(flat: seq<Byte>, ops: seq<Op>): (r: seq<Byte>)
    requires forall i :: 0 <= i < |ops| ==> ops[i].addr < |flat|
    ensures |r| == |flat|
  {
    if ops == [] then flat
    else FlatWrite(FlatRun(flat, ops[..|ops| - 1]), ops[|ops| - 1])
  }

  function Reads(flat: seq<Byte>, ops: seq<Op>): seq<Byte>
    requires forall i :: 0 <= i < |ops| ==> ops[i].addr < |flat|
  {
    if ops == [] then []
    else
      var before := ops[..|ops| - 1];
      match ops[|ops| - 1]
      case Get(addr) => Reads(flat, before) + [FlatRun(flat, before)[addr]]
      case Put(_, _) => Reads(flat, before)
  }

  lemma FlatOneMore(flat: seq<Byte>, ops: seq<Op>, i: nat)
    requires i < |ops|
    requires forall j :: 0 <= j < |ops| ==> ops[j].addr < |flat|
    ensures FlatRun(flat, ops[..i + 1]) == FlatWrite(FlatRun(flat, ops[..i]), ops[i])
    ensures Reads(flat, ops[..i + 1])
         == Reads(flat, ops[..i]) + (if ops[i].Get? then [FlatRun(flat, ops[..i])[ops[i].addr]] else [])
  {
    assert ops[..i + 1][..i] == ops[..i];
  }

  function AccessesOf(ops: seq<Op>): (a: seq<Clock.Access>)
    ensures |a| == |ops|
  {
    seq(|ops|, i requires 0 <= i < |ops| => AccessOf(ops[i]))
  }

  function Puts(ops: seq<Op>): nat {
    if ops == [] then 0 else Puts(ops[..|ops| - 1]) + (if ops[|ops| - 1].Put? then 1 else 0)
  }

  lemma {:induction false} WritesArePuts(ops: seq<Op>)
    ensures Clock.Writes(AccessesOf(ops)) == Puts(ops)
  {
    if ops != [] {
      WritesArePuts(ops[..|ops| - 1]);
      assert AccessesOf(ops)[..|ops| - 1] == AccessesOf(ops[..|ops| - 1]);
    }
  }

  lemma ProgramCost(start: Clock.State, ops: seq<Op>)
    requires Clock.Valid(start) && forall f :: 0 <= f < |start.frames| ==> !start.frames[f].dirty
    ensures Clock.RunCost(start, AccessesOf(ops)).moves <= |start.frames| + |ops|
    ensures Clock.RunCost(start, AccessesOf(ops)).flushes <= Puts(ops)
    ensures exists t :: Clock.SecondChances(start, AccessesOf(ops), t, Clock.RunCost(start, AccessesOf(ops)))
  {
    Clock.RunIsSecondChances(start, AccessesOf(ops));
    Clock.AmortisedCost(start, AccessesOf(ops));
    WritesArePuts(ops);
  }

  /** The memory after the first i operations: it mirrors the flat one, and its clock and costs are those of
      the textbook clock. */
  ghost predicate Along(mem: Memory, flat: seq<Byte>, start: Clock.State, ops: seq<Op>, i: nat)
    requires forall j :: 0 <= j < |ops| ==> ops[j].addr < |flat|
    requires start.hand < |start.frames| && i <= |ops| && mem.Linked()
    reads mem, mem.pgtable, mem.phys
  {
    && mem.View() == Clock.Run(start, AccessesOf(ops)[..i])
    && Clock.Cost(mem.moves, mem.flushes) == Clock.RunCost(start, AccessesOf(ops)[..i])
    && mem.Mirrors(FlatRun(flat, ops[..i]))
  }

  method PerformNext(mem: Memory, ghost flat: seq<Byte>, ghost start: Clock.State, ops: seq<Op>, i: nat, out: seq<Byte>)
    returns (out': seq<Byte>)
    requires forall j :: 0 <= j < |ops| ==> ops[j].addr < |flat|
    requires start.hand < |start.frames| && i < |ops| && mem.Valid()
    requires Along(mem, flat, start, ops, i) && out == Reads(flat, ops[..i])
    modifies mem, mem.pgtable, mem.phys
    ensures mem.Valid() && Along(mem, flat, start, ops, i + 1) && out' == Reads(flat, ops[..i + 1])
  {
    FlatOneMore(flat, ops, i);
    Clock.RunOneMore(start, AccessesOf(ops), i);
    var c := mem.Perform(ops[i], FlatRun(flat, ops[..i]));
    out' := if ops[i].Get? then out + [c] else out;
  }

  /** Run a program of gets and puts on a fresh paged memory. It reads exactly what it would read
      from a flat memory that starts at zero. The moves of its hand and its flushes are those of the
      textbook clock on the same accesses: at most one move per access plus one per frame, and no more
      flushes than puts. */
  method RunProgram(physMemSize: nat, virMemSize: nat, ops: seq<Op>)
    returns (out: seq<Byte>, ghost moves: nat, ghost flushes: nat)
    requires PAGE_SIZE <= physMemSize && PAGE_SIZE <= virMemSize
    requires forall i :: 0 <= i < |ops| ==> ops[i].addr < |FlatZeros(virMemSize)|
    ensures out == Reads(FlatZeros(virMemSize), ops)
    ensures Clock.Cost(moves, flushes)
         == Clock.RunCost(InitialClock(physMemSize / PAGE_SIZE, virMemSize / PAGE_SIZE), AccessesOf(ops))
    ensures exists t :: Clock.SecondChances(InitialClock(physMemSize / PAGE_SIZE, virMemSize / PAGE_SIZE),
                                            AccessesOf(ops), t, Clock.Cost(moves, flushes))
    ensures moves <= physMemSize / PAGE_SIZE + |ops|
    ensures flushes <= Puts(ops)
  {
    ghost var flat := FlatZeros(virMemSize);
    var mem := new Memory(physMemSize, virMemSize);
    ghost var start := mem.View();
    out := [];
    for i := 0 to |ops|
      invariant mem.Valid() && fresh(mem) && fresh(mem.phys) && fresh(mem.pgtable)
      invariant Along(mem, flat, start, ops, i) && out == Reads(flat, ops[..i])
    {
      out := PerformNext(mem, flat, start, ops, i, out);
    }
    assert ops[..|ops|] == ops && AccessesOf(ops)[..|ops|] == AccessesOf(ops);
    moves, flushes := mem.moves, mem.flushes;
    ProgramCost(start, ops);
  }
}
