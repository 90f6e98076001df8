/** One eviction round of the daemon: free unmapped slabs, ask the holders of enough mapped ones for
    their activity, stop the least active, and release them as the clients report.
 */
module EvictionRound {
  import opened Counting
  import opened DaemonTables
  import opened Daemon
  import opened RandomProbe

  const EXTRA_SLABS: nat := 2      // EXTRA_CHUNK_NUM

  datatype Entry = Entry(activity: nat, slot: nat)

  // ---------------------------------------------------------------- whom to ask

  /** The slabs held by connections k < n with send[k]. */
  function SlabsBelow(owner: seq<int>, send: seq<bool>, n: int): set<nat> {
    set i: nat | i < |owner| && 0 <= owner[i] < n && owner[i] < |send| && send[owner[i]]
  }

  function SlabsOf(owner: seq<int>, send: seq<bool>): set<nat> {
    SlabsBelow(owner, send, |send|)
  }

  lemma SlabsOneMore(owner: seq<int>, send: seq<bool>, n: nat)
    requires n < |send|
    ensures SlabsBelow(owner, send, n + 1) == SlabsBelow(owner, send, n) + (if send[n] then OwnedBy(owner, n) else {})
    ensures SlabsBelow(owner, send, n) !! OwnedBy(owner, n)
  {
  }

  /** The sum of mapped_chunk_size over the connections asked is the number of slabs they hold. */
  method TotalHeld(t: Tables, send: seq<bool>) returns (total: nat)
    requires CountsOk(t) && |send| == |t.chunkSize|
    ensures total == |SlabsOf(t.owner, send)|
  {
    total := 0;
    var i := 0;
    assert SlabsBelow(t.owner, send, 0) == {};
    while i < |send|
      invariant 0 <= i <= |send| && total == |SlabsBelow(t.owner, send, i)|
    {
      SlabsOneMore(t.owner, send, i);
      if send[i] {
        DisjointCount(SlabsBelow(t.owner, send, i), OwnedBy(t.owner, i));
        total := total + t.chunkSize[i];
      }
      i := i + 1;
    }
  }

  /** Mark which slabs may be drawn, counting them. */
  method MarkMapped(owner: seq<int>) returns (flags: array<int>, avail: int)
    ensures fresh(flags) && flags.Length == |owner|
    ensures forall i :: 0 <= i < |owner| ==> flags[i] == if owner[i] == -1 then -1 else ELIGIBLE
    ensures avail == |Mapped(owner)|
  {
    flags := new int[|owner|];
    avail := |owner|;
    var i := 0;
    ghost var unmapped: set<nat> := {};
    while i < |owner|
      invariant 0 <= i <= |owner| && avail == |owner| - |unmapped|
      invariant forall m: nat :: m in unmapped <==> m < i && owner[m] == -1
      invariant forall m :: 0 <= m < i ==> flags[m] == if owner[m] == -1 then -1 else ELIGIBLE
      modifies flags
    {
      if owner[i] == -1 {
        avail := avail - 1;
        flags[i] := -1;
        unmapped := unmapped + {i};
      } else {
        flags[i] := ELIGIBLE;
      }
      i := i + 1;
    }
    assert Mapped(owner) == Below(|owner|) - unmapped;
    SubsetCount(unmapped, Below(|owner|));
  }

  /** Everybody, when there are hardly more mapped slabs than needed. */
  lemma AllMappedHeld(t: Tables, send: seq<bool>)
    requires CountsOk(t) && |send| == |t.chunkSize|
    requires forall k :: 0 <= k < |send| ==> (send[k] <==> t.chunkSize[k] > 0)
    ensures SlabsOf(t.owner, send) == Mapped(t.owner)
  {
    forall i: nat | i in Mapped(t.owner) ensures i in SlabsOf(t.owner, send) {
      assert i in OwnedBy(t.owner, t.owner[i]);
    }
  }

  /** The holders of drawn slabs. */
  method Holders(owner: seq<int>, picked: seq<nat>, clients: nat) returns (send: seq<bool>)
    requires forall i :: 0 <= i < |picked| ==> picked[i] < |owner| && 0 <= owner[picked[i]] < clients
    ensures |send| == clients
    ensures forall i :: 0 <= i < |picked| ==> picked[i] in SlabsOf(owner, send)
    ensures forall k :: 0 <= k < clients && send[k] ==> OwnedBy(owner, k) != {}
  {
    send := seq(clients, _ => false);
    var j := 0;
    while j < |picked|
      invariant 0 <= j <= |picked| && |send| == clients
      invariant forall i :: 0 <= i < j ==> send[owner[picked[i]]]
      invariant forall k :: 0 <= k < clients && send[k] ==> OwnedBy(owner, k) != {}
    {
      assert picked[j] in OwnedBy(owner, owner[picked[j]]);
      send := send[owner[picked[j]] := true];
      j := j + 1;
    }
  }

  /** The slabs asked about in a round that is to free `goal` mapped slabs: with a connection's slab all its
      slabs, all that are mapped when there are hardly more than needed, and otherwise at least two more
      than needed. */
  ghost predicate AskedEnough(asked: set<nat>, owner: seq<int>, goal: nat) {
    && asked <= Mapped(owner)
    && (forall i, j: nat :: i in asked && j < |owner| && owner[j] == owner[i] ==> j in asked)
    && (|Mapped(owner)| < goal + EXTRA_SLABS ==> asked == Mapped(owner))
    && (|Mapped(owner)| >= goal + EXTRA_SLABS ==> |asked| >= goal + EXTRA_SLABS)
  }

  lemma SlabsOfAreAsked(owner: seq<int>, send: seq<bool>, goal: nat)
    requires |Mapped(owner)| < goal + EXTRA_SLABS ==> SlabsOf(owner, send) == Mapped(owner)
    requires |Mapped(owner)| >= goal + EXTRA_SLABS ==> |SlabsOf(owner, send)| >= goal + EXTRA_SLABS
    ensures AskedEnough(SlabsOf(owner, send), owner, goal)
  {
  }

  /** The middle of evict_mem: which connections are sent EVICT, how many slabs they hold together and
      how many of those are to go. The two consistency checks on the way never report, and the number
      to go is cut down exactly when fewer slabs are mapped. */
  method Candidates(t: Tables, mapped: seq<bool>, evictG: nat, draws: nat -> nat)
    returns (send: seq<bool>, total: nat, goal: nat, mismatch: bool)
    requires CountsOk(t) && |mapped| == |t.chunkSize|
    requires forall k :: 0 <= k < |mapped| ==> (mapped[k] <==> t.chunkSize[k] > 0)
    ensures |send| == |t.chunkSize| && total == |SlabsOf(t.owner, send)|
    ensures AskedEnough(SlabsOf(t.owner, send), t.owner, evictG)
    ensures goal == Min(evictG, t.mappedSize) && goal <= total
    ensures !mismatch
    ensures forall k :: 0 <= k < |send| && send[k] ==> mapped[k]
  {
    var flags, avail := MarkMapped(t.owner);
    mismatch := avail != t.mappedSize;
    goal := evictG;
    if t.mappedSize < evictG + EXTRA_SLABS {
      if t.mappedSize < evictG {
        goal := t.mappedSize;
      }
      send := mapped;
      AllMappedHeld(t, send);
      var held := TotalHeld(t, send);
      mismatch := mismatch || t.mappedSize != held;
    } else {
      assert Eligible(flags[..]) == Mapped(t.owner);
      var picked := Draw(flags, evictG + EXTRA_SLABS, draws);
      send := Holders(t.owner, picked, |t.chunkSize|);
      DistinctCount(picked, SlabsOf(t.owner, send));
    }
    SlabsOfAreAsked(t.owner, send, evictG);
    total := TotalHeld(t, send);
  }

  // ---------------------------------------------------------------- gathering the reports

  /** Each connection asked reports a nonzero entry for exactly the slabs it holds. */
  ghost predicate ReportsHeld(owner: seq<int>, send: seq<bool>, reports: seq<seq<nat>>) {
    && |reports| == |send|
    && forall k :: 0 <= k < |send| && send[k] ==>
         |reports[k]| == |owner| && forall m :: 0 <= m < |owner| ==> (reports[k][m] != 0 <==> owner[m] == k)
  }

  function SlotsIn(list: seq<Entry>): set<nat> {
    set e | e in list :: e.slot
  }

  ghost predicate DistinctSlots(list: seq<Entry>) {
    forall i, j :: 0 <= i < j < |list| ==> list[i].slot != list[j].slot
  }

  /** Every entry carries what the holder of its slab reported. */
  ghost predicate FromReports(list: seq<Entry>, owner: seq<int>, reports: seq<seq<nat>>) {
    forall e :: e in list ==>
      && e.slot < |owner| && 0 <= owner[e.slot] < |reports| && e.slot < |reports[owner[e.slot]]|
      && e.activity == reports[owner[e.slot]][e.slot]
  }

  /** A list with one entry per slab, each from its holder's report. */
  ghost predicate Gathered(list: seq<Entry>, owner: seq<int>, reports: seq<seq<nat>>) {
    DistinctSlots(list) && |SlotsIn(list)| == |list| && FromReports(list, owner, reports)
  }

  lemma SlotsAppend(list: seq<Entry>, e: Entry)
    ensures SlotsIn(list + [e]) == SlotsIn(list) + {e.slot}
  {
    forall x | x in SlotsIn(list) + {e.slot} ensures x in SlotsIn(list + [e]) {
      if x == e.slot {
        assert (list + [e])[|list|] == e;
      } else {
        var f :| f in list && f.slot == x;
        assert f in list + [e];
      }
    }
  }

  lemma OneMoreEntry(list: seq<Entry>, e: Entry, owner: seq<int>, reports: seq<seq<nat>>)
    requires Gathered(list, owner, reports) && e.slot !in SlotsIn(list)
    requires e.slot < |owner| && 0 <= owner[e.slot] < |reports| && e.slot < |reports[owner[e.slot]]|
    requires e.activity == reports[owner[e.slot]][e.slot]
    ensures Gathered(list + [e], owner, reports) && SlotsIn(list + [e]) == SlotsIn(list) + {e.slot}
  {
    SlotsAppend(list, e);
    forall i | 0 <= i < |list| ensures list[i].slot != e.slot {
      assert list[i] in list;
    }
  }

  /** A list with an entry added for each nonzero place below m of a report. */
  function WithReport(before: seq<Entry>, report: seq<nat>, m: nat): seq<Entry>
    requires m <= |report|
  {
    if m == 0 then before
    else
      var list := WithReport(before, report, m - 1);
      if report[m - 1] != 0 then list + [Entry(report[m - 1], m - 1)] else list
  }

  /** The entries of the reports of connections k < n that were asked. */
  function Entries(send: seq<bool>, reports: seq<seq<nat>>, n: nat): seq<Entry>
    requires n <= |send| == |reports|
  {
    if n == 0 then []
    else
      var list := Entries(send, reports, n - 1);
      if send[n - 1] then WithReport(list, reports[n - 1], |reports[n - 1]|) else list
  }

  /** The gathering loops, whatever is reported; the check behind them reports a number of entries that is
      not the number of slabs asked about. */
  method Gather(send: seq<bool>, reports: seq<seq<nat>>, total: nat) returns (list: seq<Entry>, mismatch: bool)
    requires |send| == |reports|
    ensures list == Entries(send, reports, |send|)
    ensures mismatch <==> |list| != total
  {
    list := [];
    var i := 0;
    while i < |send|
      invariant 0 <= i <= |send| && list == Entries(send, reports, i)
    {
      if send[i] {
        ghost var before := list;
        var m := 0;
        while m < |reports[i]|
          invariant 0 <= m <= |reports[i]| && list == WithReport(before, reports[i], m)
        {
          if reports[i][m] != 0 {
            list := list + [Entry(reports[i][m], m)];
          }
          m := m + 1;
        }
      }
      i := i + 1;
    }
    mismatch := |list| != total;
  }

  ghost predicate GatheredUpTo(list: seq<Entry>, before: set<nat>, owner: seq<int>, reports: seq<seq<nat>>, k: nat,
                               m: nat)
    requires m <= |owner|
  {
    Gathered(list, owner, reports) && SlotsIn(list) == before + OwnedBy(owner[..m], k)
  }

  lemma GatherStep(list: seq<Entry>, before: set<nat>, owner: seq<int>, reports: seq<seq<nat>>, k: nat, m: nat)
    requires m < |owner| && k < |reports| && |reports[k]| == |owner| && before !! OwnedBy(owner, k)
    requires reports[k][m] != 0 <==> owner[m] == k
    requires GatheredUpTo(list, before, owner, reports, k, m)
    ensures GatheredUpTo(if reports[k][m] != 0 then list + [Entry(reports[k][m], m)] else list,
                         before, owner, reports, k, m + 1)
  {
    OwnedOneMore(owner, k, m);
    if reports[k][m] != 0 {
      OneMoreEntry(list, Entry(reports[k][m], m), owner, reports);
    }
  }

  lemma OwnedOneMore(owner: seq<int>, k: nat, m: nat)
    requires m < |owner|
    ensures OwnedBy(owner[..m + 1], k) == OwnedBy(owner[..m], k) + (if owner[m] == k then {m} else {})
    ensures m !in OwnedBy(owner[..m], k) && (owner[m] == k ==> m in OwnedBy(owner, k))
  {
  }

  lemma ReportStep(before: seq<Entry>, owner: seq<int>, reports: seq<seq<nat>>, k: nat, m: nat)
    requires k < |reports| && |reports[k]| == |owner| && 0 < m <= |owner|
    requires reports[k][m - 1] != 0 <==> owner[m - 1] == k
    requires SlotsIn(before) !! OwnedBy(owner, k)
    requires GatheredUpTo(WithReport(before, reports[k], m - 1), SlotsIn(before), owner, reports, k, m - 1)
    ensures GatheredUpTo(WithReport(before, reports[k], m), SlotsIn(before), owner, reports, k, m)
  {
    GatherStep(WithReport(before, reports[k], m - 1), SlotsIn(before), owner, reports, k, m - 1);
  }

  lemma ReportStart(before: seq<Entry>, owner: seq<int>, reports: seq<seq<nat>>, k: nat)
    requires k < |reports| && Gathered(before, owner, reports)
    ensures GatheredUpTo(WithReport(before, reports[k], 0), SlotsIn(before), owner, reports, k, 0)
  {
    assert OwnedBy(owner[..0], k) == {};
  }

  lemma {:induction false} ReportGathered(before: seq<Entry>, owner: seq<int>, reports: seq<seq<nat>>, k: nat, m: nat)
    requires k < |reports| && |reports[k]| == |owner| && m <= |owner|
    requires forall j :: 0 <= j < |owner| ==> (reports[k][j] != 0 <==> owner[j] == k)
    requires Gathered(before, owner, reports) && SlotsIn(before) !! OwnedBy(owner, k)
    ensures GatheredUpTo(WithReport(before, reports[k], m), SlotsIn(before), owner, reports, k, m)
  {
    if m == 0 {
      ReportStart(before, owner, reports, k);
    } else {
      ReportGathered(before, owner, reports, k, m - 1);
      ReportStep(before, owner, reports, k, m);
    }
  }

  /** One whole report. */
  lemma WholeReport(before: seq<Entry>, owner: seq<int>, reports: seq<seq<nat>>, k: nat)
    requires k < |reports| && |reports[k]| == |owner|
    requires forall m :: 0 <= m < |owner| ==> (reports[k][m] != 0 <==> owner[m] == k)
    requires Gathered(before, owner, reports) && SlotsIn(before) !! OwnedBy(owner, k)
    ensures var list := WithReport(before, reports[k], |reports[k]|);
            Gathered(list, owner, reports) && SlotsIn(list) == SlotsIn(before) + OwnedBy(owner, k)
  {
    ReportGathered(before, owner, reports, k, |owner|);
    assert owner[..|owner|] == owner;
  }

  lemma EntriesStep(owner: seq<int>, send: seq<bool>, reports: seq<seq<nat>>, n: nat)
    requires ReportsHeld(owner, send, reports) && 0 < n <= |send|
    requires Gathered(Entries(send, reports, n - 1), owner, reports)
    requires SlotsIn(Entries(send, reports, n - 1)) == SlabsBelow(owner, send, n - 1)
    ensures Gathered(Entries(send, reports, n), owner, reports)
    ensures SlotsIn(Entries(send, reports, n)) == SlabsBelow(owner, send, n)
  {
    SlabsOneMore(owner, send, n - 1);
    if send[n - 1] {
      WholeReport(Entries(send, reports, n - 1), owner, reports, n - 1);
    }
  }

  lemma {:induction false} EntriesGathered(owner: seq<int>, send: seq<bool>, reports: seq<seq<nat>>, n: nat)
    requires ReportsHeld(owner, send, reports) && n <= |send|
    ensures Gathered(Entries(send, reports, n), owner, reports)
    ensures SlotsIn(Entries(send, reports, n)) == SlabsBelow(owner, send, n)
  {
    if n == 0 {
      assert SlabsBelow(owner, send, 0) == {};
    } else {
      EntriesGathered(owner, send, reports, n - 1);
      EntriesStep(owner, send, reports, n);
    }
  }

  /** When each connection asked reports exactly the slabs it holds, the list has one entry for each of
      them, and the check is silent. */
  lemma EntriesExactly(owner: seq<int>, send: seq<bool>, reports: seq<seq<nat>>)
    requires ReportsHeld(owner, send, reports)
    ensures Gathered(Entries(send, reports, |send|), owner, reports)
    ensures SlotsIn(Entries(send, reports, |send|)) == SlabsOf(owner, send)
    ensures |Entries(send, reports, |send|)| == |SlabsOf(owner, send)|
  {
    EntriesGathered(owner, send, reports, |send|);
  }

  // ---------------------------------------------------------------- the partial selection sort

  /** `b` is `a` with entries exchanged. */
  ghost predicate Rearranged(a: seq<Entry>, b: seq<Entry>) {
    multiset(a) == multiset(b) && (DistinctSlots(a) ==> DistinctSlots(b))
  }

  /** The inner loop: the least active of the entries from n on comes to place n. */
  method BringLeast(a: array<Entry>, n: nat)
    requires n < a.Length
    modifies a
    ensures Rearranged(old(a[..]), a[..]) && a[..n] == old(a[..n])
    ensures forall i :: n <= i < a.Length ==> a[n].activity <= a[i].activity
  {
    var m := n + 1;
    while m < a.Length
      invariant n < m <= a.Length
      invariant Rearranged(old(a[..]), a[..]) && a[..n] == old(a[..n])
      invariant forall i :: n <= i < m ==> a[n].activity <= a[i].activity
    {
      if a[n].activity > a[m].activity {
        ghost var before := a[..];
        a[n], a[m] := a[m], a[n];
        Swapped(before, a[..], n, m);
      }
      m := m + 1;
    }
  }

  lemma Swapped(a: seq<Entry>, b: seq<Entry>, n: nat, m: nat)
    requires n < m < |a| && b == a[n := a[m]][m := a[n]]
    ensures Rearranged(a, b)
  {
    assert multiset(a[n := a[m]][m := a[n]]) == multiset(a);
  }

  /** The first n entries are in order and no more active than any behind them. */
  ghost predicate LeastFirst(s: seq<Entry>, n: nat) {
    forall i, j :: 0 <= i < n && i <= j < |s| ==> s[i].activity <= s[j].activity
  }

  lemma StaysLeast(s: seq<Entry>, t: seq<Entry>, n: nat)
    requires n < |s| == |t| && LeastFirst(s, n) && multiset(s) == multiset(t) && s[..n] == t[..n]
    requires forall i :: n <= i < |t| ==> t[n].activity <= t[i].activity
    ensures LeastFirst(t, n + 1)
  {
    forall i, j | 0 <= i < n + 1 && i <= j < |t| ensures t[i].activity <= t[j].activity {
      if i < n {
        assert t[i] == s[..n][i];
        if j < n {
          assert t[j] == s[..n][j];
        } else {
          TailSame(s, t, n);
          assert t[j] in multiset(t[n..]);
          var k :| 0 <= k < |s[n..]| && s[n..][k] == t[j];
        }
      }
    }
  }

  lemma TailSame(s: seq<Entry>, t: seq<Entry>, n: nat)
    requires n <= |s| == |t| && multiset(s) == multiset(t) && s[..n] == t[..n]
    ensures multiset(s[n..]) == multiset(t[n..])
  {
    assert s[..n] + s[n..] == s && t[..n] + t[n..] == t;
    assert multiset(s[n..]) == multiset(s[..n] + s[n..]) - multiset(s[..n]);
    assert multiset(t[n..]) == multiset(t[..n] + t[n..]) - multiset(t[..n]);
  }

  // ---------------------------------------------------------------- choosing victims

  /** Each entry's slab is held by one of the connections. */
  ghost predicate HeldBy(list: seq<Entry>, owner: seq<int>, clients: nat) {
    forall e :: e in list ==> e.slot < |owner| && 0 <= owner[e.slot] < clients
  }

  lemma RearrangedHeld(a: seq<Entry>, b: seq<Entry>, owner: seq<int>, clients: nat)
    requires Rearranged(a, b) && HeldBy(a, owner, clients)
    ensures HeldBy(b, owner, clients)
  {
    forall e | e in b ensures e in a {
      assert e in multiset(b);
    }
  }

  /** The slabs of the list, sorted out by holder. */
  ghost predicate SortedOut(stops: seq<set<nat>>, sizes: seq<nat>, list: seq<Entry>, owner: seq<int>) {
    && |stops| == |sizes|
    && forall k :: 0 <= k < |stops| ==> stops[k] == SlotsIn(list) * OwnedBy(owner, k) && sizes[k] == |stops[k]|
  }

  lemma SortedOutOneMore(stops: seq<set<nat>>, sizes: seq<nat>, list: seq<Entry>, owner: seq<int>, e: Entry)
    requires SortedOut(stops, sizes, list, owner) && e.slot !in SlotsIn(list)
    requires e.slot < |owner| && 0 <= owner[e.slot] < |stops|
    ensures var k := owner[e.slot];
            SortedOut(stops[k := stops[k] + {e.slot}], sizes[k := sizes[k] + 1], list + [e], owner)
  {
    var k := owner[e.slot];
    SlotsAppend(list, e);
    forall j | 0 <= j < |stops|
      ensures stops[k := stops[k] + {e.slot}][j] == SlotsIn(list + [e]) * OwnedBy(owner, j)
    {
    }
  }

  /** One more entry in place, and on its holder's list. */
  lemma VictimStep(stops: seq<set<nat>>, sizes: seq<nat>, list: seq<Entry>, n: nat, owner: seq<int>)
    requires n < |list| && DistinctSlots(list) && HeldBy(list, owner, |stops|)
    requires SortedOut(stops, sizes, list[..n], owner)
    ensures list[n].slot < |owner| && 0 <= owner[list[n].slot] < |stops| == |sizes|
    ensures var slot := list[n].slot;
            var k := owner[slot];
            SortedOut(stops[k := stops[k] + {slot}], sizes[k := sizes[k] + 1], list[..n + 1], owner)
  {
    assert list[n] in list;
    assert list[..n + 1] == list[..n] + [list[n]];
    SortedOutOneMore(stops, sizes, list[..n], owner, list[n]);
  }

  /** The sort as far as one more place. */
  method SortStep(a: array<Entry>, n: nat)
    requires n < a.Length && LeastFirst(a[..], n)
    modifies a
    ensures Rearranged(old(a[..]), a[..]) && LeastFirst(a[..], n + 1) && a[..][..n] == old(a[..])[..n]
  {
    ghost var before := a[..];
    BringLeast(a, n);
    assert a[..][..n] == a[..n] && before[..n] == old(a[..n]);
    StaysLeast(before, a[..], n);
  }

  /** One turn of the outer loop: the n-th victim comes to its place and goes on the STOP list of its
      holder. */
  method NextVictim(a: array<Entry>, n: nat, owner: seq<int>, stops: seq<set<nat>>, sizes: seq<nat>)
    returns (stops': seq<set<nat>>, sizes': seq<nat>, holder: nat)
    requires n < a.Length && LeastFirst(a[..], n) && DistinctSlots(a[..]) && HeldBy(a[..], owner, |stops|)
    requires SortedOut(stops, sizes, a[..][..n], owner)
    modifies a
    ensures Rearranged(old(a[..]), a[..]) && LeastFirst(a[..], n + 1)
    ensures DistinctSlots(a[..]) && HeldBy(a[..], owner, |stops|)
    ensures |stops'| == |stops| && SortedOut(stops', sizes', a[..][..n + 1], owner)
    ensures holder < |stops'| && stops'[holder] != {}
  {
    ghost var before := a[..];
    SortStep(a, n);
    RearrangedHeld(before, a[..], owner, |stops|);
    VictimStep(stops, sizes, a[..], n, owner);
    var slot := a[n].slot;
    holder := owner[slot];
    stops' := stops[holder := stops[holder] + {slot}];
    sizes' := sizes[holder := sizes[holder] + 1];
  }

  /** The outer loop: the `goal` least active entries come to the front, and each is put on the STOP list
      of its holder. */
  method ChooseVictims(a: array<Entry>, goal: nat, owner: seq<int>, clients: nat)
    returns (stops: seq<set<nat>>, sizes: seq<nat>, last: int)
    requires goal <= a.Length && DistinctSlots(a[..]) && HeldBy(a[..], owner, clients)
    modifies a
    ensures Rearranged(old(a[..]), a[..]) && LeastFirst(a[..], goal)
    ensures |stops| == clients && SortedOut(stops, sizes, a[..][..goal], owner)
    ensures goal > 0 ==> 0 <= last < clients && stops[last] != {}
  {
    stops := seq(clients, _ => {});
    sizes := seq(clients, _ => 0);
    last := -1;
    var n := 0;
    assert a[..][..0] == [];
    while n < goal
      invariant 0 <= n <= goal
      invariant Rearranged(old(a[..]), a[..]) && LeastFirst(a[..], n)
      invariant DistinctSlots(a[..]) && HeldBy(a[..], owner, clients)
      invariant |stops| == clients && SortedOut(stops, sizes, a[..][..n], owner)
      invariant n > 0 ==> 0 <= last < clients && stops[last] != {}
    {
      stops, sizes, last := NextVictim(a, n, owner, stops, sizes);
      n := n + 1;
    }
  }
}
