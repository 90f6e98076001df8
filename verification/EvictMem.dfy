/** The whole of evict_mem, from the call to the last DONE. */
module EvictMem {
  import opened Counting
  import opened DaemonTables
  import opened Daemon
  import opened RandomProbe
  import opened EvictionRound
  import opened UnevenShares

  // ---------------------------------------------------------------- the victims are the least active

  /** What the holder of a slab reported about it. */
  function ActivityOf(owner: seq<int>, reports: seq<seq<nat>>, slot: nat): nat {
    if slot < |owner| && 0 <= owner[slot] < |reports| && slot < |reports[owner[slot]]|
    then reports[owner[slot]][slot] else 0
  }

  lemma SlotsSplit(list: seq<Entry>, n: nat)
    requires n <= |list| && DistinctSlots(list)
    ensures SlotsIn(list[..n]) + SlotsIn(list[n..]) == SlotsIn(list)
    ensures SlotsIn(list[..n]) !! SlotsIn(list[n..])
  {
    forall e ensures e in list <==> e in list[..n] || e in list[n..] {
      assert list == list[..n] + list[n..];
    }
    forall x | x in SlotsIn(list[..n]) ensures x !in SlotsIn(list[n..]) {
      var i :| 0 <= i < n && list[..n][i].slot == x;
      forall j | 0 <= j < |list| - n ensures list[n..][j].slot != x {
        assert list[i].slot != list[n + j].slot;
      }
    }
  }

  lemma {:induction false} SlotsCount(list: seq<Entry>)
    requires DistinctSlots(list)
    ensures |SlotsIn(list)| == |list|
  {
    if list == [] {
      assert SlotsIn(list) == {};
    } else {
      var n := |list| - 1;
      SlotsCount(list[..n]);
      assert list == list[..n] + [list[n]];
      SlotsAppend(list[..n], list[n]);
      assert list[n].slot !in SlotsIn(list[..n]);
    }
  }

  /** No slab left alone is less active than one chosen. */
  lemma ChosenAreLeast(list: seq<Entry>, n: nat, owner: seq<int>, reports: seq<seq<nat>>, v: nat, u: nat)
    requires n <= |list| && LeastFirst(list, n) && DistinctSlots(list) && FromReports(list, owner, reports)
    requires v in SlotsIn(list[..n]) && u in SlotsIn(list) - SlotsIn(list[..n])
    ensures ActivityOf(owner, reports, v) <= ActivityOf(owner, reports, u)
  {
    SlotsSplit(list, n);
    var i :| 0 <= i < n && list[..n][i].slot == v;
    var j :| 0 <= j < |list| - n && list[n..][j].slot == u;
    assert list[i] in list && list[n + j] in list;
  }

  lemma RearrangedSlots(a: seq<Entry>, b: seq<Entry>, owner: seq<int>, reports: seq<seq<nat>>)
    requires Rearranged(a, b) && FromReports(a, owner, reports)
    ensures SlotsIn(a) == SlotsIn(b) && FromReports(b, owner, reports)
  {
    forall e ensures e in a <==> e in b {
      assert e in multiset(a) <==> e in multiset(b);
    }
  }

  // ---------------------------------------------------------------- releasing what was stopped

  /** The tables once the DONEs of connections k < n have been taken, each carrying `size`. */
  function ReleaseAll(t: Tables, stops: seq<set<nat>>, size: int, n: nat): (r: Tables)
    requires Shaped(t) && n <= |stops| == |t.chunkSize|
    ensures Shaped(r) && |r.chunkSize| == |t.chunkSize|
  {
    if n == 0 then t
    else
      var r := ReleaseAll(t, stops, size, n - 1);
      if stops[n - 1] == {} then r else Release(r, n - 1, stops[n - 1], size)
  }

  function UnionBelow(stops: seq<set<nat>>, n: nat): set<nat>
    requires n <= |stops|
  {
    if n == 0 then {} else UnionBelow(stops, n - 1) + stops[n - 1]
  }

  /** A connection's share of the tables after its DONE, or before it. */
  ghost predicate Share(t: Tables, r: Tables, stops: seq<set<nat>>, size: int, n: nat, k: nat)
    requires k < |stops| == |t.chunkSize| == |r.chunkSize|
  {
    if k < n && stops[k] != {} then
      OwnedBy(r.owner, k) == OwnedBy(t.owner, k) - stops[k] && r.chunkSize[k] == t.chunkSize[k] - size
    else
      OwnedBy(r.owner, k) == OwnedBy(t.owner, k) && r.chunkSize[k] == t.chunkSize[k]
  }

  lemma {:induction false} AfterAll(t: Tables, stops: seq<set<nat>>, size: int, n: nat)
    requires Owners(t) && n <= |stops| == |t.chunkSize|
    requires forall k :: 0 <= k < |stops| ==> stops[k] <= OwnedBy(t.owner, k)
    ensures var r := ReleaseAll(t, stops, size, n);
            && Owners(r) && |r.owner| == |t.owner|
            && Malloced(r) == Malloced(t) - UnionBelow(stops, n)
            && forall k :: 0 <= k < |stops| ==> Share(t, r, stops, size, n, k)
  {
    if n > 0 {
      AfterAll(t, stops, size, n - 1);
      var q := ReleaseAll(t, stops, size, n - 1);
      var r := ReleaseAll(t, stops, size, n);
      assert Share(t, q, stops, size, n - 1, n - 1);
      if stops[n - 1] != {} {
        AfterRelease(q, n - 1, stops[n - 1], size);
      }
      forall k | 0 <= k < |stops| ensures Share(t, r, stops, size, n, k) {
        assert Share(t, q, stops, size, n - 1, k);
      }
    }
  }

  lemma NotYetReleased(t: Tables, stops: seq<set<nat>>, size: int, n: nat)
    requires Owners(t) && n < |stops| == |t.chunkSize|
    requires forall k :: 0 <= k < |stops| ==> stops[k] <= OwnedBy(t.owner, k)
    ensures stops[n] <= OwnedBy(ReleaseAll(t, stops, size, n).owner, n)
  {
    AfterAll(t, stops, size, n);
    assert Share(t, ReleaseAll(t, stops, size, n), stops, size, n, n);
  }

  /** No DONE of connections k < n carries a wrong size. */
  ghost predicate SizesRight(stops: seq<set<nat>>, size: int, n: nat) {
    forall k :: 0 <= k < n && k < |stops| && stops[k] != {} ==> |stops[k]| == size
  }

  lemma CountsNeedSizes(t: Tables, stops: seq<set<nat>>, size: int, n: nat)
    requires CountsOk(t) && n <= |stops| == |t.chunkSize|
    requires forall k :: 0 <= k < |stops| ==> stops[k] <= OwnedBy(t.owner, k)
    requires CountsOk(ReleaseAll(t, stops, size, n))
    ensures SizesRight(stops, size, n)
  {
    var r := ReleaseAll(t, stops, size, n);
    AfterAll(t, stops, size, n);
    forall k | 0 <= k < n && stops[k] != {} ensures |stops[k]| == size {
      assert Share(t, r, stops, size, n, k);
      SubsetCount(stops[k], OwnedBy(t.owner, k));
    }
  }

  lemma {:induction false} SizesGiveCounts(t: Tables, stops: seq<set<nat>>, size: int, n: nat)
    requires CountsOk(t) && n <= |stops| == |t.chunkSize|
    requires forall k :: 0 <= k < |stops| ==> stops[k] <= OwnedBy(t.owner, k)
    requires SizesRight(stops, size, n)
    ensures CountsOk(ReleaseAll(t, stops, size, n))
  {
    if n > 0 {
      SizesGiveCounts(t, stops, size, n - 1);
      NotYetReleased(t, stops, size, n - 1);
      var q := ReleaseAll(t, stops, size, n - 1);
      OneRelease(q, stops, n - 1, size);
      assert ReleaseAll(t, stops, size, n) == if stops[n - 1] == {} then q else Release(q, n - 1, stops[n - 1], size);
    }
  }

  lemma OneRelease(q: Tables, stops: seq<set<nat>>, k: nat, size: int)
    requires CountsOk(q) && k < |stops| == |q.chunkSize| && stops[k] <= OwnedBy(q.owner, k)
    requires stops[k] != {} ==> |stops[k]| == size
    ensures stops[k] != {} ==> CountsOk(Release(q, k, stops[k], size))
  {
    if stops[k] != {} {
      ReleaseCounts(q, k, stops[k], size);
    }
  }

  /** All counters are right after the round exactly when each DONE carried the number of slabs its
      connection was told to stop. */
  lemma RoundCounts(t: Tables, stops: seq<set<nat>>, size: int)
    requires CountsOk(t) && |stops| == |t.chunkSize|
    requires forall k :: 0 <= k < |stops| ==> stops[k] <= OwnedBy(t.owner, k)
    ensures CountsOk(ReleaseAll(t, stops, size, |stops|)) <==> SizesRight(stops, size, |stops|)
  {
    if CountsOk(ReleaseAll(t, stops, size, |stops|)) {
      CountsNeedSizes(t, stops, size, |stops|);
    }
    if SizesRight(stops, size, |stops|) {
      SizesGiveCounts(t, stops, size, |stops|);
    }
  }

  // ---------------------------------------------------------------- the method

  /** The tag array of a STOP, which the DONE repeats. */
  function Tags(slots: set<nat>): (tags: seq<bool>)
    ensures |tags| == MAX_SLABS
    ensures (forall i :: i in slots ==> i < MAX_SLABS) ==> Named(tags) == slots
  {
    seq(MAX_SLABS, i requires 0 <= i < MAX_SLABS => i in slots)
  }

  /** The STOPs and their DONEs. Every victim's connection is sent the same size, and its DONE repeats
      it; each STOP waits for its DONE. */
  method StopAll(s: Session, stops: seq<set<nat>>, size: int)
    requires s.Shape() && s.MapsAgree() && |stops| == MAX_CLIENT
    requires forall k :: 0 <= k < |stops| ==> stops[k] <= OwnedBy(s.owner[..], k)
    modifies s`sizeGb, s`mappedSize, s.malloc, s.owner, s.chunkSize, s.state, s.chunkMap
    ensures s.Shape() && s.MapsAgree() && s.View() == ReleaseAll(old(s.View()), stops, size, MAX_CLIENT)
    ensures forall k :: 0 <= k < MAX_CLIENT ==>
              s.state[k] == if stops[k] != {} && s.chunkSize[k] == 0 then Connected else old(s.state[k])
  {
    ghost var t := s.View();
    var i := 0;
    while i < MAX_CLIENT
      invariant 0 <= i <= MAX_CLIENT
      invariant s.Shape() && s.MapsAgree() && s.View() == ReleaseAll(t, stops, size, i)
      invariant forall k :: 0 <= k < MAX_CLIENT ==>
                  s.state[k] == if k < i && stops[k] != {} && s.chunkSize[k] == 0 then Connected else old(s.state[k])
      modifies s`sizeGb, s`mappedSize, s.malloc, s.owner, s.chunkSize, s.state, s.chunkMap
    {
      AfterAll(t, stops, size, i);
      assert Share(t, s.View(), stops, size, i, i);
      if stops[i] != {} {
        assert forall m :: m in stops[i] ==> m in OwnedBy(t.owner, i);
        var mismatch := s.RecvDone(i, Tags(stops[i]), size);
      }
      i := i + 1;
    }
  }

  lemma {:induction false} UnionOfShares(stops: seq<set<nat>>, owner: seq<int>, victims: set<nat>, n: nat)
    requires n <= |stops| && forall k :: 0 <= k < |stops| ==> stops[k] == ShareOf(owner, victims, k)
    ensures UnionBelow(stops, n) == victims * OwnedBelow(owner, n)
  {
    if n == 0 {
      assert OwnedBelow(owner, 0) == {};
    } else {
      UnionOfShares(stops, owner, victims, n - 1);
      assert OwnedBelow(owner, n) == OwnedBelow(owner, n - 1) + OwnedBy(owner, n - 1);
    }
  }

  /** With the size of one share sent to all, the counters come out right exactly when the shares are
      even. */
  lemma EvenSharesCount(t: Tables, stops: seq<set<nat>>, victims: set<nat>, last: nat)
    requires CountsOk(t) && last < |stops| == |t.chunkSize| && stops[last] != {}
    requires forall k :: 0 <= k < |stops| ==> stops[k] == ShareOf(t.owner, victims, k)
    ensures CountsOk(ReleaseAll(t, stops, |stops[last]|, |stops|)) <==> EvenShares(t.owner, victims)
  {
    RoundCounts(t, stops, |stops[last]|);
    if SizesRight(stops, |stops[last]|, |stops|) {
      forall k: nat | ShareOf(t.owner, victims, k) != {}
        ensures |ShareOf(t.owner, victims, k)| == |stops[last]|
      {
        var i :| i in ShareOf(t.owner, victims, k);
        assert k < |stops| && stops[k] == ShareOf(t.owner, victims, k);
      }
    } else {
      var k :| 0 <= k < |stops| && stops[k] != {} && |stops[k]| != |stops[last]|;
      assert ShareOf(t.owner, victims, k) == stops[k] && ShareOf(t.owner, victims, last) == stops[last];
    }
  }

  lemma GatheredIsHeld(list: seq<Entry>, t: Tables, send: seq<bool>, reports: seq<seq<nat>>)
    requires Gathered(list, t.owner, reports) && SlotsIn(list) == SlabsOf(t.owner, send) && |send| == |t.chunkSize|
    ensures HeldBy(list, t.owner, |t.chunkSize|) && SlabsOf(t.owner, send) <= Mapped(t.owner)
  {
    forall e | e in list ensures e.slot < |t.owner| && 0 <= t.owner[e.slot] < |t.chunkSize| {
      assert e.slot in SlotsIn(list);
    }
  }

  /** The victims are `goal` of the slabs asked about, and none left alone is less active. */
  ghost predicate Victims(victims: set<nat>, asked: set<nat>, goal: nat, owner: seq<int>, reports: seq<seq<nat>>) {
    && victims <= asked && |victims| == goal
    && forall v, u :: v in victims && u in asked - victims ==>
         ActivityOf(owner, reports, v) <= ActivityOf(owner, reports, u)
  }

  lemma FirstAreVictims(list: seq<Entry>, sorted: seq<Entry>, goal: nat, owner: seq<int>, reports: seq<seq<nat>>)
    requires Gathered(list, owner, reports) && Rearranged(list, sorted) && goal <= |sorted| && LeastFirst(sorted, goal)
    ensures Victims(SlotsIn(sorted[..goal]), SlotsIn(list), goal, owner, reports)
  {
    RearrangedSlots(list, sorted, owner, reports);
    SlotsSplit(sorted, goal);
    SlotsCount(sorted[..goal]);
    forall v, u | v in SlotsIn(sorted[..goal]) && u in SlotsIn(list) - SlotsIn(sorted[..goal])
      ensures ActivityOf(owner, reports, v) <= ActivityOf(owner, reports, u)
    {
      ChosenAreLeast(sorted, goal, owner, reports, v, u);
    }
  }

  /** Whom to stop, for a given set of tables: the rest of evict_mem up to the first STOP. */
  method PlanStops(t: Tables, mapped: seq<bool>, evictG: nat, draws: nat -> nat, reports: seq<seq<nat>>)
    returns (stops: seq<set<nat>>, size: int, asked: set<nat>, victims: set<nat>, last: nat)
    requires CountsOk(t) && |t.chunkSize| == |mapped| && 0 < evictG <= t.mappedSize
    requires forall k :: 0 <= k < |mapped| ==> (mapped[k] <==> t.chunkSize[k] > 0)
    requires ReportsHeld(t.owner, mapped, reports)
    ensures AskedEnough(asked, t.owner, evictG) && Victims(victims, asked, evictG, t.owner, reports)
    ensures |stops| == |t.chunkSize| && forall k :: 0 <= k < |stops| ==> stops[k] == ShareOf(t.owner, victims, k)
    ensures last < |stops| && stops[last] != {} && size == |stops[last]|
  {
    var send, total, goal, mismatch := Candidates(t, mapped, evictG, draws);
    var list, wrong := Gather(send, reports, total);
    EntriesExactly(t.owner, send, reports);
    GatheredIsHeld(list, t, send, reports);
    var a := new Entry[|list|](i requires 0 <= i < |list| => list[i]);
    assert a[..] == list;
    var sizes, l;
    stops, sizes, l := ChooseVictims(a, goal, t.owner, |t.chunkSize|);
    size := sizes[l];
    last := l;
    asked := SlotsIn(list);
    victims := SlotsIn(a[..][..goal]);
    FirstAreVictims(list, a[..], goal, t.owner, reports);
  }

  /** What releasing every connection's share of the victims does to the tables. */
  lemma AfterShares(t: Tables, stops: seq<set<nat>>, victims: set<nat>, last: nat)
    requires CountsOk(t) && last < |stops| == |t.chunkSize| && stops[last] != {} && victims <= Mapped(t.owner)
    requires forall k :: 0 <= k < |stops| ==> stops[k] == ShareOf(t.owner, victims, k)
    ensures var r := ReleaseAll(t, stops, |stops[last]|, |stops|);
            && Malloced(r) == Malloced(t) - victims
            && (CountsOk(r) <==> EvenShares(t.owner, victims))
            && (CountsOk(r) ==> r.sizeGb == t.sizeGb - |victims|)
  {
    AfterAll(t, stops, |stops[last]|, |stops|);
    UnionOfShares(stops, t.owner, victims, |stops|);
    assert OwnedBelow(t.owner, |stops|) == Mapped(t.owner);
    EvenSharesCount(t, stops, victims, last);
    assert victims <= Malloced(t);
    SubsetCount(victims, Malloced(t));
  }

  /** The connections that hold slabs. */
  function Holding(chunkSize: seq<int>): (send: seq<bool>)
    ensures |send| == |chunkSize| && forall k :: 0 <= k < |send| ==> send[k] == (chunkSize[k] > 0)
  {
    seq(|chunkSize|, k requires 0 <= k < |chunkSize| => chunkSize[k] > 0)
  }

  /** The part of evict_mem that concerns mapped slabs, with the clients' replies: the reports are what
      they answer to EVICT, and each DONE repeats the slots and the size of its STOP. */
  method EvictMapped(s: Session, evictG: nat, draws: nat -> nat, reports: seq<seq<nat>>)
    returns (ghost asked: set<nat>, ghost victims: set<nat>)
    requires s.Valid() && 0 < evictG <= s.mappedSize
    requires ReportsHeld(s.owner[..], Holding(s.chunkSize[..]), reports)
    modifies s`sizeGb, s`mappedSize, s.malloc, s.owner, s.chunkSize, s.state, s.chunkMap
    ensures AskedEnough(asked, old(s.owner[..]), evictG) && Victims(victims, asked, evictG, old(s.owner[..]), reports)
    ensures Malloced(s.View()) == Malloced(old(s.View())) - victims
    ensures s.Valid() <==> EvenShares(old(s.owner[..]), victims)
    ensures s.Valid() ==> s.sizeGb == old(s.sizeGb) - evictG
  {
    ghost var t := s.View();
    var states := s.state[..];
    var mapped := seq(MAX_CLIENT, i requires 0 <= i < MAX_CLIENT => states[i] == MappedState);
    assert mapped == Holding(s.chunkSize[..]);
    var stops, size;
    ghost var last;
    stops, size, asked, victims, last := PlanStops(s.View(), mapped, evictG, draws, reports);
    StopAll(s, stops, size);
    AfterShares(t, stops, victims, last);
    assert CountsOk(s.View()) ==> s.StatesAgree() by {
      AfterAll(t, stops, size, MAX_CLIENT);
      forall k | CountsOk(s.View()) && 0 <= k < MAX_CLIENT ensures s.state[k] == MappedState <==> s.chunkSize[k] > 0 {
        assert Share(t, s.View(), stops, size, MAX_CLIENT, k);
      }
    }
  }

  lemma NobodyStopped(owner: seq<int>, reports: seq<seq<nat>>)
    ensures EvenShares(owner, {}) && Victims({}, {}, 0, owner, reports)
  {
  }

  /** Reports by which the given slabs are the least active. */
  function SingleOut(owner: seq<int>, victims: set<nat>, clients: nat): (reports: seq<seq<nat>>)
    ensures |reports| == clients
    ensures forall k, m :: 0 <= k < clients && 0 <= m < |owner| ==>
              |reports[k]| == |owner| && reports[k][m] == if owner[m] != k then 0 else if m in victims then 1 else 2
  {
    seq(clients, k requires 0 <= k < clients =>
      seq(|owner|, m requires 0 <= m < |owner| => if owner[m] != k then 0 else if m in victims then 1 else 2))
  }

  /** A round is asked about all mapped slabs, and any of them can be the least active. */
  lemma AnyCanBeVictims(owner: seq<int>, victims: set<nat>, clients: nat, send: seq<bool>)
    requires victims <= Mapped(owner) && |send| == clients
    requires forall i :: 0 <= i < |owner| ==> -1 <= owner[i] < clients
    ensures ReportsHeld(owner, send, SingleOut(owner, victims, clients))
    ensures AskedEnough(Mapped(owner), owner, |victims|)
    ensures Victims(victims, Mapped(owner), |victims|, owner, SingleOut(owner, victims, clients))
  {
  }

  /** Wherever the table allows it, some reports make a round of `goal` mapped slabs end with uneven shares, as
      far as its contract goes. */
  lemma UnevenRoundIsPossible(owner: seq<int>, goal: nat, clients: nat, send: seq<bool>)
    returns (reports: seq<seq<nat>>, asked: set<nat>, victims: set<nat>)
    requires goal <= |Mapped(owner)| && MayBeUneven(owner, goal) && |send| == clients
    requires forall i :: 0 <= i < |owner| ==> -1 <= owner[i] < clients
    ensures ReportsHeld(owner, send, reports) && AskedEnough(asked, owner, goal)
    ensures Victims(victims, asked, goal, owner, reports) && !EvenShares(owner, victims)
  {
    UnevenExactlyWhen(owner, goal);
    victims :| victims <= Mapped(owner) && |victims| == goal && !EvenShares(owner, victims);
    asked, reports := Mapped(owner), SingleOut(owner, victims, clients);
    AnyCanBeVictims(owner, victims, clients, send);
  }

  /** evict_mem: an eviction of `stopG` slabs frees exactly that many, unmapped ones first, then the
      least active of the mapped ones asked about. The counters are right afterwards exactly when the
      connections that lose slabs lose equally many; that is certain beforehand unless the table allows the
      slabs that are not free to fall unevenly, and `UnevenRoundIsPossible` says that it is certain only then.
      Reports are needed only when free slabs are not enough, and then of every holder, for any may be drawn. */
  method Evict(s: Session, stopG: nat, draws: nat -> nat, reports: seq<seq<nat>>)
    returns (ghost dropped: set<nat>, ghost asked: set<nat>, ghost victims: set<nat>)
    requires s.Valid() && 0 < stopG <= s.sizeGb
    requires stopG > |FreeSlots(s.View())| ==> ReportsHeld(s.owner[..], Holding(s.chunkSize[..]), reports)
    modifies s`sizeGb, s`mappedSize, s.malloc, s.owner, s.chunkSize, s.state, s.chunkMap
    ensures LowestOf(dropped, FreeSlots(old(s.View()))) && |dropped| <= stopG
    ensures Victims(victims, asked, stopG - |dropped|, old(s.owner[..]), reports)
    ensures victims != {} ==>
              dropped == FreeSlots(old(s.View())) && AskedEnough(asked, old(s.owner[..]), stopG - |dropped|)
    ensures Malloced(s.View()) == Malloced(old(s.View())) - dropped - victims
    ensures s.Valid() <==> EvenShares(old(s.owner[..]), victims)
    ensures s.Valid() ==> s.sizeGb == old(s.sizeGb) - stopG
    ensures (stopG > |FreeSlots(old(s.View()))| ==>
               !MayBeUneven(old(s.owner[..]), stopG - |FreeSlots(old(s.View()))|)) ==> s.Valid()
  {
    ghost var t := s.View();
    var left;
    left, dropped := s.EvictUnmapped(stopG);
    AfterDrop(t, dropped);
    assert s.owner[..] == t.owner && s.chunkSize[..] == t.chunkSize;
    if left > 0 {
      AllDropped(t, dropped);
      asked, victims := EvictMapped(s, left, draws, reports);
    } else {
      asked, victims := {}, {};
      NobodyStopped(t.owner, reports);
    }
    if !MayBeUneven(t.owner, |victims|) {
      EvenOtherwise(t.owner, victims);
    }
  }

  /** When dropping leaves no slab free, all free ones were dropped. */
  lemma AllDropped(t: Tables, dropped: set<nat>)
    requires Owners(t) && dropped <= FreeSlots(t) && FreeSlots(Drop(t, dropped)) == {}
    ensures dropped == FreeSlots(t)
  {
    AfterDrop(t, dropped);
    assert FreeSlots(t) == dropped + (FreeSlots(t) - dropped);
  }

  // ---------------------------------------------------------------- where the counters go wrong

  /** Three slabs to go, two of connection 0 and one of connection 1. When connection 1 holds the last
      victim, connection 0 is sent the size 1 as well, and the round leaves the counters wrong. */
  lemma UnevenRoundExample()
    ensures var t := UnevenTables();
            && CountsOk(t) && !EvenShares(t.owner, {0, 1, 2})
            && !CountsOk(ReleaseAll(t, [{0, 1}, {2}], 1, 2))
  {
    var t := UnevenTables();
    var stops: seq<set<nat>> := [{0, 1}, {2}];
    var victims: set<nat> := {0, 1, 2};
    UnevenTablesCount();
    assert ShareOf(t.owner, victims, 0) == {0, 1} && ShareOf(t.owner, victims, 1) == {2};
    assert |ShareOf(t.owner, victims, 0)| == 2 && |ShareOf(t.owner, victims, 1)| == 1;
    assert !EvenShares(t.owner, victims);
    EvenSharesCount(t, stops, victims, 1);
    assert |stops[1]| == 1 && |stops| == 2;
  }

  function UnevenTables(): Tables {
    Tables([true, true, true], [0, 0, 1], 3, 3, [2, 1])
  }

  lemma UnevenTablesCount()
    ensures CountsOk(UnevenTables())
    ensures OwnedBy(UnevenTables().owner, 0) == {0, 1} && OwnedBy(UnevenTables().owner, 1) == {2}
  {
    var t := UnevenTables();
    assert Malloced(t) == {0, 1, 2} && Mapped(t.owner) == {0, 1, 2};
    assert OwnedBy(t.owner, 0) == {0, 1} && OwnedBy(t.owner, 1) == {2};
  }

  /** A bind that finds no slab still counts one. */
  lemma BindWithoutSlabExample()
    ensures var t := Tables([true], [0], 1, 1, [1, 0]);
            var r := Bind(t, 1);
            CountsOk(t) && r.owner == t.owner && r.mappedSize == 2 && r.sizeGb - r.mappedSize == -1
  {
    var t := Tables([true], [0], 1, 1, [1, 0]);
    assert Malloced(t) == {0} && Mapped(t.owner) == {0};
    assert OwnedBy(t.owner, 0) == {0} && OwnedBy(t.owner, 1) == {};
  }
}
