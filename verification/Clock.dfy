/** The textbook clock (second chance) replacement policy over an array of frames.

    This is the reference against which the linked ring of page-table entries in
    `PagedMemory` is proved: frames are numbered 0..n-1, the hand is a frame
    number, and advancing the hand adds one modulo n.
 */
module Clock {

  datatype Frame = Frame(page: nat, marked: bool, dirty: bool)

  datatype State = State(frames: seq<Frame>, hand: nat)

  /** Result of a scan: the swept frames, the frame the hand stopped at, and how often it moved. */
  datatype Scanned = Scanned(frames: seq<Frame>, hand: nat, moves: nat)

  datatype Access = Access(page: nat, write: bool)

  /** Running costs of a sequence of accesses. */
  datatype Cost = Cost(moves: nat, flushes: nat) {
    function Plus(d: Cost): Cost {
      Cost(moves + d.moves, flushes + d.flushes)
    }
  }

  function Next(f: nat, n: nat): (r: nat)
    requires f < n
    ensures r < n
  {
    if f + 1 < n then f + 1 else 0
  }

  /** The frame k places after `hand`, for k no more than one turn. */
  function Ahead(hand: nat, k: nat, n: nat): (r: nat)
    requires hand < n && k <= n
    ensures r < n
  {
    if hand + k < n then hand + k else hand + k - n
  }

  lemma ModOnce(x: nat, n: nat)
    requires n <= x < 2 * n
    ensures x % n == x - n
  {
    assert x / n == 1;
  }

  lemma AheadIsModular(hand: nat, k: nat, n: nat)
    requires hand < n && k <= n
    ensures Ahead(hand, k, n) == (hand + k) % n
  {
    if hand + k >= n {
      ModOnce(hand + k, n);
    }
  }

  /** How many places `f` lies after `hand`. */
  function Distance(hand: nat, f: nat, n: nat): (r: nat)
    requires hand < n && f < n
    ensures r < n
    ensures Ahead(hand, r, n) == f
  {
    if hand <= f then f - hand else f + n - hand
  }

  ghost predicate Valid(s: State) {
    && s.hand < |s.frames|
    && s.frames[s.hand].marked
    && forall f, g | 0 <= f < g < |s.frames| :: s.frames[f].page != s.frames[g].page
  }

  function Marked(frames: seq<Frame>): nat {
    if frames == [] then 0
    else (if frames[|frames| - 1].marked then 1 else 0) + Marked(frames[..|frames| - 1])
  }

  function Dirty(frames: seq<Frame>): nat {
    if frames == [] then 0
    else (if frames[|frames| - 1].dirty then 1 else 0) + Dirty(frames[..|frames| - 1])
  }

  lemma {:induction false} MarkedAfterUpdate(frames: seq<Frame>, i: nat, x: Frame)
    requires i < |frames|
    ensures Marked(frames[i := x]) + (if frames[i].marked then 1 else 0)
         == Marked(frames) + (if x.marked then 1 else 0)
  {
    var last := |frames| - 1;
    if i < last {
      assert frames[i := x][..last] == frames[..last][i := x];
      MarkedAfterUpdate(frames[..last], i, x);
    } else {
      assert frames[i := x][..last] == frames[..last];
    }
  }

  lemma {:induction false} DirtyAfterUpdate(frames: seq<Frame>, i: nat, x: Frame)
    requires i < |frames|
    ensures Dirty(frames[i := x]) + (if frames[i].dirty then 1 else 0)
         == Dirty(frames) + (if x.dirty then 1 else 0)
  {
    var last := |frames| - 1;
    if i < last {
      assert frames[i := x][..last] == frames[..last][i := x];
      DirtyAfterUpdate(frames[..last], i, x);
    } else {
      assert frames[i := x][..last] == frames[..last];
    }
  }

  lemma {:induction false} MarkedAtMost(frames: seq<Frame>)
    ensures Marked(frames) <= |frames|
  {
    if frames != [] {
      MarkedAtMost(frames[..|frames| - 1]);
    }
  }

  function Unmark(frames: seq<Frame>, i: nat): seq<Frame>
    requires i < |frames|
  {
    frames[i := frames[i].(marked := false)]
  }

  /** Sweep forward from the hand, clearing marks, until an unmarked frame is under the hand. */
  function Scan(frames: seq<Frame>, hand: nat): (r: Scanned)
    requires hand < |frames|
    ensures |r.frames| == |frames| && r.hand < |frames|
    decreases Marked(frames)
  {
    if !frames[hand].marked then Scanned(frames, hand, 0)
    else
      MarkedAfterUpdate(frames, hand, frames[hand].(marked := false));
      var r := Scan(Unmark(frames, hand), Next(hand, |frames|));
      r.(moves := r.moves + 1)
  }

  /** What a scan does, stated without running it: with k the number of moves, the first k frames
      from the hand on were marked and are swept, nothing else changes, and the scan stops at the
      first unmarked frame, or back at its start when every frame was marked. */
  ghost predicate FirstUnmarked(frames: seq<Frame>, hand: nat, r: Scanned)
    requires hand < |frames|
  {
    var n := |frames|;
    && r.moves <= n
    && |r.frames| == n
    && r.hand == Ahead(hand, r.moves, n)
    && (forall i :: 0 <= i < r.moves ==> frames[Ahead(hand, i, n)].marked)
    && (r.moves < n ==> !frames[r.hand].marked)
    && (forall f :: 0 <= f < n ==>
          r.frames[f] == if Distance(hand, f, n) < r.moves then frames[f].(marked := false) else frames[f])
  }

  lemma {:induction false} ScanFindsFirstUnmarked(frames: seq<Frame>, hand: nat)
    requires hand < |frames|
    ensures FirstUnmarked(frames, hand, Scan(frames, hand))
  {
    ScanFrom(frames, frames, hand, 0);
  }

  /** The scan after its first k moves, relative to where it began. */
  lemma {:induction false} ScanFrom(start: seq<Frame>, frames: seq<Frame>, hand: nat, k: nat)
    requires |frames| == |start| && hand < |start| && k <= |start|
    requires forall i :: 0 <= i < k ==> start[Ahead(hand, i, |start|)].marked
    requires forall f :: 0 <= f < |start| ==>
               frames[f] == if Distance(hand, f, |start|) < k then start[f].(marked := false) else start[f]
    ensures var r := Scan(frames, Ahead(hand, k, |start|));
            FirstUnmarked(start, hand, r.(moves := k + r.moves))
    decreases |start| - k
  {
    var n := |start|;
    var at := Ahead(hand, k, n);
    assert Distance(hand, at, n) == if k < n then k else 0;
    if frames[at].marked {
      assert Next(at, n) == Ahead(hand, k + 1, n);
      assert start[Ahead(hand, k, n)].marked;
      ScanFrom(start, Unmark(frames, at), hand, k + 1);
    }
  }

  /** Replace the victim of a scan by `page`, which enters marked and clean under the hand. */
  function Fault(s: State, page: nat): State
    requires s.hand < |s.frames|
  {
    var r := Scan(s.frames, s.hand);
    State(r.frames[r.hand := Frame(page, true, false)], r.hand)
  }

  predicate Resident(s: State, page: nat) {
    exists f :: 0 <= f < |s.frames| && s.frames[f].page == page
  }

  ghost function FrameOf(s: State, page: nat): (f: nat)
    requires Resident(s, page)
    ensures f < |s.frames| && s.frames[f].page == page
  {
    var f :| 0 <= f < |s.frames| && s.frames[f].page == page;
    f
  }

  ghost function Touch(s: State, a: Access): State
    requires Resident(s, a.page)
  {
    var f := FrameOf(s, a.page);
    s.(frames := s.frames[f := Frame(a.page, true, s.frames[f].dirty || a.write)])
  }

  /** One access: fault the page in if it is absent, then mark it, and dirty it on a write. */
  ghost function Step(s: State, a: Access): State
    requires s.hand < |s.frames|
  {
    var t := if Resident(s, a.page) then s else Fault(s, a.page);
    assert !Resident(s, a.page) ==> t.frames[t.hand].page == a.page;
    Touch(t, a)
  }

  ghost function StepCost(s: State, a: Access): Cost
    requires s.hand < |s.frames|
  {
    if Resident(s, a.page) then Cost(0, 0)
    else
      var r := Scan(s.frames, s.hand);
      Cost(r.moves, if r.frames[r.hand].dirty then 1 else 0)
  }

  ghost function Run(s: State, accesses: seq<Access>): (t: State)
    requires s.hand < |s.frames|
    ensures t.hand < |t.frames|
  {
    if accesses == [] then s
    else Step(Run(s, accesses[..|accesses| - 1]), accesses[|accesses| - 1])
  }

  ghost function RunCost(s: State, accesses: seq<Access>): Cost
    requires s.hand < |s.frames|
  {
    if accesses == [] then Cost(0, 0)
    else
      var before := accesses[..|accesses| - 1];
      RunCost(s, before).Plus(StepCost(Run(s, before), accesses[|accesses| - 1]))
  }

  lemma RunOneMore(s: State, accesses: seq<Access>, i: nat)
    requires s.hand < |s.frames| && i < |accesses|
    ensures Run(s, accesses[..i + 1]) == Step(Run(s, accesses[..i]), accesses[i])
    ensures RunCost(s, accesses[..i + 1])
         == RunCost(s, accesses[..i]).Plus(StepCost(Run(s, accesses[..i]), accesses[i]))
  {
    assert accesses[..i + 1][..i] == accesses[..i];
  }

  function Writes(accesses: seq<Access>): nat {
    if accesses == [] then 0
    else Writes(accesses[..|accesses| - 1]) + (if accesses[|accesses| - 1].write then 1 else 0)
  }

  lemma ScanPages(s: State)
    requires Valid(s)
    ensures var r := Scan(s.frames, s.hand);
            && 1 <= r.moves
            && (forall f :: 0 <= f < |s.frames| ==> r.frames[f].page == s.frames[f].page)
  {
    ScanFindsFirstUnmarked(s.frames, s.hand);
  }

  /** Every access keeps the pages distinct and leaves the hand on a marked frame, so the next
      fault always moves the hand at least once. */
  lemma StepKeepsValid(s: State, a: Access)
    requires Valid(s)
    ensures Valid(Step(s, a)) && |Step(s, a).frames| == |s.frames|
    ensures Resident(Step(s, a), a.page)
  {
    ScanPages(s);
    var t := if Resident(s, a.page) then s else Fault(s, a.page);
    assert !Resident(s, a.page) ==> t.frames[t.hand].page == a.page;
    assert Valid(t);
    var f := FrameOf(t, a.page);
    assert Touch(t, a).frames[f].page == a.page;
  }

  lemma {:induction false} RunKeepsValid(s: State, accesses: seq<Access>)
    requires Valid(s)
    ensures Valid(Run(s, accesses)) && |Run(s, accesses).frames| == |s.frames|
  {
    if accesses != [] {
      RunKeepsValid(s, accesses[..|accesses| - 1]);
      StepKeepsValid(Run(s, accesses[..|accesses| - 1]), accesses[|accesses| - 1]);
    }
  }

  /** A scan pays one mark for every move and leaves the dirty bits alone. */
  lemma {:induction false} ScanSpendsMarks(frames: seq<Frame>, hand: nat)
    requires hand < |frames|
    ensures var r := Scan(frames, hand);
            && !r.frames[r.hand].marked
            && Marked(r.frames) + r.moves == Marked(frames)
            && Dirty(r.frames) == Dirty(frames)
    decreases Marked(frames)
  {
    if frames[hand].marked {
      var swept := frames[hand].(marked := false);
      MarkedAfterUpdate(frames, hand, swept);
      DirtyAfterUpdate(frames, hand, swept);
      ScanSpendsMarks(Unmark(frames, hand), Next(hand, |frames|));
    }
  }

  /** Amortised cost of one access: moves are paid by marks and flushes by dirty frames. */
  lemma StepPotential(s: State, a: Access)
    requires Valid(s)
    ensures Marked(Step(s, a).frames) + StepCost(s, a).moves <= Marked(s.frames) + 1
    ensures Dirty(Step(s, a).frames) + StepCost(s, a).flushes
         <= Dirty(s.frames) + (if a.write then 1 else 0)
  {
    ScanPages(s);
    var t := if Resident(s, a.page) then s else Fault(s, a.page);
    if !Resident(s, a.page) {
      var r := Scan(s.frames, s.hand);
      assert t.frames[t.hand].page == a.page;
      ScanSpendsMarks(s.frames, s.hand);
      MarkedAfterUpdate(r.frames, r.hand, Frame(a.page, true, false));
      DirtyAfterUpdate(r.frames, r.hand, Frame(a.page, true, false));
      assert FrameOf(t, a.page) == t.hand;
    }
    var f := FrameOf(t, a.page);
    var x := Frame(a.page, true, t.frames[f].dirty || a.write);
    MarkedAfterUpdate(t.frames, f, x);
    DirtyAfterUpdate(t.frames, f, x);
  }

  lemma {:induction false} RunPotential(s: State, accesses: seq<Access>)
    requires Valid(s)
    ensures Marked(Run(s, accesses).frames) + RunCost(s, accesses).moves
         <= Marked(s.frames) + |accesses|
    ensures Dirty(Run(s, accesses).frames) + RunCost(s, accesses).flushes
         <= Dirty(s.frames) + Writes(accesses)
  {
    if accesses != [] {
      var before := accesses[..|accesses| - 1];
      RunPotential(s, before);
      RunKeepsValid(s, before);
      StepPotential(Run(s, before), accesses[|accesses| - 1]);
    }
  }

  lemma {:induction false} CleanFrames(frames: seq<Frame>)
    requires forall f :: 0 <= f < |frames| ==> !frames[f].dirty
    ensures Dirty(frames) == 0
  {
    if frames != [] {
      CleanFrames(frames[..|frames| - 1]);
    }
  }

  /** Over any run of accesses from a clean start the hand moves at most once per access plus one
      turn, and no more pages are flushed than writes were made. */
  lemma AmortisedCost(s: State, accesses: seq<Access>)
    requires Valid(s)
    requires forall f :: 0 <= f < |s.frames| ==> !s.frames[f].dirty
    ensures RunCost(s, accesses).moves <= |s.frames| + |accesses|
    ensures RunCost(s, accesses).flushes <= Writes(accesses)
  {
    RunPotential(s, accesses);
    MarkedAtMost(s.frames);
    CleanFrames(s.frames);
  }

  /** A fault of a valid clock moves the hand between once and once round, and evicts the first
      unmarked page in ring order, or the one at the hand when all are marked. */
  lemma FaultEvictsFirstUnmarked(s: State, page: nat)
    requires Valid(s)
    ensures var n := |s.frames|;
            var k := Scan(s.frames, s.hand).moves;
            && 1 <= k <= n
            && (forall i :: 0 <= i < k ==> s.frames[Ahead(s.hand, i, n)].marked)
            && (k < n ==> !s.frames[Ahead(s.hand, k, n)].marked)
            && Fault(s, page).hand == Ahead(s.hand, k, n)
            && (forall f :: 0 <= f < n && f != Fault(s, page).hand ==>
                  Fault(s, page).frames[f].page == s.frames[f].page)
  {
    ScanFindsFirstUnmarked(s.frames, s.hand);
  }

  // ---------------------------------------------------------------- one access, stated without running it

  /** What one access does to a second-chance clock and what it costs. A resident page is marked where it is,
      dirtied by a write, and nothing else changes. For an absent page the hand moves past marked frames, at
      least one, to the first unmarked one, or once round; the frames it passed lose their marks; and the page
      takes the place of the one there, marked, dirty exactly on a write, with a flush if that one was dirty. */
  ghost predicate SecondChance(s: State, a: Access, t: State, c: Cost)
    requires s.hand < |s.frames|
  {
    var n := |s.frames|;
    && |t.frames| == n && t.hand < n
    && (Resident(s, a.page) ==>
          && t.hand == s.hand && c == Cost(0, 0)
          && forall f :: 0 <= f < n ==>
               t.frames[f] == if s.frames[f].page == a.page then Frame(a.page, true, s.frames[f].dirty || a.write)
                              else s.frames[f])
    && (!Resident(s, a.page) ==>
          && 1 <= c.moves <= n && t.hand == Ahead(s.hand, c.moves, n)
          && (forall i :: 0 <= i < c.moves ==> s.frames[Ahead(s.hand, i, n)].marked)
          && (c.moves < n ==> !s.frames[t.hand].marked)
          && (forall f :: 0 <= f < n ==>
                t.frames[f] == if f == t.hand then Frame(a.page, true, a.write)
                               else if Distance(s.hand, f, n) < c.moves then s.frames[f].(marked := false)
                               else s.frames[f])
          && c.flushes == if s.frames[t.hand].dirty then 1 else 0)
  }

  /** A step is such an access. */
  lemma StepIsSecondChance(s: State, a: Access)
    requires Valid(s)
    ensures SecondChance(s, a, Step(s, a), StepCost(s, a))
  {
    ScanFindsFirstUnmarked(s.frames, s.hand);
    ScanPages(s);
    if Resident(s, a.page) {
      HitMarks(s, a);
    } else {
      var t := Fault(s, a.page);
      assert t.frames[t.hand].page == a.page;
      assert FrameOf(t, a.page) == t.hand;
    }
  }

  lemma HitMarks(s: State, a: Access)
    requires Valid(s) && Resident(s, a.page)
    ensures Step(s, a).hand == s.hand && |Step(s, a).frames| == |s.frames|
    ensures forall f :: 0 <= f < |s.frames| ==>
              var x := s.frames[f];
              Step(s, a).frames[f] == if x.page == a.page then Frame(a.page, true, x.dirty || a.write) else x
  {
    var g := FrameOf(s, a.page);
    assert forall f :: 0 <= f < |s.frames| && s.frames[f].page == a.page ==> f == g;
  }

  /** Nothing else is: the new clock and the cost are determined. */
  lemma SecondChanceIsStep(s: State, a: Access, t: State, c: Cost)
    requires Valid(s) && SecondChance(s, a, t, c)
    ensures t == Step(s, a) && c == StepCost(s, a)
  {
    StepIsSecondChance(s, a);
    var k := StepCost(s, a).moves;
    if !Resident(s, a.page) {
      assert k == c.moves;
    }
    assert t.frames == Step(s, a).frames;
  }

  /** Accesses one after the other, with their costs added up. */
  ghost predicate SecondChances(s: State, accesses: seq<Access>, t: State, c: Cost)
    decreases |accesses|
  {
    if accesses == [] then t == s && c == Cost(0, 0)
    else
      var last := |accesses| - 1;
      exists u, c1: Cost, c2: Cost ::
        && SecondChances(s, accesses[..last], u, c1) && u.hand < |u.frames| && SecondChance(u, accesses[last], t, c2)
        && c == Cost(c1.moves + c2.moves, c1.flushes + c2.flushes)
  }

  lemma {:induction false} RunIsSecondChances(s: State, accesses: seq<Access>)
    requires Valid(s)
    ensures SecondChances(s, accesses, Run(s, accesses), RunCost(s, accesses))
  {
    if accesses != [] {
      var last := |accesses| - 1;
      RunIsSecondChances(s, accesses[..last]);
      RunKeepsValid(s, accesses[..last]);
      StepIsSecondChance(Run(s, accesses[..last]), accesses[last]);
    }
  }
}
