/** The wait of an evicting client for its in-flight operations, on the nested loops of the source and
    with everything else going on meanwhile.

    `look(t)` is what there is to see when the scan takes its t-th look: the slot each busy context targets,
    and which slots are mapped. Between two looks operations may end and others start, and slots may be
    mapped, but none is unmapped and no operation starts on a slot that is not mapped.
 */
module DrainScan {

  /** A context: its queue and its place in the queue's pool. */
  datatype Place = Place(queue: nat, index: nat)

  datatype Look = Look(flight: map<Place, nat>, chunkMap: seq<int>)

  ghost predicate OnMapped(l: Look, x: Place) {
    x in l.flight ==> l.flight[x] < |l.chunkMap| && l.chunkMap[l.flight[x]] != -1
  }

  /** What may happen between two looks. */
  ghost predicate Meanwhile(l: Look, l': Look) {
    && |l'.chunkMap| == |l.chunkMap|
    && (forall i :: 0 <= i < |l.chunkMap| && l.chunkMap[i] != -1 ==> l'.chunkMap[i] != -1)
    && (forall x :: x in l'.flight && !(x in l.flight && l.flight[x] == l'.flight[x]) ==> OnMapped(l', x))
  }

  ghost predicate Rely(look: nat -> Look) {
    && (forall t: nat :: Meanwhile(look(t), look(t + 1)))
    && (forall t: nat, x :: x in look(t).flight ==> look(t).flight[x] < |look(t).chunkMap|)
  }

  /** What the scan has passed stays good while it goes on. */
  lemma PassedStaysGood(look: nat -> Look, t: nat, x: Place)
    requires Rely(look) && OnMapped(look(t), x)
    ensures OnMapped(look(t + 1), x)
  {
    assert Meanwhile(look(t), look(t + 1));
  }

  ghost predicate Passed(l: Look, i: nat, j: nat, depth: nat) {
    forall x: Place :: x.index < depth && (x.queue < i || (x.queue == i && x.index < j)) ==> OnMapped(l, x)
  }

  lemma StillPassed(look: nat -> Look, t: nat, i: nat, j: nat, depth: nat)
    requires Rely(look) && Passed(look(t), i, j, depth)
    ensures Passed(look(t + 1), i, j, depth)
  {
    forall x: Place | x.index < depth && (x.queue < i || (x.queue == i && x.index < j))
      ensures OnMapped(look(t + 1), x)
    {
      PassedStaysGood(look, t, x);
    }
  }

  lemma {:induction false} PassedForGood(look: nat -> Look, t: nat, u: nat, i: nat, depth: nat)
    requires Rely(look) && Passed(look(t), i, 0, depth) && t <= u
    ensures Passed(look(u), i, 0, depth)
    decreases u - t
  {
    if t < u {
      PassedForGood(look, t, u - 1, i, depth);
      StillPassed(look, u - 1, i, 0, depth);
    }
  }

  /** One pass over all contexts, given up at the first busy one on an unmapped slot. */
  method Pass(look: nat -> Look, queues: nat, depth: nat, start: nat) returns (t: nat, done: bool)
    requires Rely(look)
    ensures start <= t
    ensures done ==> Passed(look(t), queues, 0, depth)
    ensures !done ==> exists x: Place :: x.queue < queues && x.index < depth && !OnMapped(look(t), x)
  {
    t := start;
    var i := 0;
    while i < queues
      invariant 0 <= i <= queues && start <= t && Passed(look(t), i, 0, depth)
    {
      var j := 0;
      while j < depth
        invariant 0 <= j <= depth && start <= t && Passed(look(t), i, j, depth)
      {
        StillPassed(look, t, i, j, depth);
        t := t + 1;
        var x := Place(i, j);
        if x in look(t).flight && look(t).chunkMap[look(t).flight[x]] == -1 {
          return t, false;
        }
        j := j + 1;
      }
      i := i + 1;
    }
    done := true;
  }

  /** IS_chunk_wait_in_flight_requests: passes until one gets through. From its return on, no context in
      flight targets an unmapped slab, although each was looked at at a different moment. */
  method WaitInFlight(look: nat -> Look, queues: nat, depth: nat, patience: nat) returns (t: nat, done: bool)
    requires Rely(look)
    ensures done ==> forall u: nat, x: Place :: t <= u && x.queue < queues && x.index < depth && x in look(u).flight ==>
              look(u).flight[x] < |look(u).chunkMap| && look(u).chunkMap[look(u).flight[x]] != -1
    ensures !done && patience > 0 ==>
              exists x: Place :: x.queue < queues && x.index < depth && !OnMapped(look(t), x)
  {
    t, done := 0, false;
    var tries := 0;
    while !done && tries < patience
      invariant done ==> Passed(look(t), queues, 0, depth)
      invariant !done && tries > 0 ==>
                  exists x: Place :: x.queue < queues && x.index < depth && !OnMapped(look(t), x)
      decreases patience - tries, !done
    {
      t, done := Pass(look, queues, depth, t);
      tries := tries + 1;
    }
    if done {
      forall u: nat, x: Place | t <= u && x.queue < queues && x.index < depth && x in look(u).flight
        ensures look(u).flight[x] < |look(u).chunkMap| && look(u).chunkMap[look(u).flight[x]] != -1
      {
        PassedForGood(look, t, u, queues, depth);
        assert OnMapped(look(u), x);
      }
    }
  }
}
