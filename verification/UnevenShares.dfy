/** When the victims of an eviction round can fall unevenly on the connections, said of the daemon's table before
    the round.
 */
module UnevenShares {
  import opened Counting
  import opened DaemonTables

  /** A connection's share of the victims. */
  function ShareOf(owner: seq<int>, victims: set<nat>, k: int): set<nat> {
    victims * OwnedBy(owner, k)
  }

  /** Each connection's share of the victims is of the same size, or none. */
  ghost predicate EvenShares(owner: seq<int>, victims: set<nat>) {
    forall k: nat, l: nat :: ShareOf(owner, victims, k) != {} && ShareOf(owner, victims, l) != {} ==>
      |ShareOf(owner, victims, k)| == |ShareOf(owner, victims, l)|
  }

  /** All mapped slabs are one connection's. */
  ghost predicate OneHolder(owner: seq<int>) {
    forall i, j :: 0 <= i < |owner| && 0 <= j < |owner| && owner[i] != -1 && owner[j] != -1 ==> owner[i] == owner[j]
  }

  /** No connection has two slabs. */
  ghost predicate OneEach(owner: seq<int>) {
    forall i, j :: 0 <= i < j < |owner| && owner[i] != -1 ==> owner[i] != owner[j]
  }

  /** Whether some `goal` mapped slabs fall unevenly on the connections: three at least, of several holders, and
      either all that are mapped, held in different numbers, or not all, with some holder of two. */
  ghost predicate MayBeUneven(owner: seq<int>, goal: nat) {
    && goal >= 3 && !OneHolder(owner)
    && (goal == |Mapped(owner)| ==> !EvenShares(owner, Mapped(owner)))
    && (goal < |Mapped(owner)| ==> !OneEach(owner))
  }

  // ---------------------------------------------------------------- otherwise they fall evenly

  lemma SharesApart(owner: seq<int>, victims: set<nat>, k: int, l: int)
    requires k != l
    ensures ShareOf(owner, victims, k) !! ShareOf(owner, victims, l)
    ensures |ShareOf(owner, victims, k)| + |ShareOf(owner, victims, l)| <= |victims|
  {
    var a, b := ShareOf(owner, victims, k), ShareOf(owner, victims, l);
    DisjointCount(a, b);
    SubsetCount(a + b, victims);
  }

  lemma EvenWithOneHolder(owner: seq<int>, victims: set<nat>)
    requires victims <= Mapped(owner) && OneHolder(owner)
    ensures EvenShares(owner, victims)
  {
    forall k: nat, l: nat | ShareOf(owner, victims, k) != {} && ShareOf(owner, victims, l) != {} ensures k == l {
      var i :| i in ShareOf(owner, victims, k);
      var j :| j in ShareOf(owner, victims, l);
    }
  }

  lemma EvenWithTwo(owner: seq<int>, victims: set<nat>)
    requires |victims| <= 2
    ensures EvenShares(owner, victims)
  {
    forall k: nat, l: nat | ShareOf(owner, victims, k) != {} && ShareOf(owner, victims, l) != {}
      ensures |ShareOf(owner, victims, k)| == |ShareOf(owner, victims, l)|
    {
      if k != l {
        SharesApart(owner, victims, k, l);
      }
    }
  }

  lemma EvenWithOneEach(owner: seq<int>, victims: set<nat>)
    requires OneEach(owner)
    ensures EvenShares(owner, victims)
  {
    forall k: nat | ShareOf(owner, victims, k) != {} ensures |ShareOf(owner, victims, k)| == 1 {
      var i :| i in ShareOf(owner, victims, k);
      assert ShareOf(owner, victims, k) == {i};
    }
  }

  lemma EvenOtherwise(owner: seq<int>, victims: set<nat>)
    requires victims <= Mapped(owner) && !MayBeUneven(owner, |victims|)
    ensures EvenShares(owner, victims)
  {
    SubsetCount(victims, Mapped(owner));
    if |victims| < 3 {
      EvenWithTwo(owner, victims);
    } else if OneHolder(owner) {
      EvenWithOneHolder(owner, victims);
    } else if |victims| == |Mapped(owner)| {
      assert Mapped(owner) == victims + (Mapped(owner) - victims);
      assert victims == Mapped(owner);
    } else {
      EvenWithOneEach(owner, victims);
    }
  }

  // ---------------------------------------------------------------- a choice that is uneven

  /** A set of the wanted size between two sets. */
  lemma {:induction false} Extend(base: set<nat>, all: set<nat>, n: nat) returns (r: set<nat>)
    requires base <= all && |base| <= n <= |all|
    ensures base <= r <= all && |r| == n
    decreases n - |base|
  {
    SubsetCount(base, all);
    if |base| == n {
      r := base;
    } else {
      var x :| x in all - base;
      r := Extend(base + {x}, all, n);
    }
  }

  /** Two slabs of one holder and one of another. */
  lemma ThreeSlabs(owner: seq<int>) returns (i: nat, j: nat, u: nat)
    requires !OneHolder(owner) && !OneEach(owner)
    ensures i < |owner| && j < |owner| && u < |owner| && i != j && owner[i] == owner[j] != -1
    ensures owner[u] != -1 && owner[u] != owner[i]
  {
    var a, b :| 0 <= a < b < |owner| && owner[a] != -1 && owner[a] == owner[b];
    i, j := a, b;
    var c, d :| 0 <= c < |owner| && 0 <= d < |owner| && owner[c] != -1 && owner[d] != -1 && owner[c] != owner[d];
    u := if owner[c] == owner[i] then d else c;
  }

  /** One victim is exchanged for another slab, of another holder. */
  lemma Exchange(owner: seq<int>, victims: set<nat>, z: nat, w: nat, p: int)
    requires z in victims && w !in victims && z < |owner| && w < |owner| && owner[z] == p != owner[w]
    ensures |victims - {z} + {w}| == |victims|
    ensures |ShareOf(owner, victims - {z} + {w}, p)| == |ShareOf(owner, victims, p)| - 1
    ensures forall r: int :: r != p ==> ShareOf(owner, victims, r) <= ShareOf(owner, victims - {z} + {w}, r)
    ensures |ShareOf(owner, victims - {z} + {w}, owner[w])| == |ShareOf(owner, victims, owner[w])| + 1
  {
    var v' := victims - {z} + {w};
    assert ShareOf(owner, v', p) == ShareOf(owner, victims, p) - {z};
    assert ShareOf(owner, v', owner[w]) == ShareOf(owner, victims, owner[w]) + {w};
  }

  /** Even victims of several holders, two or more from each, become uneven by exchanging one for a slab that
      was left alone. */
  lemma UnevenByExchange(owner: seq<int>, victims: set<nat>, g: nat, h: nat, w: nat) returns (r: set<nat>)
    requires victims <= Mapped(owner) && w in Mapped(owner) - victims && EvenShares(owner, victims) && g != h
    requires |ShareOf(owner, victims, h)| >= 2 && ShareOf(owner, victims, g) != {}
    requires forall i :: 0 <= i < |owner| ==> owner[i] >= -1
    ensures r <= Mapped(owner) && |r| == |victims| && !EvenShares(owner, r)
  {
    var p := if owner[w] == h then g else h;
    var o := if owner[w] == h then h else g;
    assert |ShareOf(owner, victims, g)| == |ShareOf(owner, victims, h)|;
    var z :| z in ShareOf(owner, victims, p);
    Exchange(owner, victims, z, w, p);
    r := victims - {z} + {w};
    SubsetCount(ShareOf(owner, victims, o), ShareOf(owner, r, o));
    assert |ShareOf(owner, r, p)| < |ShareOf(owner, r, o)|;
  }

  lemma UnevenOfSome(owner: seq<int>, goal: nat) returns (r: set<nat>)
    requires 3 <= goal < |Mapped(owner)| && !OneHolder(owner) && !OneEach(owner)
    requires forall i :: 0 <= i < |owner| ==> owner[i] >= -1
    ensures r <= Mapped(owner) && |r| == goal && !EvenShares(owner, r)
  {
    var i, j, u := ThreeSlabs(owner);
    assert |{i, j, u}| == 3;
    var base := Extend({i, j, u}, Mapped(owner), goal);
    if !EvenShares(owner, base) {
      r := base;
    } else {
      SubsetCount(base, Mapped(owner));
      var w :| w in Mapped(owner) - base;
      assert {i, j} <= ShareOf(owner, base, owner[i]) && u in ShareOf(owner, base, owner[u]);
      SubsetCount({i, j}, ShareOf(owner, base, owner[i]));
      r := UnevenByExchange(owner, base, owner[u], owner[i], w);
    }
  }

  /** Some slabs of that number fall unevenly on the connections exactly when the table allows it. */
  lemma UnevenExactlyWhen(owner: seq<int>, goal: nat)
    requires goal <= |Mapped(owner)| && forall i :: 0 <= i < |owner| ==> owner[i] >= -1
    ensures MayBeUneven(owner, goal) <==>
              exists victims :: victims <= Mapped(owner) && |victims| == goal && !EvenShares(owner, victims)
  {
    if MayBeUneven(owner, goal) {
      if goal == |Mapped(owner)| {
        assert Mapped(owner) <= Mapped(owner);
      } else {
        var r := UnevenOfSome(owner, goal);
      }
    }
    forall victims | victims <= Mapped(owner) && |victims| == goal && !EvenShares(owner, victims)
      ensures MayBeUneven(owner, goal)
    {
      if !MayBeUneven(owner, goal) {
        EvenOtherwise(owner, victims);
      }
    }
  }
}
