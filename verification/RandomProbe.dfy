/** The wrap-around probe with which the daemon draws slabs to evict and the client draws servers to
    query: start anywhere, step forward until an eligible entry is found, and mark it taken.
 */
module RandomProbe {
  import opened Clock

  const ELIGIBLE: int := 0
  const TAKEN: int := 1

  function Eligible(flags: seq<int>): set<nat> {
    set i: nat | i < |flags| && flags[i] == ELIGIBLE
  }

  /** From every draw the probe stops, at the first eligible entry from there on. */
  method Probe(flags: array<int>, draw: nat) returns (r: nat)
    requires 0 < flags.Length && Eligible(flags[..]) != {}
    modifies flags
    ensures r < flags.Length && old(flags[r]) == ELIGIBLE
    ensures flags[..] == old(flags[..])[r := TAKEN]
    ensures forall d: nat :: d < Distance(draw % flags.Length, r, flags.Length) ==>
              old(flags[Ahead(draw % flags.Length, d, flags.Length)]) != ELIGIBLE
  {
    var n := flags.Length;
    ghost var w :| w in Eligible(flags[..]);
    r := draw % n;
    ghost var start := r;
    ghost var steps: nat := 0;
    while flags[r] != ELIGIBLE
      invariant r < n && steps < n && r == Ahead(start, steps, n)
      invariant forall d: nat :: d < steps ==> flags[Ahead(start, d, n)] != ELIGIBLE
      invariant steps <= Distance(start, w, n)
      modifies {}
      decreases Distance(start, w, n) - steps
    {
      r := if r + 1 == n then 0 else r + 1;
      steps := steps + 1;
    }
    flags[r] := TAKEN;
  }

  lemma TakeOne(flags: seq<int>, r: nat)
    requires r < |flags| && flags[r] == ELIGIBLE
    ensures Eligible(flags[r := TAKEN]) == Eligible(flags) - {r}
    ensures |Eligible(flags[r := TAKEN])| == |Eligible(flags)| - 1
  {
    assert Eligible(flags[r := TAKEN]) == Eligible(flags) - {r};
  }

  /** Drawing `count` entries, whatever the draws, takes that many different eligible ones. */
  method Draw(flags: array<int>, count: nat, draws: nat -> nat) returns (picked: seq<nat>)
    requires count <= |Eligible(flags[..])|
    modifies flags
    ensures |picked| == count
    ensures forall i :: 0 <= i < count ==> picked[i] in Eligible(old(flags[..]))
    ensures forall i, j :: 0 <= i < j < count ==> picked[i] != picked[j]
    ensures forall i: nat :: i < flags.Length ==> flags[i] == if i in picked then TAKEN else old(flags[i])
  {
    picked := [];
    var j := 0;
    while j < count
      invariant 0 <= j <= count && |picked| == j
      invariant |Eligible(flags[..])| == |Eligible(old(flags[..]))| - j
      invariant forall i :: 0 <= i < j ==> picked[i] in Eligible(old(flags[..]))
      invariant forall i, k :: 0 <= i < k < j ==> picked[i] != picked[k]
      invariant forall i: nat :: i < flags.Length ==> flags[i] == if i in picked then TAKEN else old(flags[i])
      modifies flags
    {
      assert Eligible(flags[..]) != {};
      ghost var before := flags[..];
      assert flags.Length > 0 by {
        var w :| w in Eligible(flags[..]);
      }
      var r := Probe(flags, draws(j));
      TakeOne(before, r);
      assert r !in picked;
      picked := picked + [r];
      j := j + 1;
    }
  }
}
