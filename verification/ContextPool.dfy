/** The free stack of RDMA contexts that belongs to one queue and one server. */
module ContextPool {
  import opened BackupDisk
  import opened Counting

  const QUEUE_DEPTH: nat := 256     // IS_QUEUE_DEPTH

  function Members(s: seq<nat>): set<nat> {
    if s == [] then {} else Members(s[..|s| - 1]) + {s[|s| - 1]}
  }

  lemma {:induction false} MembersAre(s: seq<nat>)
    ensures forall x :: x in Members(s) <==> x in s
  {
    if s != [] {
      MembersAre(s[..|s| - 1]);
      assert s == s[..|s| - 1] + [s[|s| - 1]];
    }
  }

  lemma {:induction false} MembersCount(s: seq<nat>)
    requires forall i, j :: 0 <= i < j < |s| ==> s[i] != s[j]
    ensures |Members(s)| == |s|
  {
    if s != [] {
      MembersCount(s[..|s| - 1]);
      MembersAre(s[..|s| - 1]);
      assert s[|s| - 1] !in s[..|s| - 1];
    }
  }

  lemma LiveAndHeld(live: seq<nat>, held: set<nat>, n: nat)
    requires forall i, j :: 0 <= i < j < |live| ==> live[i] != live[j]
    requires forall c :: c in live ==> c < n
    requires forall c :: c in held ==> c < n
    requires forall c: nat :: c < n ==> (c in held <==> c !in live)
    ensures |live| + |held| == n
  {
    MembersAre(live);
    MembersCount(live);
    assert Members(live) + held == Below(n);
    assert Members(live) !! held;
  }

  class FreeContexts {
    const list: array<nat>           // ctx_list
    var tail: int
    ghost var held: set<nat>         // contexts in the hands of an operation

    function Live(): seq<nat>
      requires -1 <= tail < list.Length
      reads this, list
    {
      list[..tail + 1]
    }

    /** Every context is exactly once on the stack, or else held. */
    ghost predicate Valid()
      reads this, list
    {
      && list.Length == QUEUE_DEPTH && -1 <= tail < QUEUE_DEPTH
      && (forall i, j :: 0 <= i < j <= tail ==> list[i] != list[j])
      && (forall c: nat :: c < QUEUE_DEPTH ==> (c in held <==> c !in Live()))
      && (forall i :: 0 <= i <= tail ==> list[i] < QUEUE_DEPTH)
      && (forall c :: c in held ==> c < QUEUE_DEPTH)
    }

    /** The contexts on the stack and those held are all of them, so the stack has room for what is
        held. */
    lemma Balance()
      requires Valid()
      ensures tail + 1 + |held| == QUEUE_DEPTH
    {
      LiveAndHeld(Live(), held, QUEUE_DEPTH);
    }

    constructor ()
      ensures Valid() && fresh(list) && held == {} && tail == QUEUE_DEPTH - 1
    {
      list := new nat[QUEUE_DEPTH](i => i);
      tail := QUEUE_DEPTH - 1;
      held := {};
      new;
      forall c: nat | c < QUEUE_DEPTH ensures c in Live() {
        assert Live()[c] == c;
      }
    }

    /** IS_get_ctx: none when the stack is empty, that is, when every context is held. */
    method Get() returns (c: int)
      requires Valid()
      modifies this`tail, this`held
      ensures Valid()
      ensures c == -1 <==> |old(held)| == QUEUE_DEPTH
      ensures c == -1 ==> held == old(held) && tail == old(tail)
      ensures c != -1 ==> 0 <= c && c !in old(held) && held == old(held) + {c as nat} && Live() == old(Live()[..tail])
    {
      Balance();
      if tail == -1 {
        c := -1;
      } else {
        c := list[tail];
        ghost var live := Live();
        tail := tail - 1;
        held := held + {c as nat};
        assert live == Live() + [c];
        forall x: nat | x < QUEUE_DEPTH ensures x in held <==> x !in Live() {
          assert x in live <==> x in Live() || x == c;
        }
      }
    }

    /** IS_insert_ctx: giving back a held context never runs past the end of the list. */
    method Insert(c: nat)
      requires Valid() && c in held
      modifies this`tail, this`held, list
      ensures Valid() && held == old(held) - {c} && Live() == old(Live()) + [c]
      ensures tail <= QUEUE_DEPTH - 1
    {
      Balance();
      ghost var live := Live();
      tail := tail + 1;
      list[tail] := c;
      held := held - {c};
      assert Live() == live + [c];
    }
  }

  // ---------------------------------------------------------------- the stack and the device

  /** The stack of server d holds the contexts the device has free. */
  ghost predicate Mirrors(live: seq<nat>, dev: Dev, d: nat) {
    forall c: nat :: c < QUEUE_DEPTH ==> (c in live <==> Ctx(d, c) in dev.free)
  }

  /** A context that is not on the stack is held by an operation: a read in flight, or a write whose disk
      copy is queued; one on the stack is held by none. */
  lemma HeldByOperation(live: seq<nat>, dev: Dev, d: nat, c: nat)
    requires Inv(dev) && Mirrors(live, dev, d) && c < QUEUE_DEPTH && Ctx(d, c) in dev.pool
    ensures c !in live <==> (Ctx(d, c) in dev.flight && dev.flight[Ctx(d, c)].ReadOp?) || Queued(dev.fifo, Ctx(d, c))
  {
    ContextInOnePlace(dev, Ctx(d, c));
  }

  /** Taking the top of the stack for an operation keeps it in step with the device. */
  lemma TakeMirrors(live: seq<nat>, dev: Dev, d: nat, slot: nat, start: nat, data: seq<Page>)
    requires live != [] && Mirrors(live, dev, d)
    requires forall i, j :: 0 <= i < j < |live| ==> live[i] != live[j]
    ensures var rest := live[..|live| - 1];
            var ctx := Ctx(d, live[|live| - 1]);
            Mirrors(rest, RdmaWrite(dev, ctx, slot, start, data), d) &&
            Mirrors(rest, RdmaRead(dev, ctx, slot, start), d)
  {
    var n := |live| - 1;
    assert live == live[..n] + [live[n]];
    assert live[n] !in live[..n];
  }

  /** So does giving it back when a read is done, and when the disk has the copy of a write. */
  lemma GiveMirrors(live: seq<nat>, dev: Dev, d: nat, c: nat, value: Page)
    requires Mirrors(live, dev, d)
    ensures Mirrors(live + [c], ReadDone(dev, Ctx(d, c), value), d)
    ensures dev.fifo != [] && dev.fifo[0].CtxBio? && dev.fifo[0].ctx == Ctx(d, c) &&
            (forall w :: w in BioWrites(dev.fifo[0], dev.buf) ==> w.page < |dev.disk|) ==>
              Mirrors(live + [c], Pop(dev), d)
  {
  }
}
