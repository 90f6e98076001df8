/** Choosing a server for a session slab: query some available ones, bind to the one with most free
    memory.
 */
module ServerChoice {
  import opened Counting
  import opened RandomProbe

  datatype ServerState = Idle | Connected | MappedState | Evicting | Failed

  predicate Available(s: ServerState) {
    s.Idle? || s.Connected? || s.MappedState?
  }

  function AvailableServers(states: seq<ServerState>): set<nat> {
    set i: nat | i < |states| && Available(states[i])
  }

  /** The available servers in order, when there are no more than may be asked. */
  method SelectAll(states: seq<ServerState>) returns (selection: seq<nat>)
    ensures forall i :: i in selection <==> i in AvailableServers(states)
    ensures forall i, j :: 0 <= i < j < |selection| ==> selection[i] < selection[j]
  {
    selection := [];
    var i := 0;
    while i < |states|
      invariant 0 <= i <= |states|
      invariant forall k :: k in selection <==> k in AvailableServers(states) && k < i
      invariant forall k :: 0 <= k < |selection| ==> selection[k] < i
      invariant forall k, j :: 0 <= k < j < |selection| ==> selection[k] < selection[j]
    {
      if Available(states[i]) {
        selection := selection + [i];
      }
      i := i + 1;
    }
  }

  /** Which servers to query: all available ones, or `limit` different ones drawn at random. */
  method Select(states: seq<ServerState>, limit: nat, draws: nat -> nat) returns (selection: seq<nat>)
    ensures forall i :: 0 <= i < |selection| ==> selection[i] in AvailableServers(states)
    ensures forall i, j :: 0 <= i < j < |selection| ==> selection[i] != selection[j]
    ensures |AvailableServers(states)| <= limit ==> forall i :: i in AvailableServers(states) ==> i in selection
    ensures |AvailableServers(states)| > limit ==> |selection| == limit
  {
    var flags := new int[|states|];
    var avail := |states|;
    ghost var unavailable: set<nat> := {};
    var i := 0;
    while i < |states|
      invariant 0 <= i <= |states| && avail == |states| - |unavailable|
      invariant forall k: nat :: k in unavailable <==> k < i && !Available(states[k])
      invariant forall k :: 0 <= k < i ==> flags[k] == if Available(states[k]) then ELIGIBLE else -1
      modifies flags
    {
      if Available(states[i]) {
        flags[i] := ELIGIBLE;
      } else {
        flags[i] := -1;
        avail := avail - 1;
        unavailable := unavailable + {i};
      }
      i := i + 1;
    }
    AvailableCount(states, unavailable);
    if avail <= limit {
      selection := SelectAll(states);
    } else {
      assert Eligible(flags[..]) == AvailableServers(states);
      selection := Draw(flags, limit, draws);
    }
  }

  lemma AvailableCount(states: seq<ServerState>, unavailable: set<nat>)
    requires forall k: nat :: k in unavailable <==> k < |states| && !Available(states[k])
    ensures |AvailableServers(states)| == |states| - |unavailable|
  {
    assert AvailableServers(states) + unavailable == Below(|states|);
    assert AvailableServers(states) !! unavailable;
  }

  // ---------------------------------------------------------------- the one with most memory

  function Pairs(mem: seq<int>, server: seq<int>): (r: seq<(int, int)>)
    requires |mem| == |server|
    ensures |r| == |mem| && forall i :: 0 <= i < |r| ==> r[i] == (mem[i], server[i])
  {
    seq(|mem|, i requires 0 <= i < |mem| => (mem[i], server[i]))
  }

  lemma PairsSwapped(mem: seq<int>, server: seq<int>, mem': seq<int>, server': seq<int>, j: nat)
    requires |mem| == |server| && 0 < j < |mem|
    requires mem' == mem[0 := mem[j]][j := mem[0]] && server' == server[0 := server[j]][j := server[0]]
    ensures multiset(Pairs(mem', server')) == multiset(Pairs(mem, server))
  {
    var p := Pairs(mem, server);
    assert Pairs(mem', server') == p[0 := p[j]][j := p[0]];
  }

  /** The source's exchange of two entries without a temporary. */
  method Exchange(a: array<int>, j: nat)
    requires 0 < j < a.Length
    modifies a
    ensures a[..] == old(a[..][0 := a[j]][j := a[0]])
  {
    a[0] := a[0] + a[j];
    a[j] := a[0] - a[j];
    a[0] := a[0] - a[j];
  }

  /** The largest amount comes first, and every amount stays with its server. */
  method BringMost(mem: array<int>, server: array<int>)
    requires mem.Length == server.Length && mem.Length > 0 && mem != server
    modifies mem, server
    ensures multiset(Pairs(mem[..], server[..])) == old(multiset(Pairs(mem[..], server[..])))
    ensures forall i :: 0 <= i < mem.Length ==> mem[i] <= mem[0]
  {
    var j := 1;
    while j < mem.Length
      invariant 1 <= j <= mem.Length
      invariant multiset(Pairs(mem[..], server[..])) == old(multiset(Pairs(mem[..], server[..])))
      invariant forall i :: 0 <= i < j ==> mem[i] <= mem[0]
    {
      if mem[0] < mem[j] {
        ghost var m, s := mem[..], server[..];
        Exchange(mem, j);
        Exchange(server, j);
        PairsSwapped(m, s, mem[..], server[..], j);
      }
      j := j + 1;
    }
  }

  /** The server has the most of the queried ones, and not zero; or there is none, when nothing was queried or the
      most is zero. */
  ghost predicate Chosen(server: int, queried: seq<nat>, answers: seq<int>) {
    && (forall i :: i in queried ==> i < |answers|)
    && (server == -1 || server in queried)
    && (server != -1 ==> answers[server] != 0 && forall i :: i in queried ==> answers[i] <= answers[server])
    && (server == -1 ==>
          queried == [] || exists i :: i in queried && answers[i] == 0 && forall k :: k in queried ==> answers[k] <= 0)
  }

  /** The decision of IS_single_chunk_map, given what each server answers to a query: bind to a queried
      server of maximal free memory, or to none when nothing is available or the maximum is zero. */
  method ChooseServer(states: seq<ServerState>, limit: nat, draws: nat -> nat, answers: seq<int>)
    returns (server: int, queried: seq<nat>)
    requires |answers| == |states|
    ensures forall i :: 0 <= i < |queried| ==> queried[i] in AvailableServers(states)
    ensures forall i, j :: 0 <= i < j < |queried| ==> queried[i] != queried[j]
    ensures |AvailableServers(states)| <= limit ==> forall i :: i in AvailableServers(states) ==> i in queried
    ensures |AvailableServers(states)| > limit ==> |queried| == limit
    ensures Chosen(server, queried, answers)
  {
    var selection := Select(states, limit, draws);
    queried := selection;
    var k := |selection|;
    if k == 0 {
      return -1, queried;
    }
    var mem := new int[k](i requires 0 <= i < k => if selection[i] < |answers| then answers[selection[i]] else 0);
    var who := new int[k](i requires 0 <= i < k => selection[i]);
    ghost var asked := Pairs(mem[..], who[..]);
    BringMost(mem, who);
    BestAnswer(asked, Pairs(mem[..], who[..]), selection, answers);
    server := if mem[0] == 0 then -1 else who[0];
  }

  /** The first pair after the exchanges is a queried server with its answer, and none is larger. */
  lemma BestAnswer(asked: seq<(int, int)>, sorted: seq<(int, int)>, selection: seq<nat>, answers: seq<int>)
    requires multiset(asked) == multiset(sorted) && |asked| == |selection| && |sorted| > 0
    requires forall i :: 0 <= i < |selection| ==>
             selection[i] < |answers| && asked[i] == (answers[selection[i]], selection[i])
    requires forall i :: 0 <= i < |sorted| ==> sorted[i].0 <= sorted[0].0
    ensures sorted[0].1 in selection && sorted[0].0 == answers[sorted[0].1]
    ensures forall i :: i in selection ==> answers[i] <= sorted[0].0
  {
    assert sorted[0] in multiset(asked);
    forall i | i in selection ensures answers[i] <= sorted[0].0 {
      var n :| 0 <= n < |selection| && selection[n] == i;
      assert asked[n] in multiset(sorted);
    }
  }
}
