/**
 A singly linked chain that is appended to in two separate steps: an atomic
 exchange of the tail makes the new nodes part of the chain, and a later write
 stores the link from the old tail to them. Between the two the chain has a
 gap. Both multi-producer queues of the runtime are built on such a chain.

 `nodes` is the chain in exchange order, `next` the memory (an absent key is a
 null link) and `pending` the inserts that have exchanged but not linked yet,
 keyed by the node whose link they still owe.
 */
module GappedChain {
  import opened Sequences

  datatype Agent = Consumer | Producer(id: nat)

  datatype Insert<N> = Insert(agent: Agent, first: N)

  function Last<N>(s: seq<N>): N
    requires s != []
  {
    s[|s| - 1]
  }

  /** Each node but the last is linked to its successor or has exactly one insert pending at it. */
  ghost predicate Gapped<N(!new)>(nodes: seq<N>, next: map<N, N>, pending: map<N, Insert<N>>) {
    && nodes != []
    && Distinct(nodes)
    && (forall n :: n in pending ==> n in nodes && n != Last(nodes))
    && (forall i :: 0 <= i < |nodes| - 1 ==> LinkedOrPending(nodes, next, pending, i))
    && Last(nodes) !in next
  }

  ghost predicate LinkedOrPending<N(!new)>(nodes: seq<N>, next: map<N, N>, pending: map<N, Insert<N>>, i: nat)
    requires i + 1 < |nodes|
  {
    if nodes[i] in pending
    then nodes[i] !in next && pending[nodes[i]].first == nodes[i + 1]
    else nodes[i] in next && next[nodes[i]] == nodes[i + 1]
  }

  /** A private list of nodes, linked by `next` and ended by a null link. */
  ghost predicate Linked<N(!new)>(batch: seq<N>, next: map<N, N>) {
    && batch != []
    && Distinct(batch)
    && (forall i :: 0 <= i < |batch| - 1 ==> batch[i] in next && next[batch[i]] == batch[i + 1])
    && Last(batch) !in next
  }

  /** Links a private list of nodes and touches no other link. */
  ghost function LinkUp<N(!new)>(next: map<N, N>, batch: seq<N>): (r: map<N, N>)
    requires batch != [] && Distinct(batch)
    ensures Linked(batch, r)
    ensures forall n :: n !in batch ==> (n in next <==> n in r) && (n in next ==> next[n] == r[n])
  {
    if |batch| == 1 then next - {batch[0]} else LinkUp(next, batch[1..])[batch[0] := batch[1]]
  }

  /** The tail exchange: a linked batch joins the chain behind a gap. */
  lemma Append<N(!new)>(nodes: seq<N>, next: map<N, N>, pending: map<N, Insert<N>>, batch: seq<N>, agent: Agent)
    requires Gapped(nodes, next, pending)
    requires Linked(batch, next)
    requires forall n :: n in batch ==> n !in nodes
    ensures Gapped(nodes + batch, next, pending[Last(nodes) := Insert(agent, batch[0])])
  {
    var nodes', pending' := nodes + batch, pending[Last(nodes) := Insert(agent, batch[0])];
    forall i | 0 <= i < |nodes'| - 1
      ensures LinkedOrPending(nodes', next, pending', i)
    {
      if i < |nodes| - 1 {
        assert LinkedOrPending(nodes, next, pending, i);
      } else if |nodes| <= i {
        assert nodes'[i] == batch[i - |nodes|] && nodes'[i] in batch;
        assert nodes'[i + 1] == batch[i - |nodes| + 1];
      }
    }
    assert Last(nodes') == Last(batch) && Last(batch) in batch;
    assert Distinct(nodes') by {
      forall i, j | 0 <= i < j < |nodes'|
        ensures nodes'[i] != nodes'[j]
      {
        if i < |nodes| <= j {
          assert nodes'[j] in batch;
        }
      }
    }
  }

  /** The link write of a pending insert closes its gap and no other. */
  lemma Fill<N(!new)>(nodes: seq<N>, next: map<N, N>, pending: map<N, Insert<N>>, prev: N)
    requires Gapped(nodes, next, pending)
    requires prev in pending
    ensures Gapped(nodes, next[prev := pending[prev].first], pending - {prev})
    ensures prev !in next
  {
    var at := IndexOf(nodes, prev);
    assert LinkedOrPending(nodes, next, pending, at);
    var next', pending' := next[prev := pending[prev].first], pending - {prev};
    forall i | 0 <= i < |nodes| - 1
      ensures LinkedOrPending(nodes, next', pending', i)
    {
      assert LinkedOrPending(nodes, next, pending, i);
    }
  }

  /** Removing a linked head, whatever is then written into its link. */
  lemma DropHead<N(!new)>(nodes: seq<N>, next: map<N, N>, pending: map<N, Insert<N>>)
    requires Gapped(nodes, next, pending)
    requires nodes[0] in next
    ensures |nodes| >= 2 && next[nodes[0]] == nodes[1]
    ensures Gapped(nodes[1..], next, pending)
    ensures nodes[0] !in nodes[1..]
  {
    assert |nodes| >= 2;
    assert LinkedOrPending(nodes, next, pending, 0);
    var rest := nodes[1..];
    forall i | 0 <= i < |rest| - 1
      ensures LinkedOrPending(rest, next, pending, i)
    {
      assert LinkedOrPending(nodes, next, pending, i + 1);
    }
    forall n | n in pending
      ensures n in rest
    {
      assert n in nodes && n != nodes[0];
    }
  }

  /** Writes to nodes outside the chain leave it alone. */
  lemma Frame<N(!new)>(nodes: seq<N>, next: map<N, N>, next': map<N, N>, pending: map<N, Insert<N>>)
    requires Gapped(nodes, next, pending)
    requires forall n :: n in nodes ==> (n in next <==> n in next') && (n in next ==> next[n] == next'[n])
    ensures Gapped(nodes, next', pending)
  {
    forall i | 0 <= i < |nodes| - 1
      ensures LinkedOrPending(nodes, next', pending, i)
    {
      assert LinkedOrPending(nodes, next, pending, i);
    }
  }

  /** A null link inside the chain has a pending insert that will write it. */
  lemma GapHasOwner<N(!new)>(nodes: seq<N>, next: map<N, N>, pending: map<N, Insert<N>>)
    requires Gapped(nodes, next, pending)
    requires |nodes| >= 2
    ensures nodes[0] in next <==> nodes[0] !in pending
    ensures nodes[0] in next ==> next[nodes[0]] == nodes[1]
    ensures nodes[0] in pending ==> pending[nodes[0]].first == nodes[1]
  {
    assert LinkedOrPending(nodes, next, pending, 0);
  }
}
