/**
 What the steps of `NodeOwnership` add up to over whole runs.
 */
module NodeExchange {
  import opened Sequences
  import opened NodeOwnership
  import opened NodeSteps

  ghost predicate Run(states: seq<State>, acts: seq<Action>) {
    && |states| == |acts| + 1 && Init(states[0])
    && forall i :: 0 <= i < |acts| ==> StepAt(states, acts, i)
  }

  predicate StepAt(states: seq<State>, acts: seq<Action>, i: nat)
    requires i < |acts| && |states| == |acts| + 1
  {
    Enabled(states[i], acts[i]) && states[i + 1] == Apply(states[i], acts[i])
  }

  lemma {:induction false} RunInv(states: seq<State>, acts: seq<Action>, n: nat)
    requires Run(states, acts) && n < |states|
    ensures Inv(states[n])
  {
    if n > 0 {
      RunInv(states, acts, n - 1);
      assert StepAt(states, acts, n - 1);
      StepKeeps(states[n - 1], acts[n - 1]);
    }
  }

  /** In every run the assertion `node != nullptr` of `schedule` holds: a uThread is without a node exactly from the
      moment a producer has taken it until a kThread that has chosen it gives it another. */
  lemma NodeAlwaysThere(states: seq<State>, acts: seq<Action>, n: nat)
    requires Run(states, acts) && n < |states|
    ensures var s := states[n];
            && !s.failed
            && (forall u :: u in s.node ==> (s.node[u].None? <==> u in s.busy && Without(s, s.busy[u])))
            && (forall u :: u in s.busy ==> HasReason(s, u))
  {
    RunInv(states, acts, n);
  }

  /** A place in memory that points to a node. */
  datatype Pointer = AtUt(ut: Ut) | AtPush(id: nat) | AtPop(kt: Kt) | AtTmp(kt: Kt)

  function PointsTo(s: State, x: Pointer): Option<Node> {
    match x
    case AtUt(u) => if u in s.node then s.node[u] else None
    case AtPush(p) => if p in s.producers then InHand(s.producers[p]) else None
    case AtPop(k) => if k in s.kts then JustPopped(s.kts[k].pop) else None
    case AtTmp(k) => if k in s.kts then s.kts[k].tmp else None
  }

  /** `tmpNode` between the two assignments of the exchange. */
  predicate Stale(s: State, x: Pointer) {
    x.AtTmp? && x.kt in s.kts && s.kts[x.kt].pop.Keeping?
  }

  function Holder(x: Pointer): Owner {
    match x case AtUt(u) => OfUt(u) case AtPush(p) => OfPush(p) case AtPop(k) => OfPop(k) case AtTmp(k) => OfTmp(k)
  }

  lemma PointerHolds(s: State, x: Pointer)
    requires Owned(s) && PointerInv(s) && PointsTo(s, x).Some? && !Stale(s, x)
    ensures PointsTo(s, x).value in s.owner && s.owner[PointsTo(s, x).value] == Holder(x)
  {
    match x
    case AtUt(u) => PtrOf(s, u, 0, 0);
    case AtPush(p) => PtrOf(s, 0, p, 0);
    case AtPop(k) => PtrOf(s, 0, 0, k);
    case AtTmp(k) => PtrOf(s, 0, 0, k);
  }

  /** In every run no two places point to one node and none points into a queue, where all nodes are different, except
      for a `tmpNode` that is about to be overwritten. */
  lemma NoNodeTwice(states: seq<State>, acts: seq<Action>, n: nat, x: Pointer)
    requires Run(states, acts) && n < |states| && PointsTo(states[n], x).Some? && !Stale(states[n], x)
    ensures var s := states[n];
            && (forall y :: y != x && !Stale(s, y) ==> PointsTo(s, y) != PointsTo(s, x))
            && (forall k :: k in s.kts ==> PointsTo(s, x).value !in s.kts[k].chain)
  {
    RunInv(states, acts, n);
    var s := states[n];
    forall y | y != x && !Stale(s, y)
      ensures PointsTo(s, y) != PointsTo(s, x)
    {
      PointersDiffer(s, x, y);
    }
    forall k | k in s.kts
      ensures PointsTo(s, x).value !in s.kts[k].chain
    {
      PointerNotQueued(s, x, k);
    }
  }

  lemma PointersDiffer(s: State, x: Pointer, y: Pointer)
    requires Owned(s) && PointerInv(s) && PointsTo(s, x).Some? && !Stale(s, x) && !Stale(s, y) && x != y
    ensures PointsTo(s, y) != PointsTo(s, x)
  {
    PointerHolds(s, x);
    if PointsTo(s, y).Some? { PointerHolds(s, y); }
  }

  lemma PointerNotQueued(s: State, x: Pointer, k: Kt)
    requires Owned(s) && PointerInv(s) && PointsTo(s, x).Some? && !Stale(s, x) && k in s.kts
    ensures PointsTo(s, x).value !in s.kts[k].chain
  {
    PointerHolds(s, x);
    assert ChainOk(s.kts[k].chain, s.owner, k);
  }

  lemma QueuesAreDisjoint(states: seq<State>, acts: seq<Action>, n: nat, j: Kt, k: Kt)
    requires Run(states, acts) && n < |states| && j in states[n].kts && k in states[n].kts
    ensures Distinct(states[n].kts[j].chain)
    ensures j != k ==> forall x :: x in states[n].kts[j].chain ==> x !in states[n].kts[k].chain
  {
    RunInv(states, acts, n);
    var s := states[n];
    assert ChainOk(s.kts[j].chain, s.owner, j) && ChainOk(s.kts[k].chain, s.owner, k);
  }

  /** In every run, whenever `pop` finds a second node or reads a payload, what it needs is there; uThreads leave a
      queue in the order in which they entered it, and the one that `pop` returns is the last that has left. */
  lemma PopIsReady(states: seq<State>, acts: seq<Action>, n: nat, k: Kt)
    requires Run(states, acts) && n < |states| && k in states[n].kts
    ensures var s := states[n]; var kt := s.kts[k];
            && (kt.pop.Idle? && |kt.chain| >= 2 ==> Enabled(s, Advance(k)))
            && (kt.pop.Copying? ==> Enabled(s, Copy(k)))
            && (kt.pop.Picked? ==> kt.pop.node in s.payload && kt.left != [] &&
                                   s.payload[kt.pop.node] == kt.left[|kt.left| - 1])
            && kt.left <= kt.entered && kt.entered[|kt.left|..] == kt.queued
  {
    RunInv(states, acts, n);
    var s := states[n];
    assert KtPayload(s.kts[k], s.payload) && InOrder(s.kts[k]);
  }

  lemma StepKeepsNode(s: State, a: Action, k: Kt)
    requires Enabled(s, a) && k in s.kts && s.kts[k].tmp.Some?
    ensures k in Apply(s, a).kts && Apply(s, a).kts[k].tmp.Some?
  {
  }

  /** In every run a kThread allocates a node at its first switch only: from then on it always keeps one. */
  lemma {:induction false} KeepsANode(states: seq<State>, acts: seq<Action>, m: nat, n: nat, k: Kt)
    requires Run(states, acts) && m <= n < |states| && k in states[m].kts && states[m].kts[k].tmp.Some?
    ensures k in states[n].kts && states[n].kts[k].tmp.Some?
  {
    if m < n {
      KeepsANode(states, acts, m, n - 1, k);
      assert StepAt(states, acts, n - 1);
      StepKeepsNode(states[n - 1], acts[n - 1], k);
    }
  }
}
