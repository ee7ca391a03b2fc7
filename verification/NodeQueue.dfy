/**
 The non-intrusive queue of scheduler 4. Its nodes carry a uThread as payload;
 the head node is a dummy whose own payload has already been returned. `pop`
 advances the head, copies the payload of the new dummy into the old one and
 returns the old dummy, so nodes change hands on every pop.

 Like `RunQueue` this is a step system over any number of producers and one
 consumer. The fields from `chain` on are history, which the code does not read;
 the assumption that a producer brings a node that is not in use does.
 */
module NodeQueue {
  import opened Sequences
  import opened GappedChain

  type Node = nat
  type Ut = nat

  datatype Push = Ready(node: Node) | Linking(prev: Node, node: Node, wasEmpty: bool)

  datatype PopPc =
    | Outside
    | ReadNext | Advance(succ: Node) | CopyPayload(dummy: Node) | Return(dummy: Node)
    | ReadTail | Spin | TryMark

  datatype State = State(
    head: Node, tail: Node, marked: bool, next: map<Node, Node>, payload: map<Node, Ut>,
    pc: PopPc, producers: map<nat, Push>,
    chain: seq<Node>, pending: map<Node, Insert<Node>>, log: seq<Ut>, popped: seq<Ut>)

  datatype Action =
    | Prepare(p: nat, node: Node, ut: Ut) | Exchange(p: nat) | WriteLink(p: nat) | EnterPop | PopStep

  /** The stub is the first dummy. */
  ghost predicate Init(s: State) {
    s == State(s.head, s.head, true, map[], map[], Outside, map[], [s.head], map[], [], [])
  }

  /** Nodes in the chain, in a producer's hands before its exchange, or just taken out. */
  predicate InUse(s: State, n: Node) {
    || n in s.chain
    || (exists p :: p in s.producers && s.producers[p] == Ready(n))
    || s.pc == CopyPayload(n) || s.pc == Return(n)
  }

  predicate Enabled(s: State, a: Action) {
    match a
    case Prepare(p, node, ut) => p !in s.producers && !InUse(s, node)
    case Exchange(p) => p in s.producers && s.producers[p].Ready?
    case WriteLink(p) => p in s.producers && s.producers[p].Linking?
    case EnterPop => s.pc.Outside?
    case PopStep =>
      && !s.pc.Outside?
      && (s.pc.CopyPayload? ==> s.head in s.payload)
      && (s.pc.Return? ==> s.pc.dummy in s.payload)
  }

  function Apply(s: State, a: Action): State
    requires Enabled(s, a)
  {
    match a
    case Prepare(p, node, ut) =>
      s.(payload := s.payload[node := ut], next := s.next - {node}, producers := s.producers[p := Ready(node)])
    case Exchange(p) => DoExchange(s, p, s.producers[p].node)
    case WriteLink(p) => DoWriteLink(s, p, s.producers[p].prev, s.producers[p].node)
    case EnterPop => s.(pc := ReadNext)
    case PopStep => PopOnce(s)
  }

  function DoExchange(s: State, p: nat, node: Node): State {
    s.(tail := node, marked := false, producers := s.producers[p := Linking(s.tail, node, s.marked)],
       chain := s.chain + [node], pending := s.pending[s.tail := Insert(Producer(p), node)],
       log := s.log + if node in s.payload then [s.payload[node]] else [])
  }

  function DoWriteLink(s: State, p: nat, prev: Node, node: Node): State {
    s.(next := s.next[prev := node], pending := s.pending - {prev}, producers := s.producers - {p})
  }

  function Tail1(c: seq<Node>): seq<Node> { if c == [] then [] else c[1..] }

  function PopOnce(s: State): (r: State)
    requires Enabled(s, PopStep)
    ensures r.producers == s.producers && r.log == s.log && r.pending == s.pending
    ensures r.next == s.next && r.tail == s.tail
  {
    match s.pc
    case ReadNext => s.(pc := if s.head in s.next then Advance(s.next[s.head]) else ReadTail)
    case Advance(succ) => s.(head := succ, chain := Tail1(s.chain), pc := CopyPayload(s.head))
    case CopyPayload(dummy) => s.(payload := s.payload[dummy := s.payload[s.head]], pc := Return(dummy))
    case Return(dummy) => s.(popped := s.popped + [s.payload[dummy]], pc := Outside)
    case ReadTail => s.(pc := if s.marked then Outside else if s.head != s.tail then Spin else TryMark)
    case Spin => s.(pc := if s.head in s.next then ReadNext else Spin)
    case TryMark =>
      if s.tail == s.head && !s.marked then s.(marked := true, pc := Outside) else s.(pc := ReadNext)
    case Outside => s
  }

  // ------------------------------------------------------------- invariant

  /** The payloads of a list of nodes. */
  function Payloads(nodes: seq<Node>, payload: map<Node, Ut>): seq<Ut> {
    if nodes == [] then []
    else Payloads(nodes[..|nodes| - 1], payload) +
         if nodes[|nodes| - 1] in payload then [payload[nodes[|nodes| - 1]]] else []
  }

  function InHand(s: State): seq<Ut> {
    if s.pc.CopyPayload? && s.head in s.payload then [s.payload[s.head]]
    else if s.pc.Return? && s.pc.dummy in s.payload then [s.payload[s.pc.dummy]]
    else []
  }

  ghost predicate ChainInv(s: State) {
    && Gapped(s.chain, s.next, s.pending)
    && s.head == s.chain[0] && s.tail == Last(s.chain)
    && (s.marked ==> |s.chain| == 1)
    && (forall n :: n in s.chain[1..] ==> n in s.payload)
  }

  /** A prepared node is private: out of the chain, with its payload set and its link cleared. */
  ghost predicate ReadyInv(s: State) {
    && (forall p :: p in s.producers && s.producers[p].Ready? ==>
          && s.producers[p].node !in s.chain && s.producers[p].node in s.payload && s.producers[p].node !in s.next
          && s.pc != CopyPayload(s.producers[p].node) && s.pc != Return(s.producers[p].node))
    && (forall p, q :: p in s.producers && q in s.producers && p != q && s.producers[p].Ready? && s.producers[q].Ready?
          ==> s.producers[p].node != s.producers[q].node)
  }

  ghost predicate PendingInv(s: State) {
    && (forall p :: p in s.producers && s.producers[p].Linking? ==>
          && s.producers[p].prev in s.pending
          && s.pending[s.producers[p].prev] == Insert(Producer(p), s.producers[p].node))
    && (forall n :: n in s.pending ==> LinkedBy(s, n))
  }

  predicate LinkedBy(s: State, n: Node)
    requires n in s.pending
  {
    match s.pending[n].agent
    case Producer(p) => p in s.producers && s.producers[p].Linking? && s.producers[p].prev == n
    case Consumer => false
  }

  ghost predicate PopInv(s: State)
    requires s.chain != []
  {
    match s.pc
    case Advance(succ) => s.head in s.next && s.next[s.head] == succ
    case CopyPayload(dummy) => dummy !in s.chain && s.head in s.payload
    case Return(dummy) => dummy !in s.chain && dummy in s.payload && s.head in s.payload
    case Spin => |s.chain| >= 2
    case TryMark => !s.marked
    case _ => true
  }

  ghost predicate FifoInv(s: State)
    requires s.chain != []
  {
    s.log == Delivery(s)
  }

  /** What was popped, then what `pop` holds, then what is queued. */
  function Delivery(s: State): seq<Ut>
    requires s.chain != []
  {
    s.popped + InHand(s) + Payloads(s.chain[1..], s.payload)
  }

  ghost predicate Inv(s: State) {
    ChainInv(s) && ReadyInv(s) && PendingInv(s) && PopInv(s) && FifoInv(s)
  }

  // ---------------------------------------------- every step keeps the invariant

  lemma PayloadsFrame(nodes: seq<Node>, payload: map<Node, Ut>, payload': map<Node, Ut>)
    requires forall n :: n in nodes ==>
                           (n in payload <==> n in payload') && (n in payload ==> payload[n] == payload'[n])
    ensures Payloads(nodes, payload) == Payloads(nodes, payload')
  {
    if nodes != [] {
      assert nodes[|nodes| - 1] in nodes;
      PayloadsFrame(nodes[..|nodes| - 1], payload, payload');
    }
  }

  lemma {:induction false} PayloadsFirst(nodes: seq<Node>, payload: map<Node, Ut>)
    requires nodes != [] && nodes[0] in payload
    ensures Payloads(nodes, payload) == [payload[nodes[0]]] + Payloads(nodes[1..], payload)
  {
    if |nodes| == 1 {
      assert nodes[..0] == [] && nodes[1..] == [];
    } else {
      var front, last := nodes[..|nodes| - 1], nodes[|nodes| - 1];
      var end := if last in payload then [payload[last]] else [];
      calc {
        Payloads(nodes, payload);
        Payloads(front, payload) + end;
        { PayloadsFirst(front, payload); }
        [payload[nodes[0]]] + Payloads(front[1..], payload) + end;
        { Assoc([payload[nodes[0]]], Payloads(front[1..], payload), end); }
        [payload[nodes[0]]] + (Payloads(front[1..], payload) + end);
        { assert nodes[1..][..|nodes| - 2] == front[1..]; }
        [payload[nodes[0]]] + Payloads(nodes[1..], payload);
      }
    }
  }

  lemma PrepareMemory(s: State, p: nat, node: Node, ut: Ut)
    requires Inv(s) && Enabled(s, Prepare(p, node, ut))
    ensures ChainInv(Apply(s, Prepare(p, node, ut))) && ReadyInv(Apply(s, Prepare(p, node, ut)))
  {
    var s' := Apply(s, Prepare(p, node, ut));
    assert forall n :: n in s.chain ==> InUse(s, n);
    Frame(s.chain, s.next, s'.next, s.pending);
  }

  lemma PrepareRest(s: State, p: nat, node: Node, ut: Ut)
    requires Inv(s) && Enabled(s, Prepare(p, node, ut))
    ensures var s' := Apply(s, Prepare(p, node, ut)); PendingInv(s') && PopInv(s') && FifoInv(s')
  {
    var s' := Apply(s, Prepare(p, node, ut));
    assert forall n :: n in s.chain ==> InUse(s, n);
    forall n | n in s.pending
      ensures LinkedBy(s', n)
    {
      assert LinkedBy(s, n);
    }
    PayloadsFrame(s.chain[1..], s.payload, s'.payload);
  }

  lemma ExchangeMemory(s: State, p: nat)
    requires ChainInv(s) && ReadyInv(s) && Enabled(s, Exchange(p))
    ensures ChainInv(Apply(s, Exchange(p))) && ReadyInv(Apply(s, Exchange(p)))
  {
    var node := s.producers[p].node;
    Append(s.chain, s.next, s.pending, [node], Producer(p));
    assert (s.chain + [node])[1..] == s.chain[1..] + [node];
  }

  lemma ExchangePending(s: State, p: nat)
    requires s.chain != [] && s.tail !in s.pending && ReadyInv(s) && PendingInv(s) && PopInv(s)
    requires Enabled(s, Exchange(p))
    ensures var s' := Apply(s, Exchange(p)); PendingInv(s') && PopInv(s')
  {
    var s' := Apply(s, Exchange(p));
    forall n | n in s'.pending
      ensures LinkedBy(s', n)
    {
      assert n in s.pending ==> LinkedBy(s, n);
    }
  }

  lemma ExchangeFifo(s: State, p: nat, node: Node)
    requires s.chain != [] && FifoInv(s) && node in s.payload
    ensures FifoInv(DoExchange(s, p, node))
  {
    var rest, s' := s.chain[1..], DoExchange(s, p, node);
    assert s'.chain[1..] == rest + [node];
    assert (rest + [node])[..|rest|] == rest;
    assert Payloads(rest + [node], s.payload) == Payloads(rest, s.payload) + [s.payload[node]];
    assert s.popped + InHand(s) + Payloads(rest, s.payload) + [s.payload[node]]
        == s.popped + InHand(s) + (Payloads(rest, s.payload) + [s.payload[node]]);
  }

  lemma WriteLinkMemory(s: State, p: nat)
    requires ChainInv(s) && ReadyInv(s) && PendingInv(s) && PopInv(s) && Enabled(s, WriteLink(p))
    ensures var s' := Apply(s, WriteLink(p)); ChainInv(s') && ReadyInv(s') && PopInv(s')
  {
    Fill(s.chain, s.next, s.pending, s.producers[p].prev);
  }

  lemma WriteLinkPending(s: State, p: nat)
    requires PendingInv(s) && Enabled(s, WriteLink(p))
    ensures PendingInv(Apply(s, WriteLink(p)))
  {
    var s' := Apply(s, WriteLink(p));
    forall n | n in s'.pending
      ensures LinkedBy(s', n)
    {
      assert LinkedBy(s, n);
    }
  }

  lemma PopMemory(s: State)
    requires ChainInv(s) && ReadyInv(s) && PopInv(s) && Enabled(s, PopStep)
    ensures ChainInv(PopOnce(s)) && ReadyInv(PopOnce(s))
  {
    if s.pc.Advance? {
      DropHead(s.chain, s.next, s.pending);
    }
  }

  lemma PopPending(s: State)
    requires PendingInv(s) && Enabled(s, PopStep)
    ensures PendingInv(PopOnce(s))
  {
    forall n | n in s.pending
      ensures LinkedBy(PopOnce(s), n)
    {
      assert LinkedBy(s, n);
    }
  }

  lemma PopCounter(s: State)
    requires ChainInv(s) && PopInv(s) && Enabled(s, PopStep)
    ensures PopOnce(s).chain != [] && PopInv(PopOnce(s))
  {
    if s.pc.Advance? {
      DropHead(s.chain, s.next, s.pending);
    }
  }

  lemma PopDelivery(s: State)
    requires s.chain != [] && s.head == s.chain[0] && PopInv(s) && Enabled(s, PopStep)
    requires s.pc.Advance? ==> |s.chain| >= 2 && s.chain[1] == s.pc.succ && s.pc.succ in s.payload
    ensures PopOnce(s).chain != [] && Delivery(PopOnce(s)) == Delivery(s)
  {
    match s.pc
    case Advance(succ) => DeliverFirst(s.popped, s.chain[1..], s.payload);
    case CopyPayload(dummy) => PayloadsFrame(s.chain[1..], s.payload, PopOnce(s).payload);
    case Return(dummy) => assert s.popped + [s.payload[dummy]] + [] == s.popped + [s.payload[dummy]];
    case _ =>
  }

  lemma DeliverFirst(popped: seq<Ut>, rest: seq<Node>, payload: map<Node, Ut>)
    requires rest != [] && rest[0] in payload
    ensures popped + [] + Payloads(rest, payload) == popped + [payload[rest[0]]] + Payloads(rest[1..], payload)
  {
    PayloadsFirst(rest, payload);
  }

  lemma PopKeeps(s: State)
    requires Inv(s) && Enabled(s, PopStep)
    ensures Inv(PopOnce(s))
  {
    if s.pc.Advance? {
      DropHead(s.chain, s.next, s.pending);
      assert s.chain[1] in s.chain[1..];
    }
    PopMemory(s);
    PopPending(s);
    PopCounter(s);
    PopDelivery(s);
  }

  lemma StepKeeps(s: State, a: Action)
    requires Inv(s) && Enabled(s, a)
    ensures Inv(Apply(s, a))
  {
    match a
    case Prepare(p, node, ut) => PrepareMemory(s, p, node, ut); PrepareRest(s, p, node, ut);
    case Exchange(p) => ExchangeMemory(s, p); ExchangePending(s, p); ExchangeFifo(s, p, s.producers[p].node);
    case WriteLink(p) => WriteLinkMemory(s, p); WriteLinkPending(s, p);
    case EnterPop => EnterKeeps(s);
    case PopStep => PopKeeps(s);
  }

  lemma EnterKeeps(s: State)
    requires Inv(s) && Enabled(s, EnterPop)
    ensures Inv(Apply(s, EnterPop))
  {
    PopPendingSame(s, Apply(s, EnterPop));
  }

  lemma PopPendingSame(s: State, s': State)
    requires PendingInv(s) && s'.producers == s.producers && s'.pending == s.pending
    ensures PendingInv(s')
  {
    forall n | n in s.pending
      ensures LinkedBy(s', n)
    {
      assert LinkedBy(s, n);
    }
  }

  // ------------------------------------------------------------ whole runs

  ghost predicate StepAt(states: seq<State>, actions: seq<Action>, i: nat)
    requires i < |actions| && i + 1 < |states|
  {
    Enabled(states[i], actions[i]) && states[i + 1] == Apply(states[i], actions[i])
  }

  ghost predicate Run(states: seq<State>, actions: seq<Action>) {
    && |states| == |actions| + 1
    && Init(states[0])
    && forall i :: 0 <= i < |actions| ==> StepAt(states, actions, i)
  }

  lemma {:induction false} RunInv(states: seq<State>, actions: seq<Action>, i: nat)
    requires Run(states, actions) && i < |states|
    ensures Inv(states[i])
  {
    if i > 0 {
      RunInv(states, actions, i - 1);
      assert StepAt(states, actions, i - 1);
      StepKeeps(states[i - 1], actions[i - 1]);
    }
  }

  /** The uThreads popped are those pushed first, in the order of the exchanges, although every pop hands out
      the node of another one. */
  lemma PopsInPushOrder(states: seq<State>, actions: seq<Action>, i: nat)
    requires Run(states, actions) && i < |states|
    ensures var s := states[i];
            && s.popped <= s.log && s.chain != []
            && s.log[|s.popped|..] == InHand(s) + Payloads(s.chain[1..], s.payload)
  {
    RunInv(states, actions, i);
    var s := states[i];
    Assoc(s.popped, InHand(s), Payloads(s.chain[1..], s.payload));
  }

  /** `pop` never misses a link or a payload, and it returns null only on an empty queue. */
  lemma PopNeverStuck(states: seq<State>, actions: seq<Action>, i: nat)
    requires Run(states, actions) && i < |states| && !states[i].pc.Outside?
    ensures Enabled(states[i], PopStep)
    ensures PopOnce(states[i]).pc.Outside? && PopOnce(states[i]).popped == states[i].popped ==>
              |states[i].chain| == 1 && states[i].log == states[i].popped && PopOnce(states[i]).marked
  {
    RunInv(states, actions, i);
    var s := states[i];
    assert s.chain == [s.head] ==> s.chain[1..] == [];
    assert s.popped + [] + [] == s.popped;
  }

  /** A spin waits for exactly one producer, and that one's next step ends it. */
  lemma SpinHasOneProducer(states: seq<State>, actions: seq<Action>, i: nat) returns (p: nat)
    requires Run(states, actions) && i < |states| && states[i].pc.Spin? && states[i].head !in states[i].next
    ensures var s := states[i];
            && p in s.producers && s.producers[p].Linking? && s.producers[p].prev == s.head
            && (forall q :: q in s.producers && s.producers[q].Linking? && s.producers[q].prev == s.head ==> q == p)
            && s.head in Apply(s, WriteLink(p)).next
  {
    RunInv(states, actions, i);
    var s := states[i];
    GapHasOwner(s.chain, s.next, s.pending);
    assert LinkedBy(s, s.head);
    p := s.pending[s.head].agent.id;
  }
}
