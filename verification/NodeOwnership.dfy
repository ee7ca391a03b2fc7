/**
 Who has which node under scheduler 4. A uThread gives its node away when it is
 scheduled; the kThread that picks it up gets a different node back from `pop`,
 hands the uThread the one it kept from the switch before (`tmpNode`, or a new
 one the first time), and keeps the popped one. Nodes are never freed, so a node
 in two places would corrupt two queues, and a uThread without a node trips the
 assertion in `schedule`.

 Every write of a node pointer or payload by any producer or kThread is a step.
 Only the links inside a queue are left to `NodeQueue`: here `pop` may advance
 whenever there is a second node, which allows more runs than the code has. The
 first node of a chain is the dummy. A uThread is scheduled only while it is on no
 run queue and not being switched to (`Placement` shows this for scheduler 2); new
 nodes are new. The fields from `holds` on are history, which these two
 assumptions read and the code does not.
 */
module NodeOwnership {
  import opened Sequences

  type Node = nat
  type Ut = nat
  type Kt = nat

  /** Where a node is: in a uThread, in the hands of a producer, in a chain, just popped, or kept. */
  datatype Owner = OfUt(ut: Ut) | OfPush(id: nat) | InChain(kt: Kt) | OfPop(kt: Kt) | OfTmp(kt: Kt)

  datatype Push =
    | Named(ut: Ut, kt: Kt, node: Node)       // the node carries the uThread, which still points to it
    | Carrying(ut: Ut, kt: Kt, node: Node)    // about to exchange the tail

  datatype Pop =
    | Idle
    | Copying(node: Node)                     // head advanced, payload not copied yet
    | Picked(node: Node)                      // pop has returned the node
    | Keeping(node: Node)                     // the uThread has its new node, tmpNode is not set yet

  /** Why a uThread cannot be scheduled. */
  datatype Busy = Scheduling(id: nat) | OnQueue(kt: Kt) | Chosen(kt: Kt)

  /** One scheduler 4 object. The fields from `queued` on are history: the uThreads behind the dummy, all that were
      ever queued, all that have left, and the one on its way out. */
  datatype KThread = KThread(
    chain: seq<Node>, tmp: Option<Node>, pop: Pop,
    queued: seq<Ut>, entered: seq<Ut>, left: seq<Ut>, chosen: Ut)

  datatype State = State(
    node: map<Ut, Option<Node>>, payload: map<Node, Ut>, producers: map<nat, Push>, kts: map<Kt, KThread>, failed: bool,
    holds: map<Owner, Node>, owner: map<Node, Owner>, busy: map<Ut, Busy>)

  datatype Action =
    | NewKt(kt: Kt, stub: Node) | NewUt(ut: Ut, spare: Node)
    | Begin(id: nat, ut: Ut, kt: Kt) | Clear(id: nat) | Exchange(id: nat)
    | Advance(kt: Kt) | Copy(kt: Kt) | Give(kt: Kt, spare: Node) | Keep(kt: Kt)

  ghost predicate Init(s: State) {
    s == State(map[], map[], map[], map[], false, map[], map[], map[])
  }

  /** What the code needs for a step; that the payloads and queued uThreads are there is proved in
      `NodeExchange.PopIsReady`. */
  predicate Enabled(s: State, a: Action) {
    match a
    case NewKt(k, n) => k !in s.kts && n !in s.owner
    case NewUt(u, n) => u !in s.node && n !in s.owner
    case Begin(p, u, k) => p !in s.producers && u in s.node && k in s.kts && u !in s.busy
    case Clear(p) => p in s.producers && s.producers[p].Named?
    case Exchange(p) => p in s.producers && s.producers[p].Carrying? && s.producers[p].kt in s.kts
    case Advance(k) => k in s.kts && s.kts[k].pop.Idle? && |s.kts[k].chain| >= 2 && s.kts[k].queued != []
    case Copy(k) => k in s.kts && s.kts[k].pop.Copying? && s.kts[k].chain != [] && s.kts[k].chain[0] in s.payload
    case Give(k, n) => k in s.kts && s.kts[k].pop.Picked? && s.kts[k].pop.node in s.payload && n !in s.owner
    case Keep(k) => k in s.kts && s.kts[k].pop.Keeping?
  }

  function Apply(s: State, a: Action): State
    requires Enabled(s, a)
  {
    match a
    case NewKt(k, n) =>
      s.(kts := s.kts[k := KThread([n], None, Idle, [], [], [], 0)], owner := s.owner[n := InChain(k)])
    case NewUt(u, n) =>
      s.(node := s.node[u := Some(n)], holds := s.holds[OfUt(u) := n], owner := s.owner[n := OfUt(u)])
    case Begin(p, u, k) =>
      if s.node[u].None? then s.(failed := true) else DoBegin(s, p, u, k, s.node[u].value)
    case Clear(p) => DoClear(s, p, s.producers[p])
    case Exchange(p) => DoExchange(s, p, s.producers[p])
    case Advance(k) => DoAdvance(s, k, s.kts[k])
    case Copy(k) => DoCopy(s, k, s.kts[k])
    case Give(k, n) =>
      DoGive(s, k, s.kts[k], s.payload[s.kts[k].pop.node], if s.kts[k].tmp.Some? then s.kts[k].tmp.value else n)
    case Keep(k) => DoKeep(s, k, s.kts[k])
  }

  function DoBegin(s: State, p: nat, u: Ut, k: Kt, n: Node): State {
    s.(payload := s.payload[n := u], producers := s.producers[p := Named(u, k, n)], busy := s.busy[u := Scheduling(p)])
  }

  function DoClear(s: State, p: nat, push: Push): State {
    s.(node := s.node[push.ut := None], producers := s.producers[p := Carrying(push.ut, push.kt, push.node)],
       holds := (s.holds - {OfUt(push.ut)})[OfPush(p) := push.node], owner := s.owner[push.node := OfPush(p)])
  }

  function DoExchange(s: State, p: nat, push: Push): State
    requires push.kt in s.kts
  {
    var kt := s.kts[push.kt];
    s.(kts := s.kts[push.kt := kt.(chain := kt.chain + [push.node], queued := kt.queued + [push.ut],
                                   entered := kt.entered + [push.ut])],
       producers := s.producers - {p}, holds := s.holds - {OfPush(p)}, owner := s.owner[push.node := InChain(push.kt)],
       busy := s.busy[push.ut := OnQueue(push.kt)])
  }

  function DoAdvance(s: State, k: Kt, kt: KThread): State
    requires kt.chain != [] && kt.queued != []
  {
    s.(kts := s.kts[k := kt.(chain := kt.chain[1..], pop := Copying(kt.chain[0]), queued := kt.queued[1..],
                             left := kt.left + [kt.queued[0]], chosen := kt.queued[0])],
       holds := s.holds[OfPop(k) := kt.chain[0]], owner := s.owner[kt.chain[0] := OfPop(k)],
       busy := s.busy[kt.queued[0] := Chosen(k)])
  }

  function DoCopy(s: State, k: Kt, kt: KThread): State
    requires kt.pop.Copying? && kt.chain != [] && kt.chain[0] in s.payload
  {
    s.(payload := s.payload[kt.pop.node := s.payload[kt.chain[0]]], kts := s.kts[k := kt.(pop := Picked(kt.pop.node))])
  }

  function DoGive(s: State, k: Kt, kt: KThread, u: Ut, given: Node): State
    requires kt.pop.Picked?
  {
    s.(node := s.node[u := Some(given)], kts := s.kts[k := kt.(pop := Keeping(kt.pop.node))],
       holds := (s.holds - {OfTmp(k)})[OfUt(u) := given], owner := s.owner[given := OfUt(u)])
  }

  function DoKeep(s: State, k: Kt, kt: KThread): State
    requires kt.pop.Keeping?
  {
    s.(kts := s.kts[k := kt.(tmp := Some(kt.pop.node), pop := Idle)],
       holds := (s.holds - {OfPop(k)})[OfTmp(k) := kt.pop.node], owner := s.owner[kt.pop.node := OfTmp(k)],
       busy := s.busy - {kt.chosen})
  }

  // ------------------------------------------------------------- invariant

  /** The nodes of a chain are those that `owner` says, each once; every other node has one holder. */
  ghost predicate OwnInv(holds: map<Owner, Node>, kts: map<Kt, KThread>, owner: map<Node, Owner>) {
    && (forall k :: k in kts ==> ChainOk(kts[k].chain, owner, k))
    && (forall n :: n in owner && owner[n].InChain? ==> owner[n].kt in kts && n in kts[owner[n].kt].chain)
    && (forall o :: o in holds ==> !o.InChain? && holds[o] in owner && owner[holds[o]] == o)
    && (forall n :: n in owner && !owner[n].InChain? ==> owner[n] in holds && holds[owner[n]] == n)
  }

  ghost predicate ChainOk(nodes: seq<Node>, owner: map<Node, Owner>, k: Kt) {
    nodes != [] && Distinct(nodes) && forall n :: n in nodes ==> n in owner && owner[n] == InChain(k)
  }

  function Held(holds: map<Owner, Node>, o: Owner): Option<Node> {
    if o in holds then Some(holds[o]) else None
  }

  ghost predicate UtPtr(holds: map<Owner, Node>, node: map<Ut, Option<Node>>) {
    forall u {:trigger OfUt(u)} :: Held(holds, OfUt(u)) == if u in node then node[u] else None
  }

  ghost predicate PushPtr(holds: map<Owner, Node>, producers: map<nat, Push>) {
    forall p {:trigger OfPush(p)} :: Held(holds, OfPush(p)) == if p in producers then InHand(producers[p]) else None
  }

  ghost predicate KtPtr(holds: map<Owner, Node>, kts: map<Kt, KThread>) {
    && (forall k {:trigger OfPop(k)} ::
          Held(holds, OfPop(k)) == if k in kts then JustPopped(kts[k].pop) else None)
    && (forall k {:trigger OfTmp(k)} :: Held(holds, OfTmp(k)) == if k in kts then Kept(kts[k]) else None)
  }

  function InHand(push: Push): Option<Node> {
    if push.Carrying? then Some(push.node) else None
  }

  function JustPopped(pop: Pop): Option<Node> {
    if pop.Idle? then None else Some(pop.node)
  }

  /** `tmpNode` is stale while it is being replaced. */
  function Kept(kt: KThread): Option<Node> {
    if kt.pop.Keeping? then None else kt.tmp
  }

  /** The pointers in memory are what the holders hold. */
  ghost predicate PointerInv(s: State) {
    UtPtr(s.holds, s.node) && PushPtr(s.holds, s.producers) && KtPtr(s.holds, s.kts)
  }

  predicate Says(payload: map<Node, Ut>, n: Node, u: Ut) {
    n in payload && payload[n] == u
  }

  /** The payloads behind the dummy are the queued uThreads, in order, and the one on its way out is right too. */
  predicate KtPayload(kt: KThread, payload: map<Node, Ut>) {
    && |kt.chain| == |kt.queued| + 1
    && (forall i :: 1 <= i < |kt.chain| ==> Says(payload, kt.chain[i], kt.queued[i - 1]))
    && (kt.pop.Copying? ==> Says(payload, kt.chain[0], kt.chosen))
    && (kt.pop.Picked? ==> Says(payload, kt.pop.node, kt.chosen))
  }

  ghost predicate PayloadInv(s: State) {
    && (forall k :: k in s.kts ==> KtPayload(s.kts[k], s.payload))
    && (forall p :: p in s.producers ==> Says(s.payload, s.producers[p].node, s.producers[p].ut))
  }

  /** uThreads are chosen in the order of the exchanges. */
  predicate InOrder(kt: KThread) {
    && kt.entered == kt.left + kt.queued
    && (!kt.pop.Idle? ==> kt.left != [] && kt.left[|kt.left| - 1] == kt.chosen)
  }

  ghost predicate OrderInv(s: State) {
    forall k :: k in s.kts ==> InOrder(s.kts[k])
  }

  /** A uThread that cannot be scheduled is with one producer, on one queue, or chosen by one kThread. */
  ghost predicate BusyInv(s: State) {
    && (forall p :: p in s.producers ==> IsBusy(s.busy, s.producers[p].ut, Scheduling(p)))
    && (forall k :: k in s.kts ==> KtBusy(s.kts[k], s.busy, k))
    && (forall u :: u in s.busy ==> u in s.node && HasReason(s, u))
  }

  predicate IsBusy(busy: map<Ut, Busy>, u: Ut, b: Busy) {
    u in busy && busy[u] == b
  }

  ghost predicate KtBusy(kt: KThread, busy: map<Ut, Busy>, k: Kt) {
    && Distinct(kt.queued) && (forall u :: u in kt.queued ==> IsBusy(busy, u, OnQueue(k)))
    && (!kt.pop.Idle? ==> IsBusy(busy, kt.chosen, Chosen(k)))
  }

  predicate HasReason(s: State, u: Ut)
    requires u in s.busy
  {
    match s.busy[u]
    case Scheduling(p) => p in s.producers && s.producers[p].ut == u
    case OnQueue(k) => k in s.kts && u in s.kts[k].queued
    case Chosen(k) => k in s.kts && !s.kts[k].pop.Idle? && s.kts[k].chosen == u
  }

  /** Between giving its node away and getting another one. */
  predicate Without(s: State, b: Busy) {
    match b
    case Scheduling(p) => p in s.producers && s.producers[p].Carrying?
    case OnQueue(k) => true
    case Chosen(k) => k in s.kts && !s.kts[k].pop.Keeping?
  }

  ghost predicate HaveInv(s: State) {
    && (forall u :: u in s.node ==> (s.node[u].None? <==> u in s.busy && Without(s, s.busy[u])))
    && (forall p :: p in s.producers && s.producers[p].Named? ==>
          s.producers[p].ut in s.node && s.node[s.producers[p].ut] == Some(s.producers[p].node))
    && (forall p :: p in s.producers ==> s.producers[p].kt in s.kts)
  }

  ghost predicate Inv(s: State) {
    && !s.failed && OwnInv(s.holds, s.kts, s.owner) && PointerInv(s)
    && PayloadInv(s) && OrderInv(s) && BusyInv(s) && HaveInv(s)
  }

  // ------------------------------------------------------- how nodes change hands

  /** From one holder to another, while the chains stay. */
  lemma Pass(holds: map<Owner, Node>, kts: map<Kt, KThread>, owner: map<Node, Owner>, a: Owner, b: Owner)
    requires OwnInv(holds, kts, owner) && a in holds && b !in holds && !b.InChain?
    ensures OwnInv((holds - {a})[b := holds[a]], kts, owner[holds[a] := b])
  {
    forall k | k in kts
      ensures ChainOk(kts[k].chain, owner[holds[a] := b], k)
    {
      assert ChainOk(kts[k].chain, owner, k);
    }
  }

  lemma Add(holds: map<Owner, Node>, kts: map<Kt, KThread>, owner: map<Node, Owner>, n: Node, b: Owner)
    requires OwnInv(holds, kts, owner) && n !in owner && b !in holds && !b.InChain?
    ensures OwnInv(holds[b := n], kts, owner[n := b])
  {
    forall k | k in kts
      ensures ChainOk(kts[k].chain, owner[n := b], k)
    {
      assert ChainOk(kts[k].chain, owner, k);
    }
  }

  lemma AddChain(holds: map<Owner, Node>, kts: map<Kt, KThread>, owner: map<Node, Owner>, n: Node, k: Kt, kt: KThread)
    requires OwnInv(holds, kts, owner) && n !in owner && k !in kts && kt.chain == [n]
    ensures OwnInv(holds, kts[k := kt], owner[n := InChain(k)])
  {
    forall j | j in kts
      ensures ChainOk(kts[j].chain, owner[n := InChain(k)], j)
    {
      assert ChainOk(kts[j].chain, owner, j);
    }
  }

  lemma EnterChain(
    holds: map<Owner, Node>, kts: map<Kt, KThread>, owner: map<Node, Owner>, a: Owner, k: Kt, kt: KThread)
    requires OwnInv(holds, kts, owner) && a in holds && k in kts && kt.chain == kts[k].chain + [holds[a]]
    ensures OwnInv(holds - {a}, kts[k := kt], owner[holds[a] := InChain(k)])
  {
    var n := holds[a];
    assert ChainOk(kts[k].chain, owner, k) && n !in kts[k].chain;
    forall j | j in kts && j != k
      ensures ChainOk(kts[j].chain, owner[n := InChain(k)], j)
    {
      assert ChainOk(kts[j].chain, owner, j);
    }
  }

  lemma LeaveChain(
    holds: map<Owner, Node>, kts: map<Kt, KThread>, owner: map<Node, Owner>, k: Kt, b: Owner, kt: KThread)
    requires OwnInv(holds, kts, owner) && k in kts && |kts[k].chain| >= 2 && b !in holds && !b.InChain?
    requires kt.chain == kts[k].chain[1..]
    ensures OwnInv(holds[b := kts[k].chain[0]], kts[k := kt], owner[kts[k].chain[0] := b])
  {
    var chain := kts[k].chain;
    var n := chain[0];
    assert ChainOk(chain, owner, k) && n in chain && n !in chain[1..];
    assert forall x :: x in chain <==> x == n || x in chain[1..];
    forall j | j in kts && j != k
      ensures ChainOk(kts[j].chain, owner[n := b], j)
    {
      assert ChainOk(kts[j].chain, owner, j);
    }
  }

  /** A change of a kThread that leaves its chain alone. */
  lemma SameChain(holds: map<Owner, Node>, kts: map<Kt, KThread>, owner: map<Node, Owner>, k: Kt, kt: KThread)
    requires OwnInv(holds, kts, owner) && k in kts && kt.chain == kts[k].chain
    ensures OwnInv(holds, kts[k := kt], owner)
  {
  }

  lemma UtFrame(holds: map<Owner, Node>, node: map<Ut, Option<Node>>, a: Owner, b: Owner, n: Node)
    requires UtPtr(holds, node) && !a.OfUt? && !b.OfUt?
    ensures UtPtr((holds - {a})[b := n], node)
  {
  }

  lemma PushFrame(holds: map<Owner, Node>, producers: map<nat, Push>, a: Owner, b: Owner, n: Node)
    requires PushPtr(holds, producers) && !a.OfPush? && !b.OfPush?
    ensures PushPtr((holds - {a})[b := n], producers)
  {
  }

  lemma KtFrame(holds: map<Owner, Node>, kts: map<Kt, KThread>, a: Owner, b: Owner, n: Node)
    requires KtPtr(holds, kts) && !(a.OfPop? || a.OfTmp?) && !(b.OfPop? || b.OfTmp?)
    ensures KtPtr((holds - {a})[b := n], kts)
  {
  }

  lemma UtGive(holds: map<Owner, Node>, node: map<Ut, Option<Node>>, a: Owner, u: Ut, n: Node)
    requires UtPtr(holds, node) && !a.OfUt?
    ensures UtPtr((holds - {a})[OfUt(u) := n], node[u := Some(n)])
  {
  }

  lemma KtAdvance(holds: map<Owner, Node>, kts: map<Kt, KThread>, k: Kt, n: Node, kt: KThread)
    requires KtPtr(holds, kts) && k in kts && kts[k].pop.Idle? && kt.pop == Copying(n) && kt.tmp == kts[k].tmp
    ensures KtPtr(holds[OfPop(k) := n], kts[k := kt])
  {
  }

  lemma KtGive(holds: map<Owner, Node>, kts: map<Kt, KThread>, k: Kt, b: Owner, n: Node)
    requires KtPtr(holds, kts) && k in kts && kts[k].pop.Picked? && !(b.OfPop? || b.OfTmp?)
    ensures KtPtr((holds - {OfTmp(k)})[b := n], kts[k := kts[k].(pop := Keeping(kts[k].pop.node))])
  {
  }

  // ---------------------------------------------- every step keeps the invariant

  lemma PtrOf(s: State, u: Ut, p: nat, k: Kt)
    requires PointerInv(s)
    ensures Held(s.holds, OfUt(u)) == if u in s.node then s.node[u] else None
    ensures Held(s.holds, OfPush(p)) == if p in s.producers then InHand(s.producers[p]) else None
    ensures Held(s.holds, OfPop(k)) == if k in s.kts then JustPopped(s.kts[k].pop) else None
    ensures Held(s.holds, OfTmp(k)) == if k in s.kts then Kept(s.kts[k]) else None
  {
  }

  lemma NewKtPtr(s: State, k: Kt, n: Node)
    requires PointerInv(s) && Enabled(s, NewKt(k, n))
    ensures PointerInv(Apply(s, NewKt(k, n)))
  {
  }

  lemma NewUtPtr(s: State, u: Ut, n: Node)
    requires PointerInv(s) && Enabled(s, NewUt(u, n))
    ensures PointerInv(Apply(s, NewUt(u, n)))
  {
    assert (s.holds - {OfUt(u)})[OfUt(u) := n] == s.holds[OfUt(u) := n];
    PushFrame(s.holds, s.producers, OfUt(u), OfUt(u), n);
    KtFrame(s.holds, s.kts, OfUt(u), OfUt(u), n);
  }

  lemma ClearPtr(s: State, p: nat)
    requires PointerInv(s) && Enabled(s, Clear(p)) && s.producers[p].ut in s.node
    ensures PointerInv(Apply(s, Clear(p)))
  {
    KtFrame(s.holds, s.kts, OfUt(s.producers[p].ut), OfPush(p), s.producers[p].node);
  }

  lemma ExchangePtr(s: State, p: nat)
    requires PointerInv(s) && Enabled(s, Exchange(p))
    ensures PointerInv(Apply(s, Exchange(p)))
  {
  }

  lemma AdvancePtr(s: State, k: Kt)
    requires PointerInv(s) && Enabled(s, Advance(k))
    ensures PointerInv(Apply(s, Advance(k)))
  {
    var n := s.kts[k].chain[0];
    assert (s.holds - {OfPop(k)})[OfPop(k) := n] == s.holds[OfPop(k) := n];
    UtFrame(s.holds, s.node, OfPop(k), OfPop(k), n);
    PushFrame(s.holds, s.producers, OfPop(k), OfPop(k), n);
    KtAdvance(s.holds, s.kts, k, n, Apply(s, Advance(k)).kts[k]);
  }

  lemma CopyPtr(s: State, k: Kt)
    requires PointerInv(s) && Enabled(s, Copy(k))
    ensures PointerInv(Apply(s, Copy(k)))
  {
  }

  lemma GivePtr(s: State, k: Kt, n: Node)
    requires PointerInv(s) && Enabled(s, Give(k, n))
    ensures PointerInv(Apply(s, Give(k, n)))
  {
    var kt := s.kts[k];
    var u, given := s.payload[kt.pop.node], if kt.tmp.Some? then kt.tmp.value else n;
    UtGive(s.holds, s.node, OfTmp(k), u, given);
    PushFrame(s.holds, s.producers, OfTmp(k), OfUt(u), given);
    KtGive(s.holds, s.kts, k, OfUt(u), given);
  }

  lemma KeepPtr(s: State, k: Kt)
    requires PointerInv(s) && Enabled(s, Keep(k))
    ensures PointerInv(Apply(s, Keep(k)))
  {
    UtFrame(s.holds, s.node, OfPop(k), OfTmp(k), s.kts[k].pop.node);
    PushFrame(s.holds, s.producers, OfPop(k), OfTmp(k), s.kts[k].pop.node);
  }

  ghost predicate Owned(s: State) {
    OwnInv(s.holds, s.kts, s.owner)
  }

  lemma ClearOwn(s: State, p: nat)
    requires Owned(s) && Enabled(s, Clear(p))
    requires Held(s.holds, OfUt(s.producers[p].ut)) == Some(s.producers[p].node) && Held(s.holds, OfPush(p)) == None
    ensures Owned(Apply(s, Clear(p)))
  {
    Pass(s.holds, s.kts, s.owner, OfUt(s.producers[p].ut), OfPush(p));
  }

  lemma ExchangeOwn(s: State, p: nat)
    requires Owned(s) && Enabled(s, Exchange(p)) && Held(s.holds, OfPush(p)) == Some(s.producers[p].node)
    ensures Owned(Apply(s, Exchange(p)))
  {
    var k := s.producers[p].kt;
    EnterChain(s.holds, s.kts, s.owner, OfPush(p), k, Apply(s, Exchange(p)).kts[k]);
  }

  lemma AdvanceOwn(s: State, k: Kt)
    requires Owned(s) && Enabled(s, Advance(k)) && Held(s.holds, OfPop(k)) == None
    ensures Owned(Apply(s, Advance(k)))
  {
    LeaveChain(s.holds, s.kts, s.owner, k, OfPop(k), Apply(s, Advance(k)).kts[k]);
  }

  lemma GiveOwn(s: State, k: Kt, n: Node)
    requires Owned(s) && Enabled(s, Give(k, n))
    requires Held(s.holds, OfUt(s.payload[s.kts[k].pop.node])) == None && Held(s.holds, OfTmp(k)) == s.kts[k].tmp
    ensures Owned(Apply(s, Give(k, n)))
  {
    var u, kt, s' := s.payload[s.kts[k].pop.node], s.kts[k], Apply(s, Give(k, n));
    if kt.tmp.Some? {
      Pass(s.holds, s.kts, s.owner, OfTmp(k), OfUt(u));
    } else {
      Add(s.holds, s.kts, s.owner, n, OfUt(u));
      assert s.holds - {OfTmp(k)} == s.holds;
    }
    SameChain(s'.holds, s.kts, s'.owner, k, s'.kts[k]);
  }

  lemma KeepOwn(s: State, k: Kt)
    requires Owned(s) && Enabled(s, Keep(k))
    requires Held(s.holds, OfPop(k)) == Some(s.kts[k].pop.node) && Held(s.holds, OfTmp(k)) == None
    ensures Owned(Apply(s, Keep(k)))
  {
    var s' := Apply(s, Keep(k));
    Pass(s.holds, s.kts, s.owner, OfPop(k), OfTmp(k));
    SameChain(s'.holds, s.kts, s'.owner, k, s'.kts[k]);
  }
}
