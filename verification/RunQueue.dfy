/**
 The run queue of one kThread under the default scheduler: the lock-free
 multi-producer single-consumer queue `BlockingMPSCQueue` together with the
 sleep/wake protocol that the schedulers build on its "was empty" result.

 The model is a step system with sequentially consistent memory. Any number of
 producers are inside `schedule`, one kThread is the consumer, and every access
 to shared memory is a step of its own. The fields from `chain` on are history:
 the code does not read them. Only the assumption on the callers does, that an
 element is pushed while it is in no queue and in nobody's hands (`InUse`).
 */
module RunQueue {
  import opened Sequences
  import opened GappedChain

  datatype Link = Stub | Elem(id: nat)

  /** A producer between the entry and the exit of `schedule`. */
  datatype Push =
    | Ready(batch: seq<Link>)                                // last.next is null, tail not exchanged yet
    | Linking(prev: Link, first: Link, wasEmpty: bool)       // exchanged, prev->next not written yet
    | Reported(wasEmpty: bool)                               // insert returned, the post is still to come

  /** The program counter inside `pop`; every value is one shared access. */
  datatype PopPc =
    | ReadHead | ReadTail | TryMark | SpinStub | DropStub | ClearStub | SwapStub
    | LinkStub(prev: Link) | SpinHead | TakeHead | ClearTaken(taken: Link)

  datatype KThread =
    | UserUT                                                 // running a uThread
    | Waiting                                                // mainUT, inside sem.wait of blockingSwitch
    | Popping(blocking: bool, yielding: bool, pc: PopPc)

  datatype State = State(
    head: Link, tail: Link, marked: bool, next: map<Link, Link>, sem: nat,
    kt: KThread, producers: map<nat, Push>,
    chain: seq<Link>, pending: map<Link, Insert<Link>>,
    log: seq<seq<Link>>, popped: seq<Link>, marks: nat, reports: nat, waits: nat)

  datatype Action =
    | Prepare(p: nat, batch: seq<Link>)   // a producer enters with private nodes it has linked
    | Exchange(p: nat)
    | WriteLink(p: nat)
    | Report(p: nat)                      // posts the semaphore if the queue was empty
    | EnterPop(yielding: bool)            // nonBlockingSwitch
    | TakeToken                           // sem.wait returns in blockingSwitch
    | PopStep

  ghost predicate Init(s: State) {
    && (s.kt == UserUT || s.kt == Waiting)
    && s == State(Stub, Stub, true, map[], 0, s.kt, map[], [Stub], map[], [], [], 1, 0, 0)
  }

  // ---------------------------------------------------------------- steps

  /** Nodes that are in the queue, in a producer's hands or just taken out by `pop`. */
  predicate InUse(s: State, n: Link) {
    || n in s.chain
    || (exists p :: p in s.producers && s.producers[p].Ready? && n in s.producers[p].batch)
    || (s.kt.Popping? && s.kt.pc == ClearTaken(n))
  }

  ghost predicate Enabled(s: State, a: Action) {
    match a
    case Prepare(p, batch) =>
      && p !in s.producers && batch != [] && Distinct(batch)
      && forall n :: n in batch ==> n.Elem? && !InUse(s, n)
    case Exchange(p) => p in s.producers && s.producers[p].Ready? && s.producers[p].batch != []
    case WriteLink(p) => p in s.producers && s.producers[p].Linking?
    case Report(p) => p in s.producers && s.producers[p].Reported?
    case EnterPop(_) => s.kt.UserUT?
    case TakeToken => s.kt.Waiting? && s.sem > 0
    case PopStep => s.kt.Popping? && NoNullLink(s)
  }

  /** The two places where `pop` follows a link do not meet a null one. */
  predicate NoNullLink(s: State)
    requires s.kt.Popping?
  {
    && (s.kt.pc.DropStub? ==> Stub in s.next)
    && (s.kt.pc.TakeHead? ==> s.head in s.next)
  }

  ghost function Apply(s: State, a: Action): State
    requires Enabled(s, a)
  {
    match a
    case Prepare(p, batch) =>
      s.(next := LinkUp(s.next, batch), producers := s.producers[p := Ready(batch)])
    case Exchange(p) =>
      var batch := s.producers[p].batch;
      s.(tail := Last(batch), marked := false,
         producers := s.producers[p := Linking(s.tail, batch[0], s.marked)],
         chain := s.chain + batch,
         pending := s.pending[s.tail := Insert(Producer(p), batch[0])],
         log := s.log + [batch],
         reports := s.reports + if s.marked then 1 else 0)
    case WriteLink(p) =>
      var Linking(prev, first, wasEmpty) := s.producers[p];
      s.(next := s.next[prev := first], pending := s.pending - {prev},
         producers := s.producers[p := Reported(wasEmpty)])
    case Report(p) =>
      s.(sem := s.sem + if s.producers[p].wasEmpty then 1 else 0, producers := s.producers - {p})
    case EnterPop(yielding) => s.(kt := Popping(false, yielding, ReadHead))
    case TakeToken => s.(sem := s.sem - 1, waits := s.waits + 1, kt := Popping(true, false, ReadHead))
    case PopStep => PopOnce(s)
  }

  /** Where the kThread is after `pop` returns null: the loop of blockingSwitch waits again,
      nonBlockingSwitch keeps a yielding uThread running and otherwise switches to mainUT. */
  function AfterNull(kt: KThread): KThread
    requires kt.Popping?
  {
    if !kt.blocking && kt.yielding then UserUT else Waiting
  }

  function Tail1(c: seq<Link>): seq<Link> { if c == [] then [] else c[1..] }

  function PopOnce(s: State): (r: State)
    requires s.kt.Popping? && NoNullLink(s)
    ensures r.producers == s.producers && r.log == s.log && r.sem == s.sem && r.waits == s.waits
  {
    match s.kt.pc
    case ReadHead => s.(kt := s.kt.(pc := if s.head == Stub then ReadTail else SpinHead))
    case ReadTail => s.(kt := if s.marked then AfterNull(s.kt) else s.kt.(pc := TryMark))
    case TryMark =>
      if s.tail == Stub && !s.marked
      then s.(marked := true, marks := s.marks + 1, kt := AfterNull(s.kt))
      else s.(kt := s.kt.(pc := SpinStub))
    case SpinStub => if Stub in s.next then s.(kt := s.kt.(pc := DropStub)) else s
    case DropStub => s.(head := s.next[Stub], chain := Tail1(s.chain), kt := s.kt.(pc := ClearStub))
    case ClearStub => s.(next := s.next - {Stub}, kt := s.kt.(pc := SwapStub))
    case SwapStub =>
      s.(tail := Stub, marked := false, chain := s.chain + [Stub],
         pending := s.pending[s.tail := Insert(Consumer, Stub)],
         reports := s.reports + if s.marked then 1 else 0,
         kt := s.kt.(pc := LinkStub(s.tail)))
    case LinkStub(prev) =>
      s.(next := s.next[prev := Stub], pending := s.pending - {prev}, kt := s.kt.(pc := SpinHead))
    case SpinHead => if s.head in s.next then s.(kt := s.kt.(pc := TakeHead)) else s
    case TakeHead => s.(head := s.next[s.head], chain := Tail1(s.chain), kt := s.kt.(pc := ClearTaken(s.head)))
    case ClearTaken(taken) => s.(next := s.next - {taken}, popped := s.popped + [taken], kt := UserUT)
  }

  // ----------------------------------------------------------- invariant

  /** The abstract queue: the chain without the stub. */
  function Elems(c: seq<Link>): seq<Link> {
    if c == [] then [] else (if c[0] == Stub then [] else [c[0]]) + Elems(c[1..])
  }

  function InHand(s: State): seq<Link> {
    if s.kt.Popping? && s.kt.pc.ClearTaken? then [s.kt.pc.taken] else []
  }

  predicate Owes(p: Push) {
    !p.Ready? && p.wasEmpty
  }

  /** Producers that have learned "was empty" and not posted yet. */
  function Owing(s: State): set<nat> {
    set p | p in s.producers && Owes(s.producers[p])
  }

  ghost predicate ChainInv(s: State) {
    && Gapped(s.chain, s.next, s.pending)
    && s.head == s.chain[0]
    && s.tail == Last(s.chain)
    && (s.marked ==> s.chain == [Stub])
  }

  ghost predicate BatchInv(s: State) {
    && (forall p :: p in s.producers && s.producers[p].Ready? ==> PrivateBatch(s, s.producers[p].batch))
    && (forall p, q :: p in s.producers && q in s.producers && p != q && s.producers[p].Ready? && s.producers[q].Ready?
          ==> forall n :: n in s.producers[p].batch ==> n !in s.producers[q].batch)
  }

  ghost predicate PrivateBatch(s: State, batch: seq<Link>) {
    && Linked(batch, s.next)
    && (forall n :: n in batch ==> n.Elem? && n !in s.chain && n !in InHand(s))
  }

  /** A pending insert has exactly one agent in front of its link write, and conversely. */
  ghost predicate PendingInv(s: State) {
    && (forall p :: p in s.producers && s.producers[p].Linking? ==>
          && s.producers[p].prev in s.pending
          && s.pending[s.producers[p].prev] == Insert(Producer(p), s.producers[p].first))
    && (forall n :: n in s.pending ==>
          match s.pending[n].agent
          case Producer(p) => p in s.producers && s.producers[p].Linking? && s.producers[p].prev == n
          case Consumer => s.kt.Popping? && s.kt.pc == LinkStub(n))
  }

  ghost predicate PopInv(s: State)
    requires s.chain != []
  {
    if !s.kt.Popping? then Stub in s.chain else
    match s.kt.pc
    case ReadHead => Stub in s.chain
    case ReadTail => s.chain[0] == Stub
    case TryMark => s.chain[0] == Stub && !s.marked
    case SpinStub => s.chain[0] == Stub && |s.chain| >= 2
    case DropStub => s.chain[0] == Stub && Stub in s.next
    case ClearStub => Stub !in s.chain
    case SwapStub => Stub !in s.chain && Stub !in s.next
    case LinkStub(prev) =>
      Stub in s.chain && s.chain[0] != Stub && prev in s.pending && s.pending[prev] == Insert(Consumer, Stub)
    case SpinHead => Stub in s.chain && s.chain[0] != Stub
    case TakeHead => Stub in s.chain && s.chain[0] != Stub && s.chain[0] in s.next
    case ClearTaken(taken) => Stub in s.chain && taken.Elem? && taken !in s.chain
  }

  /** Everything exchanged so far is what was popped, what pop holds and what is queued, in that order. */
  ghost predicate FifoInv(s: State) {
    Flatten(s.log) == Delivery(s)
  }

  /** One report per marked period, and each report is owed, stored in the semaphore or spent. */
  ghost predicate TokenInv(s: State) {
    && s.marks == s.reports + (if s.marked then 1 else 0)
    && s.reports == |Owing(s)| + s.sem + s.waits
  }

  ghost predicate WakeInv(s: State) {
    s.kt.Waiting? ==> s.marked || s.sem > 0 || Owing(s) != {}
  }

  ghost predicate MemoryInv(s: State) {
    ChainInv(s) && BatchInv(s) && PendingInv(s) && PopInv(s)
  }

  ghost predicate Inv(s: State) {
    MemoryInv(s) && FifoInv(s) && TokenInv(s) && WakeInv(s)
  }

  lemma InitInv(s: State)
    requires Init(s)
    ensures Inv(s)
  {
    assert Owing(s) == {};
    assert Flatten(s.log) == [];
  }

  // ---------------------------------------------- every step keeps the invariant

  lemma {:induction false} ElemsConcat(a: seq<Link>, b: seq<Link>)
    ensures Elems(a + b) == Elems(a) + Elems(b)
  {
    if a == [] {
      assert a + b == b;
    } else {
      assert (a + b)[1..] == a[1..] + b;
      ElemsConcat(a[1..], b);
    }
  }

  lemma {:induction false} ElemsOfBatch(batch: seq<Link>)
    requires Stub !in batch
    ensures Elems(batch) == batch
  {
    if batch != [] {
      assert batch[0] in batch;
      ElemsOfBatch(batch[1..]);
      assert batch == [batch[0]] + batch[1..];
    }
  }

  /** Private batches survive a step that changes no batch node's link and brings none into the chain. */
  lemma BatchFrame(s: State, s': State)
    requires BatchInv(s)
    requires forall p :: p in s'.producers && s'.producers[p].Ready? ==>
                           p in s.producers && s.producers[p] == s'.producers[p]
    requires forall p, n :: p in s'.producers && s'.producers[p].Ready? && n in s'.producers[p].batch ==>
               && n !in s'.chain && n !in InHand(s')
               && (n in s.next <==> n in s'.next) && (n in s.next ==> s.next[n] == s'.next[n])
    ensures BatchInv(s')
  {
    forall p | p in s'.producers && s'.producers[p].Ready?
      ensures PrivateBatch(s', s'.producers[p].batch)
    {
      assert PrivateBatch(s, s.producers[p].batch);
    }
  }

  /** The accounts are about who owes, not about links or private batches. */
  lemma HistoryFrame(s: State, s': State)
    requires FifoInv(s) && TokenInv(s) && WakeInv(s)
    requires s'.log == s.log && s'.popped == s.popped && s'.chain == s.chain && s'.kt == s.kt
    requires s'.marked == s.marked && s'.marks == s.marks && s'.reports == s.reports
    requires s'.sem == s.sem && s'.waits == s.waits
    requires forall p :: p in s'.producers && Owes(s'.producers[p]) <==> p in s.producers && Owes(s.producers[p])
    ensures FifoInv(s') && TokenInv(s') && WakeInv(s')
  {
    assert Owing(s') == Owing(s);
  }

  lemma PrepareMemory(s: State, p: nat, batch: seq<Link>)
    requires ChainInv(s) && Enabled(s, Prepare(p, batch))
    ensures ChainInv(Apply(s, Prepare(p, batch)))
  {
    var s' := Apply(s, Prepare(p, batch));
    assert forall n :: n in s.chain ==> InUse(s, n);
    Frame(s.chain, s.next, s'.next, s.pending);
  }

  lemma PrepareBatch(s: State, p: nat, batch: seq<Link>)
    requires BatchInv(s) && Enabled(s, Prepare(p, batch))
    ensures BatchInv(Apply(s, Prepare(p, batch)))
  {
    var others := s.(next := LinkUp(s.next, batch));
    forall q, n | q in s.producers && s.producers[q].Ready? && n in s.producers[q].batch
      ensures n !in batch && n !in s.chain && n !in InHand(s)
    {
      assert InUse(s, n);
      assert PrivateBatch(s, s.producers[q].batch);
    }
    BatchFrame(s, others);
    assert PrivateBatch(others, batch);
    BatchAdd(others, p, batch);
  }

  lemma BatchAdd(s: State, p: nat, batch: seq<Link>)
    requires BatchInv(s) && p !in s.producers && PrivateBatch(s, batch)
    requires forall q, n :: q in s.producers && s.producers[q].Ready? && n in s.producers[q].batch ==> n !in batch
    ensures BatchInv(s.(producers := s.producers[p := Ready(batch)]))
  {
    var s' := s.(producers := s.producers[p := Ready(batch)]);
    forall q | q in s'.producers && s'.producers[q].Ready?
      ensures PrivateBatch(s', s'.producers[q].batch)
    {
      if q != p { assert PrivateBatch(s, s.producers[q].batch); }
    }
  }

  lemma PreparePending(s: State, p: nat, batch: seq<Link>)
    requires s.chain != [] && PendingInv(s) && PopInv(s) && Enabled(s, Prepare(p, batch))
    ensures PendingInv(Apply(s, Prepare(p, batch))) && PopInv(Apply(s, Prepare(p, batch)))
  {
    assert forall n :: n in s.chain ==> InUse(s, n);
  }

  lemma PrepareKeeps(s: State, p: nat, batch: seq<Link>)
    requires Inv(s) && Enabled(s, Prepare(p, batch))
    ensures Inv(Apply(s, Prepare(p, batch)))
  {
    PrepareMemory(s, p, batch);
    PrepareBatch(s, p, batch);
    PreparePending(s, p, batch);
    HistoryFrame(s, Apply(s, Prepare(p, batch)));
  }

  lemma ExchangeMemory(s: State, p: nat)
    requires MemoryInv(s) && Enabled(s, Exchange(p))
    ensures ChainInv(Apply(s, Exchange(p))) && BatchInv(Apply(s, Exchange(p)))
  {
    var s' := Apply(s, Exchange(p));
    var batch := s.producers[p].batch;
    assert PrivateBatch(s, batch);
    Append(s.chain, s.next, s.pending, batch, Producer(p));
    forall q, n | q in s'.producers && s'.producers[q].Ready? && n in s'.producers[q].batch
      ensures n !in s'.chain && n !in InHand(s')
    {
      assert PrivateBatch(s, s.producers[q].batch);
    }
    BatchFrame(s, s');
  }

  lemma ExchangePending(s: State, p: nat)
    requires s.chain != [] && s.tail == Last(s.chain) && s.tail !in s.pending
    requires PendingInv(s) && PopInv(s) && Enabled(s, Exchange(p))
    requires PrivateBatch(s, s.producers[p].batch)
    ensures PendingInv(Apply(s, Exchange(p))) && PopInv(Apply(s, Exchange(p)))
  {
    var s' := Apply(s, Exchange(p));
    assert forall n :: n in s'.chain <==> n in s.chain || n in s.producers[p].batch;
  }

  lemma {:induction false} ExchangeFifo(s: State, p: nat)
    requires FifoInv(s) && Enabled(s, Exchange(p)) && Stub !in s.producers[p].batch
    ensures FifoInv(Apply(s, Exchange(p)))
  {
    var batch := s.producers[p].batch;
    calc {
      Flatten(s.log + [batch]);
      { FlattenSnoc(s.log, batch); }
      s.popped + InHand(s) + Elems(s.chain) + batch;
      { Assoc(s.popped + InHand(s), Elems(s.chain), batch); }
      s.popped + InHand(s) + (Elems(s.chain) + batch);
      { ElemsConcat(s.chain, batch); ElemsOfBatch(batch); }
      s.popped + InHand(s) + Elems(s.chain + batch);
    }
  }

  lemma ExchangeWake(s: State, p: nat)
    requires TokenInv(s) && WakeInv(s) && Enabled(s, Exchange(p))
    ensures var s' := Apply(s, Exchange(p)); TokenInv(s') && WakeInv(s')
  {
    var s' := Apply(s, Exchange(p));
    assert Owing(s') == if s.marked then Owing(s) + {p} else Owing(s);
  }

  lemma ExchangeKeeps(s: State, p: nat)
    requires Inv(s) && Enabled(s, Exchange(p))
    ensures Inv(Apply(s, Exchange(p)))
  {
    assert PrivateBatch(s, s.producers[p].batch);
    ExchangeMemory(s, p);
    ExchangePending(s, p);
    ExchangeFifo(s, p);
    ExchangeWake(s, p);
  }

  lemma WriteLinkMemory(s: State, p: nat)
    requires ChainInv(s) && BatchInv(s) && PendingInv(s) && Enabled(s, WriteLink(p))
    ensures ChainInv(Apply(s, WriteLink(p))) && BatchInv(Apply(s, WriteLink(p)))
  {
    var prev := s.producers[p].prev;
    Fill(s.chain, s.next, s.pending, prev);
    forall q, n | q in s.producers && s.producers[q].Ready? && n in s.producers[q].batch
      ensures n !in s.chain && n !in InHand(s) && n != prev
    {
      assert PrivateBatch(s, s.producers[q].batch);
    }
    BatchFrame(s, Apply(s, WriteLink(p)));
  }

  lemma WriteLinkPending(s: State, p: nat)
    requires s.chain != [] && PendingInv(s) && PopInv(s) && Enabled(s, WriteLink(p))
    requires forall n :: n in s.pending ==> n in s.chain
    ensures PendingInv(Apply(s, WriteLink(p))) && PopInv(Apply(s, WriteLink(p)))
  {
  }

  lemma WriteLinkKeeps(s: State, p: nat)
    requires Inv(s) && Enabled(s, WriteLink(p))
    ensures Inv(Apply(s, WriteLink(p)))
  {
    WriteLinkMemory(s, p);
    WriteLinkPending(s, p);
    HistoryFrame(s, Apply(s, WriteLink(p)));
  }

  lemma ReportBatches(s: State, p: nat)
    requires BatchInv(s) && Enabled(s, Report(p))
    ensures BatchInv(Apply(s, Report(p)))
  {
    forall q | q in s.producers && s.producers[q].Ready?
      ensures PrivateBatch(Apply(s, Report(p)), s.producers[q].batch)
    {
      assert PrivateBatch(s, s.producers[q].batch);
    }
  }

  lemma ReportTokens(s: State, p: nat)
    requires TokenInv(s) && WakeInv(s) && Enabled(s, Report(p))
    ensures TokenInv(Apply(s, Report(p))) && WakeInv(Apply(s, Report(p)))
  {
    assert Owing(Apply(s, Report(p))) == Owing(s) - {p};
  }

  lemma ReportKeeps(s: State, p: nat)
    requires Inv(s) && Enabled(s, Report(p))
    ensures Inv(Apply(s, Report(p)))
  {
    ReportBatches(s, p);
    ReportTokens(s, p);
  }

  lemma PopChain(s: State)
    requires ChainInv(s) && PopInv(s) && s.kt.Popping? && NoNullLink(s)
    ensures ChainInv(PopOnce(s))
  {
    var s' := PopOnce(s);
    match s.kt.pc
    case DropStub => DropHead(s.chain, s.next, s.pending);
    case TakeHead => DropHead(s.chain, s.next, s.pending);
    case SwapStub => Append(s.chain, s.next, s.pending, [Stub], Consumer);
    case LinkStub(prev) => Fill(s.chain, s.next, s.pending, prev);
    case ClearStub => Frame(s.chain, s.next, s'.next, s.pending);
    case ClearTaken(_) => Frame(s.chain, s.next, s'.next, s.pending);
    case TryMark => StubAlone(s);
    case _ =>
  }

  /** The stub is at both ends only of the chain that holds nothing else. */
  lemma StubAlone(s: State)
    requires ChainInv(s) && s.chain[0] == Stub
    ensures s.tail == Stub <==> s.chain == [Stub]
  {
  }

  lemma PopBatch(s: State)
    requires ChainInv(s) && BatchInv(s) && PopInv(s) && s.kt.Popping? && NoNullLink(s)
    ensures BatchInv(PopOnce(s))
  {
    var s' := PopOnce(s);
    forall p, n | p in s'.producers && s'.producers[p].Ready? && n in s'.producers[p].batch
      ensures n !in s'.chain && n !in InHand(s')
      ensures (n in s.next <==> n in s'.next) && (n in s.next ==> s.next[n] == s'.next[n])
    {
      assert PrivateBatch(s, s.producers[p].batch);
    }
    BatchFrame(s, s');
  }

  lemma PopPending(s: State)
    requires ChainInv(s) && PendingInv(s) && PopInv(s) && s.kt.Popping? && NoNullLink(s)
    ensures PendingInv(PopOnce(s))
  {
  }

  lemma PopCounter(s: State)
    requires ChainInv(s) && PopInv(s) && s.kt.Popping? && NoNullLink(s)
    ensures PopInv(PopOnce(s))
  {
  }

  /** What was popped, then what `pop` holds, then what is queued. */
  function Delivery(s: State): seq<Link> {
    s.popped + InHand(s) + Elems(s.chain)
  }

  lemma PopDelivery(s: State)
    requires s.chain != [] && s.head == s.chain[0] && PopInv(s) && s.kt.Popping? && NoNullLink(s)
    ensures Delivery(PopOnce(s)) == Delivery(s)
  {
    var s' := PopOnce(s);
    match s.kt.pc
    case SwapStub => ElemsConcat(s.chain, [Stub]);
    case TakeHead => DeliverHead(s.popped, s.chain);
    case ClearTaken(taken) => assert s'.popped + [] == s.popped + [taken];
    case DropStub => DeliverHead(s.popped, s.chain);
    case _ =>
  }

  lemma DeliverHead(popped: seq<Link>, chain: seq<Link>)
    requires chain != []
    ensures chain[0] == Stub ==> Elems(chain) == Elems(chain[1..])
    ensures chain[0] != Stub ==> popped + [] + Elems(chain) == popped + [chain[0]] + Elems(chain[1..])
  {
  }

  lemma PopTokens(s: State)
    requires s.chain != [] && PopInv(s) && (s.marked ==> s.chain == [Stub])
    requires TokenInv(s) && WakeInv(s) && s.kt.Popping? && NoNullLink(s)
    ensures TokenInv(PopOnce(s)) && WakeInv(PopOnce(s))
  {
    assert Owing(PopOnce(s)) == Owing(s);
  }

  lemma PopKeeps(s: State)
    requires Inv(s) && Enabled(s, PopStep)
    ensures Inv(PopOnce(s))
  {
    PopChain(s);
    PopBatch(s);
    PopPending(s);
    PopCounter(s);
    PopDelivery(s);
    PopTokens(s);
  }

  lemma EnterBatches(s: State, s': State)
    requires BatchInv(s) && s' == s.(kt := s'.kt, sem := s'.sem, waits := s'.waits) && InHand(s') == InHand(s)
    ensures BatchInv(s')
  {
    forall q | q in s.producers && s.producers[q].Ready?
      ensures PrivateBatch(s', s.producers[q].batch)
    {
      assert PrivateBatch(s, s.producers[q].batch);
    }
  }

  lemma EnterKeeps(s: State, a: Action)
    requires Inv(s) && Enabled(s, a) && (a.EnterPop? || a.TakeToken?)
    ensures Inv(Apply(s, a))
  {
    EnterBatches(s, Apply(s, a));
    assert Owing(Apply(s, a)) == Owing(s);
  }

  lemma StepKeeps(s: State, a: Action)
    requires Inv(s) && Enabled(s, a)
    ensures Inv(Apply(s, a))
  {
    match a
    case Prepare(p, batch) => PrepareKeeps(s, p, batch);
    case Exchange(p) => ExchangeKeeps(s, p);
    case WriteLink(p) => WriteLinkKeeps(s, p);
    case Report(p) => ReportKeeps(s, p);
    case EnterPop(yielding) => EnterKeeps(s, a);
    case TakeToken => EnterKeeps(s, a);
    case PopStep => PopKeeps(s);
  }

  // --------------------------------------------------------- whole runs

  ghost predicate StepAt(states: seq<State>, actions: seq<Action>, i: nat)
    requires i < |actions| && i + 1 < |states|
  {
    Enabled(states[i], actions[i]) && states[i + 1] == Apply(states[i], actions[i])
  }

  /** A run is any schedule of enabled steps from an initial state. */
  ghost predicate Run(states: seq<State>, actions: seq<Action>) {
    && |states| == |actions| + 1
    && Init(states[0])
    && forall i :: 0 <= i < |actions| ==> StepAt(states, actions, i)
  }

  lemma {:induction false} RunInv(states: seq<State>, actions: seq<Action>, i: nat)
    requires Run(states, actions) && i < |states|
    ensures Inv(states[i])
  {
    if i == 0 {
      InitInv(states[0]);
    } else {
      RunInv(states, actions, i - 1);
      assert StepAt(states, actions, i - 1);
      StepKeeps(states[i - 1], actions[i - 1]);
    }
  }

  /** The pops of a run are a prefix of the elements in exchange order, batch after batch; what
      is missing from the prefix is still in the queue, in order, and nothing is there twice. */
  lemma PopsInExchangeOrder(states: seq<State>, actions: seq<Action>, i: nat)
    requires Run(states, actions) && i < |states|
    ensures var s := states[i];
            && s.popped <= Flatten(s.log)
            && Flatten(s.log)[|s.popped|..] == InHand(s) + Elems(s.chain)
            && Distinct(s.chain) && (forall n :: n in InHand(s) ==> n !in s.chain)
  {
    RunInv(states, actions, i);
    var s := states[i];
    assert s.popped + InHand(s) + Elems(s.chain) == s.popped + (InHand(s) + Elems(s.chain));
  }

  /** The stub is in the chain exactly once, except while `pop` is moving it to the end, and a
      marked tail means that the stub is both head and tail. */
  lemma StubOnce(states: seq<State>, actions: seq<Action>, i: nat)
    requires Run(states, actions) && i < |states|
    ensures var s := states[i];
            && (Stub in s.chain <==> !(s.kt.Popping? && (s.kt.pc.ClearStub? || s.kt.pc.SwapStub?)))
            && Distinct(s.chain)
            && (s.marked ==> s.head == Stub && s.tail == Stub && s.chain == [Stub] && Stub !in s.next)
  {
    RunInv(states, actions, i);
  }

  /** `pop` returns null only if the abstract queue is empty at that very step, and it leaves the tail marked. */
  lemma {:induction false} NullPopMeansEmpty(states: seq<State>, actions: seq<Action>, i: nat)
    requires Run(states, actions) && i < |actions| && actions[i] == PopStep
    requires !states[i + 1].kt.Popping? && states[i + 1].popped == states[i].popped
    ensures Elems(states[i].chain) == [] && Flatten(states[i].log) == states[i].popped
    ensures states[i + 1].marked
  {
    RunInv(states, actions, i);
    assert StepAt(states, actions, i);
    NullPop(states[i]);
  }

  lemma {:induction false} NullPop(s: State)
    requires ChainInv(s) && PopInv(s) && FifoInv(s) && s.kt.Popping? && NoNullLink(s)
    requires !PopOnce(s).kt.Popping? && PopOnce(s).popped == s.popped
    ensures Elems(s.chain) == [] && Flatten(s.log) == s.popped && PopOnce(s).marked
  {
    assert !s.kt.pc.ClearTaken? by {
      assert |s.popped + InHand(s)| == |s.popped| + |InHand(s)|;
    }
    StubAlone(s);
    assert s.chain == [Stub];
    assert s.popped + [] + [] == s.popped;
  }

  /** `pop` never follows a null link. */
  lemma PopNeverStuck(states: seq<State>, actions: seq<Action>, i: nat)
    requires Run(states, actions) && i < |states|
    ensures states[i].kt.Popping? ==> Enabled(states[i], PopStep)
  {
    RunInv(states, actions, i);
  }

  predicate Spinning(s: State) {
    s.kt.Popping? && (s.kt.pc.SpinStub? || s.kt.pc.SpinHead?) && s.head !in s.next
  }

  /** Every spin is justified: exactly one producer has exchanged and not linked at the node
      the consumer waits on, and its next step ends the wait. */
  lemma SpinHasOneProducer(states: seq<State>, actions: seq<Action>, i: nat)
      returns (p: nat)
    requires Run(states, actions) && i < |states| && Spinning(states[i])
    ensures var s := states[i];
            && p in s.producers && s.producers[p].Linking? && s.producers[p].prev == s.head
            && (forall q :: q in s.producers && s.producers[q].Linking? && s.producers[q].prev == s.head ==> q == p)
            && Enabled(s, WriteLink(p)) && !Spinning(Apply(s, WriteLink(p)))
  {
    RunInv(states, actions, i);
    var s := states[i];
    assert |s.chain| >= 2;
    GapHasOwner(s.chain, s.next, s.pending);
    p := s.pending[s.head].agent.id;
  }

  /** Outside justified spins `pop` only moves forward, so it returns after at most ten more steps of its own. */
  function StepsLeft(pc: PopPc): nat {
    match pc
    case ReadHead => 10 case ReadTail => 9 case TryMark => 8 case SpinStub => 7 case DropStub => 6
    case ClearStub => 5 case SwapStub => 4 case LinkStub(_) => 3 case SpinHead => 2 case TakeHead => 1
    case ClearTaken(_) => 0
  }

  lemma PopAdvances(states: seq<State>, actions: seq<Action>, i: nat)
    requires Run(states, actions) && i < |states| && states[i].kt.Popping? && !Spinning(states[i])
    ensures Enabled(states[i], PopStep)
    ensures var s' := Apply(states[i], PopStep); s'.kt.Popping? ==> StepsLeft(s'.kt.pc) < StepsLeft(states[i].kt.pc)
  {
    RunInv(states, actions, i);
    Advance(states[i]);
  }

  lemma Advance(s: State)
    requires s.chain != [] && s.head == s.chain[0] && PopInv(s) && s.kt.Popping? && !Spinning(s) && NoNullLink(s)
    ensures PopOnce(s).kt.Popping? ==> StepsLeft(PopOnce(s).kt.pc) < StepsLeft(s.kt.pc)
  {
  }

  /** No lost wake-up: a kThread asleep on an empty semaphore has its queue marked empty, so that
      the next push will post, or some producer already owes the post. */
  lemma NoLostWakeUp(states: seq<State>, actions: seq<Action>, i: nat)
    requires Run(states, actions) && i < |states|
    requires states[i].kt.Waiting? && states[i].sem == 0
    ensures var s := states[i];
            || (s.marked && Elems(s.chain) == [])
            || exists p :: p in s.producers && Owes(s.producers[p])
  {
    RunInv(states, actions, i);
    var s := states[i];
    if !s.marked {
      var p :| p in Owing(s);
    }
  }

  lemma DebtStep(s: State, a: Action, p: nat)
    requires Enabled(s, a) && a != Report(p) && p in s.producers && Owes(s.producers[p])
    ensures p in Apply(s, a).producers && Owes(Apply(s, a).producers[p])
  {
  }

  lemma TokenStep(s: State, a: Action)
    requires Enabled(s, a) && a != TakeToken && s.kt.Waiting? && s.sem > 0
    ensures Apply(s, a).kt.Waiting? && Apply(s, a).sem > 0
  {
  }

  /** Whatever the others do, a producer that owes a post keeps owing it until it posts, and can always go on. */
  lemma {:induction false} DebtStays(states: seq<State>, actions: seq<Action>, i: nat, n: nat, p: nat)
    requires Run(states, actions) && i <= n < |states|
    requires p in states[i].producers && Owes(states[i].producers[p])
    requires forall m :: i <= m < n ==> actions[m] != Report(p)
    ensures p in states[n].producers && Owes(states[n].producers[p])
    ensures Enabled(states[n], if states[n].producers[p].Linking? then WriteLink(p) else Report(p))
  {
    if i < n {
      DebtStays(states, actions, i, n - 1, p);
      assert StepAt(states, actions, n - 1);
      DebtStep(states[n - 1], actions[n - 1], p);
    }
  }

  /** Once it has posted, a kThread in its wait can leave it, and whatever the others do it stays able to until it
      does. */
  lemma {:induction false} OwedPostArrives(states: seq<State>, actions: seq<Action>, i: nat, m: nat, n: nat, p: nat)
    requires Run(states, actions) && i <= m < n < |states|
    requires p in states[i].producers && Owes(states[i].producers[p])
    requires actions[m] == Report(p) && forall k :: i <= k < m ==> actions[k] != Report(p)
    requires states[m].kt.Waiting? && forall k :: m < k < n ==> actions[k] != TakeToken
    ensures states[n].kt.Waiting? && Enabled(states[n], TakeToken)
  {
    if n == m + 1 {
      DebtStays(states, actions, i, m, p);
      assert StepAt(states, actions, m);
    } else {
      OwedPostArrives(states, actions, i, m, n - 1, p);
      assert StepAt(states, actions, n - 1);
      TokenStep(states[n - 1], actions[n - 1]);
    }
  }

  /** When the producers are done and the kThread sleeps, everything pushed has been popped. */
  lemma AsleepMeansDrained(states: seq<State>, actions: seq<Action>, i: nat)
    requires Run(states, actions) && i < |states|
    requires states[i].kt.Waiting? && states[i].sem == 0 && states[i].producers == map[]
    ensures states[i].popped == Flatten(states[i].log)
  {
    RunInv(states, actions, i);
    assert Owing(states[i]) == {};
    assert Elems([Stub]) == [];
  }

  /** Each period in which the tail is marked is ended by exactly one push that reports "was empty":
      reports and marks alternate, and the consumer's own stub insert never reports. */
  lemma OneReportPerMark(states: seq<State>, actions: seq<Action>, i: nat)
    requires Run(states, actions) && i < |states|
    ensures var s := states[i];
            && s.marks == s.reports + (if s.marked then 1 else 0)
            && s.reports == |Owing(s)| + s.sem + s.waits
            && (s.kt.Popping? && s.kt.pc.SwapStub? ==> !s.marked)
  {
    RunInv(states, actions, i);
  }
}
