/**
 Every step of `NodeOwnership` keeps its invariant.
 */
module NodeSteps {
  import opened Sequences
  import opened NodeOwnership

  // ------------------------------------------------------------------ payloads

  /** No queue, no `pop` and no producer relies on the payload of this node. */
  ghost predicate Unseen(s: State, n: Node) {
    && (forall k :: k in s.kts ==> n !in s.kts[k].chain && !(s.kts[k].pop.Picked? && s.kts[k].pop.node == n))
    && (forall p :: p in s.producers ==> s.producers[p].node != n)
  }

  lemma UnseenAtUt(s: State, u: Ut, n: Node)
    requires Owned(s) && PointerInv(s) && BusyInv(s) && HaveInv(s)
    requires u in s.node && s.node[u] == Some(n) && u !in s.busy
    ensures Unseen(s, n)
  {
    PtrOf(s, u, 0, 0);
    forall k | k in s.kts
      ensures n !in s.kts[k].chain && !(s.kts[k].pop.Picked? && s.kts[k].pop.node == n)
    {
      PtrOf(s, u, 0, k);
      assert ChainOk(s.kts[k].chain, s.owner, k);
    }
    forall p | p in s.producers
      ensures s.producers[p].node != n
    {
      PtrOf(s, s.producers[p].ut, p, 0);
    }
  }

  lemma UnseenAtPop(s: State, k: Kt)
    requires Owned(s) && PointerInv(s) && HaveInv(s) && k in s.kts && s.kts[k].pop.Copying?
    ensures Unseen(s, s.kts[k].pop.node)
  {
    var n := s.kts[k].pop.node;
    PtrOf(s, 0, 0, k);
    forall j | j in s.kts
      ensures n !in s.kts[j].chain && !(s.kts[j].pop.Picked? && s.kts[j].pop.node == n)
    {
      PtrOf(s, 0, 0, j);
      assert ChainOk(s.kts[j].chain, s.owner, j);
    }
    forall p | p in s.producers
      ensures s.producers[p].node != n
    {
      PtrOf(s, s.producers[p].ut, p, 0);
    }
  }

  lemma PayloadWrite(s: State, n: Node, u: Ut)
    requires PayloadInv(s) && Unseen(s, n)
    ensures PayloadInv(s.(payload := s.payload[n := u]))
  {
    forall k | k in s.kts
      ensures KtPayload(s.kts[k], s.payload[n := u])
    {
      assert KtPayload(s.kts[k], s.payload);
      assert forall i :: 0 <= i < |s.kts[k].chain| ==> s.kts[k].chain[i] in s.kts[k].chain;
    }
  }

  lemma BeginPayload(s: State, p: nat, u: Ut, k: Kt, n: Node)
    requires PayloadInv(s) && Unseen(s, n)
    ensures PayloadInv(DoBegin(s, p, u, k, n))
  {
    PayloadWrite(s, n, u);
  }

  lemma CopyPayload(s: State, k: Kt)
    requires PayloadInv(s) && Enabled(s, Copy(k)) && Unseen(s, s.kts[k].pop.node)
    ensures PayloadInv(Apply(s, Copy(k)))
  {
    assert KtPayload(s.kts[k], s.payload);
    PayloadWrite(s, s.kts[k].pop.node, s.payload[s.kts[k].chain[0]]);
    var t := s.(payload := s.payload[s.kts[k].pop.node := s.payload[s.kts[k].chain[0]]]);
    assert KtPayload(t.kts[k], t.payload);
  }

  lemma ExchangePayload(s: State, p: nat)
    requires PayloadInv(s) && Enabled(s, Exchange(p))
    ensures PayloadInv(Apply(s, Exchange(p)))
  {
    assert KtPayload(s.kts[s.producers[p].kt], s.payload);
  }

  lemma AdvancePayload(s: State, k: Kt)
    requires PayloadInv(s) && Enabled(s, Advance(k))
    ensures PayloadInv(Apply(s, Advance(k)))
  {
    assert KtPayload(s.kts[k], s.payload);
    assert Says(s.payload, s.kts[k].chain[1], s.kts[k].queued[0]);
  }

  lemma OtherPayload(s: State, a: Action)
    requires PayloadInv(s) && Enabled(s, a) && (a.NewKt? || a.NewUt? || a.Clear? || a.Give? || a.Keep?)
    ensures PayloadInv(Apply(s, a))
  {
    if a.Give? || a.Keep? {
      assert KtPayload(s.kts[a.kt], s.payload);
    }
  }

  lemma OrderStep(s: State, a: Action)
    requires OrderInv(s) && Enabled(s, a)
    ensures OrderInv(Apply(s, a))
  {
    match a
    case Exchange(p) =>
      var kt := s.kts[s.producers[p].kt];
      assert InOrder(kt);
      Assoc(kt.left, kt.queued, [s.producers[p].ut]);
    case Advance(k) =>
      var kt := s.kts[k];
      assert InOrder(kt);
      assert kt.left + kt.queued == kt.left + [kt.queued[0]] + kt.queued[1..];
    case _ =>
  }

  // ------------------------------------------------------- who can be scheduled

  lemma BeginBusy(s: State, p: nat, u: Ut, k: Kt, n: Node)
    requires BusyInv(s) && Enabled(s, Begin(p, u, k))
    ensures BusyInv(DoBegin(s, p, u, k, n))
  {
  }

  lemma ClearBusy(s: State, p: nat)
    requires BusyInv(s) && Enabled(s, Clear(p))
    ensures BusyInv(Apply(s, Clear(p)))
  {
  }

  /** The kThreads that a change of one uThread's reason does not concern. */
  lemma OthersBusy(s: State, u: Ut, b: Option<Busy>, k: Kt)
    requires BusyInv(s) && u in s.busy && s.busy[u] != OnQueue(k) && s.busy[u] != Chosen(k) && k in s.kts
    ensures KtBusy(s.kts[k], if b.Some? then s.busy[u := b.value] else s.busy - {u}, k)
  {
    assert KtBusy(s.kts[k], s.busy, k);
  }

  lemma ExchangeBusy(s: State, p: nat)
    requires BusyInv(s) && Enabled(s, Exchange(p))
    ensures BusyInv(Apply(s, Exchange(p)))
  {
    var s', k, u := Apply(s, Exchange(p)), s.producers[p].kt, s.producers[p].ut;
    assert IsBusy(s.busy, u, Scheduling(p));
    forall j | j in s'.kts
      ensures KtBusy(s'.kts[j], s'.busy, j)
    {
      OthersBusy(s, u, Some(OnQueue(k)), j);
      assert KtBusy(s.kts[j], s.busy, j) && u !in s.kts[j].queued;
    }
  }

  lemma AdvanceBusy(s: State, k: Kt)
    requires BusyInv(s) && Enabled(s, Advance(k))
    ensures BusyInv(Apply(s, Advance(k)))
  {
    var s', kt := Apply(s, Advance(k)), s.kts[k];
    assert KtBusy(kt, s.busy, k) && kt.queued[0] in kt.queued;
    assert kt.queued[0] !in kt.queued[1..];
    forall j | j in s'.kts && j != k
      ensures KtBusy(s'.kts[j], s'.busy, j)
    {
      OthersBusy(s, kt.queued[0], Some(Chosen(k)), j);
    }
    assert KtBusy(s'.kts[k], s'.busy, k) by {
      assert forall u :: u in kt.queued[1..] ==> u in kt.queued && u != kt.queued[0];
    }
    AdvanceReasons(s, k);
  }

  lemma AdvanceReasons(s: State, k: Kt)
    requires BusyInv(s) && Enabled(s, Advance(k)) && s.kts[k].queued[0] in s.busy
    ensures var s' := Apply(s, Advance(k)); forall u :: u in s'.busy ==> u in s'.node && HasReason(s', u)
  {
    var s', q := Apply(s, Advance(k)), s.kts[k].queued;
    forall u | u in s'.busy
      ensures u in s'.node && HasReason(s', u)
    {
      assert HasReason(s, u);
      assert u in q ==> u == q[0] || u in q[1..];
    }
  }

  lemma MoveBusy(s: State, a: Action)
    requires BusyInv(s) && Enabled(s, a) && (a.Copy? || a.Give?)
    requires a.Give? ==> s.payload[s.kts[a.kt].pop.node] in s.node
    ensures BusyInv(Apply(s, a))
  {
    var s' := Apply(s, a);
    forall j | j in s'.kts
      ensures KtBusy(s'.kts[j], s'.busy, j)
    {
      assert KtBusy(s.kts[j], s.busy, j);
    }
    forall u | u in s'.busy
      ensures u in s'.node && HasReason(s', u)
    {
      assert HasReason(s, u);
    }
  }

  lemma KeepBusy(s: State, k: Kt)
    requires BusyInv(s) && Enabled(s, Keep(k))
    ensures BusyInv(Apply(s, Keep(k)))
  {
    var s', u := Apply(s, Keep(k)), s.kts[k].chosen;
    assert KtBusy(s.kts[k], s.busy, k);
    forall j | j in s'.kts && j != k
      ensures KtBusy(s'.kts[j], s'.busy, j)
    {
      OthersBusy(s, u, None, j);
    }
    forall v | v in s'.busy
      ensures v in s'.node && HasReason(s', v)
    {
      assert HasReason(s, v);
    }
  }

  lemma NewBusy(s: State, a: Action)
    requires BusyInv(s) && Enabled(s, a) && (a.NewKt? || a.NewUt?)
    ensures BusyInv(Apply(s, a))
  {
  }

  // --------------------------------------------------------- who has a node

  lemma NewHave(s: State, a: Action)
    requires BusyInv(s) && HaveInv(s) && Enabled(s, a) && (a.NewKt? || a.NewUt?)
    ensures HaveInv(Apply(s, a))
  {
  }

  lemma BeginHave(s: State, p: nat, u: Ut, k: Kt, n: Node)
    requires BusyInv(s) && HaveInv(s) && Enabled(s, Begin(p, u, k)) && s.node[u] == Some(n)
    ensures HaveInv(DoBegin(s, p, u, k, n))
  {
  }

  lemma ClearHave(s: State, p: nat)
    requires BusyInv(s) && HaveInv(s) && Enabled(s, Clear(p))
    ensures HaveInv(Apply(s, Clear(p)))
  {
    assert IsBusy(s.busy, s.producers[p].ut, Scheduling(p));
  }

  lemma ExchangeHave(s: State, p: nat)
    requires BusyInv(s) && HaveInv(s) && Enabled(s, Exchange(p))
    ensures HaveInv(Apply(s, Exchange(p)))
  {
    assert IsBusy(s.busy, s.producers[p].ut, Scheduling(p));
  }

  lemma AdvanceHave(s: State, k: Kt)
    requires BusyInv(s) && HaveInv(s) && Enabled(s, Advance(k))
    ensures HaveInv(Apply(s, Advance(k)))
  {
    var s' := Apply(s, Advance(k));
    assert KtBusy(s.kts[k], s.busy, k) && s.kts[k].queued[0] in s.kts[k].queued;
    forall u | u in s'.node
      ensures s'.node[u].None? <==> u in s'.busy && Without(s', s'.busy[u])
    {
      assert u in s.busy ==> HasReason(s, u);
    }
  }

  lemma CopyHave(s: State, k: Kt)
    requires HaveInv(s) && Enabled(s, Copy(k))
    ensures HaveInv(Apply(s, Copy(k)))
  {
  }

  lemma GiveHave(s: State, k: Kt, n: Node)
    requires BusyInv(s) && HaveInv(s) && Enabled(s, Give(k, n)) && s.payload[s.kts[k].pop.node] == s.kts[k].chosen
    ensures HaveInv(Apply(s, Give(k, n)))
  {
    var s' := Apply(s, Give(k, n));
    assert KtBusy(s.kts[k], s.busy, k);
    forall u | u in s'.node
      ensures s'.node[u].None? <==> u in s'.busy && Without(s', s'.busy[u])
    {
      assert u in s.busy ==> HasReason(s, u);
    }
  }

  lemma KeepHave(s: State, k: Kt)
    requires BusyInv(s) && HaveInv(s) && Enabled(s, Keep(k))
    ensures HaveInv(Apply(s, Keep(k)))
  {
    var s' := Apply(s, Keep(k));
    assert KtBusy(s.kts[k], s.busy, k);
    forall u | u in s'.node
      ensures s'.node[u].None? <==> u in s'.busy && Without(s', s'.busy[u])
    {
      assert u in s.busy ==> HasReason(s, u);
    }
  }

  // ------------------------------------------------------------------ whole steps

  lemma NewKeeps(s: State, a: Action)
    requires Inv(s) && Enabled(s, a) && (a.NewKt? || a.NewUt?)
    ensures Inv(Apply(s, a))
  {
    OtherPayload(s, a);
    OrderStep(s, a);
    NewBusy(s, a);
    NewHave(s, a);
    if a.NewKt? {
      NewKtPtr(s, a.kt, a.stub);
      AddChain(s.holds, s.kts, s.owner, a.stub, a.kt, Apply(s, a).kts[a.kt]);
    } else {
      NewUtPtr(s, a.ut, a.spare);
      PtrOf(s, a.ut, 0, 0);
      Add(s.holds, s.kts, s.owner, a.spare, OfUt(a.ut));
    }
  }

  /** The assertion of `schedule` holds: a uThread that is free has its node. */
  lemma BeginKeeps(s: State, p: nat, u: Ut, k: Kt)
    requires Inv(s) && Enabled(s, Begin(p, u, k))
    ensures s.node[u].Some? && Inv(Apply(s, Begin(p, u, k)))
  {
    var n := s.node[u].value;
    UnseenAtUt(s, u, n);
    BeginPayload(s, p, u, k, n);
    OrderStep(s, Begin(p, u, k));
    BeginBusy(s, p, u, k, n);
    BeginHave(s, p, u, k, n);
    BeginPtr(s, p, u, k, n);
  }

  lemma BeginPtr(s: State, p: nat, u: Ut, k: Kt, n: Node)
    requires PointerInv(s) && Enabled(s, Begin(p, u, k))
    ensures PointerInv(DoBegin(s, p, u, k, n))
  {
  }

  lemma ClearKeeps(s: State, p: nat)
    requires Inv(s) && Enabled(s, Clear(p))
    ensures Inv(Apply(s, Clear(p)))
  {
    PtrOf(s, s.producers[p].ut, p, 0);
    ClearOwn(s, p);
    ClearPtr(s, p);
    OtherPayload(s, Clear(p));
    OrderStep(s, Clear(p));
    ClearBusy(s, p);
    ClearHave(s, p);
  }

  lemma ExchangeKeeps(s: State, p: nat)
    requires Inv(s) && Enabled(s, Exchange(p))
    ensures Inv(Apply(s, Exchange(p)))
  {
    PtrOf(s, 0, p, 0);
    ExchangeOwn(s, p);
    ExchangePtr(s, p);
    ExchangePayload(s, p);
    OrderStep(s, Exchange(p));
    ExchangeBusy(s, p);
    ExchangeHave(s, p);
  }

  lemma AdvanceKeeps(s: State, k: Kt)
    requires Inv(s) && Enabled(s, Advance(k))
    ensures Inv(Apply(s, Advance(k)))
  {
    PtrOf(s, 0, 0, k);
    AdvanceOwn(s, k);
    AdvancePtr(s, k);
    AdvancePayload(s, k);
    OrderStep(s, Advance(k));
    AdvanceBusy(s, k);
    AdvanceHave(s, k);
  }

  lemma CopyKeeps(s: State, k: Kt)
    requires Inv(s) && Enabled(s, Copy(k))
    ensures Inv(Apply(s, Copy(k)))
  {
    SameChain(s.holds, s.kts, s.owner, k, Apply(s, Copy(k)).kts[k]);
    CopyPtr(s, k);
    UnseenAtPop(s, k);
    CopyPayload(s, k);
    OrderStep(s, Copy(k));
    MoveBusy(s, Copy(k));
    CopyHave(s, k);
  }

  /** The chosen uThread, read from the payload of the popped node, is still without a node. */
  lemma ChosenWithout(s: State, k: Kt)
    requires PayloadInv(s) && BusyInv(s) && HaveInv(s) && k in s.kts && s.kts[k].pop.Picked?
    ensures Says(s.payload, s.kts[k].pop.node, s.kts[k].chosen)
    ensures s.kts[k].chosen in s.node && s.node[s.kts[k].chosen].None?
  {
    assert KtPayload(s.kts[k], s.payload) && KtBusy(s.kts[k], s.busy, k);
  }

  lemma GiveKeeps(s: State, k: Kt, n: Node)
    requires Inv(s) && Enabled(s, Give(k, n))
    ensures Inv(Apply(s, Give(k, n)))
  {
    ChosenWithout(s, k);
    PtrOf(s, s.kts[k].chosen, 0, k);
    GiveOwn(s, k, n);
    GivePtr(s, k, n);
    OtherPayload(s, Give(k, n));
    OrderStep(s, Give(k, n));
    MoveBusy(s, Give(k, n));
    GiveHave(s, k, n);
  }

  lemma KeepKeeps(s: State, k: Kt)
    requires Inv(s) && Enabled(s, Keep(k))
    ensures Inv(Apply(s, Keep(k)))
  {
    PtrOf(s, 0, 0, k);
    KeepOwn(s, k);
    KeepPtr(s, k);
    OtherPayload(s, Keep(k));
    OrderStep(s, Keep(k));
    KeepBusy(s, k);
    KeepHave(s, k);
  }

  lemma StepKeeps(s: State, a: Action)
    requires Inv(s) && Enabled(s, a)
    ensures Inv(Apply(s, a))
  {
    match a
    case NewKt(k, n) => NewKeeps(s, a);
    case NewUt(u, n) => NewKeeps(s, a);
    case Begin(p, u, k) => BeginKeeps(s, p, u, k);
    case Clear(p) => ClearKeeps(s, p);
    case Exchange(p) => ExchangeKeeps(s, p);
    case Advance(k) => AdvanceKeeps(s, k);
    case Copy(k) => CopyKeeps(s, k);
    case Give(k, n) => GiveKeeps(s, k, n);
    case Keep(k) => KeepKeeps(s, k);
  }
}
