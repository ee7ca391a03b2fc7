/**
 Where uThreads are, under the default scheduler. A uThread has one intrusive
 link, so it must never be on two queues at once; and `kThread::postSwitchFunc`
 and `uThread::resume` decide by the `state` field what happens to a uThread
 that was switched out, so a wrong state would drop it silently.

 All containers of the runtime are kept in one map from places to sequences;
 the code paths take a uThread out of one place and put it into another. The
 place `Lost` stands for the paths on which the code forgets a uThread. `where`
 is history.
 */
module Placement {
  import opened Sequences

  type Ut = nat
  type Kt = nat

  datatype Place =
    | New(ut: Ut)              // created, not started
    | Cur(kt: Kt)              // running on a kThread or being switched out by it (none: its mainUT)
    | Hand(kt: Kt)             // chosen by nonBlockingSwitch or blockingSwitch, not switched to yet
    | RunQueue(kt: Kt)
    | WaitList(list: nat)      // the list of a BlockingQueue
    | Slot(port: nat)          // a poll slot
    | Bulk(kt: Kt)             // the bulk queue of a kThread
    | Transit(ut: Ut)          // dequeued by a signal, resume not called yet
    | Cached(ut: Ut)           // terminated and recycled
    | Lost

  datatype UtState = INITIALIZED | READY | RUNNING | YIELD | MIGRATE | WAITING | TERMINATED

  /** Where the function passed to `suspend` will put the uThread. */
  datatype Target = ToList(list: nat) | ToSlot(port: nat)

  /** What that function finds when it is to park the uThread in a slot. */
  datatype Found = Empty | Ready | Closing

  datatype State = State(
    boxes: map<Place, seq<Ut>>, state: map<Ut, UtState>, home: map<Ut, Option<Kt>>,
    target: map<Kt, Target>, switching: set<Kt>,
    where: map<Ut, Place>)

  datatype Action =
    | Create(ut: Ut) | Recycle(ut: Ut) | Start(ut: Ut, kt: Kt)
    | Yield(kt: Kt) | Migrate(kt: Kt, to: Kt) | Suspend(kt: Kt, t: Target) | Terminate(kt: Kt)
    | MainSwitch(kt: Kt) | SwitchOut(kt: Kt, found: Found) | SwitchIn(kt: Kt)
    | Signal(list: nat) | Resume(ut: Ut) | Unblock(port: nat) | BulkPush(kt: Kt)

  /** The program starts as the uThread 0 (`initUT`), which the default kThread 0 runs without ever having switched
      to it; its state is still the initial one. */
  ghost predicate Init(s: State) {
    s == State(map[Cur(0) := [0]], map[0 := INITIALIZED], map[0 := Some(0)], map[], {}, map[0 := Cur(0)])
  }

  function Box(s: State, p: Place): seq<Ut> {
    if p in s.boxes then s.boxes[p] else []
  }

  function Front(s: State, p: Place): Ut {
    if Box(s, p) == [] then 0 else Box(s, p)[0]
  }

  /** Takes the first uThread of one container and appends it to another. */
  function Move(s: State, p: Place, q: Place): State
    requires Box(s, p) != [] && p != q
  {
    s.(boxes := s.boxes[p := Box(s, p)[1..]][q := Box(s, q) + [Box(s, p)[0]]], where := s.where[Box(s, p)[0] := q])
  }

  predicate Known(s: State, u: Ut) {
    u in s.state && u in s.home
  }

  function With(s: State, u: Ut, st: UtState, h: Option<Kt>): (t: State)
    ensures Known(t, u) && forall p :: Box(t, p) == Box(s, p)
  {
    s.(state := s.state[u := st], home := s.home[u := h])
  }

  /** `uThread::resume` on the first uThread of a container; `given` is what assignkThread would return. */
  function DoResume(s: State, p: Place, given: Kt): State
    requires Box(s, p) != [] && Known(s, Front(s, p)) && !p.RunQueue? && !p.Lost?
  {
    var u := Front(s, p);
    if s.state[u].WAITING? || s.state[u].INITIALIZED? || s.state[u].MIGRATE? || s.state[u].YIELD? then
      var h := if s.home[u].Some? then s.home[u].value else given;
      Move(With(s, u, READY, Some(h)), p, RunQueue(h))
    else Move(s, p, Lost)
  }

  /** Choose the next uThread: the first of the run queue or, if there is none, mainUT. */
  function Choose(s: State, k: Kt): State {
    var s1 := s.(switching := s.switching + {k});
    if Box(s, RunQueue(k)) != [] then Move(s1, RunQueue(k), Hand(k)) else s1
  }

  /** The current uThread of a kThread. */
  function Running(s: State, k: Kt): Ut {
    Front(s, Cur(k))
  }

  predicate RunningUser(s: State, k: Kt) {
    Box(s, Cur(k)) != [] && k !in s.switching && Known(s, Running(s, k))
  }

  predicate Enabled(s: State, a: Action) {
    match a
    case Create(u) => u !in s.where
    case Recycle(u) => Box(s, Cached(u)) != []
    case Start(u, k) => Box(s, New(u)) != [] && Known(s, Front(s, New(u)))
    case Yield(k) => RunningUser(s, k)
    case Migrate(k, to) => RunningUser(s, k)
    case Suspend(k, t) => RunningUser(s, k)
    case Terminate(k) => RunningUser(s, k)
    case MainSwitch(k) => Box(s, Cur(k)) == [] && k !in s.switching && Box(s, RunQueue(k)) != []
    case SwitchOut(k, found) =>
      && k in s.switching && Box(s, Cur(k)) != [] && Known(s, Running(s, k))
      // one uThread blocks on a slot at a time
      && (found.Empty? && k in s.target && s.target[k].ToSlot? ==> Box(s, Slot(s.target[k].port)) == [])
    case SwitchIn(k) => k in s.switching && Box(s, Cur(k)) == []
    case Signal(l) => Box(s, WaitList(l)) != []
    case Resume(u) => Box(s, Transit(u)) != [] && Known(s, Front(s, Transit(u)))
    case Unblock(f) => Box(s, Slot(f)) != [] && Known(s, Front(s, Slot(f)))
    case BulkPush(k) => Box(s, Bulk(k)) != []
  }

  function Apply(s: State, a: Action): State
    requires Enabled(s, a)
  {
    match a
    case Create(u) =>
      s.(boxes := s.boxes[New(u) := Box(s, New(u)) + [u]], where := s.where[u := New(u)],
         state := s.state[u := INITIALIZED], home := s.home[u := None])
    case Recycle(u) =>
      var v := Front(s, Cached(u));
      Move(With(s, v, INITIALIZED, None), Cached(u), New(u))
    case Start(u, k) => DoResume(s, New(u), k)
    case Yield(k) =>
      // with an empty run queue the yielding uThread simply continues
      var s1 := With(s, Running(s, k), YIELD, s.home[Running(s, k)]);
      if Box(s, RunQueue(k)) != [] then Choose(s1, k) else s1
    case Migrate(k, to) => Choose(With(s, Running(s, k), MIGRATE, Some(to)), k)
    case Suspend(k, t) =>
      Choose(With(s, Running(s, k), WAITING, s.home[Running(s, k)]).(target := s.target[k := t]), k)
    case Terminate(k) => Choose(With(s, Running(s, k), TERMINATED, s.home[Running(s, k)]), k)
    case MainSwitch(k) => Choose(s, k)
    case SwitchOut(k, found) => PutAway(s, k, found)
    case SwitchIn(k) => TakeUp(s, k)
    case Signal(l) => Move(s, WaitList(l), Transit(Front(s, WaitList(l))))
    case Resume(u) => DoResume(s, Transit(u), 0)
    case Unblock(f) =>
      var u := Front(s, Slot(f));
      if s.home[u].Some? then Move(s, Slot(f), Bulk(s.home[u].value)) else Move(s, Slot(f), Lost)
    case BulkPush(k) => MoveAll(s, Bulk(k), RunQueue(k))
  }

  function MoveAll(s: State, p: Place, q: Place): State
    requires p != q
  {
    s.(boxes := s.boxes[p := []][q := Box(s, q) + Box(s, p)],
       where := map u | u in s.where :: if u in Box(s, p) then q else s.where[u])
  }

  /** The first half of `postSwitchFunc`: by state, the old uThread goes where it belongs. */
  function PutAway(s: State, k: Kt, found: Found): State
    requires Box(s, Cur(k)) != [] && Known(s, Running(s, k))
  {
    var u := Running(s, k);
    match s.state[u]
    case TERMINATED => Move(s, Cur(k), Cached(u))
    case YIELD => DoResume(s, Cur(k), 0)
    case MIGRATE => DoResume(s, Cur(k), 0)
    case WAITING => PostSuspend(s, k, found)
    case _ => Move(s, Cur(k), Lost)
  }

  /** The function passed to `suspend`: enqueue, or park, unless the slot is READY or the descriptor being closed. */
  function PostSuspend(s: State, k: Kt, found: Found): State
    requires Box(s, Cur(k)) != [] && Known(s, Running(s, k))
  {
    if k !in s.target then Move(s, Cur(k), Lost)
    else match s.target[k]
      case ToList(l) => Move(s, Cur(k), WaitList(l))
      case ToSlot(f) =>
        if found.Closing? then Move(s, Cur(k), Lost)
        else if found.Ready? then DoResume(s, Cur(k), 0)
        else Move(s, Cur(k), Slot(f))
  }

  /** The second half: the chosen uThread becomes the current one. */
  function TakeUp(s: State, k: Kt): State {
    var s1 := s.(switching := s.switching - {k});
    if Box(s, Hand(k)) == [] then s1
    else Move(s1.(state := s.state[Front(s, Hand(k)) := RUNNING]), Hand(k), Cur(k))
  }

  // ------------------------------------------------------------- invariant

  /** Every uThread is in exactly the container that `where` says, once. */
  ghost predicate BoxInv(s: State) {
    && (forall p :: Distinct(Box(s, p)))
    && (forall p, u :: u in Box(s, p) <==> u in s.where && s.where[u] == p)
  }

  /** A kThread runs and chooses one uThread at a time; a slot holds one. */
  ghost predicate Caps(s: State) {
    && (forall k :: |Box(s, Cur(k))| <= 1 && |Box(s, Hand(k))| <= 1)
    && (forall f :: |Box(s, Slot(f))| <= 1)
    && (forall k :: Box(s, Hand(k)) != [] ==> k in s.switching)
  }

  ghost predicate AllInPlace(s: State) {
    forall u :: u in s.where ==> InPlace(s, u)
  }

  predicate InPlace(s: State, u: Ut)
    requires u in s.where
  {
    Known(s, u) && FitsAt(s, u, s.where[u])
  }

  /** What is known of a uThread from the place it is in. */
  predicate FitsAt(s: State, u: Ut, p: Place)
    requires Known(s, u)
  {
    match p
    case New(v) => v == u && s.state[u].INITIALIZED?
    case Cur(k) =>
      s.home[u].Some? && if k in s.switching then Leaving(s.state[u], k in s.target) else Staying(s.state[u])
    case Hand(k) => s.home[u] == Some(k)
    case RunQueue(k) => s.home[u] == Some(k)
    case WaitList(l) => s.state[u].WAITING? && s.home[u].Some?
    case Slot(f) => s.state[u].WAITING? && s.home[u].Some?
    case Bulk(k) => s.home[u] == Some(k)
    case Transit(v) => v == u && s.state[u].WAITING? && s.home[u].Some?
    case Cached(v) => v == u
    case Lost => s.state[u].WAITING?
  }

  /** States that `postSwitchFunc` knows what to do with. */
  predicate Leaving(st: UtState, hasTarget: bool) {
    st.YIELD? || st.MIGRATE? || st.TERMINATED? || (st.WAITING? && hasTarget)
  }

  /** A running uThread: the state stays YIELD after a yield that found no work, and that of `initUT` is at first
      INITIALIZED. */
  predicate Staying(st: UtState) {
    st.RUNNING? || st.YIELD? || st.INITIALIZED?
  }

  ghost predicate Inv(s: State) {
    BoxInv(s) && Caps(s) && AllInPlace(s)
  }

  lemma MoveBoxes(s: State, p: Place, q: Place)
    requires BoxInv(s) && Box(s, p) != [] && p != q
    ensures BoxInv(Move(s, p, q))
    ensures Box(Move(s, p, q), p) == Box(s, p)[1..] && Box(Move(s, p, q), q) == Box(s, q) + [Front(s, p)]
    ensures forall r :: r != p && r != q ==> Box(Move(s, p, q), r) == Box(s, r)
  {
    var s', u := Move(s, p, q), Front(s, p);
    assert u in Box(s, p);
    assert u in s.where && s.where[u] == p;
    assert u !in Box(s, q);
    forall r
      ensures Distinct(Box(s', r))
      ensures forall v :: v in Box(s', r) <==> v in s'.where && s'.where[v] == r
    {
      assert Distinct(Box(s, r));
      assert forall v :: v in Box(s, r) <==> v in s.where && s.where[v] == r;
    }
  }

  /** A uThread that is to be parked on a descriptor finds that it is being closed. */
  predicate Loses(s: State, a: Action) {
    && a.SwitchOut? && a.found.Closing? && a.kt in s.target && s.target[a.kt].ToSlot?
    && Known(s, Running(s, a.kt)) && s.state[Running(s, a.kt)].WAITING?
  }

  // ---------------------------------------------- every step keeps the invariant

  predicate Room(s: State, q: Place) {
    && (q.Cur? || q.Hand? || q.Slot? ==> Box(s, q) == [])
    && (q.Hand? ==> q.kt in s.switching)
  }

  lemma MoveCaps(s: State, p: Place, q: Place)
    requires BoxInv(s) && Caps(s) && Box(s, p) != [] && p != q && Room(s, q)
    ensures Caps(Move(s, p, q))
  {
    MoveBoxes(s, p, q);
  }

  lemma MoveInPlace(s: State, st: UtState, h: Option<Kt>, p: Place, q: Place)
    requires BoxInv(s) && AllInPlace(s) && Box(s, p) != [] && p != q
    requires FitsAt(With(s, Front(s, p), st, h), Front(s, p), q)
    ensures AllInPlace(Move(With(s, Front(s, p), st, h), p, q))
  {
    var u := Front(s, p);
    assert u in Box(s, p);
    var s' := Move(With(s, u, st, h), p, q);
    forall v | v in s'.where
      ensures InPlace(s', v)
    {
      assert v in s.where && InPlace(s, v);
    }
  }

  /** Changing the state and the home of a uThread and moving it to a place where it then fits. */
  lemma MoveWith(s: State, st: UtState, h: Option<Kt>, p: Place, q: Place)
    requires Inv(s) && Box(s, p) != [] && p != q && Room(s, q)
    requires FitsAt(With(s, Front(s, p), st, h), Front(s, p), q)
    ensures Inv(Move(With(s, Front(s, p), st, h), p, q))
    ensures forall r :: r != p && r != q ==> Box(Move(With(s, Front(s, p), st, h), p, q), r) == Box(s, r)
  {
    var t := With(s, Front(s, p), st, h);
    MoveBoxes(t, p, q);
    MoveCaps(t, p, q);
    MoveInPlace(s, st, h, p, q);
  }

  lemma SameFields(s: State, u: Ut)
    requires Known(s, u)
    ensures With(s, u, s.state[u], s.home[u]) == s
  {
  }

  lemma FrontIn(s: State, p: Place)
    requires Inv(s) && Box(s, p) != []
    ensures var u := Front(s, p); u in s.where && s.where[u] == p && InPlace(s, u)
  {
    assert Front(s, p) in Box(s, p);
  }

  lemma PlainMove(s: State, p: Place, q: Place)
    requires Inv(s) && Box(s, p) != [] && p != q && Room(s, q)
    requires Known(s, Front(s, p)) && FitsAt(s, Front(s, p), q)
    ensures Inv(Move(s, p, q))
    ensures forall r :: r != p && r != q ==> Box(Move(s, p, q), r) == Box(s, r)
  {
    var u := Front(s, p);
    SameFields(s, u);
    MoveWith(s, s.state[u], s.home[u], p, q);
  }

  /** `resume` never meets its guard from the outside: the uThread goes to the run queue of its home. */
  lemma ResumeKeeps(s: State, p: Place, k: Kt)
    requires Inv(s) && Box(s, p) != [] && Known(s, Front(s, p)) && !p.RunQueue? && !p.Lost?
    requires var st := s.state[Front(s, p)]; st.WAITING? || st.INITIALIZED? || st.MIGRATE? || st.YIELD?
    ensures Inv(DoResume(s, p, k)) && DoResume(s, p, k).switching == s.switching
    ensures forall r :: r != p && !r.RunQueue? ==> Box(DoResume(s, p, k), r) == Box(s, r)
    ensures Box(DoResume(s, p, k), p) == Box(s, p)[1..]
  {
    var u := Front(s, p);
    var h := if s.home[u].Some? then s.home[u].value else k;
    MoveWith(s, READY, Some(h), p, RunQueue(h));
  }

  /** The current uThread sets its state, and from then on its kThread is switching. */
  function Depart(s: State, k: Kt, st: UtState, h: Option<Kt>, tg: map<Kt, Target>): State {
    With(s, Running(s, k), st, h).(target := tg, switching := s.switching + {k})
  }

  lemma DepartKeeps(s: State, k: Kt, st: UtState, h: Option<Kt>, tg: map<Kt, Target>)
    requires Inv(s) && RunningUser(s, k)
    requires h.Some? && Leaving(st, k in tg) && tg.Keys - {k} == s.target.Keys - {k}
    ensures Inv(Depart(s, k, st, h, tg)) && Box(Depart(s, k, st, h, tg), Hand(k)) == []
  {
    var u := Running(s, k);
    var s' := Depart(s, k, st, h, tg);
    assert forall p :: Box(s', p) == Box(s, p);
    FrontIn(s, Cur(k));
    forall v | v in s'.where
      ensures InPlace(s', v)
    {
      assert InPlace(s, v);
      if s.where[v].Cur? {
        assert v in Box(s, s.where[v]);
        assert s.where[v].kt in tg <==> s.where[v].kt in tg.Keys - {k} || (s.where[v].kt == k && k in tg);
      }
    }
  }

  lemma ChooseKeeps(s: State, k: Kt)
    requires Inv(s.(switching := s.switching + {k})) && Box(s, Hand(k)) == []
    ensures Inv(Choose(s, k))
  {
    var s1 := s.(switching := s.switching + {k});
    assert forall p :: Box(s1, p) == Box(s, p);
    if Box(s, RunQueue(k)) != [] {
      FrontIn(s1, RunQueue(k));
      PlainMove(s1, RunQueue(k), Hand(k));
    }
  }

  /** `yield`, `migrate`, `suspend`, `terminate`: the state is set and the next uThread chosen. */
  lemma LeaveKeeps(s: State, k: Kt, st: UtState, h: Option<Kt>, tg: map<Kt, Target>)
    requires Inv(s) && RunningUser(s, k)
    requires h.Some? && Leaving(st, k in tg) && tg.Keys - {k} == s.target.Keys - {k}
    ensures Inv(Choose(With(s, Running(s, k), st, h).(target := tg), k))
  {
    DepartKeeps(s, k, st, h, tg);
    var t := With(s, Running(s, k), st, h).(target := tg);
    assert t.(switching := t.switching + {k}) == Depart(s, k, st, h, tg);
    assert Box(t, Hand(k)) == Box(Depart(s, k, st, h, tg), Hand(k));
    ChooseKeeps(t, k);
  }

  lemma YieldStays(s: State, k: Kt)
    requires Inv(s) && RunningUser(s, k)
    ensures Inv(With(s, Running(s, k), YIELD, s.home[Running(s, k)]))
  {
    var s' := With(s, Running(s, k), YIELD, s.home[Running(s, k)]);
    FrontIn(s, Cur(k));
    forall v | v in s'.where
      ensures InPlace(s', v)
    {
      assert InPlace(s, v);
    }
  }

  lemma MainSwitchKeeps(s: State, k: Kt)
    requires Inv(s) && Enabled(s, MainSwitch(k))
    ensures Inv(Choose(s, k))
  {
    var s1 := s.(switching := s.switching + {k});
    assert forall p :: Box(s1, p) == Box(s, p);
    forall v | v in s1.where
      ensures InPlace(s1, v)
    {
      assert InPlace(s, v);
      assert v !in Box(s, Cur(k));
    }
    ChooseKeeps(s, k);
  }

  /** By its state, the uThread that was switched out is always put somewhere. */
  lemma SwitchOutKeeps(s: State, k: Kt, found: Found)
    requires Inv(s) && Enabled(s, SwitchOut(k, found))
    ensures Inv(PutAway(s, k, found)) && Box(PutAway(s, k, found), Cur(k)) == []
    ensures Box(PutAway(s, k, found), Hand(k)) == Box(s, Hand(k))
    ensures Box(PutAway(s, k, found), Lost) ==
            if Loses(s, SwitchOut(k, found)) then Box(s, Lost) + [Running(s, k)] else Box(s, Lost)
  {
    var u := Running(s, k);
    FrontIn(s, Cur(k));
    if s.state[u].TERMINATED? {
      PlainMove(s, Cur(k), Cached(u));
    } else if s.state[u].WAITING? {
      PostSuspendKeeps(s, k, found);
    } else {
      ResumeKeeps(s, Cur(k), 0);
    }
  }

  lemma PostSuspendKeeps(s: State, k: Kt, found: Found)
    requires Inv(s) && Enabled(s, SwitchOut(k, found)) && s.state[Running(s, k)].WAITING?
    ensures Inv(PostSuspend(s, k, found)) && Box(PostSuspend(s, k, found), Cur(k)) == []
    ensures Box(PostSuspend(s, k, found), Hand(k)) == Box(s, Hand(k))
    ensures Box(PostSuspend(s, k, found), Lost) ==
            if Loses(s, SwitchOut(k, found)) then Box(s, Lost) + [Running(s, k)] else Box(s, Lost)
  {
    FrontIn(s, Cur(k));
    if s.target[k].ToList? {
      PlainMove(s, Cur(k), WaitList(s.target[k].list));
    } else if found.Closing? {
      PlainMove(s, Cur(k), Lost);
    } else if found.Ready? {
      ResumeKeeps(s, Cur(k), 0);
    } else {
      PlainMove(s, Cur(k), Slot(s.target[k].port));
    }
  }

  lemma SwitchInMain(s: State, k: Kt)
    requires Inv(s) && k in s.switching && Box(s, Cur(k)) == [] && Box(s, Hand(k)) == []
    ensures Inv(TakeUp(s, k))
  {
    var s' := TakeUp(s, k);
    assert forall p :: Box(s', p) == Box(s, p);
    forall v | v in s'.where
      ensures InPlace(s', v)
    {
      assert InPlace(s, v);
      assert v !in Box(s, Cur(k));
    }
  }

  lemma SwitchInUser(s: State, k: Kt)
    requires Inv(s) && k in s.switching && Box(s, Cur(k)) == [] && Box(s, Hand(k)) != []
    ensures Inv(TakeUp(s, k))
  {
    var s', u := TakeUp(s, k), Front(s, Hand(k));
    FrontIn(s, Hand(k));
    var t := s.(switching := s.switching - {k}, state := s.state[u := RUNNING]);
    assert forall p :: Box(t, p) == Box(s, p);
    MoveBoxes(t, Hand(k), Cur(k));
    forall v | v in s'.where
      ensures InPlace(s', v)
    {
      assert InPlace(s, v);
      assert v !in Box(s, Cur(k));
    }
  }

  lemma SwitchInKeeps(s: State, k: Kt)
    requires Inv(s) && k in s.switching && Box(s, Cur(k)) == []
    ensures Inv(TakeUp(s, k))
  {
    if Box(s, Hand(k)) == [] {
      SwitchInMain(s, k);
    } else {
      SwitchInUser(s, k);
    }
  }

  lemma MoveAllBoxes(s: State, p: Place, q: Place)
    requires BoxInv(s) && p != q
    ensures BoxInv(MoveAll(s, p, q))
    ensures forall r :: r != p && r != q ==> Box(MoveAll(s, p, q), r) == Box(s, r)
  {
    var s' := MoveAll(s, p, q);
    forall v | v in Box(s, p)
      ensures v !in Box(s, q)
    {
      assert v in s.where && s.where[v] == p;
    }
    DistinctConcat(Box(s, q), Box(s, p));
    forall r
      ensures Distinct(Box(s', r))
      ensures forall v :: v in Box(s', r) <==> v in s'.where && s'.where[v] == r
    {
      assert Distinct(Box(s, r)) && Distinct(Box(s, p));
      assert forall v :: v in Box(s, r) <==> v in s.where && s.where[v] == r;
      assert forall v :: v in Box(s, p) <==> v in s.where && s.where[v] == p;
    }
  }

  lemma BulkPushKeeps(s: State, k: Kt)
    requires Inv(s)
    ensures Inv(MoveAll(s, Bulk(k), RunQueue(k)))
  {
    var s' := MoveAll(s, Bulk(k), RunQueue(k));
    MoveAllBoxes(s, Bulk(k), RunQueue(k));
    forall v | v in s'.where
      ensures InPlace(s', v)
    {
      assert InPlace(s, v);
    }
  }

  lemma CreateKeeps(s: State, u: Ut)
    requires Inv(s) && u !in s.where
    ensures Inv(Apply(s, Create(u)))
  {
    var s' := Apply(s, Create(u));
    assert forall p :: u !in Box(s, p);
    forall r
      ensures Distinct(Box(s', r))
      ensures forall v :: v in Box(s', r) <==> v in s'.where && s'.where[v] == r
    {
      assert Distinct(Box(s, r));
      assert forall v :: v in Box(s, r) <==> v in s.where && s.where[v] == r;
    }
    forall v | v in s'.where
      ensures InPlace(s', v)
    {
      assert v in s.where ==> InPlace(s, v);
    }
  }

  predicate IsDeparture(a: Action) {
    a.Yield? || a.Migrate? || a.Suspend? || a.Terminate?
  }

  lemma DepartureKeeps(s: State, a: Action)
    requires Inv(s) && Enabled(s, a) && IsDeparture(a)
    ensures Inv(Apply(s, a))
  {
    var u := Running(s, a.kt);
    FrontIn(s, Cur(a.kt));
    if a.Migrate? {
      LeaveKeeps(s, a.kt, MIGRATE, Some(a.to), s.target);
    } else if a.Suspend? {
      LeaveKeeps(s, a.kt, WAITING, s.home[u], s.target[a.kt := a.t]);
    } else if a.Terminate? {
      LeaveKeeps(s, a.kt, TERMINATED, s.home[u], s.target);
    } else if Box(s, RunQueue(a.kt)) != [] {
      LeaveKeeps(s, a.kt, YIELD, s.home[u], s.target);
    } else {
      YieldStays(s, a.kt);
    }
  }

  lemma StepKeeps(s: State, a: Action)
    requires Inv(s) && Enabled(s, a)
    ensures Inv(Apply(s, a))
  {
    if IsDeparture(a) {
      DepartureKeeps(s, a);
    } else {
      match a
      case Create(u) => CreateKeeps(s, u);
      case Recycle(u) =>
        FrontIn(s, Cached(u));
        MoveWith(s, INITIALIZED, None, Cached(u), New(u));
      case Start(u, k) =>
        FrontIn(s, New(u));
        ResumeKeeps(s, New(u), k);
      case MainSwitch(k) => MainSwitchKeeps(s, k);
      case SwitchOut(k, found) => SwitchOutKeeps(s, k, found);
      case SwitchIn(k) => SwitchInKeeps(s, k);
      case Signal(l) =>
        FrontIn(s, WaitList(l));
        PlainMove(s, WaitList(l), Transit(Front(s, WaitList(l))));
      case Resume(u) =>
        FrontIn(s, Transit(u));
        ResumeKeeps(s, Transit(u), 0);
      case Unblock(f) =>
        FrontIn(s, Slot(f));
        PlainMove(s, Slot(f), Bulk(s.home[Front(s, Slot(f))].value));
      case BulkPush(k) => BulkPushKeeps(s, k);
    }
  }

  // ------------------------------------------------------------ theorems

  ghost predicate Run(states: seq<State>, acts: seq<Action>) {
    && |states| == |acts| + 1 && Init(states[0])
    && forall i :: 0 <= i < |acts| ==> StepAt(states, acts, i)
  }

  predicate StepAt(states: seq<State>, acts: seq<Action>, i: nat)
    requires i < |acts| && |states| == |acts| + 1
  {
    Enabled(states[i], acts[i]) && states[i + 1] == Apply(states[i], acts[i])
  }

  lemma InitInv(s: State)
    requires Init(s)
    ensures Inv(s)
  {
    assert forall p :: p != Cur(0) ==> Box(s, p) == [];
  }

  lemma {:induction false} RunInv(states: seq<State>, acts: seq<Action>, n: nat)
    requires Run(states, acts) && n < |states|
    ensures Inv(states[n])
  {
    if n == 0 {
      InitInv(states[0]);
    } else {
      RunInv(states, acts, n - 1);
      assert StepAt(states, acts, n - 1);
      StepKeeps(states[n - 1], acts[n - 1]);
    }
  }

  /** In every run, a uThread that was created is in exactly one container, and once in it. */
  lemma ExactlyOnePlace(states: seq<State>, acts: seq<Action>, n: nat, u: Ut)
    requires Run(states, acts) && n < |states| && u in states[n].where
    ensures exists p :: u in Box(states[n], p)
    ensures forall p, q :: u in Box(states[n], p) && u in Box(states[n], q) ==> p == q
    ensures forall p, i, j :: 0 <= i < j < |Box(states[n], p)| ==> Box(states[n], p)[i] != Box(states[n], p)[j]
  {
    RunInv(states, acts, n);
    var s := states[n];
    assert u in Box(s, s.where[u]);
    forall p, i, j | 0 <= i < j < |Box(s, p)|
      ensures Box(s, p)[i] != Box(s, p)[j]
    {
      assert Distinct(Box(s, p));
    }
  }

  lemma NoLossLeaving(s: State, a: Action)
    requires Enabled(s, a) && (IsDeparture(a) || a.MainSwitch?)
    ensures Box(Apply(s, a), Lost) == Box(s, Lost)
  {
  }

  lemma NoLossMoving(s: State, a: Action)
    requires Enabled(s, a) && (a.Create? || a.Recycle? || a.SwitchIn? || a.Signal? || a.BulkPush?)
    ensures Box(Apply(s, a), Lost) == Box(s, Lost)
  {
  }

  lemma NoLossResuming(s: State, a: Action)
    requires Inv(s) && Enabled(s, a) && (a.Start? || a.Resume? || a.Unblock?)
    ensures Box(Apply(s, a), Lost) == Box(s, Lost)
  {
    FrontIn(s, if a.Start? then New(a.ut) else if a.Resume? then Transit(a.ut) else Slot(a.port));
  }

  /** No step but one drops a uThread. */
  lemma LostStep(s: State, a: Action)
    requires Inv(s) && Enabled(s, a)
    ensures Box(Apply(s, a), Lost) == if Loses(s, a) then Box(s, Lost) + [Running(s, a.kt)] else Box(s, Lost)
  {
    if a.SwitchOut? {
      SwitchOutKeeps(s, a.kt, a.found);
    } else if IsDeparture(a) || a.MainSwitch? {
      NoLossLeaving(s, a);
    } else if a.Start? || a.Resume? || a.Unblock? {
      NoLossResuming(s, a);
    } else {
      NoLossMoving(s, a);
    }
  }

  /** In every run, a uThread has been dropped exactly if one was to be parked on a descriptor that was being closed:
      every other state that reaches `postSwitchFunc` or `resume` is handled. */
  lemma {:induction false} NothingIsLost(states: seq<State>, acts: seq<Action>, n: nat)
    requires Run(states, acts) && n < |states|
    ensures Box(states[n], Lost) == [] <==> forall i :: 0 <= i < n ==> !Loses(states[i], acts[i])
  {
    if n > 0 {
      NothingIsLost(states, acts, n - 1);
      RunInv(states, acts, n - 1);
      assert StepAt(states, acts, n - 1);
      LostStep(states[n - 1], acts[n - 1]);
    }
  }

  /** And it does happen: the program blocks on a descriptor, and before its context switch is over the descriptor is
      being closed. */
  lemma LostToClose() returns (states: seq<State>, acts: seq<Action>)
    ensures Run(states, acts) && |acts| == 2 && Box(states[2], Lost) == [0]
  {
    var s0 := State(map[Cur(0) := [0]], map[0 := INITIALIZED], map[0 := Some(0)], map[], {}, map[0 := Cur(0)]);
    acts := [Suspend(0, ToSlot(0)), SwitchOut(0, Closing)];
    var s1 := Apply(s0, acts[0]);
    var s2 := Apply(s1, acts[1]);
    states := [s0, s1, s2];
    forall i | 0 <= i < 2
      ensures StepAt(states, acts, i)
    {
      assert i == 0 || i == 1;
    }
  }

  /** In every run, a queued uThread is on the run queue of its home kThread, and a kThread runs one. */
  lemma QueuedAtHome(states: seq<State>, acts: seq<Action>, n: nat, k: Kt)
    requires Run(states, acts) && n < |states|
    ensures forall u ::
              u in Box(states[n], RunQueue(k)) || u in Box(states[n], Bulk(k)) || u in Box(states[n], Hand(k)) ==>
                u in states[n].home && states[n].home[u] == Some(k)
    ensures |Box(states[n], Cur(k))| <= 1 && |Box(states[n], Hand(k))| <= 1
  {
    RunInv(states, acts, n);
    forall u | u in Box(states[n], RunQueue(k)) || u in Box(states[n], Bulk(k)) || u in Box(states[n], Hand(k))
      ensures u in states[n].home && states[n].home[u] == Some(k)
    {
      assert u in states[n].where && InPlace(states[n], u);
    }
  }

  // ------------------------------------------------ what `resume` leaves to its caller

  /** The containers that hold a uThread by its one link. */
  predicate Linked(p: Place) {
    p.RunQueue? || p.WaitList? || p.Bulk?
  }

  /** `resume` on its own, without a caller that has taken the uThread out of its container. */
  function BareResume(s: State, u: Ut): State
    requires Known(s, u) && s.home[u].Some?
  {
    var q := RunQueue(s.home[u].value);
    s.(state := s.state[u := READY], boxes := s.boxes[q := Box(s, q) + [u]])
  }

  predicate LinkedAt(s: State, u: Ut, p: Place, i: nat) {
    Linked(p) && i < |Box(s, p)| && Box(s, p)[i] == u
  }

  /** The uThread is linked into two containers, or twice into one. */
  ghost predicate LinkedTwice(s: State, u: Ut) {
    exists p, i, q, j :: LinkedAt(s, u, p, i) && LinkedAt(s, u, q, j) && (p != q || i != j)
  }

  /** In the program's hands `resume` is safe exactly on a uThread that is in none of the linked containers: it does not
      take the uThread out of a wait list. */
  lemma ResumeNeedsDequeue(states: seq<State>, acts: seq<Action>, n: nat, u: Ut)
    requires Run(states, acts) && n < |states| && u in states[n].where
    requires Known(states[n], u) && states[n].home[u].Some?
    ensures LinkedTwice(BareResume(states[n], u), u) <==> Linked(states[n].where[u])
  {
    RunInv(states, acts, n);
    var s := states[n];
    var s', q, p := BareResume(s, u), RunQueue(s.home[u].value), s.where[u];
    assert LinkedAt(s', u, q, |Box(s, q)|);
    assert u in Box(s, p);
    if Linked(p) {
      var i: nat :| i < |Box(s, p)| && Box(s, p)[i] == u;
      assert LinkedAt(s', u, p, i);
    } else {
      forall r, i: nat | LinkedAt(s', u, r, i)
        ensures r == q && i == |Box(s, q)|
      {
        assert u !in Box(s, r);
      }
    }
  }
}
