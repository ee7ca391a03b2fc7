/**
 The user-level Semaphore: a counter and a wait queue protected by a Mutex.
 What the Mutex guarantees (one holder, see `MutexBaton`) is taken as given
 here; which of several contenders gets it next is left open. `P` may enqueue
 itself after it has been switched out, `V` passes the unit on to the first
 waiter instead of counting it.

 The fields from `resumer` on are history: which V will resume a dequeued
 waiter, the units put in, the grants and the returned calls, and the order of
 the queue.
 */
module UserSemaphore {
  import opened Sequences
  import opened BlockingQueue

  datatype Pc =
    | InP                      // holds the mutex, counter not tested yet
    | Suspending               // counter was below one; switching out with the mutex held
    | Queued                   // on the wait queue, mutex still held on its behalf
    | Parked                   // on the wait queue
    | Taken                    // decremented the counter, mutex still held
    | InV                      // holds the mutex, queue not tested yet
    | Handing(next: Tid)       // dequeued `next`, mutex still held
    | Resuming(next: Tid)      // mutex released, about to resume `next`
    | Counted                  // incremented the counter, mutex still held
    | Dequeued                 // granted by a V, not resumed yet

  datatype State = State(
    mutex: Option<Tid>, counter: nat, queue: seq<Tid>, pc: map<Tid, Pc>,
    resumer: map<Tid, Tid>, initial: nat, units: nat, granted: seq<Tid>, returned: multiset<Tid>,
    enqueued: seq<Tid>, handed: seq<Tid>)

  datatype Action =
    | EnterP(t: Tid) | TestCounter(t: Tid) | Enqueue(t: Tid) | ReleaseQueued(t: Tid) | ReleaseTaken(t: Tid)
    | EnterV(t: Tid) | TestQueue(t: Tid) | ReleaseHanded(t: Tid) | Resume(t: Tid) | ReleaseCounted(t: Tid)

  ghost predicate Init(s: State) {
    s == State(None, s.initial, [], map[], map[], s.initial, 0, [], multiset{}, [], [])
  }

  predicate At(s: State, t: Tid, pc: Pc) {
    t in s.pc && s.pc[t] == pc
  }

  predicate Enabled(s: State, a: Action) {
    match a
    case EnterP(t) => t !in s.pc && s.mutex == None
    case TestCounter(t) => At(s, t, InP)
    case Enqueue(t) => At(s, t, Suspending)
    case ReleaseQueued(t) => At(s, t, Queued)
    case ReleaseTaken(t) => At(s, t, Taken)
    case EnterV(t) => t !in s.pc && s.mutex == None
    case TestQueue(t) => At(s, t, InV)
    case ReleaseHanded(t) => t in s.pc && s.pc[t].Handing?
    case Resume(t) => t in s.pc && s.pc[t].Resuming?
    case ReleaseCounted(t) => At(s, t, Counted)
  }

  function Apply(s: State, a: Action): State
    requires Enabled(s, a)
  {
    match a
    case EnterP(t) => s.(mutex := Some(t), pc := s.pc[t := InP])
    case TestCounter(t) =>
      if s.counter < 1 then s.(pc := s.pc[t := Suspending])
      else s.(counter := s.counter - 1, granted := s.granted + [t], pc := s.pc[t := Taken])
    case Enqueue(t) => s.(queue := s.queue + [t], enqueued := s.enqueued + [t], pc := s.pc[t := Queued])
    case ReleaseQueued(t) => s.(mutex := None, pc := s.pc[t := Parked])
    case ReleaseTaken(t) => s.(mutex := None, returned := s.returned + multiset{t}, pc := s.pc - {t})
    case EnterV(t) => s.(mutex := Some(t), pc := s.pc[t := InV])
    case TestQueue(t) =>
      if s.queue != [] then
        var n := s.queue[0];
        s.(queue := s.queue[1..], units := s.units + 1, granted := s.granted + [n], handed := s.handed + [n],
           resumer := s.resumer[n := t], pc := s.pc[n := Dequeued][t := Handing(n)])
      else s.(counter := s.counter + 1, units := s.units + 1, pc := s.pc[t := Counted])
    case ReleaseHanded(t) => s.(mutex := None, pc := s.pc[t := Resuming(s.pc[t].next)])
    case Resume(t) =>
      var n := s.pc[t].next;
      s.(returned := s.returned + multiset{n}, resumer := s.resumer - {n}, pc := s.pc - {n} - {t})
    case ReleaseCounted(t) => s.(mutex := None, pc := s.pc - {t})
  }

  // ------------------------------------------------------------- invariant

  predicate HasMutex(pc: Pc) {
    !(pc.Parked? || pc.Resuming? || pc.Dequeued?)
  }

  predicate OnQueue(pc: Pc) {
    pc.Queued? || pc.Parked?
  }

  predicate Passing(pc: Pc) {
    pc.Handing? || pc.Resuming?
  }

  /** Granted its unit, but the call has not returned yet. */
  predicate Pending(pc: Pc) {
    pc.Taken? || pc.Dequeued?
  }

  ghost predicate MutexInv(s: State) {
    && (forall t :: t in s.pc && HasMutex(s.pc[t]) ==> s.mutex == Some(t))
    && (s.mutex.Some? ==> s.mutex.value in s.pc && HasMutex(s.pc[s.mutex.value]))
  }

  ghost predicate QueueInv(s: State) {
    && Lists(s.queue, s.pc, OnQueue) && Fifo(s.queue, s.enqueued, s.handed)
    && (s.counter > 0 ==> s.queue == [])
    && (forall t :: t in s.pc && (s.pc[t].Suspending? || s.pc[t].Queued?) ==> s.counter == 0)
  }

  /** Every dequeued waiter has exactly one V that will resume it. */
  ghost predicate HandInv(s: State) {
    HandsOn(s.pc, s.resumer, IsDequeued, Resumes)
  }

  predicate IsDequeued(pc: Pc) { pc.Dequeued? }

  function Resumes(pc: Pc): Option<Tid> {
    if Passing(pc) then Some(pc.next) else None
  }

  function Pendings(s: State): set<Tid> {
    set t | t in s.pc && Pending(s.pc[t])
  }

  /** Units put in are units counted or granted, and grants are returned calls or calls about to return. */
  ghost predicate UnitInv(s: State) {
    && s.initial + s.units == s.counter + |s.granted|
    && multiset(s.granted) == s.returned + multiset(Pendings(s))
  }

  ghost predicate Inv(s: State) {
    MutexInv(s) && QueueInv(s) && HandInv(s) && UnitInv(s)
  }

  lemma MutexStep(s: State, a: Action)
    requires MutexInv(s) && HandInv(s) && QueueInv(s) && Enabled(s, a)
    ensures MutexInv(Apply(s, a))
  {
  }

  lemma QueueTest(s: State, t: Tid)
    requires QueueInv(s) && Enabled(s, TestQueue(t))
    requires forall u :: u in s.pc && HasMutex(s.pc[u]) ==> u == t
    ensures QueueInv(Apply(s, TestQueue(t)))
  {
    if s.queue != [] {
      FifoLeave(s.queue, s.enqueued, s.handed);
    }
  }

  lemma QueueOther(s: State, a: Action)
    requires QueueInv(s) && Enabled(s, a) && !a.TestQueue?
    requires a.TestCounter? ==> (forall t :: t in s.pc && HasMutex(s.pc[t]) ==> t == a.t)
    requires a.Resume? ==> At(s, s.pc[a.t].next, Dequeued)
    ensures QueueInv(Apply(s, a))
  {
  }

  lemma HandTest(s: State, t: Tid)
    requires HandInv(s) && Enabled(s, TestQueue(t))
    requires s.queue != [] ==> s.queue[0] in s.pc && OnQueue(s.pc[s.queue[0]])
    ensures HandInv(Apply(s, TestQueue(t)))
  {
    if s.queue != [] {
      HandsOnTake(s.pc, s.resumer, IsDequeued, Resumes, t, Handing(s.queue[0]), s.queue[0], Dequeued);
    } else {
      HandsOnSet(s.pc, s.resumer, IsDequeued, Resumes, t, Counted);
    }
  }

  lemma HandResume(s: State, t: Tid)
    requires HandInv(s) && Enabled(s, Resume(t))
    ensures HandInv(Apply(s, Resume(t))) && At(s, s.pc[t].next, Dequeued)
  {
    HandsOnGive(s.pc, s.resumer, IsDequeued, Resumes, t, s.pc[t].next);
  }

  lemma HandOther(s: State, a: Action)
    requires HandInv(s) && Enabled(s, a) && !a.TestQueue? && !a.Resume?
    ensures HandInv(Apply(s, a))
  {
    var s' := Apply(s, a);
    if a.t in s'.pc {
      HandsOnSet(s.pc, s.resumer, IsDequeued, Resumes, a.t, s'.pc[a.t]);
      assert s'.pc == s.pc[a.t := s'.pc[a.t]];
    } else {
      HandsOnDrop(s.pc, s.resumer, IsDequeued, Resumes, a.t);
      assert s'.pc == s.pc - {a.t};
    }
  }

  lemma OneMoreGrant(granted: seq<Tid>, returned: multiset<Tid>, pending: set<Tid>, n: Tid)
    requires multiset(granted) == returned + multiset(pending) && n !in pending
    ensures multiset(granted + [n]) == returned + multiset(pending + {n})
  {
    assert multiset(pending + {n}) == multiset(pending) + multiset{n};
  }

  lemma UnitTest(s: State, t: Tid)
    requires UnitInv(s) && Enabled(s, TestQueue(t))
    requires s.queue != [] ==> s.queue[0] in s.pc && OnQueue(s.pc[s.queue[0]])
    ensures UnitInv(Apply(s, TestQueue(t)))
  {
    var s' := Apply(s, TestQueue(t));
    if s.queue != [] {
      OneMoreGrant(s.granted, s.returned, Pendings(s), s.queue[0]);
      assert Pendings(s') == Pendings(s) + {s.queue[0]};
    } else {
      assert Pendings(s') == Pendings(s);
    }
  }

  lemma UnitTake(s: State, t: Tid)
    requires UnitInv(s) && Enabled(s, TestCounter(t))
    ensures UnitInv(Apply(s, TestCounter(t)))
  {
    var s' := Apply(s, TestCounter(t));
    if s.counter >= 1 {
      OneMoreGrant(s.granted, s.returned, Pendings(s), t);
      assert Pendings(s') == Pendings(s) + {t};
    } else {
      assert Pendings(s') == Pendings(s);
    }
  }

  lemma UnitReturn(s: State, a: Action)
    requires UnitInv(s) && Enabled(s, a) && (a.ReleaseTaken? || a.Resume?)
    requires a.Resume? ==> At(s, s.pc[a.t].next, Dequeued)
    ensures UnitInv(Apply(s, a))
  {
    var n := if a.Resume? then s.pc[a.t].next else a.t;
    assert Pendings(Apply(s, a)) == Pendings(s) - {n};
  }

  lemma UnitOther(s: State, a: Action)
    requires UnitInv(s) && Enabled(s, a)
    requires !(a.TestCounter? || a.TestQueue? || a.ReleaseTaken? || a.Resume?)
    ensures UnitInv(Apply(s, a))
  {
    assert Pendings(Apply(s, a)) == Pendings(s);
  }

  lemma StepKeeps(s: State, a: Action)
    requires Inv(s) && Enabled(s, a)
    ensures Inv(Apply(s, a))
  {
    MutexStep(s, a);
    assert s.queue != [] ==> s.queue[0] in s.queue;
    match a
    case TestQueue(t) => QueueTest(s, t); HandTest(s, t); UnitTest(s, t);
    case TestCounter(t) => QueueOther(s, a); HandOther(s, a); UnitTake(s, t);
    case ReleaseTaken(t) => QueueOther(s, a); HandOther(s, a); UnitReturn(s, a);
    case Resume(t) => QueueOther(s, a); HandResume(s, t); UnitReturn(s, a);
    case _ => QueueOther(s, a); HandOther(s, a); UnitOther(s, a);
  }

  // ------------------------------------------------------------ whole runs

  ghost predicate StepAt(states: seq<State>, actions: seq<Action>, i: nat)
    requires i < |actions| && i + 1 < |states|
  {
    Enabled(states[i], actions[i]) && states[i + 1] == Apply(states[i], actions[i])
  }

  ghost predicate Run(states: seq<State>, actions: seq<Action>) {
    && |states| == |actions| + 1
    && Init(states[0])
    && forall i :: 0 <= i < |actions| ==> StepAt(states, actions, i)
  }

  lemma {:induction false} RunInv(states: seq<State>, actions: seq<Action>, i: nat)
    requires Run(states, actions) && i < |states|
    ensures Inv(states[i])
  {
    if i == 0 {
      assert Pendings(states[0]) == {};
    } else {
      RunInv(states, actions, i - 1);
      assert StepAt(states, actions, i - 1);
      StepKeeps(states[i - 1], actions[i - 1]);
    }
  }

  /** Conservation: the initial value plus the V's is the counter plus the granted P's; every grant is a
      returned call or a call about to return, so no P passes without a unit and no unit serves twice. */
  lemma Conservation(states: seq<State>, actions: seq<Action>, i: nat)
    requires Run(states, actions) && i < |states|
    ensures var s := states[i];
            && s.initial + s.units == s.counter + |s.granted|
            && multiset(s.granted) == s.returned + multiset(Pendings(s))
            && |s.returned| <= s.initial + s.units
  {
    RunInv(states, actions, i);
    assert |multiset(states[i].granted)| == |states[i].granted|;
  }

  /** Waiters are granted in the order in which they were queued. */
  lemma FifoGrants(states: seq<State>, actions: seq<Action>, i: nat)
    requires Run(states, actions) && i < |states|
    ensures states[i].handed <= states[i].enqueued
    ensures states[i].enqueued[|states[i].handed|..] == states[i].queue && Distinct(states[i].queue)
  {
    RunInv(states, actions, i);
    FifoOrder(states[i].queue, states[i].enqueued, states[i].handed);
  }

  /** A positive counter means that nobody waits. */
  lemma NoIdleUnits(states: seq<State>, actions: seq<Action>, i: nat)
    requires Run(states, actions) && i < |states| && states[i].counter > 0
    ensures states[i].queue == []
    ensures forall t :: t in states[i].pc ==> !OnQueue(states[i].pc[t]) && !states[i].pc[t].Suspending?
  {
    RunInv(states, actions, i);
  }

  /** A dequeued waiter is resumed by exactly one V, whose step is enabled once it has released the mutex. */
  lemma HandOffHasOneV(states: seq<State>, actions: seq<Action>, i: nat, n: Tid) returns (t: Tid)
    requires Run(states, actions) && i < |states| && At(states[i], n, Dequeued)
    ensures var s := states[i];
            && t in s.pc && Passing(s.pc[t]) && s.pc[t].next == n
            && (forall u :: u in s.pc && Passing(s.pc[u]) && s.pc[u].next == n ==> u == t)
            && (s.pc[t].Resuming? ==> Enabled(s, Resume(t)) && n !in Apply(s, Resume(t)).pc)
  {
    RunInv(states, actions, i);
    t := states[i].resumer[n];
  }
}
