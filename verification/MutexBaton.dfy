/**
 The user-level Mutex. Its fields are protected by a kernel mutex, the base
 lock; a uThread that finds the Mutex owned is switched out first and is put on
 the wait queue, and the base lock released, by the code that runs after the
 switch. A release passes ownership on to the first waiter.

 Every access to the base lock and every hand-off is a step. `baton`,
 `enqueued` and `handed` are history: the releaser between dequeueing a waiter
 and resuming it, and the order in which waiters entered and left the queue.
 */
module MutexBaton {
  import opened Sequences
  import opened BlockingQueue

  /** Where a uThread is inside `acquire` and `release`; a uThread outside has no entry. */
  datatype Pc =
    | AcqLocked                // base lock taken, owner not tested yet
    | Suspending               // found an owner; switching out with the base lock held
    | Queued                   // on the wait queue, base lock still held on its behalf
    | Parked                   // on the wait queue
    | Granting                 // made itself owner, base lock still held
    | Holding                  // acquire has returned
    | RelLocked                // release has taken the base lock
    | Handing(next: Tid)       // dequeued `next` and made it owner, base lock still held
    | Resuming(next: Tid)      // base lock released, about to resume the owner
    | Clearing                 // no waiter: owner is null, base lock still held
    | Dequeued                 // owner by hand-off, not resumed yet

  datatype State = State(
    base: Option<Tid>, owner: Option<Tid>, queue: seq<Tid>, pc: map<Tid, Pc>,
    baton: Option<Tid>, enqueued: seq<Tid>, handed: seq<Tid>)

  datatype Action =
    | LockToAcquire(t: Tid) | TestOwner(t: Tid) | UnlockGranted(t: Tid)
    | Enqueue(t: Tid) | UnlockQueued(t: Tid)
    | LockToRelease(t: Tid) | TestQueue(t: Tid) | UnlockHanded(t: Tid) | Resume(t: Tid) | UnlockCleared(t: Tid)

  ghost predicate Init(s: State) {
    s == State(None, None, [], map[], None, [], [])
  }

  predicate At(s: State, t: Tid, pc: Pc) {
    t in s.pc && s.pc[t] == pc
  }

  predicate Enabled(s: State, a: Action) {
    match a
    case LockToAcquire(t) => t !in s.pc && s.base == None
    case TestOwner(t) => At(s, t, AcqLocked)
    case UnlockGranted(t) => At(s, t, Granting)
    case Enqueue(t) => At(s, t, Suspending)
    case UnlockQueued(t) => At(s, t, Queued)
    case LockToRelease(t) => At(s, t, Holding) && s.base == None
    case TestQueue(t) => At(s, t, RelLocked)
    case UnlockHanded(t) => t in s.pc && s.pc[t].Handing?
    case Resume(t) => t in s.pc && s.pc[t].Resuming? && s.owner.Some?
    case UnlockCleared(t) => At(s, t, Clearing)
  }

  function Apply(s: State, a: Action): State
    requires Enabled(s, a)
  {
    match a
    case LockToAcquire(t) => s.(base := Some(t), pc := s.pc[t := AcqLocked])
    case TestOwner(t) =>
      if s.owner != None then s.(pc := s.pc[t := Suspending])
      else s.(owner := Some(t), pc := s.pc[t := Granting])
    case UnlockGranted(t) => s.(base := None, pc := s.pc[t := Holding])
    case Enqueue(t) => s.(queue := s.queue + [t], enqueued := s.enqueued + [t], pc := s.pc[t := Queued])
    case UnlockQueued(t) => s.(base := None, pc := s.pc[t := Parked])
    case LockToRelease(t) => s.(base := Some(t), pc := s.pc[t := RelLocked])
    case TestQueue(t) =>
      if s.queue != [] then
        var n := s.queue[0];
        s.(owner := Some(n), queue := s.queue[1..], handed := s.handed + [n], baton := Some(t),
           pc := s.pc[n := Dequeued][t := Handing(n)])
      else s.(owner := None, pc := s.pc[t := Clearing])
    case UnlockHanded(t) => s.(base := None, pc := s.pc[t := Resuming(s.pc[t].next)])
    case Resume(t) =>
      // `owner->resume()` reads the owner field again, now without the base lock
      s.(baton := None, pc := s.pc[s.owner.value := Holding] - {t})
    case UnlockCleared(t) => s.(base := None, pc := s.pc - {t})
  }

  // ------------------------------------------------------------- invariant

  predicate HasBase(pc: Pc) {
    pc.AcqLocked? || pc.Suspending? || pc.Queued? || pc.Granting? || pc.RelLocked? || pc.Handing? || pc.Clearing?
  }

  predicate Owns(pc: Pc) {
    pc.Granting? || pc.Holding? || pc.RelLocked? || pc.Dequeued?
  }

  predicate OnQueue(pc: Pc) {
    pc.Queued? || pc.Parked?
  }

  predicate Passing(pc: Pc) {
    pc.Handing? || pc.Resuming?
  }

  /** The base lock is held by exactly the uThread whose program counter says so. */
  ghost predicate BaseInv(s: State) {
    && (forall t :: t in s.pc && HasBase(s.pc[t]) ==> s.base == Some(t))
    && (s.base.Some? ==> s.base.value in s.pc && HasBase(s.pc[s.base.value]))
  }

  /** The owner field names exactly the uThread that holds the Mutex or is being given it. */
  ghost predicate OwnerInv(s: State) {
    && (forall t :: t in s.pc && Owns(s.pc[t]) ==> s.owner == Some(t))
    && (s.owner.Some? ==> s.owner.value in s.pc && Owns(s.pc[s.owner.value]))
  }

  ghost predicate QueueInv(s: State) {
    && Lists(s.queue, s.pc, OnQueue) && Fifo(s.queue, s.enqueued, s.handed)
    && (s.owner == None ==> s.queue == [])
    && (forall t :: t in s.pc && (s.pc[t].Suspending? || s.pc[t].Queued?) ==> s.owner.Some?)
  }

  /** A dequeued waiter has exactly one releaser that will resume it. */
  ghost predicate BatonInv(s: State) {
    && (forall t :: t in s.pc && Passing(s.pc[t]) ==>
          s.baton == Some(t) && s.pc[t].next in s.pc && s.pc[s.pc[t].next].Dequeued?)
    && (s.baton.Some? ==> s.baton.value in s.pc && Passing(s.pc[s.baton.value]))
    && (forall t :: t in s.pc && s.pc[t].Dequeued? ==> s.baton.Some? && s.pc[s.baton.value].next == t)
  }

  ghost predicate Inv(s: State) {
    BaseInv(s) && OwnerInv(s) && QueueInv(s) && BatonInv(s)
  }

  lemma BaseStep(s: State, a: Action)
    requires Inv(s) && Enabled(s, a)
    ensures BaseInv(Apply(s, a))
  {
  }

  lemma OwnerStep(s: State, a: Action)
    requires Inv(s) && Enabled(s, a)
    ensures OwnerInv(Apply(s, a))
  {
  }

  lemma QueueTaken(s: State, t: Tid)
    requires BaseInv(s) && OwnerInv(s) && QueueInv(s) && Enabled(s, TestQueue(t))
    ensures QueueInv(Apply(s, TestQueue(t)))
  {
    if s.queue != [] {
      FifoLeave(s.queue, s.enqueued, s.handed);
    }
  }

  lemma QueueOther(s: State, a: Action)
    requires Inv(s) && Enabled(s, a) && !a.TestQueue?
    ensures QueueInv(Apply(s, a))
  {
  }

  lemma BatonTaken(s: State, t: Tid)
    requires OwnerInv(s) && QueueInv(s) && BatonInv(s) && Enabled(s, TestQueue(t))
    ensures BatonInv(Apply(s, TestQueue(t)))
  {
    assert s.baton == None;
    assert s.queue != [] ==> s.queue[0] in s.queue;
  }

  lemma BatonPassed(s: State, t: Tid)
    requires OwnerInv(s) && BatonInv(s) && Enabled(s, Resume(t))
    ensures BatonInv(Apply(s, Resume(t)))
    ensures s.owner == Some(s.pc[t].next)
  {
  }

  lemma BatonOther(s: State, a: Action)
    requires BatonInv(s) && Enabled(s, a) && !a.TestQueue? && !a.Resume?
    ensures BatonInv(Apply(s, a))
  {
  }

  lemma StepKeeps(s: State, a: Action)
    requires Inv(s) && Enabled(s, a)
    ensures Inv(Apply(s, a))
  {
    BaseStep(s, a);
    OwnerStep(s, a);
    match a
    case TestQueue(t) =>
      QueueTaken(s, t);
      BatonTaken(s, t);
    case Resume(t) =>
      QueueOther(s, a);
      BatonPassed(s, t);
    case _ =>
      QueueOther(s, a);
      BatonOther(s, a);
  }

  // ------------------------------------------------------------ whole runs

  ghost predicate StepAt(states: seq<State>, actions: seq<Action>, i: nat)
    requires i < |actions| && i + 1 < |states|
  {
    Enabled(states[i], actions[i]) && states[i + 1] == Apply(states[i], actions[i])
  }

  ghost predicate Run(states: seq<State>, actions: seq<Action>) {
    && |states| == |actions| + 1
    && Init(states[0])
    && forall i :: 0 <= i < |actions| ==> StepAt(states, actions, i)
  }

  lemma {:induction false} RunInv(states: seq<State>, actions: seq<Action>, i: nat)
    requires Run(states, actions) && i < |states|
    ensures Inv(states[i])
  {
    if i > 0 {
      RunInv(states, actions, i - 1);
      assert StepAt(states, actions, i - 1);
      StepKeeps(states[i - 1], actions[i - 1]);
    }
  }

  /** A uThread is in the critical section from the return of `acquire` until `release` takes over. */
  predicate InCriticalSection(s: State, t: Tid) {
    At(s, t, Holding) || At(s, t, RelLocked)
  }

  lemma MutualExclusion(states: seq<State>, actions: seq<Action>, i: nat, t: Tid, u: Tid)
    requires Run(states, actions) && i < |states|
    requires InCriticalSection(states[i], t) && InCriticalSection(states[i], u)
    ensures t == u && states[i].owner == Some(t)
  {
    RunInv(states, actions, i);
  }

  /** Waiters are handed the Mutex in the order in which they were queued, each once per wait. */
  lemma FifoHandOff(states: seq<State>, actions: seq<Action>, i: nat)
    requires Run(states, actions) && i < |states|
    ensures states[i].handed <= states[i].enqueued
    ensures states[i].enqueued[|states[i].handed|..] == states[i].queue && Distinct(states[i].queue)
  {
    RunInv(states, actions, i);
    FifoOrder(states[i].queue, states[i].enqueued, states[i].handed);
  }

  /** Reading `owner` again after the base lock is gone still yields the dequeued uThread. */
  lemma OwnerSurvivesUnlock(states: seq<State>, actions: seq<Action>, i: nat, t: Tid)
    requires Run(states, actions) && i < |states| && t in states[i].pc && states[i].pc[t].Resuming?
    ensures Enabled(states[i], Resume(t)) && states[i].owner == Some(states[i].pc[t].next)
    ensures At(Apply(states[i], Resume(t)), states[i].pc[t].next, Holding)
  {
    RunInv(states, actions, i);
    BatonPassed(states[i], t);
  }

  predicate WillResume(s: State, r: Tid, t: Tid) {
    r in s.pc && Passing(s.pc[r]) && s.pc[r].next == t
  }

  /** No waiter is forgotten: a null owner means an empty queue, and a queued uThread is one that has
      left its stack or is about to, behind an owner that will release; a dequeued one has exactly one releaser that
      will resume it. */
  lemma NobodyForgotten(states: seq<State>, actions: seq<Action>, i: nat)
    requires Run(states, actions) && i < |states|
    ensures states[i].owner == None ==> states[i].queue == []
    ensures forall t :: t in states[i].pc && OnQueue(states[i].pc[t]) ==> t in states[i].queue && states[i].owner.Some?
    ensures forall t :: At(states[i], t, Dequeued) ==>
                          states[i].baton.Some? && WillResume(states[i], states[i].baton.value, t)
    ensures forall r: Tid, t: Tid :: WillResume(states[i], r, t) ==>
                                       states[i].baton == Some(r) && At(states[i], t, Dequeued)
  {
    RunInv(states, actions, i);
  }

  /** The Mutex never deadlocks on itself: if anyone is inside, some step can be taken. */
  lemma SomeoneCanMove(states: seq<State>, actions: seq<Action>, i: nat) returns (a: Action)
    requires Run(states, actions) && i < |states| && states[i].pc != map[]
    ensures Enabled(states[i], a)
  {
    RunInv(states, actions, i);
    var s := states[i];
    if s.base.Some? {
      var t := s.base.value;
      a := match s.pc[t]
        case AcqLocked => TestOwner(t)
        case Suspending => Enqueue(t)
        case Queued => UnlockQueued(t)
        case Granting => UnlockGranted(t)
        case RelLocked => TestQueue(t)
        case Handing(_) => UnlockHanded(t)
        case _ => UnlockCleared(t);
    } else if s.baton.Some? {
      a := Resume(s.baton.value);
    } else {
      var t :| t in s.pc;
      assert s.pc[t].Parked? || s.pc[t].Holding?;
      a := LockToRelease(s.owner.value);
    }
  }
}
