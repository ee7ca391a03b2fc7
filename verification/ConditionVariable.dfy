/**
 The user-level condition variable. `wait` enqueues the caller and releases the
 Mutex only after the context switch; `signal` dequeues, releases the Mutex and
 resumes in three separate steps; `signalAll` resumes one waiter after the other
 with the Mutex held; a resumed uThread still has to acquire the Mutex again.
 That the Mutex has one holder (see `MutexBaton`) is taken as given; which of
 several contenders gets it next is left open.

 All this is proved to refine a monitor in which `wait`, `signal` and `signalAll`
 are one indivisible step each. `resumer`, `enqueued` and `woken` are history.
 */
module ConditionVariable {
  import opened Sequences
  import opened BlockingQueue

  datatype Pc =
    | Inside                   // holds the mutex, outside of the condition variable
    | Suspending               // wait: switching out with the mutex held
    | Queued                   // on the queue, mutex still held on its behalf
    | Parked                   // on the queue
    | Releasing                // signal found nobody, mutex still held
    | Handing(next: Tid)       // signal dequeued `next`, mutex still held
    | Resuming(next: Tid)      // mutex released, about to resume `next`
    | Sweeping(done: seq<Tid>) // in the loop of signalAll, mutex held; `done` is history
    | Dequeued                 // taken off the queue by a signal, not resumed yet
    | Back                     // resumed, about to acquire the mutex again

  datatype State = State(
    mutex: Option<Tid>, queue: seq<Tid>, pc: map<Tid, Pc>,
    resumer: map<Tid, Tid>, enqueued: seq<Tid>, woken: seq<Tid>)

  datatype Action =
    | Enter(t: Tid) | Leave(t: Tid)
    | Wait(t: Tid) | Enqueue(t: Tid) | ReleaseQueued(t: Tid) | Reacquire(t: Tid)
    | Signal(t: Tid) | ReleaseEmpty(t: Tid) | ReleaseHanded(t: Tid) | Resume(t: Tid)
    | BeginAll(t: Tid) | Sweep(t: Tid) | EndAll(t: Tid)

  ghost predicate Init(s: State) {
    s == State(None, [], map[], map[], [], [])
  }

  predicate At(s: State, t: Tid, pc: Pc) {
    t in s.pc && s.pc[t] == pc
  }

  predicate Enabled(s: State, a: Action) {
    match a
    case Enter(t) => t !in s.pc && s.mutex == None
    case Leave(t) => At(s, t, Inside)
    case Wait(t) => At(s, t, Inside)
    case Enqueue(t) => At(s, t, Suspending)
    case ReleaseQueued(t) => At(s, t, Queued)
    case Reacquire(t) => At(s, t, Back) && s.mutex == None
    case Signal(t) => At(s, t, Inside)
    case ReleaseEmpty(t) => At(s, t, Releasing)
    case ReleaseHanded(t) => t in s.pc && s.pc[t].Handing?
    case Resume(t) => t in s.pc && s.pc[t].Resuming?
    case BeginAll(t) => At(s, t, Inside)
    case Sweep(t) => t in s.pc && s.pc[t].Sweeping? && s.queue != []
    case EndAll(t) => t in s.pc && s.pc[t].Sweeping? && s.queue == []
  }

  function Apply(s: State, a: Action): State
    requires Enabled(s, a)
  {
    match a
    case Enter(t) => s.(mutex := Some(t), pc := s.pc[t := Inside])
    case Leave(t) => s.(mutex := None, pc := s.pc - {t})
    case Wait(t) => s.(pc := s.pc[t := Suspending])
    case Enqueue(t) => s.(queue := s.queue + [t], enqueued := s.enqueued + [t], pc := s.pc[t := Queued])
    case ReleaseQueued(t) => s.(mutex := None, pc := s.pc[t := Parked])
    case Reacquire(t) => s.(mutex := Some(t), pc := s.pc[t := Inside])
    case Signal(t) => if s.queue == [] then s.(pc := s.pc[t := Releasing]) else Take(s, t, s.queue[0])
    case ReleaseEmpty(t) => s.(mutex := None, pc := s.pc - {t})
    case ReleaseHanded(t) => s.(mutex := None, pc := s.pc[t := Resuming(s.pc[t].next)])
    case Resume(t) =>
      s.(resumer := s.resumer - {s.pc[t].next}, pc := s.pc[s.pc[t].next := Back] - {t})
    case BeginAll(t) => s.(pc := s.pc[t := Sweeping([])])
    case Sweep(t) =>
      s.(queue := s.queue[1..], woken := s.woken + [s.queue[0]],
         pc := s.pc[s.queue[0] := Back][t := Sweeping(s.pc[t].done + [s.queue[0]])])
    case EndAll(t) => s.(mutex := None, pc := s.pc - {t})
  }

  function Take(s: State, t: Tid, n: Tid): State
    requires s.queue != []
  {
    s.(queue := s.queue[1..], woken := s.woken + [n], resumer := s.resumer[n := t],
       pc := s.pc[n := Dequeued][t := Handing(n)])
  }

  // ------------------------------------------------------------- invariant

  predicate HasMutex(pc: Pc) {
    !(pc.Parked? || pc.Resuming? || pc.Dequeued? || pc.Back?)
  }

  predicate OnQueue(pc: Pc) {
    pc.Queued? || pc.Parked?
  }

  predicate Passing(pc: Pc) {
    pc.Handing? || pc.Resuming?
  }

  ghost predicate MutexInv(s: State) {
    && (forall t :: t in s.pc && HasMutex(s.pc[t]) ==> s.mutex == Some(t))
    && (s.mutex.Some? ==> s.mutex.value in s.pc && HasMutex(s.pc[s.mutex.value]))
  }

  /** The queue holds exactly the waiters; one that has not released the mutex yet is the last, and while a signal that
      found nobody holds the mutex, nobody comes. */
  ghost predicate QueueInv(s: State) {
    && Lists(s.queue, s.pc, OnQueue) && Fifo(s.queue, s.enqueued, s.woken)
    && (forall t :: t in s.pc && s.pc[t].Queued? ==> s.queue != [] && s.queue[|s.queue| - 1] == t)
    && (forall t :: t in s.pc && s.pc[t].Releasing? ==> s.queue == [])
  }

  /** A waiter dequeued by a signal has exactly one signaller that will resume it. */
  ghost predicate HandInv(s: State) {
    HandsOn(s.pc, s.resumer, IsDequeued, Resumes)
  }

  predicate IsDequeued(pc: Pc) { pc.Dequeued? }

  function Resumes(pc: Pc): Option<Tid> {
    if Passing(pc) then Some(pc.next) else None
  }

  /** Those a sweep has resumed are still in front of the mutex. */
  ghost predicate SweepInv(s: State) {
    forall t, x :: t in s.pc && s.pc[t].Sweeping? && x in s.pc[t].done ==> At(s, x, Back)
  }

  ghost predicate Inv(s: State) {
    MutexInv(s) && QueueInv(s) && HandInv(s) && SweepInv(s)
  }

  lemma MutexStep(s: State, a: Action)
    requires MutexInv(s) && QueueInv(s) && HandInv(s) && Enabled(s, a)
    ensures MutexInv(Apply(s, a))
  {
    assert s.queue != [] ==> s.queue[0] in s.queue;
  }

  lemma QueueTaken(s: State, a: Action)
    requires MutexInv(s) && QueueInv(s) && Enabled(s, a) && (a.Signal? || a.Sweep?)
    ensures QueueInv(Apply(s, a))
  {
    if s.queue != [] {
      FifoLeave(s.queue, s.enqueued, s.woken);
      assert forall u :: u in s.queue <==> u == s.queue[0] || u in s.queue[1..];
    }
  }

  lemma QueueEntered(s: State, t: Tid)
    requires MutexInv(s) && QueueInv(s) && Enabled(s, Enqueue(t))
    ensures QueueInv(Apply(s, Enqueue(t)))
  {
    FifoEnter(s.queue, s.enqueued, s.woken, t);
    assert forall u :: u in s.pc && s.pc[u].Queued? ==> s.mutex == Some(u);
  }

  lemma QueueResumed(s: State, t: Tid)
    requires QueueInv(s) && Enabled(s, Resume(t)) && At(s, s.pc[t].next, Dequeued)
    ensures QueueInv(Apply(s, Resume(t)))
  {
    ListsSet(s.queue, s.pc, OnQueue, s.pc[t].next, Back);
    ListsDrop(s.queue, s.pc[s.pc[t].next := Back], OnQueue, t);
  }

  lemma QueueOther(s: State, a: Action)
    requires MutexInv(s) && QueueInv(s) && Enabled(s, a)
    requires !a.Signal? && !a.Sweep? && !a.Enqueue? && !a.Resume?
    ensures QueueInv(Apply(s, a))
  {
    var s' := Apply(s, a);
    if a.t in s'.pc {
      ListsSet(s.queue, s.pc, OnQueue, a.t, s'.pc[a.t]);
      assert s'.pc == s.pc[a.t := s'.pc[a.t]];
    } else {
      ListsDrop(s.queue, s.pc, OnQueue, a.t);
      assert s'.pc == s.pc - {a.t};
    }
  }

  lemma HandTaken(s: State, t: Tid)
    requires QueueInv(s) && HandInv(s) && Enabled(s, Signal(t))
    ensures HandInv(Apply(s, Signal(t)))
  {
    if s.queue != [] {
      assert s.queue[0] in s.queue;
      HandsOnTake(s.pc, s.resumer, IsDequeued, Resumes, t, Handing(s.queue[0]), s.queue[0], Dequeued);
    } else {
      HandsOnSet(s.pc, s.resumer, IsDequeued, Resumes, t, Releasing);
    }
  }

  lemma HandResumed(s: State, t: Tid)
    requires HandInv(s) && Enabled(s, Resume(t))
    ensures HandInv(Apply(s, Resume(t))) && At(s, s.pc[t].next, Dequeued)
  {
    var n := s.pc[t].next;
    HandsOnGive(s.pc, s.resumer, IsDequeued, Resumes, t, n);
    HandsOnSet(s.pc - {n} - {t}, s.resumer - {n}, IsDequeued, Resumes, n, Back);
    assert (s.pc - {n} - {t})[n := Back] == s.pc[n := Back] - {t};
  }

  lemma HandSwept(s: State, t: Tid)
    requires QueueInv(s) && HandInv(s) && Enabled(s, Sweep(t))
    ensures HandInv(Apply(s, Sweep(t)))
  {
    var n := s.queue[0];
    assert n in s.queue;
    HandsOnSet(s.pc, s.resumer, IsDequeued, Resumes, n, Back);
    HandsOnSet(s.pc[n := Back], s.resumer, IsDequeued, Resumes, t, Sweeping(s.pc[t].done + [n]));
  }

  lemma HandOther(s: State, a: Action)
    requires HandInv(s) && Enabled(s, a) && !a.Signal? && !a.Resume? && !a.Sweep?
    ensures HandInv(Apply(s, a))
  {
    var s' := Apply(s, a);
    if a.t in s'.pc {
      HandsOnSet(s.pc, s.resumer, IsDequeued, Resumes, a.t, s'.pc[a.t]);
      assert s'.pc == s.pc[a.t := s'.pc[a.t]];
    } else {
      HandsOnDrop(s.pc, s.resumer, IsDequeued, Resumes, a.t);
      assert s'.pc == s.pc - {a.t};
    }
  }

  lemma Swept(s: State, t: Tid)
    requires MutexInv(s) && QueueInv(s) && SweepInv(s) && Enabled(s, Sweep(t))
    ensures SweepInv(Apply(s, Sweep(t)))
  {
    var s', n := Apply(s, Sweep(t)), s.queue[0];
    assert n in s.queue;
    forall u, x | u in s'.pc && s'.pc[u].Sweeping? && x in s'.pc[u].done
      ensures At(s', x, Back)
    {
      assert u == t;
      assert x == n || x in s.pc[t].done;
      assert x in s.pc[t].done ==> At(s, x, Back) && x != n;
    }
  }

  lemma SweepOther(s: State, a: Action)
    requires MutexInv(s) && HandInv(s) && QueueInv(s) && SweepInv(s) && Enabled(s, a) && !a.Sweep?
    ensures SweepInv(Apply(s, a))
  {
    var s' := Apply(s, a);
    assert s.queue != [] ==> s.queue[0] in s.queue;
    forall u, x | u in s'.pc && s'.pc[u].Sweeping? && x in s'.pc[u].done
      ensures At(s', x, Back)
    {
      assert u in s.pc && s.pc[u].Sweeping? && x in s.pc[u].done;
      assert At(s, x, Back);
    }
  }

  lemma StepKeeps(s: State, a: Action)
    requires Inv(s) && Enabled(s, a)
    ensures Inv(Apply(s, a))
  {
    MutexStep(s, a);
    match a
    case Signal(t) =>
      QueueTaken(s, a);
      HandTaken(s, t);
      SweepOther(s, a);
    case Sweep(t) =>
      QueueTaken(s, a);
      HandSwept(s, t);
      Swept(s, t);
    case Enqueue(t) =>
      QueueEntered(s, t);
      HandOther(s, a);
      SweepOther(s, a);
    case Resume(t) =>
      HandResumed(s, t);
      QueueResumed(s, t);
      SweepOther(s, a);
    case _ =>
      QueueOther(s, a);
      HandOther(s, a);
      SweepOther(s, a);
  }

  // ------------------------------------------------------ the monitor it refines

  datatype Monitor = Monitor(holder: Option<Tid>, waiting: seq<Tid>, woken: set<Tid>)

  /** What a user of the condition variable sees: each operation is one step. */
  datatype Operation =
    | DoEnter(t: Tid) | DoLeave(t: Tid) | DoWait(t: Tid) | DoSignal(t: Tid) | DoSignalAll(t: Tid) | DoReturn(t: Tid)

  predicate Allowed(m: Monitor, o: Operation) {
    match o
    case DoEnter(t) => m.holder == None && t !in m.waiting && t !in m.woken
    case DoReturn(t) => m.holder == None && t in m.woken
    case _ => m.holder == Some(o.t)
  }

  function Perform(m: Monitor, o: Operation): Monitor {
    match o
    case DoEnter(t) => m.(holder := Some(t))
    case DoLeave(t) => m.(holder := None)
    case DoWait(t) => m.(holder := None, waiting := m.waiting + [t])
    case DoSignal(t) =>
      if m.waiting == [] then m.(holder := None)
      else Monitor(None, m.waiting[1..], m.woken + {m.waiting[0]})
    case DoSignalAll(t) => Monitor(None, [], m.woken + set x | x in m.waiting)
    case DoReturn(t) => m.(holder := Some(t), woken := m.woken - {t})
  }

  /** Waiters whose wake-up a signaller has begun but not published by releasing the mutex. */
  function Begun(s: State): seq<Tid> {
    if s.mutex.None? || s.mutex.value !in s.pc then []
    else if s.pc[s.mutex.value].Handing? then [s.pc[s.mutex.value].next]
    else if s.pc[s.mutex.value].Sweeping? then s.pc[s.mutex.value].done
    else []
  }

  /** The queue without a waiter that still holds the mutex. */
  function Published(s: State): seq<Tid> {
    if s.mutex.Some? && At(s, s.mutex.value, Queued) && s.queue != [] then s.queue[..|s.queue| - 1] else s.queue
  }

  function Abs(s: State): Monitor {
    Monitor(s.mutex, Begun(s) + Published(s),
            set t | t in s.pc && (s.pc[t].Dequeued? || s.pc[t].Back?) && t !in Begun(s))
  }

  /** The operation that a step completes, if any: it takes effect when the mutex changes hands. */
  function Completes(a: Action): Option<Operation> {
    match a
    case Enter(t) => Some(DoEnter(t))
    case Leave(t) => Some(DoLeave(t))
    case ReleaseQueued(t) => Some(DoWait(t))
    case Reacquire(t) => Some(DoReturn(t))
    case ReleaseEmpty(t) => Some(DoSignal(t))
    case ReleaseHanded(t) => Some(DoSignal(t))
    case EndAll(t) => Some(DoSignalAll(t))
    case _ => None
  }

  lemma ReleaseQueuedRefines(s: State, t: Tid)
    requires MutexInv(s) && QueueInv(s) && Enabled(s, ReleaseQueued(t))
    ensures Abs(Apply(s, ReleaseQueued(t))) == Perform(Abs(s), DoWait(t)) && Allowed(Abs(s), DoWait(t))
  {
    assert s.queue == s.queue[..|s.queue| - 1] + [t];
    assert [] + s.queue[..|s.queue| - 1] + [t] == [] + s.queue;
  }

  lemma SignalRefines(s: State, t: Tid)
    requires MutexInv(s) && QueueInv(s) && Enabled(s, Signal(t))
    ensures Abs(Apply(s, Signal(t))) == Abs(s)
  {
    if s.queue != [] {
      assert s.queue[0] in s.queue;
      assert [s.queue[0]] + s.queue[1..] == [] + s.queue;
    }
  }

  lemma ReleaseHandedRefines(s: State, t: Tid)
    requires s.mutex == Some(t) && Enabled(s, ReleaseHanded(t)) && At(s, s.pc[t].next, Dequeued)
    ensures Abs(Apply(s, ReleaseHanded(t))) == Perform(Abs(s), DoSignal(t)) && Allowed(Abs(s), DoSignal(t))
  {
    var s', n := Apply(s, ReleaseHanded(t)), s.pc[t].next;
    assert Abs(s).waiting == [n] + s.queue && Abs(s').waiting == [] + s.queue;
    assert Abs(s').waiting == Abs(s).waiting[1..];
    assert Abs(s').woken == Abs(s).woken + {n};
  }

  lemma SweepRefines(s: State, t: Tid)
    requires MutexInv(s) && QueueInv(s) && Enabled(s, Sweep(t))
    ensures Abs(Apply(s, Sweep(t))) == Abs(s)
  {
    assert s.queue[0] in s.queue;
    assert s.pc[t].done + [s.queue[0]] + s.queue[1..] == s.pc[t].done + s.queue;
  }

  lemma EndAllRefines(s: State, t: Tid)
    requires MutexInv(s) && SweepInv(s) && Enabled(s, EndAll(t))
    ensures Abs(Apply(s, EndAll(t))) == Perform(Abs(s), DoSignalAll(t)) && Allowed(Abs(s), DoSignalAll(t))
  {
    assert s.pc[t].done + [] == s.pc[t].done;
    assert forall x :: x in s.pc[t].done ==> At(s, x, Back);
  }

  lemma EnterRefines(s: State, t: Tid)
    requires QueueInv(s) && Enabled(s, Enter(t))
    ensures Abs(Apply(s, Enter(t))) == Perform(Abs(s), DoEnter(t)) && Allowed(Abs(s), DoEnter(t))
  {
    assert t !in s.queue;
  }

  lemma ReacquireRefines(s: State, t: Tid)
    requires Enabled(s, Reacquire(t))
    ensures Abs(Apply(s, Reacquire(t))) == Perform(Abs(s), DoReturn(t)) && Allowed(Abs(s), DoReturn(t))
  {
  }

  lemma LeaveRefines(s: State, a: Action)
    requires MutexInv(s) && Enabled(s, a) && (a.Leave? || (a.ReleaseEmpty? && s.queue == []))
    ensures var o := Completes(a).value; Allowed(Abs(s), o) && Abs(Apply(s, a)) == Perform(Abs(s), o)
  {
    assert s.mutex == Some(a.t);
  }

  lemma PreparingRefines(s: State, a: Action)
    requires MutexInv(s) && Enabled(s, a) && (a.Wait? || a.Enqueue? || a.BeginAll?)
    ensures Abs(Apply(s, a)) == Abs(s)
  {
    assert s.mutex == Some(a.t);
    assert a.Enqueue? ==> (s.queue + [a.t])[..|s.queue|] == s.queue;
  }

  lemma ResumeRefines(s: State, t: Tid)
    requires MutexInv(s) && HandInv(s) && Enabled(s, Resume(t)) && At(s, s.pc[t].next, Dequeued)
    ensures Abs(Apply(s, Resume(t))) == Abs(s)
  {
    assert s.mutex.Some? ==> s.mutex.value != t && s.mutex.value != s.pc[t].next;
  }

  /** Every step of the code is a step of the monitor or invisible in it. */
  lemma StepRefines(s: State, a: Action)
    requires Inv(s) && Enabled(s, a)
    ensures match Completes(a)
            case None => Abs(Apply(s, a)) == Abs(s)
            case Some(o) => Allowed(Abs(s), o) && Abs(Apply(s, a)) == Perform(Abs(s), o)
  {
    match a
    case Enter(t) => EnterRefines(s, t);
    case Reacquire(t) => ReacquireRefines(s, t);
    case ReleaseQueued(t) => ReleaseQueuedRefines(s, t);
    case Signal(t) => SignalRefines(s, t);
    case ReleaseHanded(t) => ReleaseHandedRefines(s, t);
    case Sweep(t) => SweepRefines(s, t);
    case EndAll(t) => EndAllRefines(s, t);
    case Resume(t) => ResumeRefines(s, t);
    case Leave(t) => LeaveRefines(s, a);
    case ReleaseEmpty(t) => LeaveRefines(s, a);
    case _ => PreparingRefines(s, a);
  }

  // ------------------------------------------------------------ whole runs

  ghost predicate StepAt(states: seq<State>, actions: seq<Action>, i: nat)
    requires i < |actions| && i + 1 < |states|
  {
    Enabled(states[i], actions[i]) && states[i + 1] == Apply(states[i], actions[i])
  }

  ghost predicate Run(states: seq<State>, actions: seq<Action>) {
    && |states| == |actions| + 1
    && Init(states[0])
    && forall i :: 0 <= i < |actions| ==> StepAt(states, actions, i)
  }

  lemma {:induction false} RunInv(states: seq<State>, actions: seq<Action>, i: nat)
    requires Run(states, actions) && i < |states|
    ensures Inv(states[i])
  {
    if i > 0 {
      RunInv(states, actions, i - 1);
      assert StepAt(states, actions, i - 1);
      StepKeeps(states[i - 1], actions[i - 1]);
    }
  }

  /** The operations completed by a sequence of steps, in order. */
  function Operations(actions: seq<Action>): seq<Operation> {
    if actions == [] then [] else Operations(actions[..|actions| - 1]) + Completed(actions[|actions| - 1])
  }

  function Completed(a: Action): seq<Operation> {
    if Completes(a).Some? then [Completes(a).value] else []
  }

  /** The monitor performs the operations one after the other, each when it is allowed. */
  predicate Performs(m: Monitor, ops: seq<Operation>, r: Monitor)
    decreases |ops|
  {
    if ops == [] then r == m
    else Allowed(m, ops[0]) && Performs(Perform(m, ops[0]), ops[1..], r)
  }

  lemma {:induction false} PerformsSnoc(m: Monitor, ops: seq<Operation>, r: Monitor, o: Operation)
    requires Performs(m, ops, r) && Allowed(r, o)
    ensures Performs(m, ops + [o], Perform(r, o))
    decreases |ops|
  {
    if ops == [] {
      assert ([] + [o])[1..] == [];
    } else {
      PerformsSnoc(Perform(m, ops[0]), ops[1..], r, o);
      assert (ops + [o])[0] == ops[0] && (ops + [o])[1..] == ops[1..] + [o];
    }
  }

  lemma {:induction false} PerformsStep(m: Monitor, ops: seq<Operation>, s: State, a: Action)
    requires Performs(m, ops, Abs(s)) && Inv(s) && Enabled(s, a)
    ensures Performs(m, ops + Completed(a), Abs(Apply(s, a)))
  {
    StepRefines(s, a);
    if Completes(a).Some? {
      PerformsSnoc(m, ops, Abs(s), Completes(a).value);
    } else {
      assert ops + Completed(a) == ops;
    }
  }

  /** Refinement: in every run, the operations completed so far, performed one by one on an empty monitor, are allowed
      and lead to what the state of the code stands for. */
  lemma {:induction false} RunRefines(states: seq<State>, actions: seq<Action>, i: nat)
    requires Run(states, actions) && i < |states|
    ensures Performs(Monitor(None, [], {}), Operations(actions[..i]), Abs(states[i]))
  {
    if i == 0 {
      assert actions[..0] == [];
    } else {
      RunRefines(states, actions, i - 1);
      RunInv(states, actions, i - 1);
      assert StepAt(states, actions, i - 1);
      PerformsStep(Monitor(None, [], {}), Operations(actions[..i - 1]), states[i - 1], actions[i - 1]);
      assert actions[..i][..i - 1] == actions[..i - 1];
    }
  }

  /** Waiters are woken in the order in which they were queued, each wait once. */
  lemma WokenInOrder(states: seq<State>, actions: seq<Action>, i: nat)
    requires Run(states, actions) && i < |states|
    ensures states[i].woken <= states[i].enqueued
    ensures states[i].enqueued[|states[i].woken|..] == states[i].queue && Distinct(states[i].queue)
  {
    RunInv(states, actions, i);
    FifoOrder(states[i].queue, states[i].enqueued, states[i].woken);
  }

  /** No lost signal: a uThread that has left the mutex in `wait` is on the queue or has been woken, and one woken by a
      signal has exactly one signaller whose next step, once it has released the mutex, resumes it. */
  lemma NoLostSignal(states: seq<State>, actions: seq<Action>, i: nat, n: Tid)
    requires Run(states, actions) && i < |states|
    ensures At(states[i], n, Parked) ==> n in states[i].queue
    ensures At(states[i], n, Dequeued) ==>
              var s := states[i];
              && n in s.resumer && s.resumer[n] in s.pc && Passing(s.pc[s.resumer[n]])
              && (forall u :: u in s.pc && Passing(s.pc[u]) && s.pc[u].next == n ==> u == s.resumer[n])
              && (s.pc[s.resumer[n]].Resuming? ==>
                    Enabled(s, Resume(s.resumer[n])) && At(Apply(s, Resume(s.resumer[n])), n, Back))
  {
    RunInv(states, actions, i);
  }
}
