/**
 The uThread pool. A caller of `uThreadExecute` either starts a new worker for
 its task or, if it has seen an idle worker, queues the task and signals the
 condition variable; a worker runs its first task and then serves the task list
 for ever.

 The task list and the condition variable are touched only inside critical
 sections of the pool's Mutex, and `ConditionVariable` shows that its operations
 then behave like indivisible ones, so each section is one step: a worker's
 section ends with its suspension, whose enqueue and unlock happen after the
 context switch, and a submitter's section ends before it resumes the worker it
 has dequeued. The idle counter is read and changed outside as well.

 Tasks are numbered in the order in which they are submitted. The fields from
 `resumer` on are history.
 */
module ThreadPool {
  import opened Sequences
  import opened BlockingQueue

  type Task = nat

  datatype Submitter =
    | Loading(task: Task)        // about to read idleuThreads
    | Creating(task: Task)       // read zero: starts a new worker
    | Entering(task: Task)       // saw an idle worker: will queue the task and signal
    | Resuming(w: nat)           // section left, about to resume the dequeued worker

  datatype Worker =
    | Spawned(task: Task)        // about to run its first task
    | Running
    | Looking                    // idle, about to enter its section
    | Asleep                     // on the condition variable
    | Dequeued                   // off the condition variable, not resumed yet
    | Starting(task: Task)       // section left with a task, about to run it

  /** Where a task is. */
  datatype Place = WithSubmitter(id: nat) | OnList | WithWorker(w: nat) | Started

  datatype State = State(
    idle: int, tasks: seq<Task>, cv: seq<nat>, subs: map<nat, Submitter>, workers: map<nat, Worker>,
    resumer: map<nat, nat>, place: map<Task, Place>, enqueued: seq<Task>, dequeued: seq<Task>, started: seq<Task>)

  datatype Action =
    | Submit(id: nat) | ReadIdle(id: nat) | Create(id: nat, w: nat) | QueueAndSignal(id: nat) | Resume(id: nat)
    | Start(w: nat) | BecomeIdle(w: nat) | Look(w: nat)

  ghost predicate Init(s: State) {
    s == State(0, [], [], map[], map[], map[], map[], [], [], [])
  }

  predicate Enabled(s: State, a: Action) {
    match a
    case Submit(id) => id !in s.subs
    case ReadIdle(id) => id in s.subs && s.subs[id].Loading?
    case Create(id, w) => id in s.subs && s.subs[id].Creating? && w !in s.workers
    case QueueAndSignal(id) => id in s.subs && s.subs[id].Entering?
    case Resume(id) => id in s.subs && s.subs[id].Resuming?
    case Start(w) => w in s.workers && (s.workers[w].Spawned? || s.workers[w].Starting?)
    case BecomeIdle(w) => w in s.workers && s.workers[w].Running?
    case Look(w) => w in s.workers && s.workers[w].Looking?
  }

  function Apply(s: State, a: Action): State
    requires Enabled(s, a)
  {
    match a
    case Submit(id) => DoSubmit(s, id)
    case ReadIdle(id) =>
      s.(subs := s.subs[id := if s.idle == 0 then Creating(s.subs[id].task) else Entering(s.subs[id].task)])
    case Create(id, w) => DoCreate(s, id, w, s.subs[id].task)
    case QueueAndSignal(id) =>
      if s.cv == [] then DoQueue(s, id, s.subs[id].task, s.subs - {id})
      else DoSignal(DoQueue(s, id, s.subs[id].task, s.subs[id := Resuming(s.cv[0])]), id, s.cv[0])
    case Resume(id) => DoResume(s, id, s.subs[id].w)
    case Start(w) => DoStart(s, w, s.workers[w].task)
    case BecomeIdle(w) => s.(workers := s.workers[w := Looking], idle := s.idle + 1)
    case Look(w) =>
      if s.tasks == [] then s.(workers := s.workers[w := Asleep], cv := s.cv + [w])
      else DoTake(s, w, s.tasks[0])
  }

  function DoSubmit(s: State, id: nat): State {
    s.(subs := s.subs[id := Loading(|s.place|)], place := s.place[|s.place| := WithSubmitter(id)])
  }

  function DoCreate(s: State, id: nat, w: nat, task: Task): State {
    s.(subs := s.subs - {id}, workers := s.workers[w := Spawned(task)], place := s.place[task := WithWorker(w)])
  }

  function DoQueue(s: State, id: nat, task: Task, subs: map<nat, Submitter>): State {
    s.(subs := subs, tasks := s.tasks + [task], enqueued := s.enqueued + [task], place := s.place[task := OnList])
  }

  function DoSignal(s: State, id: nat, w: nat): State
    requires s.cv != []
  {
    s.(cv := s.cv[1..], workers := s.workers[w := Dequeued], resumer := s.resumer[w := id])
  }

  function DoResume(s: State, id: nat, w: nat): State {
    s.(workers := s.workers[w := Looking], resumer := s.resumer - {w}, subs := s.subs - {id})
  }

  function DoStart(s: State, w: nat, task: Task): State {
    s.(workers := s.workers[w := Running], place := s.place[task := Started], started := s.started + [task])
  }

  function DoTake(s: State, w: nat, task: Task): State
    requires s.tasks != []
  {
    s.(idle := s.idle - 1, tasks := s.tasks[1..], dequeued := s.dequeued + [task],
       workers := s.workers[w := Starting(task)], place := s.place[task := WithWorker(w)])
  }

  // ------------------------------------------------------------- invariant

  ghost predicate CvInv(s: State) {
    Lists(s.cv, s.workers, IsAsleep)
  }

  predicate IsAsleep(p: Worker) { p.Asleep? }

  /** Every worker taken off the condition variable has exactly one submitter that will resume it. */
  ghost predicate HandInv(s: State) {
    HandsOff(s.workers, s.subs, s.resumer, IsDequeued, Resumes)
  }

  predicate IsDequeued(p: Worker) { p.Dequeued? }

  function Resumes(p: Submitter): Option<nat> {
    if p.Resuming? then Some(p.w) else None
  }

  predicate IsIdle(p: Worker) { p.Looking? || p.Asleep? || p.Dequeued? }

  function IdleWorkers(workers: map<nat, Worker>): set<nat> {
    set w | w in workers && IsIdle(workers[w])
  }

  ghost predicate IdleInv(s: State) {
    s.idle == |IdleWorkers(s.workers)|
  }

  predicate Awake(workers: map<nat, Worker>, w: nat) {
    w in workers && !workers[w].Asleep?
  }

  /** Queued work has a worker that is not asleep. */
  ghost predicate WorkInv(s: State) {
    && (forall i :: i in s.subs && s.subs[i].Entering? ==> s.workers != map[])
    && (s.tasks != [] ==> exists w :: Awake(s.workers, w))
  }

  /** Idle workers that are on their way to the task list. */
  function Coming(workers: map<nat, Worker>): set<nat> {
    set w | w in workers && (workers[w].Looking? || workers[w].Dequeued?)
  }

  /** While anybody sleeps, every queued task has an idle worker on its way. */
  ghost predicate ComingInv(s: State) {
    s.cv != [] ==> |s.tasks| <= |Coming(s.workers)|
  }

  predicate SubHas(p: Submitter, t: Task) { !p.Resuming? && p.task == t }

  predicate WorkHas(p: Worker, t: Task) { (p.Spawned? || p.Starting?) && p.task == t }

  /** A submitted task is with a submitter or a worker exactly if that one carries it. */
  ghost predicate CarrierInv(s: State) {
    && (forall t :: t in s.place <==> 0 <= t < |s.place|)
    && (forall i :: i in s.subs && !s.subs[i].Resuming? ==>
          s.subs[i].task in s.place && s.place[s.subs[i].task] == WithSubmitter(i))
    && (forall w :: w in s.workers && (s.workers[w].Spawned? || s.workers[w].Starting?) ==>
          s.workers[w].task in s.place && s.place[s.workers[w].task] == WithWorker(w))
    && (forall t :: t in s.place ==> Carried(s, t))
  }

  predicate Carried(s: State, t: Task)
    requires t in s.place
  {
    match s.place[t]
    case WithSubmitter(i) => i in s.subs && SubHas(s.subs[i], t)
    case WithWorker(w) => w in s.workers && WorkHas(s.workers[w], t)
    case _ => true
  }

  /** The task list and the started tasks hold each of their tasks once, and no other. */
  ghost predicate ListInv(s: State) {
    && (forall t :: t in s.tasks <==> t in s.place && s.place[t].OnList?)
    && (forall t :: t in s.started <==> t in s.place && s.place[t].Started?)
    && Distinct(s.tasks) && Distinct(s.started)
    && Fifo(s.tasks, s.enqueued, s.dequeued)
  }

  /** A queued task that has left the list has been started or is with a worker about to start it. */
  ghost predicate TakenInv(dequeued: seq<Task>, place: map<Task, Place>, workers: map<nat, Worker>) {
    forall t :: t in dequeued ==> t in place && IsTaken(t, place[t], workers)
  }

  predicate IsTaken(t: Task, p: Place, workers: map<nat, Worker>) {
    p.Started? || (p.WithWorker? && p.w in workers && workers[p.w] == Starting(t))
  }

  ghost predicate PoolInv(s: State) {
    CvInv(s) && HandInv(s) && IdleInv(s) && WorkInv(s)
  }

  ghost predicate Inv(s: State) {
    PoolInv(s) && ComingInv(s) && CarrierInv(s) && ListInv(s) && TakenInv(s.dequeued, s.place, s.workers)
  }

  // ---------------------------------------------- every step keeps the invariant

  lemma SubmitPool(s: State, id: nat)
    requires PoolInv(s) && Enabled(s, Submit(id))
    ensures PoolInv(Apply(s, Submit(id)))
  {
    var s' := Apply(s, Submit(id));
    assert IdleWorkers(s'.workers) == IdleWorkers(s.workers);
  }

  lemma SubmitCarrier(s: State, id: nat)
    requires CarrierInv(s) && Enabled(s, Submit(id))
    ensures CarrierInv(DoSubmit(s, id))
  {
    var s' := DoSubmit(s, id);
    assert |s.place| !in s.place;
    forall t | t in s'.place
      ensures Carried(s', t)
    {
      assert t in s.place ==> Carried(s, t);
    }
  }

  lemma SubmitList(s: State, id: nat)
    requires |s.place| !in s.place && ListInv(s)
    ensures ListInv(DoSubmit(s, id))
  {
  }

  lemma ReadIdlePool(s: State, id: nat)
    requires PoolInv(s) && Enabled(s, ReadIdle(id))
    ensures PoolInv(Apply(s, ReadIdle(id)))
  {
    var s' := Apply(s, ReadIdle(id));
    if s.idle != 0 {
      var w :| w in IdleWorkers(s.workers);
    }
  }

  lemma ReadIdleTasks(s: State, id: nat)
    requires CarrierInv(s) && ListInv(s) && Enabled(s, ReadIdle(id))
    ensures CarrierInv(Apply(s, ReadIdle(id))) && ListInv(Apply(s, ReadIdle(id)))
  {
    var s' := Apply(s, ReadIdle(id));
    forall t | t in s'.place
      ensures Carried(s', t)
    {
      assert t in s.place ==> Carried(s, t);
    }
  }

  lemma CreatePool(s: State, id: nat, w: nat)
    requires PoolInv(s) && Enabled(s, Create(id, w))
    ensures PoolInv(Apply(s, Create(id, w)))
  {
    var s' := Apply(s, Create(id, w));
    assert IdleWorkers(s'.workers) == IdleWorkers(s.workers);
    assert Awake(s'.workers, w);
  }

  lemma CreateTasks(s: State, id: nat, w: nat)
    requires CarrierInv(s) && ListInv(s) && Enabled(s, Create(id, w))
    ensures CarrierInv(Apply(s, Create(id, w))) && ListInv(Apply(s, Create(id, w)))
  {
    var s' := Apply(s, Create(id, w));
    forall t | t in s'.place
      ensures Carried(s', t)
    {
      assert t in s.place ==> Carried(s, t);
    }
  }

  lemma QueuePool(s: State, id: nat)
    requires PoolInv(s) && Enabled(s, QueueAndSignal(id)) && s.cv == []
    ensures PoolInv(Apply(s, QueueAndSignal(id)))
  {
    var s' := Apply(s, QueueAndSignal(id));
    var w :| w in s.workers;
    assert Awake(s'.workers, w);
  }

  lemma QueueList(s: State, id: nat)
    requires CarrierInv(s) && ListInv(s) && Enabled(s, QueueAndSignal(id)) && s.cv == []
    ensures ListInv(Apply(s, QueueAndSignal(id)))
  {
    FifoEnter(s.tasks, s.enqueued, s.dequeued, s.subs[id].task);
  }

  lemma QueueCarrier(s: State, id: nat)
    requires CarrierInv(s) && Enabled(s, QueueAndSignal(id)) && s.cv == []
    ensures CarrierInv(Apply(s, QueueAndSignal(id)))
  {
    var s' := Apply(s, QueueAndSignal(id));
    forall t | t in s'.place
      ensures Carried(s', t)
    {
      assert t in s.place ==> Carried(s, t);
    }
  }

  lemma SignalPool(s: State, id: nat)
    requires PoolInv(s) && Enabled(s, QueueAndSignal(id)) && s.cv != []
    ensures PoolInv(Apply(s, QueueAndSignal(id)))
  {
    var s' := Apply(s, QueueAndSignal(id));
    assert s.cv[0] in s.cv;
    assert IdleWorkers(s'.workers) == IdleWorkers(s.workers);
    assert Awake(s'.workers, s.cv[0]);
  }

  lemma SignalTasks(s: State, id: nat)
    requires CvInv(s) && CarrierInv(s) && ListInv(s) && Enabled(s, QueueAndSignal(id)) && s.cv != []
    ensures CarrierInv(Apply(s, QueueAndSignal(id))) && ListInv(Apply(s, QueueAndSignal(id)))
  {
    assert s.cv[0] in s.cv;
    FifoEnter(s.tasks, s.enqueued, s.dequeued, s.subs[id].task);
    var s' := Apply(s, QueueAndSignal(id));
    forall t | t in s'.place
      ensures Carried(s', t)
    {
      assert t in s.place ==> Carried(s, t);
    }
  }

  lemma ResumePool(s: State, id: nat)
    requires PoolInv(s) && Enabled(s, Resume(id))
    ensures PoolInv(Apply(s, Resume(id)))
  {
    var s' := Apply(s, Resume(id));
    assert IdleWorkers(s'.workers) == IdleWorkers(s.workers);
    assert Awake(s'.workers, s.subs[id].w);
  }

  lemma ResumeList(s: State, id: nat)
    requires ListInv(s) && Enabled(s, Resume(id))
    ensures ListInv(Apply(s, Resume(id)))
  {
  }

  /** A submitter without a task goes, and a worker without a task stays without one. */
  lemma DropSubmitter(s: State, id: nat)
    requires CarrierInv(s) && id in s.subs && s.subs[id].Resuming?
    ensures CarrierInv(s.(subs := s.subs - {id}))
  {
    forall t | t in s.place
      ensures Carried(s.(subs := s.subs - {id}), t)
    {
      assert Carried(s, t);
    }
  }

  lemma SetFreeWorker(s: State, w: nat)
    requires CarrierInv(s) && w in s.workers && s.workers[w].Dequeued?
    ensures CarrierInv(s.(workers := s.workers[w := Looking]))
  {
    forall t | t in s.place
      ensures Carried(s.(workers := s.workers[w := Looking]), t)
    {
      assert Carried(s, t);
    }
  }

  lemma ResumeCarrier(s: State, id: nat)
    requires CarrierInv(s) && Enabled(s, Resume(id))
    requires s.subs[id].w in s.workers && s.workers[s.subs[id].w].Dequeued?
    ensures CarrierInv(Apply(s, Resume(id)))
  {
    var s' := Apply(s, Resume(id));
    DropSubmitter(s, id);
    SetFreeWorker(s.(subs := s'.subs), s.subs[id].w);
    forall t | t in s'.place
      ensures Carried(s', t)
    {
      assert Carried(s.(subs := s'.subs, workers := s'.workers), t);
    }
  }

  lemma StartPool(s: State, w: nat)
    requires PoolInv(s) && Enabled(s, Start(w))
    ensures PoolInv(Apply(s, Start(w)))
  {
    var s' := Apply(s, Start(w));
    assert IdleWorkers(s'.workers) == IdleWorkers(s.workers);
    assert Awake(s'.workers, w);
  }

  lemma StartTasks(s: State, w: nat)
    requires CarrierInv(s) && ListInv(s) && Enabled(s, Start(w))
    ensures CarrierInv(Apply(s, Start(w))) && ListInv(Apply(s, Start(w)))
  {
    var s' := Apply(s, Start(w));
    forall t | t in s'.place
      ensures Carried(s', t)
    {
      assert t in s.place ==> Carried(s, t);
    }
  }

  lemma BecomeIdlePool(s: State, w: nat)
    requires PoolInv(s) && Enabled(s, BecomeIdle(w))
    ensures PoolInv(Apply(s, BecomeIdle(w)))
  {
    var s' := Apply(s, BecomeIdle(w));
    assert IdleWorkers(s'.workers) == IdleWorkers(s.workers) + {w};
    assert Awake(s'.workers, w);
  }

  lemma BecomeIdleTasks(s: State, w: nat)
    requires CarrierInv(s) && ListInv(s) && Enabled(s, BecomeIdle(w))
    ensures CarrierInv(Apply(s, BecomeIdle(w))) && ListInv(Apply(s, BecomeIdle(w)))
  {
    var s' := Apply(s, BecomeIdle(w));
    forall t | t in s'.place
      ensures Carried(s', t)
    {
      assert t in s.place ==> Carried(s, t);
    }
  }

  lemma SleepPool(s: State, w: nat)
    requires PoolInv(s) && Enabled(s, Look(w)) && s.tasks == []
    ensures PoolInv(Apply(s, Look(w)))
  {
    var s' := Apply(s, Look(w));
    assert IdleWorkers(s'.workers) == IdleWorkers(s.workers);
  }

  lemma SleepTasks(s: State, w: nat)
    requires CarrierInv(s) && ListInv(s) && Enabled(s, Look(w)) && s.tasks == []
    ensures CarrierInv(Apply(s, Look(w))) && ListInv(Apply(s, Look(w)))
  {
    var s' := Apply(s, Look(w));
    forall t | t in s'.place
      ensures Carried(s', t)
    {
      assert t in s.place ==> Carried(s, t);
    }
  }

  lemma TakePool(s: State, w: nat)
    requires PoolInv(s) && Enabled(s, Look(w)) && s.tasks != []
    ensures PoolInv(Apply(s, Look(w)))
  {
    var s' := Apply(s, Look(w));
    assert IdleWorkers(s'.workers) == IdleWorkers(s.workers) - {w};
    assert Awake(s'.workers, w);
  }

  lemma TakeTasks(s: State, w: nat)
    requires CarrierInv(s) && ListInv(s) && Enabled(s, Look(w)) && s.tasks != []
    ensures CarrierInv(Apply(s, Look(w))) && ListInv(Apply(s, Look(w)))
  {
    assert s.tasks[0] in s.tasks;
    FifoLeave(s.tasks, s.enqueued, s.dequeued);
    var s' := Apply(s, Look(w));
    forall t | t in s'.place
      ensures Carried(s', t)
    {
      assert t in s.place ==> Carried(s, t);
    }
  }

  lemma ComingUpdate(workers: map<nat, Worker>, w: nat, p: Worker)
    ensures Coming(workers[w := p]) ==
            if p.Looking? || p.Dequeued? then Coming(workers) + {w} else Coming(workers) - {w}
  {
  }

  lemma ComingSignalled(s: State, id: nat)
    requires CvInv(s) && ComingInv(s) && Enabled(s, QueueAndSignal(id)) && s.cv != []
    ensures ComingInv(Apply(s, QueueAndSignal(id)))
  {
    assert s.cv[0] in s.cv;
    ComingUpdate(s.workers, s.cv[0], Dequeued);
  }

  lemma ComingTaken(s: State, w: nat)
    requires ComingInv(s) && Enabled(s, Look(w)) && s.tasks != []
    ensures ComingInv(Apply(s, Look(w)))
  {
    ComingUpdate(s.workers, w, Starting(s.tasks[0]));
  }

  lemma ComingOther(s: State, a: Action)
    requires HandInv(s) && ComingInv(s) && Enabled(s, a) && !a.Look? && !a.QueueAndSignal?
    ensures ComingInv(Apply(s, a))
  {
    match a
    case Create(id, w) =>
      ComingUpdate(s.workers, w, Spawned(s.subs[id].task));
      assert w !in Coming(s.workers);
    case Resume(id) =>
      ComingUpdate(s.workers, s.subs[id].w, Looking);
      assert Coming(s.workers) + {s.subs[id].w} == Coming(s.workers);
    case Start(w) =>
      ComingUpdate(s.workers, w, Running);
      assert w !in Coming(s.workers);
    case BecomeIdle(w) =>
      ComingUpdate(s.workers, w, Looking);
    case _ =>
  }

  lemma ComingStep(s: State, a: Action)
    requires CvInv(s) && HandInv(s) && ComingInv(s) && Enabled(s, a)
    ensures ComingInv(Apply(s, a))
  {
    if a.Look? {
      if s.tasks != [] { ComingTaken(s, a.w); }
    } else if a.QueueAndSignal? {
      if s.cv != [] { ComingSignalled(s, a.id); }
    } else {
      ComingOther(s, a);
    }
  }

  lemma TakenPlace(dequeued: seq<Task>, place: map<Task, Place>, workers: map<nat, Worker>, t: Task, p: Place)
    requires TakenInv(dequeued, place, workers) && (t in place ==> place[t].WithSubmitter?)
    ensures TakenInv(dequeued, place[t := p], workers)
  {
  }

  lemma TakenWorker(dequeued: seq<Task>, place: map<Task, Place>, workers: map<nat, Worker>, w: nat, p: Worker)
    requires TakenInv(dequeued, place, workers) && (w in workers ==> !workers[w].Starting?)
    ensures TakenInv(dequeued, place, workers[w := p])
  {
  }

  lemma TakenNow(s: State, w: nat)
    requires TakenInv(s.dequeued, s.place, s.workers) && Enabled(s, Look(w)) && s.tasks != []
    ensures var r := Apply(s, Look(w)); TakenInv(r.dequeued, r.place, r.workers)
  {
    TakenWorker(s.dequeued, s.place, s.workers, w, Starting(s.tasks[0]));
  }

  lemma TakenStarted(s: State, w: nat)
    requires TakenInv(s.dequeued, s.place, s.workers) && CarrierInv(s) && Enabled(s, Start(w))
    ensures var r := Apply(s, Start(w)); TakenInv(r.dequeued, r.place, r.workers)
  {
  }

  lemma TakenSubmitted(s: State, a: Action)
    requires TakenInv(s.dequeued, s.place, s.workers) && CarrierInv(s) && Enabled(s, a)
    requires a.Submit? || a.ReadIdle? || a.Create?
    ensures var r := Apply(s, a); TakenInv(r.dequeued, r.place, r.workers)
  {
    if a.Submit? {
      TakenPlace(s.dequeued, s.place, s.workers, |s.place|, WithSubmitter(a.id));
    } else if a.Create? {
      var t := s.subs[a.id].task;
      TakenPlace(s.dequeued, s.place, s.workers, t, WithWorker(a.w));
      TakenWorker(s.dequeued, s.place[t := WithWorker(a.w)], s.workers, a.w, Spawned(t));
    }
  }

  lemma TakenQueued(s: State, id: nat)
    requires TakenInv(s.dequeued, s.place, s.workers) && CvInv(s) && CarrierInv(s) && Enabled(s, QueueAndSignal(id))
    ensures var r := Apply(s, QueueAndSignal(id)); TakenInv(r.dequeued, r.place, r.workers)
  {
    TakenPlace(s.dequeued, s.place, s.workers, s.subs[id].task, OnList);
    if s.cv != [] {
      assert s.cv[0] in s.cv;
      TakenWorker(s.dequeued, s.place[s.subs[id].task := OnList], s.workers, s.cv[0], Dequeued);
    }
  }

  lemma TakenOther(s: State, a: Action)
    requires TakenInv(s.dequeued, s.place, s.workers) && HandInv(s) && Enabled(s, a)
    requires a.Resume? || a.BecomeIdle? || (a.Look? && s.tasks == [])
    ensures var r := Apply(s, a); TakenInv(r.dequeued, r.place, r.workers)
  {
    if a.Resume? {
      TakenWorker(s.dequeued, s.place, s.workers, s.subs[a.id].w, Looking);
    } else if a.BecomeIdle? {
      TakenWorker(s.dequeued, s.place, s.workers, a.w, Looking);
    } else {
      TakenWorker(s.dequeued, s.place, s.workers, a.w, Asleep);
    }
  }

  lemma TakenStep(s: State, a: Action)
    requires Inv(s) && Enabled(s, a)
    ensures var r := Apply(s, a); TakenInv(r.dequeued, r.place, r.workers)
  {
    if a.Start? {
      TakenStarted(s, a.w);
    } else if a.Look? && s.tasks != [] {
      TakenNow(s, a.w);
    } else if a.QueueAndSignal? {
      TakenQueued(s, a.id);
    } else if a.Submit? || a.ReadIdle? || a.Create? {
      TakenSubmitted(s, a);
    } else {
      TakenOther(s, a);
    }
  }

  lemma StepKeeps(s: State, a: Action)
    requires Inv(s) && Enabled(s, a)
    ensures Inv(Apply(s, a))
  {
    ComingStep(s, a);
    TakenStep(s, a);
    match a
    case Submit(id) => SubmitPool(s, id); SubmitCarrier(s, id); SubmitList(s, id);
    case ReadIdle(id) => ReadIdlePool(s, id); ReadIdleTasks(s, id);
    case Create(id, w) => CreatePool(s, id, w); CreateTasks(s, id, w);
    case QueueAndSignal(id) =>
      if s.cv == [] {
        QueuePool(s, id);
        QueueCarrier(s, id);
        QueueList(s, id);
      } else {
        SignalPool(s, id);
        SignalTasks(s, id);
      }
    case Resume(id) => ResumePool(s, id); ResumeCarrier(s, id); ResumeList(s, id);
    case Start(w) => StartPool(s, w); StartTasks(s, w);
    case BecomeIdle(w) => BecomeIdlePool(s, w); BecomeIdleTasks(s, w);
    case Look(w) =>
      if s.tasks == [] { SleepPool(s, w); SleepTasks(s, w); } else { TakePool(s, w); TakeTasks(s, w); }
  }

  // ------------------------------------------------------------ whole runs

  ghost predicate StepAt(states: seq<State>, actions: seq<Action>, i: nat)
    requires i < |actions| && i + 1 < |states|
  {
    Enabled(states[i], actions[i]) && states[i + 1] == Apply(states[i], actions[i])
  }

  ghost predicate Run(states: seq<State>, actions: seq<Action>) {
    && |states| == |actions| + 1
    && Init(states[0])
    && forall i :: 0 <= i < |actions| ==> StepAt(states, actions, i)
  }

  lemma {:induction false} RunInv(states: seq<State>, actions: seq<Action>, i: nat)
    requires Run(states, actions) && i < |states|
    ensures Inv(states[i])
  {
    if i == 0 {
      assert IdleWorkers(states[0].workers) == {};
    } else {
      RunInv(states, actions, i - 1);
      assert StepAt(states, actions, i - 1);
      StepKeeps(states[i - 1], actions[i - 1]);
    }
  }

  /** Every submitted task is in exactly one place: with the submitter or the worker that carries it, once on
      the list, or started, once. */
  lemma TasksStartOnce(states: seq<State>, actions: seq<Action>, i: nat, t: Task)
    requires Run(states, actions) && i < |states| && t < |states[i].place|
    ensures var s := states[i];
            && t in s.place && Carried(s, t)
            && (t in s.tasks <==> s.place[t] == OnList) && (t in s.started <==> s.place[t] == Started)
            && Distinct(s.tasks) && Distinct(s.started)
  {
    RunInv(states, actions, i);
  }

  /** Queued tasks are taken in the order in which they were queued. */
  lemma TasksAreFifo(states: seq<State>, actions: seq<Action>, i: nat)
    requires Run(states, actions) && i < |states|
    ensures states[i].dequeued <= states[i].enqueued
    ensures states[i].enqueued[|states[i].dequeued|..] == states[i].tasks
  {
    RunInv(states, actions, i);
    FifoOrder(states[i].tasks, states[i].enqueued, states[i].dequeued);
  }

  /** Tasks need not start in that order; but a queued task is on the list, or started, or with exactly one worker that
      is about to start it and can do so at once. */
  lemma TakenTasksStart(states: seq<State>, actions: seq<Action>, i: nat, t: Task)
    requires Run(states, actions) && i < |states| && t in states[i].enqueued
    ensures var s := states[i];
            t in s.tasks || t in s.started ||
            exists w :: w in s.workers && s.workers[w] == Starting(t) && Enabled(s, Start(w))
    ensures var s := states[i];
            && !(t in s.tasks && t in s.started)
            && (forall w :: w in s.workers && s.workers[w] == Starting(t) ==> t !in s.tasks && t !in s.started)
            && (forall v, w :: v in s.workers && w in s.workers ==>
                  s.workers[v] == Starting(t) && s.workers[w] == Starting(t) ==> v == w)
  {
    RunInv(states, actions, i);
    var s := states[i];
    if t !in s.tasks && t !in s.started {
      assert t in s.dequeued;
      assert IsTaken(t, s.place[t], s.workers);
      assert Enabled(s, Start(s.place[t].w));
    }
  }

  /** The idle counter is the number of idle workers, so its decrement never wraps around. */
  lemma IdleNeverUnderflows(states: seq<State>, actions: seq<Action>, i: nat)
    requires Run(states, actions) && i < |actions|
    ensures states[i].idle == |IdleWorkers(states[i].workers)| >= 0
    ensures states[i + 1].idle < states[i].idle ==> states[i].idle >= 1
  {
    RunInv(states, actions, i);
    RunInv(states, actions, i + 1);
  }

  /** Queued work is never slept over: some worker is off the condition variable, and it, or the submitter that is to
      resume it, can take a step. While any worker sleeps, every queued task has such a worker that is idle. */
  lemma NoSleepOverWork(states: seq<State>, actions: seq<Action>, i: nat) returns (w: nat, a: Action)
    requires Run(states, actions) && i < |states| && states[i].tasks != []
    ensures var s := states[i];
            && Awake(s.workers, w) && Enabled(s, a)
            && (a == Start(w) || a == BecomeIdle(w) || a == Look(w) || (a.Resume? && s.subs[a.id] == Resuming(w)))
    ensures var s := states[i];
            s.cv != [] ==> |s.tasks| <= |Coming(s.workers)| && w in Coming(s.workers) && (a == Look(w) || a.Resume?)
  {
    RunInv(states, actions, i);
    var s := states[i];
    if s.cv != [] {
      w :| w in Coming(s.workers);
    } else {
      w :| Awake(s.workers, w);
    }
    if s.workers[w].Dequeued? {
      a := Resume(s.resumer[w]);
    } else if s.workers[w].Running? {
      a := BecomeIdle(w);
    } else if s.workers[w].Looking? {
      a := Look(w);
    } else {
      a := Start(w);
    }
  }
}
