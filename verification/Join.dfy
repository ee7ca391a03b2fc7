/**
 The rendezvous of `join` and `terminate`: one joiner and one terminating
 uThread meet on the join fields of the terminating one (`joinMtx`, `joinWait`,
 `afterJoin`). Whoever comes first waits on the condition variable, the other
 one signals it; a target that signals then waits on `afterJoin` until the
 joiner has finished with the fields. The target is recycled afterwards and its
 join fields are used again as they are.

 The Mutex and the mutex of the Semaphore are taken as locks (see `MutexBaton`);
 every acquisition, release, enqueue, dequeue and resume is a step. `first`
 (who waits) and `rounds` are history.
 */
module Join {
  import opened Sequences

  datatype Who = Joiner | Target

  datatype JState = DETACHED | JOINABLE | JOINING

  datatype Pc =
    | Begin
    | AtMutex          // about to acquire joinMtx
    | InMutex          // holds joinMtx, joinWait not tested yet
    | Suspending       // joinWait was empty; switching out with joinMtx held
    | Queued           // on joinWait, joinMtx still held on its behalf
    | Parked           // on joinWait
    | Dequeued         // taken off joinWait, not resumed yet
    | Back             // resumed, about to acquire joinMtx again
    | BackHeld
    | Signalling       // took the other one off joinWait, joinMtx still held
    | Resuming         // joinMtx released, about to resume the other one
    | AtSem            // about to acquire the mutex of afterJoin: V for the joiner, P for the target
    | InSem
    | SemSuspending | SemQueued | SemParked | SemDequeued | SemTaken     // P
    | SemCounted | SemHanding | SemResuming                               // V
    | Done

  datatype State = State(
    jState: JState, mutex: Option<Who>, waiting: seq<Who>,
    semMutex: Option<Who>, counter: nat, semWaiting: seq<Who>,
    j: Pc, t: Pc,
    first: Option<Who>, rounds: nat)

  ghost predicate Init(s: State) {
    s == State(JOINABLE, None, [], None, 0, [], Begin, Begin, None, 0)
  }

  function Other(x: Who): Who { if x.Joiner? then Target else Joiner }

  function PcOf(s: State, x: Who): Pc { if x.Joiner? then s.j else s.t }

  function Goto(s: State, x: Who, pc: Pc): State {
    if x.Joiner? then s.(j := pc) else s.(t := pc)
  }

  predicate CanMove(s: State, x: Who) {
    match PcOf(s, x)
    case AtMutex => s.mutex == None
    case Back => s.mutex == None
    case AtSem => s.semMutex == None
    case Parked => false
    case Dequeued => false
    case SemParked => false
    case SemDequeued => false
    case Done => false
    case _ => true
  }

  /** The next step of one side; `caller` in the source is `x.Joiner?` here. */
  function Move(s: State, x: Who): State
    requires CanMove(s, x)
  {
    match PcOf(s, x)
    case Begin =>
      if x.Joiner? then (if s.jState == JOINABLE then Goto(s.(jState := JOINING), x, AtMutex) else Goto(s, x, Done))
      else (if s.jState != DETACHED then Goto(s, x, AtMutex) else Goto(s, x, Done))
    case AtMutex => Goto(s.(mutex := Some(x)), x, InMutex)
    case InMutex =>
      if s.waiting == [] then Goto(s.(first := Some(x)), x, Suspending)
      else Goto(Goto(s.(waiting := s.waiting[1..]), s.waiting[0], Dequeued), x, Signalling)
    case Suspending => Goto(s.(waiting := s.waiting + [x]), x, Queued)
    case Queued => Goto(s.(mutex := None), x, Parked)
    case Back => Goto(s.(mutex := Some(x)), x, BackHeld)
    case BackHeld => Goto(s.(mutex := None), x, if x.Joiner? then AtSem else Done)
    case Signalling => Goto(s.(mutex := None), x, Resuming)
    case Resuming => Goto(Goto(s, Other(x), Back), x, if x.Joiner? then Done else AtSem)
    case AtSem => Goto(s.(semMutex := Some(x)), x, InSem)
    case InSem =>
      if x.Joiner? then
        if s.semWaiting != []
        then Goto(Goto(s.(semWaiting := s.semWaiting[1..]), s.semWaiting[0], SemDequeued), x, SemHanding)
        else Goto(s.(counter := s.counter + 1), x, SemCounted)
      else
        if s.counter < 1 then Goto(s, x, SemSuspending)
        else Goto(s.(counter := s.counter - 1), x, SemTaken)
    case SemSuspending => Goto(s.(semWaiting := s.semWaiting + [x]), x, SemQueued)
    case SemQueued => Goto(s.(semMutex := None), x, SemParked)
    case SemTaken => Goto(s.(semMutex := None), x, Done)
    case SemCounted => Goto(s.(semMutex := None), x, Done)
    case SemHanding => Goto(s.(semMutex := None), x, SemResuming)
    case SemResuming => Goto(Goto(s, Other(x), Done), x, Done)
  }

  /** The target is recycled as soon as it has terminated; `reset` and `create` touch only `jState`. */
  predicate CanRecycle(s: State) {
    s.t == Done
  }

  function Recycle(s: State): State {
    s.(jState := JOINABLE, j := Begin, t := Begin, first := None, rounds := s.rounds + 1)
  }

  // ------------------------------------------------------------- invariant

  predicate HasMutex(pc: Pc) {
    pc.InMutex? || pc.Suspending? || pc.Queued? || pc.BackHeld? || pc.Signalling?
  }

  predicate HasSem(pc: Pc) {
    pc.InSem? || pc.SemSuspending? || pc.SemQueued? || pc.SemTaken? || pc.SemCounted? || pc.SemHanding?
  }

  predicate Early(pc: Pc) { pc.Begin? || pc.AtMutex? || pc.InMutex? }

  /** The lock is held by the side that believes to hold it, and never by both. */
  predicate Held(lock: Option<Who>, byJoiner: bool, byTarget: bool) {
    && !(byJoiner && byTarget)
    && lock == (if byJoiner then Some(Joiner) else if byTarget then Some(Target) else None)
  }

  ghost predicate LockInv(s: State) {
    && Held(s.mutex, HasMutex(s.j), HasMutex(s.t))
    && Held(s.semMutex, HasSem(s.j), HasSem(s.t))
    && (s.jState == if s.j.Begin? then JOINABLE else JOINING)
  }

  /** Nobody has decided to wait yet. */
  predicate Undecided(s: State) {
    Early(s.j) && Early(s.t) && s.waiting == [] && s.counter == 0 && s.semWaiting == []
  }

  /** The target waits: the joiner signals and is done with the fields when the target comes back. */
  predicate TargetWaits(s: State) {
    && s.counter == 0 && s.semWaiting == []
    && match s.t
       case Suspending => s.waiting == [] && Early(s.j)
       case Queued => s.waiting == [Target] && Early(s.j)
       case Parked => s.waiting == [Target] && Early(s.j)
       case Dequeued => s.waiting == [] && (s.j.Signalling? || s.j.Resuming?)
       case Back => s.waiting == [] && s.j.Done?
       case BackHeld => s.waiting == [] && s.j.Done?
       case Done => s.waiting == [] && s.j.Done?
       case _ => false
  }

  /** The joiner waits: the target signals and then stays until the joiner's V. */
  predicate JoinerWaits(s: State) {
    match s.j
    case Suspending => s.waiting == [] && Early(s.t) && NoV(s)
    case Queued => s.waiting == [Joiner] && Early(s.t) && NoV(s)
    case Parked => s.waiting == [Joiner] && Early(s.t) && NoV(s)
    case Dequeued => s.waiting == [] && (s.t.Signalling? || s.t.Resuming?) && NoV(s)
    case Back => s.waiting == [] && BeforeV(s)
    case BackHeld => s.waiting == [] && BeforeV(s)
    case AtSem => s.waiting == [] && BeforeV(s)
    case InSem => s.waiting == [] && BeforeV(s)
    case SemCounted => s.waiting == [] && s.t.AtSem? && s.counter == 1 && s.semWaiting == []
    case SemHanding => s.waiting == [] && s.t.SemDequeued? && NoV(s)
    case SemResuming => s.waiting == [] && s.t.SemDequeued? && NoV(s)
    case Done => s.waiting == [] && AfterV(s)
    case _ => false
  }

  predicate NoV(s: State) { s.counter == 0 && s.semWaiting == [] }

  predicate BeforeV(s: State) {
    && s.counter == 0
    && (s.t.AtSem? || s.t.InSem? || s.t.SemSuspending? || s.t.SemQueued? || s.t.SemParked?)
    && s.semWaiting == (if s.t.SemQueued? || s.t.SemParked? then [Target] else [])
  }

  predicate AfterV(s: State) {
    && s.semWaiting == []
    && (s.t.AtSem? || s.t.InSem? || s.t.SemTaken? || s.t.Done?)
    && s.counter == (if s.t.AtSem? || s.t.InSem? then 1 else 0)
  }

  predicate Progress(s: State) {
    match s.first
    case None => Undecided(s)
    case Some(Target) => TargetWaits(s)
    case Some(Joiner) => JoinerWaits(s)
  }

  ghost predicate Inv(s: State) {
    LockInv(s) && Progress(s)
  }

  /** A step that moves both sides finds the other one where it expects it. */
  predicate PartnerReady(s: State, x: Who) {
    var other := PcOf(s, Other(x));
    && (PcOf(s, x).InMutex? && s.waiting != [] ==> s.waiting[0] == Other(x) && other.Parked?)
    && (PcOf(s, x).Resuming? ==> other.Dequeued?)
    && (PcOf(s, x).InSem? && s.semWaiting != [] ==> s.semWaiting[0] == Other(x) && other.SemParked?)
    && (PcOf(s, x).SemResuming? ==> other.SemDequeued?)
  }

  lemma PartnerIsReady(s: State, x: Who)
    requires Inv(s)
    ensures PartnerReady(s, x)
  {
  }

  lemma MutexMove(s: State, x: Who)
    requires LockInv(s) && PartnerReady(s, x) && CanMove(s, x)
    ensures var r := Move(s, x); Held(r.mutex, HasMutex(r.j), HasMutex(r.t))
  {
  }

  lemma SemMove(s: State, x: Who)
    requires LockInv(s) && PartnerReady(s, x) && CanMove(s, x)
    ensures var r := Move(s, x); Held(r.semMutex, HasSem(r.j), HasSem(r.t))
    ensures var r := Move(s, x); r.jState == if r.j.Begin? then JOINABLE else JOINING
  {
  }

  lemma UndecidedMove(s: State, x: Who)
    requires LockInv(s) && s.first == None && Undecided(s) && CanMove(s, x)
    ensures Progress(Move(s, x))
  {
  }

  lemma TargetWaitsMove(s: State, x: Who)
    requires LockInv(s) && s.first == Some(Target) && TargetWaits(s) && CanMove(s, x)
    ensures Progress(Move(s, x))
  {
  }

  lemma JoinerWaitsJoinerMove(s: State)
    requires LockInv(s) && s.first == Some(Joiner) && JoinerWaits(s) && CanMove(s, Joiner)
    ensures Progress(Move(s, Joiner))
  {
  }

  lemma JoinerWaitsTargetMove(s: State)
    requires LockInv(s) && s.first == Some(Joiner) && JoinerWaits(s) && CanMove(s, Target)
    ensures Progress(Move(s, Target))
  {
  }

  lemma MoveKeeps(s: State, x: Who)
    requires Inv(s) && CanMove(s, x)
    ensures Inv(Move(s, x))
  {
    PartnerIsReady(s, x);
    MutexMove(s, x);
    SemMove(s, x);
    match s.first
    case None => UndecidedMove(s, x);
    case Some(Target) => TargetWaitsMove(s, x);
    case Some(Joiner) => if x.Joiner? { JoinerWaitsJoinerMove(s); } else { JoinerWaitsTargetMove(s); }
  }

  lemma RecycleKeeps(s: State)
    requires Inv(s) && CanRecycle(s)
    ensures Inv(Recycle(s))
  {
  }

  // ------------------------------------------------------------ whole runs

  datatype Event = Step(x: Who) | Reuse

  ghost predicate Enabled(s: State, e: Event) {
    match e case Step(x) => CanMove(s, x) case Reuse => CanRecycle(s)
  }

  function Apply(s: State, e: Event): State
    requires Enabled(s, e)
  {
    match e case Step(x) => Move(s, x) case Reuse => Recycle(s)
  }

  ghost predicate StepAt(states: seq<State>, events: seq<Event>, i: nat)
    requires i < |events| && i + 1 < |states|
  {
    Enabled(states[i], events[i]) && states[i + 1] == Apply(states[i], events[i])
  }

  ghost predicate Run(states: seq<State>, events: seq<Event>) {
    && |states| == |events| + 1
    && Init(states[0])
    && forall i :: 0 <= i < |events| ==> StepAt(states, events, i)
  }

  lemma {:induction false} RunInv(states: seq<State>, events: seq<Event>, i: nat)
    requires Run(states, events) && i < |states|
    ensures Inv(states[i])
  {
    if i > 0 {
      RunInv(states, events, i - 1);
      assert StepAt(states, events, i - 1);
      match events[i - 1]
      case Step(x) => MoveKeeps(states[i - 1], x);
      case Reuse => RecycleKeeps(states[i - 1]);
    }
  }

  /** The target is recycled only when the joiner has no step left, and then the join fields have their
      initial values again, however often that happens; exactly one side has waited. */
  lemma RecycledFieldsAreFresh(states: seq<State>, events: seq<Event>, i: nat)
    requires Run(states, events) && i < |states| && CanRecycle(states[i])
    ensures var s := states[i];
            && s.j == Done && s.first.Some?
            && s.mutex == None && s.waiting == [] && s.semMutex == None && s.counter == 0 && s.semWaiting == []
  {
    RunInv(states, events, i);
  }

  /** At most one side ever waits on `joinWait` in a round, and a side that finds the other one there
      becomes the signaller. */
  lemma OneSideWaits(states: seq<State>, events: seq<Event>, i: nat, x: Who)
    requires Run(states, events) && i < |states| && CanMove(states[i], x)
    ensures var s := states[i];
            && (forall w :: w in s.waiting ==> s.first == Some(w))
            && |s.waiting| <= 1
            && (s.first.Some? ==> Move(s, x).first == s.first)
            && (s.first.Some? && PcOf(s, x) == InMutex ==>
                  && x != s.first.value && PcOf(Move(s, x), x) == Signalling
                  && PcOf(Move(s, x), s.first.value) == Dequeued)
  {
    RunInv(states, events, i);
  }

  /** Neither side stays blocked: until both are done, one of them can move. */
  lemma NeitherStaysBlocked(states: seq<State>, events: seq<Event>, i: nat)
    requires Run(states, events) && i < |states| && !(states[i].j == Done && states[i].t == Done)
    ensures CanMove(states[i], Joiner) || CanMove(states[i], Target)
  {
    RunInv(states, events, i);
  }

  function Rank(pc: Pc): nat {
    match pc
    case Begin => 21 case AtMutex => 20 case InMutex => 19 case Suspending => 18 case Queued => 17
    case Parked => 16 case Dequeued => 15 case Back => 14 case BackHeld => 13 case Signalling => 12
    case Resuming => 11 case AtSem => 10 case InSem => 9 case SemSuspending => 8 case SemQueued => 7
    case SemParked => 6 case SemDequeued => 5 case SemTaken => 4 case SemCounted => 3 case SemHanding => 2
    case SemResuming => 1 case Done => 0
  }

  lemma JoinerDescends(s: State)
    requires PartnerReady(s, Joiner) && CanMove(s, Joiner)
    ensures Rank(Move(s, Joiner).j) + Rank(Move(s, Joiner).t) < Rank(s.j) + Rank(s.t)
  {
  }

  lemma TargetDescends(s: State)
    requires PartnerReady(s, Target) && CanMove(s, Target)
    ensures Rank(Move(s, Target).j) + Rank(Move(s, Target).t) < Rank(s.j) + Rank(s.t)
  {
  }

  lemma MoveDescends(s: State, x: Who)
    requires PartnerReady(s, x) && CanMove(s, x)
    ensures Rank(Move(s, x).j) + Rank(Move(s, x).t) < Rank(s.j) + Rank(s.t)
  {
    if x.Joiner? {
      JoinerDescends(s);
    } else {
      TargetDescends(s);
    }
  }

  /** Every round ends: from any reachable state, any schedule of moves is at most 42 steps long, and
      with `NeitherStaysBlocked` a schedule that cannot be extended has both sides done. */
  lemma {:induction false} RoundsAreShort(states: seq<State>, events: seq<Event>, i: nat, k: nat)
    requires Run(states, events) && i + k < |states|
    requires forall m :: i <= m < i + k ==> events[m].Step?
    ensures k + Rank(states[i + k].j) + Rank(states[i + k].t) <= Rank(states[i].j) + Rank(states[i].t) <= 42
    decreases k
  {
    if k > 0 {
      RoundsAreShort(states, events, i, k - 1);
      RunInv(states, events, i + k - 1);
      assert StepAt(states, events, i + k - 1);
      PartnerIsReady(states[i + k - 1], events[i + k - 1].x);
      MoveDescends(states[i + k - 1], events[i + k - 1].x);
    }
  }
}
