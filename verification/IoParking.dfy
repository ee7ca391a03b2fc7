/**
 Parking a uThread on one direction of an open descriptor. The slot (`rut` or
 `wut`) is null, READY or the parked uThread, and it is raced on by the one
 uThread that blocks on it, first in `block` and then in the code that runs
 after the context switch, and by the poller in `unblock`. Every read, plain
 write and compare-and-swap of the slot is a step.

 `seen` says that a readiness event has been processed completely since the
 uThread's last I/O attempt; it and the counters are history.
 */
module IoParking {

  datatype Slot = Null | Ready | Parked

  datatype UtPc =
    | Trying           // about to attempt the I/O operation
    | Checking         // block: about to read the slot
    | Consuming        // block read READY: about to write null
    | Switched         // after the context switch: about to read the slot
    | PsConsuming      // read READY there: about to write null
    | PsResuming       // about to resume itself
    | Casing           // read null there: about to swap itself in
    | Waiting          // parked in the slot
    | InBulk           // on the bulk queue of its home kThread
    | Runnable         // on its run queue

  datatype PollPc = Idle | Reading | Swapping(read: Slot) | Delivering

  datatype State = State(slot: Slot, ut: UtPc, poller: PollPc, seen: bool, parks: nat, wakes: nat)

  datatype Action =
    | UtStep             // the blocking uThread
    | Event              // the poller reports readiness: it enters unblock
    | PollStep           // a step of unblock
    | BulkPush           // the poller pushes the bulk queues to the run queues

  ghost predicate Init(s: State) {
    s == State(Null, Trying, Idle, false, 0, 0)
  }

  predicate Enabled(s: State, a: Action) {
    match a
    case UtStep => !s.ut.Waiting? && !s.ut.InBulk?
    case Event => s.poller.Idle?
    case PollStep => !s.poller.Idle?
    case BulkPush => s.poller.Idle? && s.ut.InBulk?
  }

  function Apply(s: State, a: Action): State
    requires Enabled(s, a)
  {
    match a
    case UtStep => UtApply(s)
    case Event => s.(poller := Reading)
    case PollStep => PollApply(s)
    case BulkPush => s.(ut := Runnable)
  }

  function UtApply(s: State): State
    requires Enabled(s, UtStep)
  {
    match s.ut
    case Trying => s.(ut := Checking, seen := false)     // the attempt would have blocked
    case Checking => s.(ut := if s.slot.Ready? then Consuming else Switched)
    case Consuming => s.(slot := Null, ut := Trying)
    case Switched => s.(ut := if s.slot.Ready? then PsConsuming else Casing)
    case PsConsuming => s.(slot := Null, ut := PsResuming)
    case PsResuming => s.(ut := Runnable)
    case Casing => if s.slot.Null? then s.(slot := Parked, ut := Waiting, parks := s.parks + 1) else s.(ut := Switched)
    case Runnable => s.(ut := Trying)
    case Waiting => s
    case InBulk => s
  }

  function PollApply(s: State): State
    requires Enabled(s, PollStep)
  {
    match s.poller
    case Reading => if s.slot.Ready? then s.(poller := Idle, seen := true) else s.(poller := Swapping(s.slot))
    case Swapping(read) =>
      if s.slot != read then s.(poller := Reading)
      else if read.Parked? then s.(slot := Null, poller := Delivering, seen := true, wakes := s.wakes + 1)
      else s.(slot := Ready, poller := Idle, seen := true)
    case Delivering => s.(poller := Idle, ut := InBulk)
    case Idle => s
  }

  // ------------------------------------------------------------- invariant

  /** The uThread is on its way to another I/O attempt, whatever the slot says. */
  predicate WillRetry(s: State) {
    || s.ut.Trying? || s.ut.Consuming? || s.ut.PsConsuming? || s.ut.PsResuming? || s.ut.InBulk? || s.ut.Runnable?
    || s.poller.Delivering?
  }

  predicate Inv(s: State) {
    && (s.slot.Parked? <==> s.ut.Waiting? && !s.poller.Delivering?)
    && (s.poller.Delivering? ==> s.ut.Waiting?)
    && (s.poller.Swapping? ==> !s.poller.read.Ready?)
    && (s.poller == Swapping(Parked) ==> s.slot.Parked?)
    && (s.ut.Consuming? || s.ut.PsConsuming? ==> s.slot.Ready?)
    && (s.seen ==> s.slot.Ready? || WillRetry(s))
    && s.parks == s.wakes + (if s.slot.Parked? then 1 else 0)
  }

  lemma StepKeeps(s: State, a: Action)
    requires Inv(s) && Enabled(s, a)
    ensures Inv(Apply(s, a))
  {
  }

  // ------------------------------------------------------------ whole runs

  ghost predicate StepAt(states: seq<State>, actions: seq<Action>, i: nat)
    requires i < |actions| && i + 1 < |states|
  {
    Enabled(states[i], actions[i]) && states[i + 1] == Apply(states[i], actions[i])
  }

  ghost predicate Run(states: seq<State>, actions: seq<Action>) {
    && |states| == |actions| + 1
    && Init(states[0])
    && forall i :: 0 <= i < |actions| ==> StepAt(states, actions, i)
  }

  lemma {:induction false} RunInv(states: seq<State>, actions: seq<Action>, i: nat)
    requires Run(states, actions) && i < |states|
    ensures Inv(states[i])
  {
    if i > 0 {
      RunInv(states, actions, i - 1);
      assert StepAt(states, actions, i - 1);
      StepKeeps(states[i - 1], actions[i - 1]);
    }
  }

  /** No lost notification: after an event has been processed, the slot is READY or the uThread is on its
      way to retry; it is never left parked. */
  lemma NoLostNotification(states: seq<State>, actions: seq<Action>, i: nat)
    requires Run(states, actions) && i < |states| && states[i].seen
    ensures states[i].slot.Ready? || WillRetry(states[i])
    ensures states[i].ut.Waiting? ==> states[i].poller.Delivering?
  {
    RunInv(states, actions, i);
  }

  /** Each park is ended by exactly one wake, and the poller wakes only a uThread that is parked. */
  lemma OneWakePerPark(states: seq<State>, actions: seq<Action>, i: nat)
    requires Run(states, actions) && i < |states|
    ensures states[i].parks == states[i].wakes + (if states[i].slot.Parked? then 1 else 0)
    ensures states[i].poller.Delivering? ==> states[i].ut.Waiting? && !states[i].slot.Parked?
    ensures states[i].slot.Parked? ==> states[i].ut.Waiting?
  {
    RunInv(states, actions, i);
  }

  /** Plain writes are safe: whenever the uThread clears the slot without a swap, the slot holds READY, so no
      parked uThread and no other notification is overwritten. */
  lemma PlainWritesAreSafe(states: seq<State>, actions: seq<Action>, i: nat)
    requires Run(states, actions) && i < |states|
    requires states[i].ut.Consuming? || states[i].ut.PsConsuming?
    ensures states[i].slot.Ready?
  {
    RunInv(states, actions, i);
  }

  /** How far the uThread is from its next attempt. */
  function Distance(s: State): nat {
    match s.ut
    case Casing => 9 case Checking => 8 case Switched => 7 case PsConsuming => 6 case PsResuming => 5
    case Waiting => 4 case InBulk => 3 case Runnable => 2 case Consuming => 1 case Trying => 0
  }

  /** How far the poller is from leaving `unblock`. */
  function PollerDistance(s: State): nat {
    match s.poller
    case Idle => 0
    case Reading => 2
    case Swapping(read) => if s.slot == read then 1 else 3
    case Delivering => 3
  }

  function Measure(s: State): nat { 4 * Distance(s) + PollerDistance(s) }

  /** A processed event leads to a retry: until the attempt, some enabled step other than a new event brings it
      closer, and no step of the poller takes the uThread further away. */
  lemma RetryComes(states: seq<State>, actions: seq<Action>, i: nat) returns (a: Action)
    requires Run(states, actions) && i < |states| && states[i].seen && !states[i].ut.Trying?
    ensures Enabled(states[i], a) && !a.Event?
    ensures Measure(Apply(states[i], a)) < Measure(states[i]) && Apply(states[i], a).seen
    ensures forall b :: b != UtStep && Enabled(states[i], b) ==>
              Distance(Apply(states[i], b)) <= Distance(states[i]) && Apply(states[i], b).seen
  {
    RunInv(states, actions, i);
    var s := states[i];
    a := if s.poller.Delivering? || (s.ut.InBulk? && !s.poller.Idle?) then PollStep
         else if s.ut.InBulk? then BulkPush else UtStep;
  }
}
