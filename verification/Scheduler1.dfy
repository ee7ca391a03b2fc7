/**
 The shared ready queue of a cluster (scheduler 1): one queue protected by a
 mutex, a LIFO stack of kThreads that sleep on their own condition variables,
 and wake-ups that are chained: a push notifies one kThread, and a kThread that
 leaves work behind notifies the next.

 Each critical section of the mutex is a step; `__popMany` is cut at the wait
 on the condition variable, which returns only after a notify. `pushed` and
 `removed` are history.
 */
module Scheduler1 {
  import opened Sequences
  import opened Containers

  type Ut = Link     // uThreads and kThreads are known by their links
  type Kt = Link

  datatype KtPc = Working | Waiting | Notified

  datatype State = State(
    size: nat, queue: seq<Ut>, ktStack: seq<Kt>, lastPopNum: nat,
    kts: map<Kt, KtPc>, cvFlag: map<Kt, bool>,
    pushed: seq<Ut>, removed: seq<Ut>)

  datatype Action =
    | Push(uts: seq<Ut>)           // both forms of __push
    | TryPopMany(k: Kt)            // nonBlockingSwitch
    | PopMany(k: Kt)               // blockingSwitch, up to the wait or the end
    | WakeUp(k: Kt)                // the wait has returned: the rest of __popMany

  ghost predicate Init(s: State) {
    && s == State(0, [], [], 0, s.kts, s.cvFlag, [], [])
    && s.kts != map[] && s.cvFlag.Keys == s.kts.Keys
    && forall k :: k in s.kts ==> s.kts[k] == Working && !s.cvFlag[k]
  }

  predicate Enabled(s: State, a: Action) {
    match a
    case Push(uts) => uts != []
    case TryPopMany(k) => k in s.kts && s.kts[k].Working?
    case PopMany(k) => k in s.kts && s.kts[k].Working?
    case WakeUp(k) => k in s.kts && s.kts[k].Notified? && k in s.cvFlag
  }

  /** How many uThreads a bulk removal takes: the share of one kThread, but at least one and at least as many
      as the last time, and never more than there are. */
  function PopNum(size: nat, numkt: nat, last: nat): (n: nat)
    requires numkt >= 1
    ensures n <= size && (size >= 1 ==> n >= 1)
  {
    var share := if size / numkt != 0 then size / numkt else 1;
    var atLeast := if share < last then last else share;
    if atLeast > size then size else atLeast
  }

  function RemoveMany(s: State): State
    requires s.kts != map[]
  {
    var n := PopNum(s.size, |s.kts|, s.lastPopNum);
    var moved := if n <= |s.queue| then n else |s.queue|;        // transferFrom takes what there is
    s.(lastPopNum := n, size := s.size - n, queue := s.queue[moved..], removed := s.removed + s.queue[..moved])
  }

  /** Notify the kThread that went to sleep last, if any. */
  function UnBlock(s: State): State {
    if s.ktStack == [] then s
    else
      var k := s.ktStack[|s.ktStack| - 1];
      s.(ktStack := s.ktStack[..|s.ktStack| - 1], cvFlag := s.cvFlag[k := true], kts := s.kts[k := Notified])
  }

  function RemoveAndChain(s: State): State
    requires s.kts != map[]
  {
    if RemoveMany(s).size != 0 then UnBlock(RemoveMany(s)) else RemoveMany(s)
  }

  function DoPush(s: State, uts: seq<Ut>): State {
    s.(queue := s.queue + uts, size := s.size + |uts|, pushed := s.pushed + uts)
  }

  function Sleep(s: State, k: Kt, push: bool, flag: bool): State {
    s.(ktStack := if push then s.ktStack + [k] else s.ktStack, cvFlag := s.cvFlag[k := flag],
       kts := s.kts[k := Waiting])
  }

  function Apply(s: State, a: Action): State
    requires Enabled(s, a)
  {
    match a
    case Push(uts) => UnBlock(DoPush(s, uts))
    case TryPopMany(k) => if s.size == 0 then s else RemoveMany(s)
    case PopMany(k) => if s.size == 0 then Sleep(s, k, true, false) else RemoveAndChain(s)
    case WakeUp(k) =>
      // a kThread that finds the queue empty again re-enters the stack only if the flag says it was popped
      if s.size == 0 then Sleep(s, k, s.cvFlag[k], s.cvFlag[k])
      else
        assert k in s.kts[k := Working];
        RemoveAndChain(s.(kts := s.kts[k := Working]))
  }

  // ------------------------------------------------------------- invariant

  ghost predicate QueueInv(s: State) {
    s.size == |s.queue| && s.pushed == s.removed + s.queue && s.kts != map[]
  }

  /** The stack holds exactly the sleeping kThreads, and a notified one has its flag set. */
  ghost predicate StackInv(s: State) {
    && Distinct(s.ktStack)
    && (forall k :: k in s.ktStack ==> k in s.kts && s.kts[k].Waiting?)
    && (forall k :: k in s.kts && s.kts[k].Waiting? ==> k in s.ktStack)
    && s.cvFlag.Keys == s.kts.Keys
    && (forall k :: k in s.kts && s.kts[k].Notified? ==> s.cvFlag[k])
  }

  ghost predicate SomeNotified(s: State) {
    exists k :: k in s.kts && s.kts[k].Notified?
  }

  /** Work in the queue while somebody sleeps implies a kThread that is already on its way. */
  ghost predicate WakeInv(s: State) {
    s.queue != [] && s.ktStack != [] ==> SomeNotified(s)
  }

  ghost predicate Inv(s: State) {
    QueueInv(s) && StackInv(s) && WakeInv(s)
  }

  lemma RemoveManyKeeps(s: State)
    requires QueueInv(s) && s.size >= 1
    ensures QueueInv(RemoveMany(s)) && RemoveMany(s).size < s.size
    ensures var n := PopNum(s.size, |s.kts|, s.lastPopNum);
            1 <= n <= s.size && RemoveMany(s).removed == s.removed + s.queue[..n] && RemoveMany(s).queue == s.queue[n..]
  {
    var n := PopNum(s.size, |s.kts|, s.lastPopNum);
    assert s.removed + s.queue == s.removed + s.queue[..n] + s.queue[n..];
  }

  /** After `__unBlock` a non-empty stack implies a notified kThread, because one has just been popped. */
  lemma UnBlockKeeps(s: State)
    requires QueueInv(s) && StackInv(s)
    ensures Inv(UnBlock(s))
  {
    if s.ktStack != [] {
      var k := s.ktStack[|s.ktStack| - 1];
      assert k in s.ktStack;
      assert UnBlock(s).kts[k].Notified?;
    }
  }

  lemma RemoveAndChainKeeps(s: State)
    requires QueueInv(s) && StackInv(s) && s.size >= 1
    ensures Inv(RemoveAndChain(s))
  {
    RemoveManyKeeps(s);
    UnBlockKeeps(RemoveMany(s));
  }

  lemma SleepKeeps(s: State, k: Kt, flag: bool)
    requires QueueInv(s) && StackInv(s) && s.size == 0 && k in s.kts && !s.kts[k].Waiting?
    ensures Inv(Sleep(s, k, true, flag))
  {
  }

  lemma StepKeeps(s: State, a: Action)
    requires Inv(s) && Enabled(s, a)
    ensures Inv(Apply(s, a))
  {
    match a
    case Push(uts) =>
      assert s.removed + s.queue + uts == s.removed + (s.queue + uts);
      UnBlockKeeps(DoPush(s, uts));
    case TryPopMany(k) => if s.size != 0 { RemoveManyKeeps(s); }
    case PopMany(k) => if s.size == 0 { SleepKeeps(s, k, false); } else { RemoveAndChainKeeps(s); }
    case WakeUp(k) =>
      if s.size == 0 { SleepKeeps(s, k, true); } else { RemoveAndChainKeeps(s.(kts := s.kts[k := Working])); }
  }

  // ------------------------------------------------------------ whole runs

  ghost predicate StepAt(states: seq<State>, actions: seq<Action>, i: nat)
    requires i < |actions| && i + 1 < |states|
  {
    Enabled(states[i], actions[i]) && states[i + 1] == Apply(states[i], actions[i])
  }

  ghost predicate Run(states: seq<State>, actions: seq<Action>) {
    && |states| == |actions| + 1
    && Init(states[0])
    && forall i :: 0 <= i < |actions| ==> StepAt(states, actions, i)
  }

  lemma {:induction false} RunInv(states: seq<State>, actions: seq<Action>, i: nat)
    requires Run(states, actions) && i < |states|
    ensures Inv(states[i])
  {
    if i > 0 {
      RunInv(states, actions, i - 1);
      assert StepAt(states, actions, i - 1);
      StepKeeps(states[i - 1], actions[i - 1]);
    }
  }

  /** Between critical sections `size` is the length of the queue, and the uThreads removed so far are, in order,
      the ones pushed first. */
  lemma SizeIsLength(states: seq<State>, actions: seq<Action>, i: nat)
    requires Run(states, actions) && i < |states|
    ensures states[i].size == |states[i].queue|
    ensures states[i].removed <= states[i].pushed && states[i].pushed[|states[i].removed|..] == states[i].queue
  {
    RunInv(states, actions, i);
  }

  /** A section that removes anything removes between one and `size` uThreads from the front. */
  lemma RemovalsAreBounded(states: seq<State>, actions: seq<Action>, i: nat)
    requires Run(states, actions) && i < |actions| && !actions[i].Push? && states[i].size != 0
    ensures var n := states[i].size - states[i + 1].size;
            1 <= n <= states[i].size == |states[i].queue| && states[i + 1].queue == states[i].queue[n..]
  {
    RunInv(states, actions, i);
    assert StepAt(states, actions, i);
    var s := states[i];
    match actions[i]
    case WakeUp(k) => RemoveManyKeeps(s.(kts := s.kts[k := Working]));
    case _ => RemoveManyKeeps(s);
  }

  /** No stranded work: if uThreads are queued while a kThread sleeps, another one has been notified, its step is
      enabled, and it takes work. If it leaves some, it passes the notification on. */
  lemma NoStrandedWork(states: seq<State>, actions: seq<Action>, i: nat) returns (k: Kt)
    requires Run(states, actions) && i < |states| && states[i].queue != [] && states[i].ktStack != []
    ensures var s := states[i];
            && k in s.kts && s.kts[k].Notified? && Enabled(s, WakeUp(k))
            && Apply(s, WakeUp(k)).size < s.size
            && (Apply(s, WakeUp(k)).size > 0 ==> SomeNotified(Apply(s, WakeUp(k))))
  {
    RunInv(states, actions, i);
    var s := states[i];
    k :| k in s.kts && s.kts[k].Notified?;
    var s1 := s.(kts := s.kts[k := Working]);
    RemoveManyKeeps(s1);
    var last := s.ktStack[|s.ktStack| - 1];
    assert RemoveMany(s1).size > 0 ==> Apply(s, WakeUp(k)).kts[last].Notified?;
  }

  /** The kThreads are never all asleep over queued work. */
  lemma NotAllAsleep(states: seq<State>, actions: seq<Action>, i: nat)
    requires Run(states, actions) && i < |states| && states[i].queue != []
    ensures exists k :: k in states[i].kts && !states[i].kts[k].Waiting?
  {
    RunInv(states, actions, i);
    var s := states[i];
    var k :| k in s.kts;
    if s.kts[k].Waiting? {
      assert k in s.ktStack;
    }
  }
}
