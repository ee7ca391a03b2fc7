/**
 Tasks leave the list of the pool in order and need not start in order: a worker
 starts its task after it has left the critical section in which it took it. Here
 is a run of `ThreadPool` in which the second of two queued tasks starts first.
 */
module ThreadPoolOrder {
  import opened ThreadPool

  /** Two steps lead from one state to another. */
  predicate Leads(s: State, a: Action, b: Action, r: State) {
    Enabled(s, a) && Enabled(Apply(s, a), b) && r == Apply(Apply(s, a), b)
  }

  function Fresh(): State {
    State(0, [], [], map[], map[], map[], map[], [], [], [])
  }

  function Creators(loading: bool): State {
    State(0, [], [], if loading then map[0 := Loading(0), 1 := Loading(1)] else map[0 := Creating(0), 1 := Creating(1)],
          map[], map[], map[0 := WithSubmitter(0), 1 := WithSubmitter(1)], [], [], [])
  }

  /** Two workers with the same program counter, their first tasks started. */
  function Workers(idle: int, pc: Worker): State {
    State(idle, [], [], map[], map[1 := pc, 2 := pc], map[], map[0 := Started, 1 := Started], [], [], [0, 1])
  }

  function Spawns(): State {
    State(0, [], [], map[], map[1 := Spawned(0), 2 := Spawned(1)], map[],
          map[0 := WithWorker(1), 1 := WithWorker(2)], [], [], [])
  }

  function Callers(loading: bool): State {
    State(2, [], [], if loading then map[0 := Loading(2), 1 := Loading(3)] else map[0 := Entering(2), 1 := Entering(3)],
          map[1 := Looking, 2 := Looking], map[],
          map[0 := Started, 1 := Started, 2 := WithSubmitter(0), 3 := WithSubmitter(1)], [], [], [0, 1])
  }

  function Queue(): State {
    State(2, [2, 3], [], map[], map[1 := Looking, 2 := Looking], map[],
          map[0 := Started, 1 := Started, 2 := OnList, 3 := OnList], [2, 3], [], [0, 1])
  }

  function Takers(): State {
    State(0, [], [], map[], map[1 := Starting(2), 2 := Starting(3)], map[],
          map[0 := Started, 1 := Started, 2 := WithWorker(1), 3 := WithWorker(2)], [2, 3], [2, 3], [0, 1])
  }

  function Overtaken(): State {
    State(0, [], [], map[], map[1 := Running, 2 := Running], map[],
          map[0 := Started, 1 := Started, 2 := Started, 3 := Started], [2, 3], [2, 3], [0, 1, 3, 2])
  }

  lemma Submits()
    ensures Leads(Fresh(), Submit(0), Submit(1), Creators(true))
    ensures Leads(Creators(true), ReadIdle(0), ReadIdle(1), Creators(false))
  {
  }

  lemma Creates()
    ensures Leads(Creators(false), Create(0, 1), Create(1, 2), Spawns())
    ensures Leads(Spawns(), Start(1), Start(2), Workers(0, Running))
  {
  }

  lemma Idles()
    ensures Leads(Workers(0, Running), BecomeIdle(1), BecomeIdle(2), Workers(2, Looking))
    ensures Leads(Workers(2, Looking), Submit(0), Submit(1), Callers(true))
  {
  }

  lemma Queues()
    ensures Leads(Callers(true), ReadIdle(0), ReadIdle(1), Callers(false))
    ensures Leads(Callers(false), QueueAndSignal(0), QueueAndSignal(1), Queue())
  {
  }

  lemma Takes()
    ensures Leads(Queue(), Look(1), Look(2), Takers())
    ensures Leads(Takers(), Start(2), Start(1), Overtaken())
  {
  }

  lemma Extend(states: seq<State>, actions: seq<Action>, a: Action, b: Action, r: State)
      returns (states': seq<State>, actions': seq<Action>)
    requires Run(states, actions) && Leads(states[|states| - 1], a, b, r)
    ensures Run(states', actions') && states'[|states'| - 1] == r
  {
    var s := states[|states| - 1];
    states', actions' := states + [Apply(s, a), r], actions + [a, b];
    forall i | 0 <= i < |actions'|
      ensures StepAt(states', actions', i)
    {
      assert i < |actions| ==> StepAt(states, actions, i);
    }
  }

  /** Two tasks are queued in this order, taken in this order, and started in the other. */
  lemma SecondStartsFirst() returns (states: seq<State>, actions: seq<Action>)
    ensures Run(states, actions)
    ensures var s := states[|states| - 1];
            s.enqueued == [2, 3] && s.dequeued == [2, 3] && s.started == [0, 1, 3, 2]
  {
    states, actions := [Fresh()], [];
    Submits();
    states, actions := Extend(states, actions, Submit(0), Submit(1), Creators(true));
    states, actions := Extend(states, actions, ReadIdle(0), ReadIdle(1), Creators(false));
    Creates();
    states, actions := Extend(states, actions, Create(0, 1), Create(1, 2), Spawns());
    states, actions := Extend(states, actions, Start(1), Start(2), Workers(0, Running));
    Idles();
    states, actions := Extend(states, actions, BecomeIdle(1), BecomeIdle(2), Workers(2, Looking));
    states, actions := Extend(states, actions, Submit(0), Submit(1), Callers(true));
    Queues();
    states, actions := Extend(states, actions, ReadIdle(0), ReadIdle(1), Callers(false));
    states, actions := Extend(states, actions, QueueAndSignal(0), QueueAndSignal(1), Queue());
    Takes();
    states, actions := Extend(states, actions, Look(1), Look(2), Takers());
    states, actions := Extend(states, actions, Start(2), Start(1), Overtaken());
  }
}
