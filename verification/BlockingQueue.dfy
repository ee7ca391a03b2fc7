/**
 What the users of a `BlockingQueue` have in common: a list of uThreads that have
 left their stacks, and hand-offs, in which a uThread that was taken off the list
 is resumed a few steps later by the one that took it off. The users differ in
 the program counters `P` of their participants.
 */
module BlockingQueue {
  import opened Sequences

  type Tid = nat

  /** The list holds exactly the waiting uThreads, each once. */
  ghost predicate Lists<P(!new)>(queue: seq<Tid>, pc: map<Tid, P>, waits: P -> bool) {
    Distinct(queue) && forall t :: t in queue <==> t in pc && waits(pc[t])
  }

  /** What entered the list has left it in the same order or is still on it. */
  predicate Fifo(queue: seq<Tid>, entered: seq<Tid>, left: seq<Tid>) {
    entered == left + queue
  }

  /** Who was taken off the list has exactly one participant, of the `others`, that will resume it. */
  ghost predicate HandsOff<P(!new), Q(!new)>(
    pc: map<Tid, P>, others: map<Tid, Q>, resumer: map<Tid, Tid>, taken: P -> bool, resumes: Q -> Option<Tid>)
  {
    && (forall n :: n in pc && taken(pc[n]) ==> n in resumer)
    && (forall n :: n in resumer ==>
          n in pc && taken(pc[n]) && resumer[n] in others && resumes(others[resumer[n]]) == Some(n))
    && (forall t :: t in others && resumes(others[t]).Some? ==>
          resumes(others[t]).value in resumer && resumer[resumes(others[t]).value] == t)
  }

  lemma FifoEnter(queue: seq<Tid>, entered: seq<Tid>, left: seq<Tid>, t: Tid)
    requires Fifo(queue, entered, left)
    ensures Fifo(queue + [t], entered + [t], left)
  {
    Assoc(left, queue, [t]);
  }

  lemma FifoLeave(queue: seq<Tid>, entered: seq<Tid>, left: seq<Tid>)
    requires Fifo(queue, entered, left) && queue != []
    ensures Fifo(queue[1..], entered, left + [queue[0]])
  {
    assert left + queue == left + [queue[0]] + queue[1..];
  }

  /** The order of leaving is the order of entering. */
  lemma FifoOrder(queue: seq<Tid>, entered: seq<Tid>, left: seq<Tid>)
    requires Fifo(queue, entered, left)
    ensures left <= entered && entered[|left|..] == queue
  {
  }

  // -------------------------------------- steps of a participant, one map for all

  lemma ListsSet<P(!new)>(queue: seq<Tid>, pc: map<Tid, P>, waits: P -> bool, t: Tid, p: P)
    requires Lists(queue, pc, waits) && (waits(p) <==> t in pc && waits(pc[t]))
    ensures Lists(queue, pc[t := p], waits)
  {
  }

  lemma ListsDrop<P(!new)>(queue: seq<Tid>, pc: map<Tid, P>, waits: P -> bool, t: Tid)
    requires Lists(queue, pc, waits) && !(t in pc && waits(pc[t]))
    ensures Lists(queue, pc - {t}, waits)
  {
  }

  ghost predicate HandsOn<P(!new)>(
    pc: map<Tid, P>, resumer: map<Tid, Tid>, taken: P -> bool, resumes: P -> Option<Tid>)
  {
    HandsOff(pc, pc, resumer, taken, resumes)
  }

  /** A participant that is not handed over goes on and keeps what it is to resume. */
  lemma HandsOnSet<P(!new)>(
    pc: map<Tid, P>, resumer: map<Tid, Tid>, taken: P -> bool, resumes: P -> Option<Tid>, t: Tid, p: P)
    requires HandsOn(pc, resumer, taken, resumes) && !taken(p) && (t in pc ==> !taken(pc[t]))
    requires resumes(p) == if t in pc then resumes(pc[t]) else None
    ensures HandsOn(pc[t := p], resumer, taken, resumes)
  {
  }

  lemma HandsOnDrop<P(!new)>(
    pc: map<Tid, P>, resumer: map<Tid, Tid>, taken: P -> bool, resumes: P -> Option<Tid>, t: Tid)
    requires HandsOn(pc, resumer, taken, resumes) && (t in pc ==> !taken(pc[t]) && resumes(pc[t]) == None)
    ensures HandsOn(pc - {t}, resumer, taken, resumes)
  {
  }

  /** `t` takes `n` off the list. */
  lemma HandsOnTake<P(!new)>(
    pc: map<Tid, P>, resumer: map<Tid, Tid>, taken: P -> bool, resumes: P -> Option<Tid>,
    t: Tid, pt: P, n: Tid, pn: P)
    requires HandsOn(pc, resumer, taken, resumes) && t != n && t in pc && n in pc
    requires !taken(pc[t]) && resumes(pc[t]) == None && !taken(pc[n]) && resumes(pc[n]) == None
    requires taken(pn) && resumes(pn) == None && !taken(pt) && resumes(pt) == Some(n)
    ensures HandsOn(pc[n := pn][t := pt], resumer[n := t], taken, resumes)
  {
  }

  /** `t` resumes `n`, and both are done with the hand-off. */
  lemma HandsOnGive<P(!new)>(
    pc: map<Tid, P>, resumer: map<Tid, Tid>, taken: P -> bool, resumes: P -> Option<Tid>, t: Tid, n: Tid)
    requires HandsOn(pc, resumer, taken, resumes) && t in pc && !taken(pc[t]) && resumes(pc[t]) == Some(n)
    requires n in pc ==> resumes(pc[n]) == None
    ensures t != n && n in pc && taken(pc[n]) && HandsOn(pc - {n} - {t}, resumer - {n}, taken, resumes)
  {
  }
}
