/**
 One round of the poller: every event takes the uThread parked on it out of its
 slot and collects it on the bulk queue of its home kThread, and at the end each
 bulk queue is pushed to the run queue of its kThread in one go. (The races on a
 slot are the subject of `IoParking`; here the poller runs alone.)
 */
module IoPoll {
  import opened Sequences

  type Ut = nat
  type Kt = nat

  datatype Port = Port(pd: nat, isRead: bool)

  datatype Slot = Null | Ready | Parked(ut: Ut)

  /** An epoll event, reduced to the two flags that `PollReady` looks at. */
  datatype Event = Event(pd: nat, read: bool, write: bool)

  function Ports(e: Event): seq<Port> {
    (if e.read then [Port(e.pd, true)] else []) + (if e.write then [Port(e.pd, false)] else [])
  }

  function AllPorts(events: seq<Event>): seq<Port> {
    if events == [] then [] else AllPorts(events[..|events| - 1]) + Ports(events[|events| - 1])
  }

  // ------------------------------------------------- what a round is to do

  /** A slot after readiness has been reported on it. */
  function Reported(slot: Slot): Slot {
    if slot.Parked? then Null else Ready
  }

  function SlotsAfter(slots: map<Port, Slot>, ports: seq<Port>): map<Port, Slot> {
    if ports == [] then slots
    else
      var before := SlotsAfter(slots, ports[..|ports| - 1]);
      var last := ports[|ports| - 1];
      if last in before then before[last := Reported(before[last])] else before
  }

  /** The uThreads unblocked by reports on these ports, in order. */
  function Unblocked(slots: map<Port, Slot>, ports: seq<Port>): seq<Ut> {
    if ports == [] then []
    else
      var before := SlotsAfter(slots, ports[..|ports| - 1]);
      var last := ports[|ports| - 1];
      Unblocked(slots, ports[..|ports| - 1]) + if last in before && before[last].Parked? then [before[last].ut] else []
  }

  /** The uThreads whose home is `k`, in order. */
  function Homed(uts: seq<Ut>, home: map<Ut, Kt>, k: Kt): seq<Ut> {
    if uts == [] then []
    else
      var last := uts[|uts| - 1];
      Homed(uts[..|uts| - 1], home, k) + if last in home && home[last] == k then [last] else []
  }

  /** A uThread is parked on at most one slot. */
  ghost predicate ParkedOnce(slots: map<Port, Slot>) {
    forall p, q :: p in slots && q in slots && p != q && slots[p].Parked? && slots[q].Parked? ==>
                     slots[p].ut != slots[q].ut
  }

  /** Exactly the uThreads parked on reported ports are unblocked, each once, and the other slots keep theirs. */
  ghost predicate Settled(slots: map<Port, Slot>, ports: seq<Port>) {
    var after, uts := SlotsAfter(slots, ports), Unblocked(slots, ports);
    && after.Keys == slots.Keys
    && Distinct(uts)
    && (forall p :: p in slots && p !in ports ==> after[p] == slots[p])
    && (forall p :: p in slots && after[p].Parked? ==> after[p] == slots[p] && after[p].ut !in uts)
    && (forall u :: u in uts ==> exists p :: p in slots && p in ports && slots[p] == Parked(u))
    && (forall p :: p in slots && p in ports && slots[p].Parked? ==> slots[p].ut in uts)
  }

  lemma {:induction false} UnblockedOnce(slots: map<Port, Slot>, ports: seq<Port>)
    requires ParkedOnce(slots)
    ensures Settled(slots, ports)
  {
    if ports != [] {
      var front, last := ports[..|ports| - 1], ports[|ports| - 1];
      UnblockedOnce(slots, front);
      UnblockedStep(slots, front, last);
      assert front + [last] == ports;
    }
  }

  lemma UnblockedStep(slots: map<Port, Slot>, front: seq<Port>, last: Port)
    requires ParkedOnce(slots) && Settled(slots, front)
    ensures Settled(slots, front + [last])
  {
    var ports := front + [last];
    assert ports[..|ports| - 1] == front;
    assert forall p :: p in ports <==> p in front || p == last;
    var before := SlotsAfter(slots, front);
    if last in before && before[last].Parked? {
      assert last in slots && last in ports && slots[last] == Parked(before[last].ut);
    }
  }

  /** Sharing out by home loses, duplicates and misplaces nothing, and keeps the order. */
  lemma {:induction false} HomedExactly(uts: seq<Ut>, home: map<Ut, Kt>, k: Kt)
    ensures forall u :: u in Homed(uts, home, k) <==> u in uts && u in home && home[u] == k
    ensures Distinct(uts) ==> Distinct(Homed(uts, home, k))
  {
    if uts != [] {
      var front, last := uts[..|uts| - 1], uts[|uts| - 1];
      HomedExactly(front, home, k);
      assert forall u :: u in uts <==> u in front || u == last;
    }
  }

  /** A round of `poll` hands every uThread parked on a reported port to the run queue of its home kThread, once, and
      no other uThread to any run queue. */
  lemma DeliveredOnce(slots: map<Port, Slot>, ports: seq<Port>, home: map<Ut, Kt>, k: Kt)
    requires ParkedOnce(slots)
    ensures var handed := Homed(Unblocked(slots, ports), home, k);
            && Distinct(handed)
            && forall u :: u in handed <==>
                             u in home && home[u] == k && exists p :: p in slots && p in ports && slots[p] == Parked(u)
  {
    var uts := Unblocked(slots, ports);
    UnblockedOnce(slots, ports);
    HomedExactly(uts, home, k);
    forall u | exists p :: p in slots && p in ports && slots[p] == Parked(u)
      ensures u in uts
    {
      var p :| p in slots && p in ports && slots[p] == Parked(u);
      assert slots[p].ut in uts;
    }
  }

  // --------------------------------------------------------------- the code

  class IoHandler {
    const clusters: seq<seq<Kt>>             // the kThreads of every cluster
    const home: map<Ut, Kt>
    var slots: map<Port, Slot>
    var bulkQueue: map<Kt, seq<Ut>>
    var bulkCounter: map<Kt, nat>
    var runQueue: map<Kt, seq<Ut>>
    var unblockCounter: nat

    /** All queues are empty; what is parked has its home in one of the clusters. */
    constructor (clusters: seq<seq<Kt>>, home: map<Ut, Kt>, slots: map<Port, Slot>)
      requires ParkedOnce(slots)
      requires forall p :: p in slots && slots[p].Parked? ==>
                             slots[p].ut in home && home[slots[p].ut] in Flatten(clusters)
      ensures this.clusters == clusters && this.home == home && this.slots == slots
      ensures Valid() && BulkEmpty() && forall k :: k in runQueue ==> runQueue[k] == []
    {
      this.clusters, this.home, this.slots := clusters, home, slots;
      bulkQueue := map k | k in Flatten(clusters) :: [];
      bulkCounter := map k | k in Flatten(clusters) :: 0;
      runQueue := map k | k in Flatten(clusters) :: [];
      unblockCounter := 0;
    }

    /** Every kThread is in one cluster, the bulk counters are right, and parked uThreads have a home. */
    ghost predicate Valid()
      reads this
    {
      && (forall k :: k in runQueue <==> k in Flatten(clusters))
      && bulkQueue.Keys == runQueue.Keys && bulkCounter.Keys == runQueue.Keys
      && (forall k :: k in runQueue ==> bulkCounter[k] == |bulkQueue[k]|)
      && ParkedOnce(slots)
      && (forall p :: p in slots && slots[p].Parked? ==> slots[p].ut in home && home[slots[p].ut] in runQueue)
    }

    ghost predicate BulkEmpty()
      reads this
    {
      forall k :: k in bulkQueue ==> bulkQueue[k] == []
    }

    method PrepareBulkPush(ut: Ut)
      requires ut in home && home[ut] in bulkQueue && home[ut] in bulkCounter
      modifies this`bulkQueue, this`bulkCounter
      ensures bulkQueue == old(bulkQueue)[home[ut] := old(bulkQueue)[home[ut]] + [ut]]
      ensures bulkCounter == old(bulkCounter)[home[ut] := old(bulkCounter)[home[ut]] + 1]
    {
      bulkQueue := bulkQueue[home[ut] := bulkQueue[home[ut]] + [ut]];
      bulkCounter := bulkCounter[home[ut] := bulkCounter[home[ut]] + 1];
    }

    method Unblock(port: Port) returns (woken: bool)
      requires Valid() && port in slots
      modifies this`slots, this`bulkQueue, this`bulkCounter
      ensures Valid()
      ensures slots == old(slots)[port := Reported(old(slots)[port])]
      ensures woken == old(slots)[port].Parked?
      ensures forall k :: k in runQueue ==>
                bulkQueue[k] == old(bulkQueue)[k] + if woken then Homed([old(slots)[port].ut], home, k) else []
    {
      var read := slots[port];
      if read.Ready? {
        return false;
      }
      slots := slots[port := if read.Null? then Ready else Null];
      if read.Parked? {
        PrepareBulkPush(read.ut);
        return true;
      }
      return false;
    }

    /** The reports on `ports` have been worked off, starting from `before` and empty bulk queues. */
    ghost predicate Collected(before: map<Port, Slot>, ports: seq<Port>)
      reads this
    {
      && slots == SlotsAfter(before, ports)
      && unblockCounter == |Unblocked(before, ports)|
      && forall k :: k in bulkQueue ==> bulkQueue[k] == Homed(Unblocked(before, ports), home, k)
    }

    /** One flag of `PollReady`. */
    method ReportPort(port: Port, ghost before: map<Port, Slot>, ghost ports: seq<Port>)
      requires Valid() && port in slots && Collected(before, ports)
      modifies this`slots, this`bulkQueue, this`bulkCounter, this`unblockCounter
      ensures Valid() && Collected(before, ports + [port]) && slots.Keys == old(slots.Keys)
    {
      ghost var slot := slots[port];
      var woken := Unblock(port);
      if woken {
        unblockCounter := unblockCounter + 1;
      }
      PortDone(before, ports, port);
      forall k | k in bulkQueue
        ensures bulkQueue[k] == Homed(Unblocked(before, ports + [port]), home, k)
      {
        HomedSnoc(Unblocked(before, ports), home, k, if woken then [slot.ut] else []);
      }
    }

    method PollReady(e: Event, ghost before: map<Port, Slot>, ghost ports: seq<Port>)
      requires Valid() && Collected(before, ports)
      requires forall p :: p in Ports(e) ==> p in slots
      modifies this`slots, this`bulkQueue, this`bulkCounter, this`unblockCounter
      ensures Valid() && Collected(before, ports + Ports(e)) && slots.Keys == old(slots.Keys)
    {
      ghost var done := ports;
      if e.read {
        assert Port(e.pd, true) in Ports(e);
        ReportPort(Port(e.pd, true), before, done);
        done := done + [Port(e.pd, true)];
      }
      if e.write {
        assert Port(e.pd, false) in Ports(e);
        ReportPort(Port(e.pd, false), before, done);
        done := done + [Port(e.pd, false)];
      }
      assert done == ports + Ports(e);
    }

    /** The bulk queue of one kThread goes to the end of its run queue. */
    method BulkPushOne(x: Kt)
      requires Valid() && x in runQueue
      modifies this`bulkQueue, this`bulkCounter, this`runQueue
      ensures Valid()
      ensures runQueue == old(runQueue)[x := old(runQueue)[x] + old(bulkQueue)[x]]
      ensures bulkQueue == old(bulkQueue)[x := []]
    {
      if bulkCounter[x] > 0 {
        runQueue := runQueue[x := runQueue[x] + bulkQueue[x]];
        bulkQueue := bulkQueue[x := []];
      } else {
        assert runQueue[x] + bulkQueue[x] == runQueue[x];
      }
      bulkCounter := bulkCounter[x := 0];
    }

    /** Push the bulk queue of every kThread of one cluster. */
    method BulkPushCluster(cluster: seq<Kt>)
      requires Valid() && forall k :: k in cluster ==> k in runQueue
      modifies this`bulkQueue, this`bulkCounter, this`runQueue
      ensures Valid() && runQueue.Keys == old(runQueue.Keys)
      ensures forall k :: k in runQueue ==> runQueue[k] + bulkQueue[k] == old(runQueue)[k] + old(bulkQueue)[k]
      ensures forall k :: k in runQueue && (k in cluster || old(bulkQueue)[k] == []) ==> bulkQueue[k] == []
    {
      for i := 0 to |cluster|
        invariant Valid() && runQueue.Keys == old(runQueue.Keys)
        invariant forall k :: k in runQueue ==> runQueue[k] + bulkQueue[k] == old(runQueue)[k] + old(bulkQueue)[k]
        invariant forall k :: k in runQueue && (k in cluster[..i] || old(bulkQueue)[k] == []) ==> bulkQueue[k] == []
      {
        ghost var q := runQueue[cluster[i]] + bulkQueue[cluster[i]];
        BulkPushOne(cluster[i]);
        assert q + [] == q;
      }
    }

    method BulkPush()
      requires Valid()
      modifies this`bulkQueue, this`bulkCounter, this`runQueue
      ensures Valid() && BulkEmpty()
      ensures forall k :: k in runQueue ==> runQueue[k] == old(runQueue)[k] + old(bulkQueue)[k]
    {
      for c := 0 to |clusters|
        invariant Valid() && runQueue.Keys == old(runQueue.Keys)
        invariant forall k :: k in runQueue ==> runQueue[k] + bulkQueue[k] == old(runQueue)[k] + old(bulkQueue)[k]
        invariant forall k :: k in Flatten(clusters[..c]) && k in runQueue ==> bulkQueue[k] == []
      {
        InCluster(clusters, c);
        BulkPushCluster(clusters[c]);
      }
      assert clusters[..|clusters|] == clusters;
    }

    /** One round: afterwards all bulk queues are empty, every uThread parked on a reported port has been appended
        once to its home run queue, in the order of the reports, and the number of them is returned. */
    method Poll(polled: Option<seq<Event>>) returns (n: int)
      requires Valid() && BulkEmpty()
      requires polled.Some? ==> forall p :: p in AllPorts(polled.value) ==> p in slots
      modifies this
      ensures Valid() && BulkEmpty()
      ensures forall k :: k in bulkCounter ==> bulkCounter[k] == 0
      ensures polled.None? ==> n == -1 && slots == old(slots) && runQueue == old(runQueue)
      ensures polled.Some? ==>
                var ports := AllPorts(polled.value); var uts := Unblocked(old(slots), ports);
                && n == |uts|
                && slots == SlotsAfter(old(slots), ports)
                && runQueue.Keys == old(runQueue.Keys)
                && forall k :: k in runQueue ==> runQueue[k] == old(runQueue)[k] + Homed(uts, home, k)
    {
      unblockCounter := 0;
      if polled.None? {
        return -1;
      }
      Collect(polled.value);
      ghost var uts := Unblocked(old(slots), AllPorts(polled.value));
      if unblockCounter > 0 {
        BulkPush();
      } else {
        assert uts == [];
        assert forall k :: k in runQueue ==> runQueue[k] + [] == runQueue[k];
      }
      return unblockCounter;
    }

    method Collect(events: seq<Event>)
      requires Valid() && BulkEmpty() && unblockCounter == 0
      requires forall p :: p in AllPorts(events) ==> p in slots
      modifies this`slots, this`bulkQueue, this`bulkCounter, this`unblockCounter
      ensures Valid() && Collected(old(slots), AllPorts(events))
    {
      ghost var before := slots;
      for i := 0 to |events|
        invariant Valid() && Collected(before, AllPorts(events[..i]))
        invariant slots.Keys == before.Keys
      {
        PortsOfPrefix(events, i);
        PollReady(events[i], before, AllPorts(events[..i]));
      }
      assert events[..|events|] == events;
    }
  }

  lemma PortDone(before: map<Port, Slot>, ports: seq<Port>, port: Port)
    requires port in SlotsAfter(before, ports)
    ensures var s := SlotsAfter(before, ports);
            && SlotsAfter(before, ports + [port]) == s[port := Reported(s[port])]
            && Unblocked(before, ports + [port]) ==
               Unblocked(before, ports) + if s[port].Parked? then [s[port].ut] else []
  {
    assert (ports + [port])[..|ports|] == ports;
  }

  lemma HomedSnoc(uts: seq<Ut>, home: map<Ut, Kt>, k: Kt, more: seq<Ut>)
    requires |more| <= 1
    ensures Homed(uts + more, home, k) == Homed(uts, home, k) + Homed(more, home, k)
  {
    if more == [] {
      assert uts + more == uts;
    } else {
      assert (uts + more)[..|uts|] == uts && more[..0] == [];
    }
  }

  lemma {:induction false} InFlatten(ss: seq<seq<Kt>>, i: nat, k: Kt)
    requires i < |ss| && k in ss[i]
    ensures k in Flatten(ss)
    decreases |ss|
  {
    if i < |ss| - 1 {
      InFlatten(ss[..|ss| - 1], i, k);
    }
  }

  lemma InCluster(clusters: seq<seq<Kt>>, c: nat)
    requires c < |clusters|
    ensures forall k :: k in clusters[c] ==> k in Flatten(clusters)
    ensures Flatten(clusters[..c + 1]) == Flatten(clusters[..c]) + clusters[c]
  {
    assert clusters[..c + 1][..c] == clusters[..c];
    forall k | k in clusters[c]
      ensures k in Flatten(clusters)
    {
      InFlatten(clusters, c, k);
    }
  }

  lemma {:induction false} PortsOfPrefix(events: seq<Event>, i: nat)
    requires i < |events|
    ensures forall p :: p in Ports(events[i]) ==> p in AllPorts(events)
    ensures AllPorts(events[..i + 1]) == AllPorts(events[..i]) + Ports(events[i])
    decreases |events|
  {
    assert events[..i + 1][..i] == events[..i];
    if i < |events| - 1 {
      PortsOfPrefix(events[..|events| - 1], i);
    }
  }
}
