/**
 The code of scheduler 1's ready queue, over the intrusive containers: every
 critical section is proved to be the step of `Scheduler1` that it stands for.
 */
module ReadyQueue {
  import opened Sequences
  import opened Containers
  import opened Scheduler1

  /** The two containers. Their links belong to uThreads and to kThreads (`ids`). */
  class Shared {
    const queue: IntrusiveQueue
    const ktStack: IntrusiveList
    const ids: set<Kt>

    constructor (ids: set<Kt>)
      requires forall k :: k in ids ==> k.prev == null && k.next == null
      ensures Valid() && this.ids == ids && queue.elems == [] && ktStack.elems == []
      ensures fresh(queue) && fresh(ktStack) && fresh(ktStack.anchor)
    {
      queue := new IntrusiveQueue();
      ktStack := new IntrusiveList();
      this.ids := ids;
    }

    /** Both containers are in order and share no link. */
    ghost predicate Valid()
      reads queue, queue.elems, ktStack, ktStack.anchor, ktStack.elems, ids
    {
      queue.Valid() && Foreign(queue.elems) && StackValid()
    }

    /** The stack holds kThreads, and a kThread that is not on it is not linked. */
    ghost predicate StackValid()
      reads ktStack, ktStack.anchor, ktStack.elems, ids
    {
      && ktStack.Valid() && ktStack.anchor !in ids
      && (forall k :: k in ktStack.elems ==> k in ids)
      && (forall k :: k in ids && k !in ktStack.elems ==> k.prev == null && k.next == null)
    }

    /** Links of uThreads. */
    ghost predicate Foreign(uts: seq<Ut>) {
      ktStack.anchor !in uts && forall u :: u in uts ==> u !in ids
    }

    /** The stack is not affected by changes to links of uThreads. */
    twostate lemma StackKept()
      requires old(StackValid()) && ktStack.elems == old(ktStack.elems)
      requires unchanged(ktStack.anchor) && forall k :: k in ids ==> unchanged(k)
      ensures StackValid()
    {
      StillValid(ktStack);
    }

    /** A local queue of a kThread, or a list of uThreads to be pushed. */
    ghost predicate Apart(q: IntrusiveQueue)
      reads queue, q, q.elems
    {
      q != queue && q.Valid() && Foreign(q.elems) && forall u :: u in queue.elems ==> u !in q.elems
    }

    method MoveFront(nqueue: IntrusiveQueue, count: nat) returns (n: nat)
      requires Valid() && Apart(nqueue) && 1 <= count <= |queue.elems|
      modifies queue, queue.elems[count - 1], nqueue, nqueue.tail
      ensures Valid() && Apart(nqueue) && n == count && ktStack.elems == old(ktStack.elems)
      ensures nqueue.elems == old(nqueue.elems) + old(queue.elems)[..n] && queue.elems == old(queue.elems)[n..]
    {
      assert nqueue.tail != null ==> nqueue.tail in nqueue.elems;
      assert forall k :: k in ids ==> k !in queue.elems && k !in nqueue.elems;
      ghost var was := queue.elems;
      DistinctHalves(was, count);
      n := nqueue.TransferFrom(queue, count);
      StackKept();
      assert forall u :: u in queue.elems || u in was[..n] ==> u in was;
    }

    method AppendAll(utList: IntrusiveQueue)
      requires Valid() && Apart(utList) && utList.elems != []
      modifies queue, utList, queue.tail, utList.tail
      ensures Valid() && ktStack.elems == old(ktStack.elems)
      ensures queue.elems == old(queue.elems) + old(utList.elems) && utList.Valid() && utList.elems == []
    {
      assert queue.tail != null ==> queue.tail in queue.elems;
      assert utList.tail in utList.elems;
      queue.TransferAllFrom(utList);
      StackKept();
    }

    method Append(ut: Ut)
      requires Valid() && ut !in ids && ut != ktStack.anchor && ut !in queue.elems && ut.next == null
      modifies queue, queue.tail
      ensures Valid() && ktStack.elems == old(ktStack.elems) && queue.elems == old(queue.elems) + [ut]
    {
      assert queue.tail != null ==> queue.tail in queue.elems;
      queue.Push(ut);
      StackKept();
    }

    method PopSleeper() returns (kt: Kt)
      requires Valid() && ktStack.elems != []
      modifies ktStack, ktStack.anchor, ktStack.elems
      ensures Valid() && queue.elems == old(queue.elems) && kt in ids && kt !in ktStack.elems
      ensures kt == old(ktStack.elems)[|old(ktStack.elems)| - 1]
      ensures ktStack.elems == old(ktStack.elems)[..|old(ktStack.elems)| - 1]
    {
      ghost var stack := ktStack.elems;
      ListDoubly(ktStack.anchor, stack);
      assert forall u :: u in queue.elems ==> u !in stack;
      kt := ktStack.PopBack();
      assert stack == ktStack.elems + [kt];
      assert kt in stack;
    }

    method PushSleeper(kt: Kt)
      requires Valid() && kt in ids && kt !in ktStack.elems
      modifies ktStack, ktStack.anchor, ktStack.elems, kt
      ensures Valid() && queue.elems == old(queue.elems) && ktStack.elems == old(ktStack.elems) + [kt]
    {
      ghost var stack := ktStack.elems;
      assert forall u :: u in queue.elems ==> u !in stack && u != kt;
      ktStack.PushBack(kt);
    }
  }

  class Ready {
    const shared: Shared
    var size: nat
    var lastPopNum: nat
    var kts: map<Kt, KtPc>
    var cvFlag: map<Kt, bool>
    ghost var pushed: seq<Ut>
    ghost var removed: seq<Ut>

    constructor (ids: set<Kt>)
      requires ids != {} && forall k :: k in ids ==> k.prev == null && k.next == null
      ensures Valid() && Init(View()) && kts.Keys == ids
    {
      shared := new Shared(ids);
      size, lastPopNum, pushed, removed := 0, 0, [], [];
      kts, cvFlag := map k | k in ids :: Working, map k | k in ids :: false;
      new;
      var k :| k in ids;
      assert k in kts;
    }

    ghost function View(): State
      reads this, shared.queue, shared.ktStack
    {
      State(size, shared.queue.elems, shared.ktStack.elems, lastPopNum, kts, cvFlag, pushed, removed)
    }

    ghost predicate Valid()
      reads this, shared.queue, shared.queue.elems
      reads shared.ktStack, shared.ktStack.anchor, shared.ktStack.elems, shared.ids
    {
      shared.Valid() && kts.Keys == shared.ids
    }

    /** `__removeMany`: the share of one kThread goes from the front of the queue to the back of its local queue. */
    method TakeShare(nqueue: IntrusiveQueue) returns (popnum: nat)
      requires Valid() && kts != map[] && 1 <= size == |shared.queue.elems| && shared.Apart(nqueue)
      modifies this`size, this`lastPopNum, this`removed
      modifies shared.queue, shared.queue.elems, nqueue, nqueue.tail
      ensures Valid() && shared.Apart(nqueue) && View() == Scheduler1.RemoveMany(old(View()))
      ensures 1 <= popnum <= old(size) && size == old(size) - popnum
      ensures nqueue.elems == old(nqueue.elems) + old(shared.queue.elems)[..popnum]
    {
      popnum := Share();
      SetCounts(size, popnum, removed + shared.queue.elems[..popnum], nqueue);
      popnum := Transfer(nqueue, popnum);
      SetCounts(size - popnum, lastPopNum, removed, nqueue);
    }

    method SetCounts(size': nat, lastPopNum': nat, ghost removed': seq<Ut>, ghost nqueue: IntrusiveQueue)
      requires Valid() && shared.Apart(nqueue)
      modifies this`size, this`lastPopNum, this`removed
      ensures Valid() && shared.Apart(nqueue)
      ensures View() == old(View()).(size := size', lastPopNum := lastPopNum', removed := removed')
    {
      size, lastPopNum, removed := size', lastPopNum', removed';
    }

    method Transfer(nqueue: IntrusiveQueue, count: nat) returns (n: nat)
      requires Valid() && shared.Apart(nqueue) && 1 <= count <= |shared.queue.elems|
      modifies shared.queue, shared.queue.elems[count - 1], nqueue, nqueue.tail
      ensures Valid() && shared.Apart(nqueue) && n == count
      ensures View() == old(View()).(queue := old(shared.queue.elems)[n..])
      ensures nqueue.elems == old(nqueue.elems) + old(shared.queue.elems)[..n]
    {
      n := shared.MoveFront(nqueue, count);
    }

    method Share() returns (popnum: nat)
      requires kts != map[]
      ensures popnum == PopNum(size, |kts|, lastPopNum)
    {
      var numkt := |kts|;
      popnum := if size / numkt != 0 then size / numkt else 1;
      popnum := if popnum < lastPopNum then lastPopNum else popnum;
      popnum := if popnum > size then size else popnum;
    }

    /** Notifies the kThread that went to sleep last, if any: it is off the stack and unlinked, its flag is set, and
        nothing else has changed. If only the wake-up property was missing, it holds afterwards. */
    method UnBlock(ghost other: IntrusiveQueue)
      requires Valid()
      modifies this`kts, this`cvFlag, shared.ktStack, shared.ktStack.anchor, shared.ktStack.elems
      ensures Valid() && View() == Scheduler1.UnBlock(old(View())) && other.elems == old(other.elems)
      ensures var stack := old(shared.ktStack.elems);
              if stack == [] then shared.ktStack.elems == [] && kts == old(kts) && cvFlag == old(cvFlag)
              else
                var kt := stack[|stack| - 1];
                && shared.ktStack.elems + [kt] == stack && kt.prev == null && kt.next == null
                && kts == old(kts)[kt := Notified] && cvFlag == old(cvFlag)[kt := true]
      ensures QueueInv(old(View())) && StackInv(old(View())) ==> Inv(View())
    {
      ghost var was := View();
      if QueueInv(was) && StackInv(was) { UnBlockKeeps(was); }
      NotifyLast(other);
    }

    method NotifyLast(ghost other: IntrusiveQueue)
      requires Valid()
      modifies this`kts, this`cvFlag, shared.ktStack, shared.ktStack.anchor, shared.ktStack.elems
      ensures Valid() && View() == Scheduler1.UnBlock(old(View())) && other.elems == old(other.elems)
      ensures var stack := old(shared.ktStack.elems);
              stack != [] ==> stack[|stack| - 1].prev == null && stack[|stack| - 1].next == null
    {
      ghost var was := View();
      var empty := shared.ktStack.Empty();
      if !empty {
        var kt := shared.PopSleeper();
        assert other.elems == old(other.elems);
        assert kts == was.kts && cvFlag == was.cvFlag;
        cvFlag := cvFlag[kt := true];
        kts := kts[kt := Notified];
        assert kts.Keys == shared.ids;
      }
      assert View() == Scheduler1.UnBlock(was);
    }

    method SetPushed(size': nat, ghost pushed': seq<Ut>, ghost other: IntrusiveQueue)
      requires Valid()
      modifies this`size, this`pushed
      ensures Valid() && View() == old(View()).(size := size', pushed := pushed') && other.elems == old(other.elems)
    {
      size, pushed := size', pushed';
    }

    method SetKt(k: Kt, pc: KtPc, flag: bool, ghost other: IntrusiveQueue)
      requires Valid() && k in kts
      modifies this`kts, this`cvFlag
      ensures old(shared.Apart(other)) ==> shared.Apart(other)
      ensures Valid() && View() == old(View()).(kts := old(kts)[k := pc], cvFlag := old(cvFlag)[k := flag])
    {
      cvFlag := cvFlag[k := flag];
      kts := kts[k := pc];
      assert kts.Keys == shared.ids;
    }

    /** `__push` of one uThread. */
    method Push(ut: Ut)
      requires Valid() && Inv(View())
      requires ut !in shared.ids && ut != shared.ktStack.anchor && ut !in shared.queue.elems && ut.next == null
      modifies this, shared.queue, shared.queue.tail
      modifies shared.ktStack, shared.ktStack.anchor, shared.ktStack.elems
      ensures Valid() && View() == Apply(old(View()), Scheduler1.Push([ut])) && Inv(View())
    {
      ghost var was := View();
      StepKeeps(was, Scheduler1.Push([ut]));
      AppendOne(ut);
      SetPushed(size + 1, pushed + [ut], shared.queue);
      assert View() == DoPush(was, [ut]);
      UnBlock(shared.queue);
    }

    method AppendOne(ut: Ut)
      requires Valid()
      requires ut !in shared.ids && ut != shared.ktStack.anchor && ut !in shared.queue.elems && ut.next == null
      modifies shared.queue, shared.queue.tail
      ensures Valid() && View() == old(View()).(queue := old(shared.queue.elems) + [ut])
    {
      shared.Append(ut);
    }

    /** `__push` of a list of uThreads; the caller says how many there are. */
    method PushAll(utList: IntrusiveQueue, count: nat)
      requires Valid() && Inv(View()) && shared.Apart(utList) && utList.elems != [] && count == |utList.elems|
      modifies this, shared.queue, shared.queue.tail, utList, utList.tail
      modifies shared.ktStack, shared.ktStack.anchor, shared.ktStack.elems
      ensures Valid() && View() == Apply(old(View()), Scheduler1.Push(old(utList.elems))) && Inv(View())
      ensures utList.elems == []
    {
      ghost var was, uts := View(), utList.elems;
      StepKeeps(was, Scheduler1.Push(uts));
      AppendList(utList, count);
      UnBlock(utList);
    }

    method AppendList(utList: IntrusiveQueue, count: nat)
      requires Valid() && shared.Apart(utList) && utList.elems != [] && count == |utList.elems|
      modifies this`size, this`pushed, shared.queue, shared.queue.tail, utList, utList.tail
      ensures Valid() && View() == DoPush(old(View()), old(utList.elems)) && utList.elems == []
    {
      ghost var uts := utList.elems;
      TransferAll(utList);
      SetPushed(size + count, pushed + uts, utList);
    }

    method TransferAll(utList: IntrusiveQueue)
      requires Valid() && shared.Apart(utList) && utList.elems != []
      modifies shared.queue, shared.queue.tail, utList, utList.tail
      ensures Valid() && View() == old(View()).(queue := old(shared.queue.elems) + old(utList.elems))
      ensures utList.elems == []
    {
      shared.AppendAll(utList);
    }

    /** `__tryPopMany`. */
    method TryPop(k: Kt, nqueue: IntrusiveQueue) returns (popnum: nat)
      requires Valid() && Inv(View()) && Enabled(View(), TryPopMany(k)) && shared.Apart(nqueue)
      modifies this`size, this`lastPopNum, this`removed
      modifies shared.queue, shared.queue.elems, nqueue, nqueue.tail
      ensures Valid() && View() == Apply(old(View()), TryPopMany(k)) && Inv(View())
      ensures popnum <= |old(shared.queue.elems)| && (popnum == 0 <==> old(size) == 0)
      ensures nqueue.elems == old(nqueue.elems) + old(shared.queue.elems)[..popnum]
    {
      StepKeeps(View(), TryPopMany(k));
      if size == 0 {
        assert nqueue.elems + shared.queue.elems[..0] == nqueue.elems;
        return 0;
      }
      popnum := TakeShare(nqueue);
    }

    method Sleep(k: Kt, push: bool, flag: bool)
      requires Valid() && k in kts && k !in shared.ktStack.elems
      modifies this`kts, this`cvFlag, shared.ktStack, shared.ktStack.anchor, shared.ktStack.elems, k
      ensures Valid() && View() == Scheduler1.Sleep(old(View()), k, push, flag)
    {
      if push {
        PushSleeper(k);
      }
      SetKt(k, Waiting, flag, shared.queue);
    }

    method PushSleeper(k: Kt)
      requires Valid() && k in kts && k !in shared.ktStack.elems
      modifies shared.ktStack, shared.ktStack.anchor, shared.ktStack.elems, k
      ensures Valid() && View() == old(View()).(ktStack := old(shared.ktStack.elems) + [k])
    {
      shared.PushSleeper(k);
    }

    /** The end of `__popMany`: take a share, and notify the next kThread if there is more. */
    method TakeAndChain(nqueue: IntrusiveQueue) returns (popnum: nat)
      requires Valid() && kts != map[] && 1 <= size == |shared.queue.elems| && shared.Apart(nqueue)
      modifies this`size, this`lastPopNum, this`removed, this`kts, this`cvFlag
      modifies shared.queue, shared.queue.elems, nqueue, nqueue.tail
      modifies shared.ktStack, shared.ktStack.anchor, shared.ktStack.elems
      ensures Valid() && View() == RemoveAndChain(old(View()))
      ensures 1 <= popnum <= |old(shared.queue.elems)|
      ensures nqueue.elems == old(nqueue.elems) + old(shared.queue.elems)[..popnum]
    {
      popnum := TakeShare(nqueue);
      if size != 0 {
        UnBlock(nqueue);
      }
    }

    /** `__popMany` up to the wait (`asleep`) or to its end. */
    method PopOrSleep(k: Kt, nqueue: IntrusiveQueue) returns (asleep: bool, popnum: nat)
      requires Valid() && Inv(View()) && Enabled(View(), PopMany(k)) && shared.Apart(nqueue)
      modifies this`size, this`lastPopNum, this`removed, this`kts, this`cvFlag
      modifies shared.queue, shared.queue.elems, nqueue, nqueue.tail
      modifies shared.ktStack, shared.ktStack.anchor, shared.ktStack.elems, k
      ensures Valid() && View() == Apply(old(View()), PopMany(k)) && Inv(View())
      ensures asleep <==> old(size) == 0
      ensures !asleep ==> 1 <= popnum <= |old(shared.queue.elems)|
                          && nqueue.elems == old(nqueue.elems) + old(shared.queue.elems)[..popnum]
    {
      StepKeeps(View(), PopMany(k));
      asleep, popnum := size == 0, 0;
      if asleep {
        Sleep(k, true, false);
      } else {
        popnum := TakeAndChain(nqueue);
      }
    }

    /** The rest of `__popMany` after the wait has returned. */
    method AfterWait(k: Kt, nqueue: IntrusiveQueue) returns (asleep: bool, popnum: nat)
      requires Valid() && Inv(View()) && Enabled(View(), WakeUp(k)) && shared.Apart(nqueue)
      modifies this`size, this`lastPopNum, this`removed, this`kts, this`cvFlag
      modifies shared.queue, shared.queue.elems, nqueue, nqueue.tail
      modifies shared.ktStack, shared.ktStack.anchor, shared.ktStack.elems, k
      ensures Valid() && View() == Apply(old(View()), WakeUp(k)) && Inv(View())
      ensures asleep <==> old(size) == 0
      ensures !asleep ==> 1 <= popnum <= |old(shared.queue.elems)|
                          && nqueue.elems == old(nqueue.elems) + old(shared.queue.elems)[..popnum]
    {
      StepKeeps(View(), WakeUp(k));
      asleep, popnum := size == 0, 0;
      if asleep {
        Sleep(k, cvFlag[k], cvFlag[k]);
      } else {
        assert cvFlag[k := cvFlag[k]] == cvFlag;
        SetKt(k, Working, cvFlag[k], nqueue);
        popnum := TakeAndChain(nqueue);
      }
    }
  }
}
