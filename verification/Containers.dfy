/**
 The intrusive containers: the links are in the elements, and every operation
 changes a handful of links in place. Each container carries, for the proof, the
 sequence of its elements, and the operations are proved against that sequence.
 */
module Containers {
  import opened Sequences

  class Link {
    var prev: Link?
    var next: Link?
  }

  /** Consecutive elements are linked forward. */
  ghost predicate Chained(s: seq<Link>)
    reads s
  {
    forall i :: 0 <= i < |s| - 1 ==> s[i].next == s[i + 1]
  }

  /** A list that a caller may pass as a pair of its first and last element. */
  ghost predicate Segment(s: seq<Link>)
    reads s
  {
    s != [] && Distinct(s) && Chained(s) && s[|s| - 1].next == null
  }

  /** How many elements a call asking for `count` takes from `n`: at least one, even when asked for none. */
  function Taken(count: nat, n: nat): nat {
    if count <= 1 then 1 else if count < n then count else n
  }

  /** The loop of `pop(count)`, the same in the stack and the queue: finds the last element to be taken. */
  method Walk(head: Link, count: nat, ghost elems: seq<Link>) returns (last: Link, n: nat)
    requires Segment(elems) && head == elems[0]
    ensures last == elems[Taken(count, |elems|) - 1]
    ensures n == if count == 0 then 0 else Taken(count, |elems|)
  {
    last, n := head, count;
    var i := 1;
    while i < n
      invariant 1 <= i <= |elems| + 1 && n <= count && (n < count ==> i == |elems| + 1)
      invariant if n == count then i <= Taken(count, |elems|) && last == elems[i - 1]
                else n == |elems| && last == elems[n - 1]
    {
      assert i < |elems| ==> elems[i - 1].next == elems[i];
      if last.next == null {
        n := i;
      } else {
        last := last.next;
      }
      i := i + 1;
    }
  }

  /** `elems` are listed from the top. */
  class IntrusiveStack {
    var head: Link?
    ghost var elems: seq<Link>

    constructor ()
      ensures Valid() && elems == []
    {
      head, elems := null, [];
    }

    ghost predicate Valid()
      reads this, elems
    {
      if elems == [] then head == null else Segment(elems) && head == elems[0]
    }

    method PushSegment(first: Link, last: Link, ghost seg: seq<Link>)
      requires Valid() && Segment(seg) && first == seg[0] && last == seg[|seg| - 1]
      requires forall e :: e in seg ==> e !in elems
      modifies this, last
      ensures Valid() && elems == seg + old(elems)
    {
      DistinctConcat(seg, elems);
      assert last in seg;
      last.next := head;
      head := first;
      elems := seg + elems;
    }

    method Pop() returns (last: Link)
      requires Valid() && elems != []
      modifies this, head
      ensures Valid() && last == old(elems)[0] && elems == old(elems)[1..] && last.next == null
    {
      last := head;
      head := last.next;
      last.next := null;
      elems := elems[1..];
    }

    /** As in the queue, a call with `count` zero takes one element and reports zero. */
    method PopMany(count: nat) returns (last: Link, n: nat)
      requires Valid() && elems != []
      modifies this, elems[Taken(count, |elems|) - 1]
      ensures var t := Taken(count, |old(elems)|);
              && Valid() && elems == old(elems)[t..]
              && last == old(elems)[t - 1] && Segment(old(elems)[..t])
              && n == if count == 0 then 0 else t
    {
      last, n := Walk(head, count, elems);
      ghost var t := Taken(count, |elems|);
      assert t < |elems| ==> last.next == elems[t];
      head := last.next;
      last.next := null;
      elems := elems[t..];
    }

    /** Moves up to `count` elements from the top of another stack to the top of this one, in the same order. */
    method TransferFrom(es: IntrusiveStack, count: nat) returns (n: nat)
      requires es != this && Valid() && es.Valid() && es.elems != []
      requires forall e :: e in es.elems ==> e !in elems
      modifies this, es, es.elems[Taken(count, |es.elems|) - 1]
      ensures var t := Taken(count, |old(es.elems)|);
              && Valid() && elems == old(es.elems)[..t] + old(elems)
              && es.Valid() && es.elems == old(es.elems)[t..]
              && n == if count == 0 then 0 else t
    {
      var first := es.head;
      var last;
      ghost var seg := es.elems[..Taken(count, |es.elems|)];
      assert es.elems[|seg| - 1] in es.elems;
      last, n := es.PopMany(count);
      PushSegment(first, last, seg);
    }
  }

  class IntrusiveQueue {
    var head: Link?
    var tail: Link?
    ghost var elems: seq<Link>

    constructor ()
      ensures Valid() && elems == []
    {
      head, tail, elems := null, null, [];
    }

    ghost predicate Valid()
      reads this, elems
    {
      if elems == [] then head == null && tail == null
      else Segment(elems) && head == elems[0] && tail == elems[|elems| - 1]
    }

    /** `first` to `last` are linked already and appended as they are. */
    method PushSegment(first: Link, last: Link, ghost seg: seq<Link>)
      requires Valid() && Segment(seg) && first == seg[0] && last == seg[|seg| - 1]
      requires forall e :: e in seg ==> e !in elems
      modifies this, tail
      ensures Valid() && elems == old(elems) + seg
    {
      DistinctConcat(elems, seg);
      if head == null {
        head := first;
      } else {
        assert tail in elems && last in seg;
        tail.next := first;
      }
      tail := last;
      elems := elems + seg;
    }

    method Push(elem: Link)
      requires Valid() && elem !in elems && elem.next == null
      modifies this, tail
      ensures Valid() && elems == old(elems) + [elem]
    {
      PushSegment(elem, elem, [elem]);
    }

    method Pop() returns (last: Link)
      requires Valid() && elems != []
      modifies this, head
      ensures Valid() && elems == old(elems)[1..] && last == old(elems)[0] && last.next == null
    {
      last := head;
      head := last.next;
      if tail == last {
        tail := null;
      }
      last.next := null;
      elems := elems[1..];
    }

    /** Takes the first `count` elements as one list, or all when there are fewer, and reports how many. A call with
        `count` zero takes one element and reports zero. */
    method PopMany(count: nat) returns (last: Link, n: nat)
      requires Valid() && elems != []
      modifies this, elems[Taken(count, |elems|) - 1]
      ensures var t := Taken(count, |old(elems)|);
              && Valid() && elems == old(elems)[t..]
              && last == old(elems)[t - 1] && Segment(old(elems)[..t])
              && n == if count == 0 then 0 else t
    {
      last, n := Walk(head, count, elems);
      CutAfter(last, Taken(count, |elems|));
    }

    method CutAfter(last: Link, ghost t: nat)
      requires Valid() && 1 <= t <= |elems| && last == elems[t - 1]
      modifies this, last
      ensures Valid() && elems == old(elems)[t..] && Segment(old(elems)[..t])
    {
      assert t < |elems| ==> last.next == elems[t];
      head := last.next;
      if tail == last {
        tail := null;
      }
      last.next := null;
      elems := elems[t..];
    }

    /** Moves up to `count` elements from the front of another queue to the back of this one. */
    method TransferFrom(eq: IntrusiveQueue, count: nat) returns (n: nat)
      requires eq != this && Valid() && eq.Valid() && eq.elems != []
      requires forall e :: e in eq.elems ==> e !in elems
      modifies this, eq, tail, eq.elems[Taken(count, |eq.elems|) - 1]
      ensures var t := Taken(count, |old(eq.elems)|);
              && Valid() && elems == old(elems) + old(eq.elems)[..t]
              && eq.Valid() && eq.elems == old(eq.elems)[t..]
              && n == if count == 0 then 0 else t
    {
      var first := eq.head;
      var last;
      ghost var seg := eq.elems[..Taken(count, |eq.elems|)];
      assert eq.elems[|seg| - 1] in eq.elems;
      last, n := eq.PopMany(count);
      assert tail != null ==> tail in elems;
      assert forall e :: e in eq.elems || e in seg ==> e in old(eq.elems);
      PushSegment(first, last, seg);
    }

    method RemoveAll() returns (last: Link)
      requires Valid() && elems != []
      modifies this, tail
      ensures Valid() && elems == [] && last == old(elems)[|old(elems)| - 1] && Segment(old(elems))
    {
      last := tail;
      last.next := null;
      head, tail, elems := null, null, [];
    }

    method TransferAllFrom(eq: IntrusiveQueue)
      requires eq != this && Valid() && eq.Valid() && eq.elems != []
      requires forall e :: e in eq.elems ==> e !in elems
      modifies this, eq, tail, eq.tail
      ensures Valid() && elems == old(elems) + old(eq.elems) && eq.Valid() && eq.elems == []
    {
      var first, last := eq.head, eq.tail;
      ghost var seg := eq.elems;
      last.next := null;
      eq.head, eq.tail, eq.elems := null, null, [];
      PushSegment(first, last, seg);
    }
  }

  /** `onQueue` looks at the `next` link, so it misses exactly one queued element: the last. */
  lemma OnQueueMissesTheTail(q: IntrusiveQueue, e: Link)
    requires q.Valid() && e in q.elems
    ensures e.next != null <==> e != q.tail
  {
    var i :| 0 <= i < |q.elems| && q.elems[i] == e;
    if i < |q.elems| - 1 {
      assert e.next == q.elems[i + 1];
    }
  }

  /** Consecutive elements are linked both ways. */
  ghost predicate Doubly(s: seq<Link>)
    reads s
  {
    forall i :: 0 < i < |s| ==> s[i - 1].next == s[i] && s[i].prev == s[i - 1]
  }

  lemma DoublyConcat(s: seq<Link>, t: seq<Link>)
    requires s != [] && t != []
    ensures Doubly(s + t) <==> Doubly(s) && Doubly(t) && s[|s| - 1].next == t[0] && t[0].prev == s[|s| - 1]
  {
    var r := s + t;
    if Doubly(r) {
      assert r[|s| - 1] == s[|s| - 1] && r[|s|] == t[0];
      forall i | 0 < i < |s|
        ensures s[i - 1].next == s[i] && s[i].prev == s[i - 1]
      {
        assert r[i - 1] == s[i - 1] && r[i] == s[i];
      }
      forall i | 0 < i < |t|
        ensures t[i - 1].next == t[i] && t[i].prev == t[i - 1]
      {
        assert r[|s| + i - 1] == t[i - 1] && r[|s| + i] == t[i];
      }
    }
  }

  /** In a ring only the two ends are the same link. */
  lemma RingApart(anchor: Link, elems: seq<Link>)
    requires Distinct([anchor] + elems)
    ensures var ring := [anchor] + elems + [anchor];
            forall i, j :: 0 <= i < j < |ring| && (0 < i || j < |ring| - 1) ==> ring[i] != ring[j]
  {
    var ring := [anchor] + elems + [anchor];
    forall i, j | 0 <= i < j < |ring| && (0 < i || j < |ring| - 1)
      ensures ring[i] != ring[j]
    {
      assert ring[i] == ([anchor] + elems)[i];
      if j < |ring| - 1 {
        assert ring[j] == ([anchor] + elems)[j];
      } else {
        assert ring[j] == ([anchor] + elems)[0];
      }
    }
  }

  /** A doubly linked list that a caller may pass as a pair of its first and last element. */
  ghost predicate Piece(s: seq<Link>)
    reads s
  {
    s != [] && Distinct(s) && Doubly(s) && s[0].prev == null && s[|s| - 1].next == null
  }

  class IntrusiveList {
    const anchor: Link
    ghost var elems: seq<Link>

    constructor ()
      ensures Valid() && elems == [] && fresh(anchor)
    {
      var a := new Link;
      anchor, elems := a, [];
      new;
      a.next, a.prev := a, a;
    }

    /** The elements between the two ends of the anchor. */
    ghost function Ring(): seq<Link>
      reads this
    {
      [anchor] + elems + [anchor]
    }

    ghost predicate Valid()
      reads this, anchor, elems
    {
      Distinct([anchor] + elems) && Doubly(Ring())
    }

    /** Places `first` to `last`, which are linked already, behind `prev`, the `i`-th link of the ring. */
    method InsertAfter(prev: Link, first: Link, last: Link, ghost i: nat, ghost seg: seq<Link>)
      requires Valid() && i <= |elems| && prev == Ring()[i]
      requires Piece(seg) && first == seg[0] && last == seg[|seg| - 1]
      requires forall e :: e in seg ==> e !in [anchor] + elems
      modifies this, prev, Ring()[i + 1], first, last
      ensures Valid() && elems == old(elems)[..i] + seg + old(elems)[i..]
    {
      ghost var front, back := Ring()[..i + 1], Ring()[i + 1..];
      RingCut(anchor, elems, i);
      Splice(prev, first, last, front, seg, back);
      RingInsert(anchor, elems, seg, i);
      elems := elems[..i] + seg + elems[i..];
    }

    method PushBack(elem: Link)
      requires Valid() && elem !in [anchor] + elems && elem.prev == null && elem.next == null
      modifies this, anchor, elems, elem
      ensures Valid() && elems == old(elems) + [elem]
    {
      SpliceBack(elem, elem, [elem]);
    }

    /** The last element, or the anchor when there is none. */
    method Back() returns (last: Link)
      requires Valid()
      ensures last == anchor.prev == Ring()[|elems|]
    {
      assert Ring()[|elems| + 1].prev == Ring()[|elems|];
      last := anchor.prev;
    }

    /** The loop of `remove(first, count)`: finds the last element to be taken, not going past the anchor. */
    method Walk(first: Link, count: nat, ghost i: nat) returns (last: Link, n: nat)
      requires Valid() && i < |elems| && first == elems[i]
      ensures last == elems[i + Taken(count, |elems| - i) - 1]
      ensures n == if count == 0 then 0 else Taken(count, |elems| - i)
    {
      last, n := first, count;
      ghost var m := |elems| - i;
      var k := 1;
      while k < n
        invariant 1 <= k <= m + 1 && n <= count && (n < count ==> k == m + 1)
        invariant if n == count then k <= Taken(count, m) && last == elems[i + k - 1]
                  else n == m && last == elems[i + n - 1]
      {
        assert last == Ring()[i + k] && last.next == Ring()[i + k + 1];
        assert k < m ==> Ring()[i + k + 1] == elems[i + k] == ([anchor] + elems)[i + k + 1]
                         && elems[i + k] != ([anchor] + elems)[0];
        if last.next == anchor {
          n := k;
        } else {
          last := last.next;
        }
        k := k + 1;
      }
    }

    /** Takes `count` elements from `first` on as one list, or all that follow when there are fewer. As in the queue, a
        call with `count` zero takes one element and reports zero. */
    method RemoveMany(first: Link, count: nat, ghost i: nat) returns (last: Link, n: nat)
      requires Valid() && i < |elems| && first == elems[i]
      modifies this, Ring()[i], first, elems[i + Taken(count, |elems| - i) - 1]
      modifies Ring()[i + Taken(count, |elems| - i) + 1]
      ensures var t := Taken(count, |old(elems)| - i);
              && Valid() && elems == old(elems)[..i] + old(elems)[i + t..]
              && last == old(elems)[i + t - 1] && Piece(old(elems)[i..i + t])
              && n == if count == 0 then 0 else t
    {
      last, n := Walk(first, count, i);
      ghost var t := Taken(count, |elems| - i);
      TakeOut(first, last, i, t);
    }

    /** Unlinks the elements `first` to `last`, which are the `t` elements from the `i`-th on. */
    method TakeOut(first: Link, last: Link, ghost i: nat, ghost t: nat)
      requires Valid() && t > 0 && i + t <= |elems| && first == elems[i] && last == elems[i + t - 1]
      modifies this, Ring()[i], first, last, Ring()[i + t + 1]
      ensures Valid() && elems == old(elems)[..i] + old(elems)[i + t..] && Piece(old(elems)[i..i + t])
    {
      ghost var front, seg, back := Ring()[..i + 1], elems[i..i + t], Ring()[i + t + 1..];
      RingCutTwice(anchor, elems, i, t);
      Unsplice(first, last, front, seg, back);
      RingDelete(anchor, elems, i, t);
      elems := elems[..i] + elems[i + t..];
    }

    method Remove(elem: Link, ghost i: nat)
      requires Valid() && i < |elems| && elem == elems[i]
      modifies this, Ring()[i], elem, Ring()[i + 2]
      ensures Valid() && elems == old(elems)[..i] + old(elems)[i + 1..] && elem.prev == null && elem.next == null
    {
      TakeOut(elem, elem, i, 1);
      assert old(elems)[i..i + 1] == [elem];
    }

    method PopFront() returns (elem: Link)
      requires Valid() && elems != []
      modifies this, anchor, elems
      ensures Valid() && elem == old(elems)[0] && elems == old(elems)[1..] && elem.prev == null && elem.next == null
    {
      elem := Front();
      Remove(elem, 0);
    }

    method Empty() returns (b: bool)
      requires Valid()
      ensures b <==> elems == []
    {
      RingApart(anchor, elems);
      ghost var ring := [anchor] + elems + [anchor];
      assert Ring() == ring && (elems == [] ==> ring == [anchor, anchor]) && (elems != [] ==> ring[0] != ring[1]);
      var first := Front();
      b := first == anchor;
    }

    method PopBack() returns (elem: Link)
      requires Valid() && elems != []
      modifies this, anchor, elems
      ensures Valid() && elem == old(elems)[|old(elems)| - 1] && elems == old(elems)[..|old(elems)| - 1]
      ensures elem.prev == null && elem.next == null
    {
      elem := Back();
      Remove(elem, |elems| - 1);
    }

    /** The first element, or the anchor when there is none. */
    method Front() returns (first: Link)
      requires Valid()
      ensures first == anchor.next == Ring()[1]
    {
      assert Ring()[0] == anchor && Ring()[1 - 1].next == Ring()[1];
      first := anchor.next;
    }

    /** Moves up to `count` elements from the front of another list to the back of this one. */
    method TransferFrom(el: IntrusiveList, count: nat) returns (n: nat)
      requires el != this && Valid() && el.Valid() && el.elems != []
      requires el.anchor != anchor && el.anchor !in elems && anchor !in el.elems
      requires forall e :: e in el.elems ==> e !in elems
      modifies this, el, anchor, elems, el.anchor, el.elems
      ensures var t := Taken(count, |old(el.elems)|);
              && Valid() && elems == old(elems) + old(el.elems)[..t]
              && el.Valid() && el.elems == old(el.elems)[t..]
              && n == if count == 0 then 0 else t
    {
      var first, last;
      ghost var seg := el.elems[..Taken(count, |el.elems|)];
      assert forall j :: 0 <= j < |elems| ==> elems[j] !in el.elems;
      first, last, n := el.TakeFront(count);
      StillValid(this);
      label taken:
      ghost var rest := el.elems;
      assert forall j :: 0 <= j < |rest| ==> rest[j] in old(el.elems);
      assert Ring()[|elems|] in [anchor] + elems && first in seg && last in seg;
      assert forall j :: 0 <= j < |rest| ==>
                           rest[j] != Ring()[|elems|] && rest[j] != first && rest[j] != last && rest[j] != anchor;
      SpliceBack(first, last, seg);
      StillValid@taken(el);
    }

    /** `front` and `remove` together: the first `count` elements, as one list. */
    method TakeFront(count: nat) returns (first: Link, last: Link, n: nat)
      requires Valid() && elems != []
      modifies this, anchor, elems
      ensures var t := Taken(count, |old(elems)|);
              && Valid() && elems == old(elems)[t..] && Piece(old(elems)[..t])
              && first == old(elems)[0] && last == old(elems)[t - 1]
              && anchor !in old(elems)[..t] && (forall e :: e in old(elems)[..t] ==> e !in elems)
              && n == if count == 0 then 0 else t
    {
      RingHalves(anchor, elems, Taken(count, |elems|));
      first := Front();
      last, n := RemoveMany(first, count, 0);
    }

    /** The first half of `transferAllFrom`: the links of the whole list are cut off and the anchor is closed. */
    method Release() returns (first: Link, last: Link)
      requires Valid() && elems != []
      modifies this, anchor, elems[0], elems[|elems| - 1]
      ensures Valid() && elems == [] && Piece(old(elems))
      ensures first == old(elems)[0] && last == old(elems)[|old(elems)| - 1]
    {
      ListDoubly(anchor, elems);
      RingHalves(anchor, elems, |elems|);
      first := Front();
      last := Back();
      Detach(first, last, elems);
      ghost var seg := elems;
      elems := [];
      anchor.next, anchor.prev := anchor, anchor;
      assert Ring() == [anchor, anchor];
      assert forall j :: 0 <= j < |seg| ==> seg[j] != anchor;
    }

    method TransferAllFrom(el: IntrusiveList)
      requires el != this && Valid() && el.Valid() && el.elems != []
      requires el.anchor != anchor && el.anchor !in elems && anchor !in el.elems
      requires forall e :: e in el.elems ==> e !in elems
      modifies this, el, anchor, Ring()[|elems|], el.anchor, el.elems[0], el.elems[|el.elems| - 1]
      ensures Valid() && elems == old(elems) + old(el.elems) && el.Valid() && el.elems == []
    {
      ghost var seg := el.elems;
      assert seg[0] in seg && seg[|seg| - 1] in seg;
      RingHalves(el.anchor, seg, |seg|);
      assert forall j :: 0 <= j < |elems| ==> elems[j] !in seg;
      var first, last := el.Release();
      StillValid(this);
      label released:
      assert Ring()[|elems|] in [anchor] + elems;
      SpliceBack(first, last, seg);
      StillValid@released(el);
    }

    /** `removeAll` cuts off the links of the whole list but leaves the anchor as it was, so no sequence of elements
        describes the list afterwards. */
    method RemoveAll() returns (last: Link)
      requires Valid() && elems != []
      modifies elems[0], elems[|elems| - 1]
      ensures last == elems[|elems| - 1] && Piece(elems)
      ensures anchor.next == elems[0] && anchor.prev == last && anchor.next != anchor && anchor.next.prev == null
    {
      ListDoubly(anchor, elems);
      RingHalves(anchor, elems, |elems|);
      var first := Front();
      last := Back();
      Detach(first, last, elems);
    }

    method SpliceBack(first: Link, last: Link, ghost seg: seq<Link>)
      requires Valid()
      requires Piece(seg) && first == seg[0] && last == seg[|seg| - 1]
      requires forall e :: e in seg ==> e !in [anchor] + elems
      modifies this, Ring()[|elems|], anchor, first, last
      ensures Valid() && elems == old(elems) + seg
    {
      var prev := Back();
      InsertAfter(prev, first, last, |elems|, seg);
    }
  }

  lemma ListDoubly(anchor: Link, elems: seq<Link>)
    requires Distinct([anchor] + elems) && Doubly([anchor] + elems + [anchor]) && elems != []
    ensures Distinct(elems) && Doubly(elems)
  {
    DoublyConcat([anchor] + elems, [anchor]);
    DoublyConcat([anchor], elems);
    assert elems == ([anchor] + elems)[1..];
  }

  method Detach(first: Link, last: Link, ghost s: seq<Link>)
    requires s != [] && Distinct(s) && Doubly(s) && first == s[0] && last == s[|s| - 1]
    modifies first, last
    ensures Piece(s)
  {
    first.prev := null;
    last.next := null;
  }

  /** After `removeAll` there are no elements with which the list would be in order. */
  lemma RemoveAllBreaksTheRing(anchor: Link, s: seq<Link>)
    requires anchor.next != null && anchor.next != anchor && anchor.next.prev == null
    ensures !Doubly([anchor] + s + [anchor])
  {
    var ring := [anchor] + s + [anchor];
    assert ring[0] == anchor && !(ring[1 - 1].next == ring[1] && ring[1].prev == ring[1 - 1]);
  }

  /** A list is not affected by changes to other links. */
  twostate lemma StillValid(l: IntrusiveList)
    requires old(l.Valid()) && l.elems == old(l.elems) && unchanged(l.anchor)
    requires forall j :: 0 <= j < |l.elems| ==>
                           l.elems[j].next == old(l.elems[j].next) && l.elems[j].prev == old(l.elems[j].prev)
    ensures l.Valid()
  {
  }

  lemma RingHalves(anchor: Link, elems: seq<Link>, t: nat)
    requires Distinct([anchor] + elems) && 0 < t <= |elems|
    ensures anchor !in elems && elems[0] in elems[..t] && elems[t - 1] in elems[..t]
    ensures forall e :: e in elems[..t] ==> e in elems && e !in elems[t..]
    ensures forall e :: e in elems[t..] ==> e in elems
    ensures ([anchor] + elems + [anchor])[t + 1] in [anchor] + elems
  {
    forall e | e in elems
      ensures e != anchor
    {
      var i :| 0 <= i < |elems| && elems[i] == e;
      assert ([anchor] + elems)[0] != ([anchor] + elems)[i + 1];
    }
    forall i, j | 0 <= i < t <= j < |elems|
      ensures elems[i] != elems[j]
    {
      assert ([anchor] + elems)[i + 1] != ([anchor] + elems)[j + 1];
    }
  }

  /** Two parts of a ring have no link in common but the anchor, which can only be at their outer ends. */
  ghost predicate Parts(front: seq<Link>, back: seq<Link>) {
    && front != [] && back != []
    && (forall j :: 0 <= j < |front| - 1 ==> front[j] != front[|front| - 1])
    && (forall j :: 0 < j < |front| ==> front[j] != back[0])
    && (forall j :: 0 <= j < |back| - 1 ==> back[j] != front[|front| - 1])
    && (forall j :: 0 < j < |back| ==> back[j] != back[0])
  }

  lemma RingCut(anchor: Link, elems: seq<Link>, i: nat)
    requires Distinct([anchor] + elems) && i <= |elems|
    ensures var ring := [anchor] + elems + [anchor];
            && Parts(ring[..i + 1], ring[i + 1..]) && ring[..i + 1] + ring[i + 1..] == ring
            && forall j :: 0 <= j < |ring| ==> ring[j] in [anchor] + elems
  {
    RingApart(anchor, elems);
  }

  lemma RingInsert(anchor: Link, elems: seq<Link>, seg: seq<Link>, i: nat)
    requires Distinct([anchor] + elems) && i <= |elems| && Distinct(seg)
    requires forall e :: e in seg ==> e !in [anchor] + elems
    ensures var ring, elems' := [anchor] + elems + [anchor], elems[..i] + seg + elems[i..];
            Distinct([anchor] + elems') && [anchor] + elems' + [anchor] == ring[..i + 1] + seg + ring[i + 1..]
  {
    var s := [anchor] + elems;
    DistinctInsert(s, seg, i + 1);
    assert [anchor] + (elems[..i] + seg + elems[i..]) == s[..i + 1] + seg + s[i + 1..];
  }

  lemma RingDelete(anchor: Link, elems: seq<Link>, i: nat, t: nat)
    requires Distinct([anchor] + elems) && i + t <= |elems|
    ensures var ring, elems' := [anchor] + elems + [anchor], elems[..i] + elems[i + t..];
            Distinct([anchor] + elems') && [anchor] + elems' + [anchor] == ring[..i + 1] + ring[i + t + 1..]
  {
    var s := [anchor] + elems;
    DistinctDelete(s, i + 1, i + t + 1);
    assert [anchor] + (elems[..i] + elems[i + t..]) == s[..i + 1] + s[i + t + 1..];
  }

  lemma RingCutTwice(anchor: Link, elems: seq<Link>, i: nat, t: nat)
    requires Distinct([anchor] + elems) && t > 0 && i + t <= |elems|
    ensures var ring, seg := [anchor] + elems + [anchor], elems[i..i + t];
            var front, back := ring[..i + 1], ring[i + t + 1..];
            && Parts(front, back) && Distinct(seg) && front + seg + back == ring
            && (forall j :: 0 <= j < |front| ==> front[j] !in seg) && (forall j :: 0 <= j < |back| ==> back[j] !in seg)
  {
    RingApart(anchor, elems);
    var ring, seg := [anchor] + elems + [anchor], elems[i..i + t];
    assert forall j :: 0 <= j < t ==> seg[j] == ring[i + 1 + j];
  }

  method Splice(
    prev: Link, first: Link, last: Link, ghost front: seq<Link>, ghost seg: seq<Link>, ghost back: seq<Link>)
    requires Parts(front, back) && Doubly(front + back) && prev == front[|front| - 1]
    requires Piece(seg) && first == seg[0] && last == seg[|seg| - 1]
    requires (forall j :: 0 <= j < |front| ==> front[j] !in seg) && (forall j :: 0 <= j < |back| ==> back[j] !in seg)
    modifies prev, back[0], first, last
    ensures Doubly(front + seg + back)
  {
    DoublyConcat(front, back);
    assert first in seg && last in seg;
    assert prev !in seg && back[0] !in seg;
    prev.next.prev := last;
    last.next := prev.next;
    prev.next := first;
    first.prev := prev;
    assert Doubly(front) && Doubly(seg) && Doubly(back);
    DoublyConcat(front, seg);
    DoublyConcat(front + seg, back);
  }

  method Unsplice(first: Link, last: Link, ghost front: seq<Link>, ghost seg: seq<Link>, ghost back: seq<Link>)
    requires Parts(front, back) && Doubly(front + seg + back)
    requires seg != [] && Distinct(seg) && first == seg[0] && last == seg[|seg| - 1]
    requires (forall j :: 0 <= j < |front| ==> front[j] !in seg) && (forall j :: 0 <= j < |back| ==> back[j] !in seg)
    modifies front[|front| - 1], back[0], first, last
    ensures Doubly(front + back) && Piece(seg)
  {
    DoublyConcat(front + seg, back);
    DoublyConcat(front, seg);
    assert first in seg && last in seg;
    assert front[|front| - 1] !in seg && back[0] !in seg;
    first.prev.next := last.next;
    last.next.prev := first.prev;
    first.prev := null;
    last.next := null;
    assert Doubly(front) && Doubly(seg) && Doubly(back);
    DoublyConcat(front, back);
  }
}
