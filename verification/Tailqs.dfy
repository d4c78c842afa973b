/**
 The tail queues of src/util/queue.h (lines 441-622), of which the runtime's queues are instances: doubly linked, where
 the backward link of an element is the address of the forward link that points to it.
 */
module Tailqs {

  class Entry {
    var next: Entry?
    var prev: Slot

    constructor ()
      ensures fresh(this)
    {
      next, prev := null, First;
    }
  }

  /** The address of a forward link: of the head of the queue, or of an element. */
  datatype Slot = First | NextOf(e: Entry)

  /** What the forward and backward links of the i-th element are to be. */
  ghost function NextAt(s: seq<Entry>, i: nat): Entry?
    requires i < |s|
  {
    if i + 1 < |s| then s[i + 1] else null
  }

  ghost function SlotAt(s: seq<Entry>, i: nat): Slot
    requires i <= |s|
  {
    if i == 0 then First else NextOf(s[i - 1])
  }

  ghost predicate LinkedAt(s: seq<Entry>, i: nat)
    requires i < |s|
    reads s[i]
  {
    s[i].next == NextAt(s, i) && s[i].prev == SlotAt(s, i)
  }

  ghost predicate NoRepeat(s: seq<Entry>) { forall i, j {:trigger s[i], s[j]} :: 0 <= i < j < |s| ==> s[i] != s[j] }

  ghost function Without(s: seq<Entry>, i: nat): seq<Entry>
    requires i < |s|
  {
    s[..i] + s[i + 1..]
  }

  class Tailq {
    var first: Entry?
    var last: Slot
    ghost var elems: seq<Entry>

    ghost predicate Valid()
      reads this, elems
    {
      && NoRepeat(elems)
      && first == (if elems == [] then null else elems[0])
      && last == SlotAt(elems, |elems|)
      && forall i {:trigger LinkedAt(elems, i)} :: 0 <= i < |elems| ==> LinkedAt(elems, i)
    }

    /** TAILQ_INIT. */
    constructor ()
      ensures Valid() && elems == []
    {
      first, last, elems := null, First, [];
    }

    /** The forward link at an address. */
    function Deref(slot: Slot): Entry?
      reads this, if slot.NextOf? then {slot.e} else {}
    {
      if slot.First? then first else slot.e.next
    }

    /** The field behind a forward link: tqh_last of the head, or tqe_prev of an element. */
    function Behind(slot: Slot): Slot
      reads this, if slot.NextOf? then {slot.e} else {}
    {
      if slot.First? then last else slot.e.prev
    }

    /** The link of that address is set. */
    method SetLink(slot: Slot, e: Entry?)
      modifies this`first, (if slot.NextOf? then {slot.e} else {})`next
      ensures first == (if slot.First? then e else old(first))
      ensures slot.NextOf? ==> slot.e.next == e
    {
      if slot.First? { first := e; } else { slot.e.next := e; }
    }

    /** TAILQ_INSERT_TAIL (src/util/queue.h:571-579). */
    method InsertTail(elm: Entry)
      requires Valid() && elm !in elems
      modifies this, elm, elems
      ensures Valid() && elems == old(elems) + [elm]
    {
      ghost var was, n := elems, |elems|;
      assert n > 0 ==> LinkedAt(was, n - 1);
      elm.next := null;
      elm.prev := last;
      SetLink(last, elm);
      last := NextOf(elm);
      elems := elems + [elm];
      forall i | 0 <= i < |elems| ensures LinkedAt(elems, i) {
        if i < n { assert old(LinkedAt(was, i)); }
      }
    }

    /** TAILQ_REMOVE of the k-th element (src/util/queue.h:589-603). */
    method Remove(elm: Entry, ghost k: nat)
      requires Valid() && k < |elems| && elems[k] == elm
      modifies this, elems
      ensures Valid() && elems == Without(old(elems), k)
      ensures elm.next == old(elm.next) && elm.prev == old(elm.prev)
    {
      ghost var was := elems;
      assert LinkedAt(was, k);
      if elm.next != null {
        elm.next.prev := elm.prev;
      } else {
        last := elm.prev;
      }
      SetLink(elm.prev, elm.next);
      elems := Without(was, k);
      forall i | 0 <= i < |elems| ensures LinkedAt(elems, i) {
        var j := if i < k then i else i + 1;
        assert old(LinkedAt(was, j)) && elems[i] == was[j];
      }
    }

    /** The link whose address the i-th element holds points to that element; the last link is null. */
    lemma PointsAt(i: nat)
      requires Valid() && i <= |elems|
      ensures i > 0 ==> elems[i - 1] in elems
      ensures Deref(SlotAt(elems, i)) == if i < |elems| then elems[i] else null
    {
      if i > 0 { assert LinkedAt(elems, i - 1); }
    }

    /** TAILQ_LAST: the element whose link the field behind the last slot points at (src/util/queue.h:581-582). */
    method Last() returns (e: Entry?)
      requires Valid()
      ensures e == if elems == [] then null else elems[|elems| - 1]
    {
      if elems != [] {
        assert LinkedAt(elems, |elems| - 1);
        PointsAt(|elems| - 1);
      }
      e := Deref(Behind(last));
    }

    /** TAILQ_PREV (src/util/queue.h:586-587). */
    method Prev(elm: Entry, ghost k: nat) returns (e: Entry?)
      requires Valid() && k < |elems| && elems[k] == elm
      ensures e == if k == 0 then null else elems[k - 1]
    {
      assert LinkedAt(elems, k);
      if k > 0 {
        assert LinkedAt(elems, k - 1);
        PointsAt(k - 1);
      } else {
        PointsAt(|elems|);
      }
      e := Deref(Behind(elm.prev));
    }

    /** TAILQ_FOREACH: every element once, in order (src/util/queue.h:507-510). */
    method Forward() returns (s: seq<Entry>)
      requires Valid()
      ensures s == elems
    {
      s := [];
      var e := first;
      while e != null
        invariant |s| <= |elems| && s == elems[..|s|]
        invariant e == if |s| < |elems| then elems[|s|] else null
        decreases |elems| - |s|
      {
        assert LinkedAt(elems, |s|);
        s := s + [e];
        e := e.next;
      }
    }

    /** TAILQ_FOREACH_REVERSE: every element once, the last first (src/util/queue.h:517-520). */
    method Backward() returns (s: seq<Entry>)
      requires Valid()
      ensures |s| == |elems| && forall i :: 0 <= i < |s| ==> s[i] == elems[|elems| - 1 - i]
    {
      s := [];
      var e := Last();
      while e != null
        invariant |s| <= |elems| && forall i :: 0 <= i < |s| ==> s[i] == elems[|elems| - 1 - i]
        invariant e == if |s| < |elems| then elems[|elems| - 1 - |s|] else null
        decreases |elems| - |s|
      {
        s := s + [e];
        e := Prev(e, |elems| - |s|);
      }
    }
  }
}
