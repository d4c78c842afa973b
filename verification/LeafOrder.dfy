/**
 The order in which the leaves of a PAR/SEQ tree are made ready: from left to right.
 */
module LeafOrder {
  import opened SeriesParallel

  /** The leaf x is to the left of the leaf y. */
  predicate LeftOf<N>(b: Build<N>, x: Pid, y: Pid)
    decreases b
  {
    b.Node? && LeftOfL(b.kids, x, y)
  }

  predicate LeftOfL<N>(l: Builds<N>, x: Pid, y: Pid)
    decreases l
  {
    l.Cons? && ((x in Leaves(l.head) && y in LeavesL(l.tail)) || LeftOf(l.head, x, y) || LeftOfL(l.tail, x, y))
  }

  ghost predicate InOrder<N>(b: Build<N>, ps: seq<Pid>) {
    forall i, j :: 0 <= i < j < |ps| ==> LeftOf(b, ps[i], ps[j])
  }

  ghost predicate InOrderL<N>(l: Builds<N>, ps: seq<Pid>) {
    forall i, j :: 0 <= i < j < |ps| ==> LeftOfL(l, ps[i], ps[j])
  }

  // ---------------------------------------------------------------- left to right is an order

  lemma {:induction false} LeftOfLeaves<N>(b: Build<N>, x: Pid, y: Pid)
    ensures LeftOf(b, x, y) ==> x in Leaves(b) && y in Leaves(b)
    decreases b
  {
    if b.Node? { LeftOfLeavesL(b.kids, x, y); }
  }

  lemma {:induction false} LeftOfLeavesL<N>(l: Builds<N>, x: Pid, y: Pid)
    ensures LeftOfL(l, x, y) ==> x in LeavesL(l) && y in LeavesL(l)
    decreases l
  {
    if l.Cons? {
      LeftOfLeaves(l.head, x, y);
      LeftOfLeavesL(l.tail, x, y);
    }
  }

  /** Of two leaves exactly one is to the left of the other. */
  lemma {:induction false} LeftOrRight<N>(b: Build<N>, x: Pid, y: Pid)
    requires Distinct(b) && x in Leaves(b) && y in Leaves(b)
    ensures x != y ==> (LeftOf(b, x, y) <==> !LeftOf(b, y, x))
    ensures x == y ==> !LeftOf(b, x, y)
    decreases b
  {
    if b.Node? { LeftOrRightL(b.kids, x, y); }
  }

  lemma {:induction false} LeftOrRightL<N>(l: Builds<N>, x: Pid, y: Pid)
    requires DistinctL(l) && x in LeavesL(l) && y in LeavesL(l)
    ensures x != y ==> (LeftOfL(l, x, y) <==> !LeftOfL(l, y, x))
    ensures x == y ==> !LeftOfL(l, x, y)
    decreases l
  {
    LeftOfLeaves(l.head, x, y);
    LeftOfLeaves(l.head, y, x);
    LeftOfLeavesL(l.tail, x, y);
    LeftOfLeavesL(l.tail, y, x);
    if x in Leaves(l.head) && y in Leaves(l.head) {
      LeftOrRight(l.head, x, y);
    } else if x in LeavesL(l.tail) && y in LeavesL(l.tail) {
      LeftOrRightL(l.tail, x, y);
    }
  }

  /** So a set of leaves can be made ready in one order only. */
  lemma {:induction false} OneOrder<N>(b: Build<N>, ps: seq<Pid>, qs: seq<Pid>)
    requires Distinct(b) && InOrder(b, ps) && InOrder(b, qs) && SetOf(ps) == SetOf(qs) <= Leaves(b)
    ensures ps == qs
    decreases |ps|
  {
    if ps == [] {
      assert forall i :: 0 <= i < |qs| ==> qs[i] in SetOf(qs);
    } else {
      assert ps[0] in SetOf(ps) && ps[0] in SetOf(qs);
      assert qs[0] in SetOf(qs) && qs[0] in SetOf(ps);
      LeftOrRight(b, ps[0], qs[0]);
      SetOfTail(b, ps);
      SetOfTail(b, qs);
      OneOrder(b, ps[1..], qs[1..]);
    }
  }

  lemma {:induction false} SetOfTail<N>(b: Build<N>, ps: seq<Pid>)
    requires Distinct(b) && InOrder(b, ps) && SetOf(ps) <= Leaves(b) && ps != []
    ensures SetOf(ps[1..]) == SetOf(ps) - {ps[0]}
  {
    assert ps[0] in SetOf(ps);
    LeftOrRight(b, ps[0], ps[0]);
    forall x | x in SetOf(ps) - {ps[0]} ensures x in SetOf(ps[1..]) {
      var i :| 0 <= i < |ps| && ps[i] == x;
      assert ps[1..][i - 1] == x;
    }
  }

  // ---------------------------------------------------------------- running a tree

  lemma {:induction false} RunLeaves<N>(b: Build<N>)
    ensures SetOf(Run(b)) <= Leaves(b)
  {
    if b.Node? { RunLeavesL(b.kids, b.curr); }
  }

  lemma {:induction false} RunLeavesL<N>(l: Builds<N>, i: nat)
    ensures SetOf(RunAll(l)) <= LeavesL(l) && SetOf(RunNth(l, i)) <= LeavesL(l)
  {
    if l.Cons? {
      RunLeaves(l.head);
      RunLeavesL(l.tail, if i == 0 then 0 else i - 1);
      assert SetOf(RunAll(l)) == SetOf(Run(l.head)) + SetOf(RunAll(l.tail));
    }
  }

  /** csp_runbuild makes leaves ready from left to right. */
  lemma {:induction false} RunInOrder<N>(b: Build<N>)
    ensures InOrder(b, Run(b))
  {
    if b.Node? { RunInOrderL(b.kids, b.curr); }
  }

  lemma {:induction false} RunInOrderL<N>(l: Builds<N>, i: nat)
    ensures InOrderL(l, RunAll(l)) && InOrderL(l, RunNth(l, i))
  {
    if l.Cons? {
      RunInOrder(l.head);
      RunInOrderL(l.tail, if i == 0 then 0 else i - 1);
      RunLeaves(l.head);
      RunLeavesL(l.tail, 0);
      OrderCat(l, Run(l.head), RunAll(l.tail));
    }
  }

  lemma {:induction false} OrderCat<N>(l: Builds<N>, ps: seq<Pid>, qs: seq<Pid>)
    requires l.Cons? && InOrder(l.head, ps) && InOrderL(l.tail, qs) && SetOf(ps) <= Leaves(l.head) && SetOf(qs) <= LeavesL(l.tail)
    ensures InOrderL(l, ps + qs)
  {
    forall i, j | 0 <= i < j < |ps + qs| ensures LeftOfL(l, (ps + qs)[i], (ps + qs)[j]) {
      if j < |ps| {
        assert LeftOf(l.head, ps[i], ps[j]);
      } else if |ps| <= i {
        assert LeftOfL(l.tail, qs[i - |ps|], qs[j - |ps|]);
      } else {
        assert ps[i] in SetOf(ps) && qs[j - |ps|] in SetOf(qs);
      }
    }
  }

  // ---------------------------------------------------------------- a process of the tree ends

  lemma {:induction false} FinishShape<N>(b: Build<N>, p: Pid)
    ensures Shape(Finish(b, p).tree) == Shape(b)
  {
    if b.Node? { FinishShapeL(b.kids, p); }
  }

  lemma {:induction false} FinishShapeL<N>(l: Builds<N>, p: Pid)
    ensures ShapeL(FinishL(l, p).tree) == ShapeL(l)
  {
    if l.Cons? {
      FinishShape(l.head, p);
      FinishShapeL(l.tail, p);
    }
  }

  /** Counters and cursors do not matter for the order. */
  lemma {:induction false} SameOrder<N>(a: Build<N>, b: Build<N>, x: Pid, y: Pid)
    requires Shape(a) == Shape(b)
    ensures LeftOf(a, x, y) == LeftOf(b, x, y) && Precedes(a, x, y) == Precedes(b, x, y)
    decreases a
  {
    if a.Node? { SameOrderL(a.kind, a.kids, b.kids, x, y); }
  }

  lemma {:induction false} SameOrderL<N>(kind: Kind, a: Builds<N>, b: Builds<N>, x: Pid, y: Pid)
    requires ShapeL(a) == ShapeL(b)
    ensures LeftOfL(a, x, y) == LeftOfL(b, x, y) && PrecedesL(kind, a, x, y) == PrecedesL(kind, b, x, y)
    decreases a
  {
    if a.Cons? {
      SameShape(a.head, b.head, {});
      SameShapeL(a.tail, b.tail, {});
      SameOrder(a.head, b.head, x, y);
      SameOrderL(kind, a.tail, b.tail, x, y);
    }
  }

  lemma {:induction false} SameInOrder<N>(a: Build<N>, b: Build<N>, ps: seq<Pid>)
    requires Shape(a) == Shape(b) && InOrder(a, ps)
    ensures InOrder(b, ps)
  {
    forall i, j | 0 <= i < j < |ps| ensures LeftOf(b, ps[i], ps[j]) { SameOrder(a, b, ps[i], ps[j]); }
  }

  lemma {:induction false} SameInOrderL<N>(a: Builds<N>, b: Builds<N>, ps: seq<Pid>)
    requires ShapeL(a) == ShapeL(b) && InOrderL(a, ps)
    ensures InOrderL(b, ps)
  {
    forall i, j | 0 <= i < j < |ps| ensures LeftOfL(b, ps[i], ps[j]) { SameOrderL(PAR, a, b, ps[i], ps[j]); }
  }

  /** csp_parsebuild makes leaves ready from left to right. */
  lemma {:induction false} FinishInOrder<N>(b: Build<N>, p: Pid)
    ensures InOrder(b, Finish(b, p).ready)
  {
    if b.Node? {
      var o := FinishL(b.kids, p);
      FinishInOrderL(b.kids, p);
      if o.complete {
        RunInOrderL(o.tree, b.curr + 1);
        FinishShapeL(b.kids, p);
        SameInOrderL(o.tree, b.kids, RunNth(o.tree, b.curr + 1));
      }
    }
  }

  lemma {:induction false} FinishInOrderL<N>(l: Builds<N>, p: Pid)
    ensures InOrderL(l, FinishL(l, p).ready)
  {
    if l.Cons? { if p in Leaves(l.head) { FinishInOrder(l.head, p); } else { FinishInOrderL(l.tail, p); } }
  }
}
