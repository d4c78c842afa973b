/**
 Whole executions on the builder nodes: any sequence of ends of leaves, from the start of a tree to its completion.
 */
module CspRuns {
  import opened SeriesParallel
  import opened CspNodes

  // ---------------------------------------------------------------- the place of a leaf

  /** A node that is a leaf by its fields is a leaf at some place of the tree. */
  lemma {:induction false} PlaceOf(c: Ctx, b: Tree, x: Builder) returns (c': Ctx)
    requires Cnt(b, x) > 0 && View(b, Par(c), NextOf(c), x).tag == PROC_BUILD
    ensures var q := View(b, Par(c), NextOf(c), x).proc; q.Some? && Plug(c', Proc(x, q.value)) == Plug(c, b)
    decreases b
  {
    if b.Proc? { c' := c; } else { c' := PlaceAmong(c, b, Nil, b.kids.head, b.kids.tail, x); }
  }

  lemma {:induction false} PlaceAmong(c: Ctx, b: Tree, left: Trees, kid: Tree, right: Trees, x: Builder) returns (c': Ctx)
    requires b.Node? && b.kids == Join(left, kid, right) && CntL(Cons(kid, right), x) > 0
    requires ViewL(Cons(kid, right), b.n, x).tag == PROC_BUILD
    ensures var q := ViewL(Cons(kid, right), b.n, x).proc; q.Some? && Plug(c', Proc(x, q.value)) == Plug(c, b)
    decreases Cons(kid, right)
  {
    if Cnt(kid, x) > 0 {
      c' := PlaceOf(In(b.n, b.kind, b.num, b.curr, left, right, c), kid, x);
    } else {
      JoinSnoc(left, kid, right.head, right.tail);
      c' := PlaceAmong(c, b, Snoc(left, kid), right.head, right.tail, x);
    }
  }

  // ---------------------------------------------------------------- completions keep the nodes

  lemma {:induction false} FinishCnt(b: Tree, p: Pid, x: Builder)
    ensures Cnt(Finish(b, p).tree, x) == Cnt(b, x) && Finish(b, p).tree.n == b.n
  {
    if b.Node? { FinishCntL(b.kids, p, x); }
  }

  lemma {:induction false} FinishCntL(l: Trees, p: Pid, x: Builder)
    ensures CntL(FinishL(l, p).tree, x) == CntL(l, x)
  {
    if l.Cons? {
      FinishCnt(l.head, p, x);
      FinishCntL(l.tail, p, x);
    }
  }

  lemma {:induction false} AfterCnt(b: Tree, ps: seq<Pid>, x: Builder)
    ensures Cnt(After(b, ps).tree, x) == Cnt(b, x) && After(b, ps).tree.n == b.n
    decreases |ps|
  {
    if ps != [] {
      AfterCnt(b, ps[..|ps| - 1], x);
      FinishCnt(After(b, ps[..|ps| - 1]).tree, ps[|ps| - 1], x);
    }
  }

  // ---------------------------------------------------------------- a whole execution

  /** The processes of the leaves, in order. */
  function Ends(leaves: seq<Builder>): seq<Pid> {
    if leaves == [] then [] else Ends(leaves[..|leaves| - 1]) + [leaves[|leaves| - 1].proc]
  }

  lemma {:induction false} EndsNext(leaves: seq<Builder>, x: Builder)
    ensures Ends(leaves + [x]) == Ends(leaves) + [x.proc]
  {
    assert (leaves + [x])[..|leaves|] == leaves;
  }

  lemma {:induction false} EndsLen(leaves: seq<Builder>)
    ensures |Ends(leaves)| == |leaves|
  {
    if leaves != [] { EndsLen(leaves[..|leaves| - 1]); }
  }

  lemma {:induction false} RunPrefix(b: Tree, leaves: seq<Builder>, i: nat)
    requires IsRun(b, Ends(leaves)) && i <= |leaves|
    ensures IsRun(b, Ends(leaves[..i]))
  {
    if i < |leaves| {
      var q := leaves[..|leaves| - 1];
      assert Ends(leaves)[..|Ends(leaves)| - 1] == Ends(q);
      RunPrefix(b, q, i);
      assert q[..i] == leaves[..i];
    } else {
      assert leaves[..i] == leaves;
    }
  }

  /** The process of the next leaf to end is running, and the tree is not complete yet. */
  lemma {:induction false} NextRuns(b: Tree, ps: seq<Pid>, p: Pid)
    requires Fresh(b) && Distinct(b) && IsRun(b, ps + [p])
    ensures var t, D := After(b, ps).tree, SetOf(ps);
      IsRun(b, ps) && Consistent(t, D) && Distinct(t) && p in Running(t, D) && After(b, ps).completions == 0
  {
    assert (ps + [p])[..|ps|] == ps;
    RunFollowsMeaning(b, ps);
    var t, D := After(b, ps).tree, SetOf(ps);
    SameShape(t, b, D);
    DoneAll(b, D);
    assert p in SetOf(After(b, ps).started) && p !in D;
  }

  lemma AfterNext<N>(b: Build<N>, ps: seq<Pid>, p: Pid)
    ensures var s := After(b, ps);
      After(b, ps + [p]) == Advanced(s, p)
  {
    assert (ps + [p])[..|ps|] == ps;
  }

  /** What has been readied since the start. */
  ghost function ReadiedBy(b: Tree, ps: seq<Pid>): seq<Pid> {
    if ps == [] then [] else ReadiedBy(b, ps[..|ps| - 1]) + Finish(After(b, ps[..|ps| - 1]).tree, ps[|ps| - 1]).ready
  }

  lemma ReadiedNext(b: Tree, ps: seq<Pid>, p: Pid)
    ensures ReadiedBy(b, ps + [p]) == ReadiedBy(b, ps) + Finish(After(b, ps).tree, p).ready
  {
    assert (ps + [p])[..|ps|] == ps;
  }

  lemma {:induction false} StartedBy(b: Tree, ps: seq<Pid>)
    ensures After(b, ps).started == Run(b) + ReadiedBy(b, ps)
    decreases |ps|
  {
    if ps != [] { StartedBy(b, ps[..|ps| - 1]); }
  }

  lemma {:induction false} LeafPlace(e: Execution, leaf: Builder) returns (c: Ctx)
    requires e.Represents() && leaf in e.nodes && leaf.tag == PROC_BUILD
    ensures e.tree == Plug(c, Proc(leaf, leaf.proc))
  {
    assert e.Sees(e.tree, leaf);
    c := PlaceOf(Top, e.tree, leaf);
  }

  /** The next leaf ends. */
  method EndLeaf(e: Execution, leaf: Builder, ghost b: Tree, ghost ps: seq<Pid>) returns (complete: bool)
    requires e.Represents() && leaf in e.nodes && leaf.tag == PROC_BUILD
    requires Fresh(b) && Distinct(b) && IsRun(b, ps + [leaf.proc]) && e.tree == After(b, ps).tree
    modifies e`ready, e`tree, e`freed, e.nodes`num_childs, e.nodes`curr_build, e.nodes`first
    ensures var ps' := ps + [leaf.proc];
      && complete == (After(b, ps').completions > 0)
      && e.tree == After(b, ps').tree
      && e.ready == old(e.ready) + Finish(old(e.tree), leaf.proc).ready + (if complete then RunProc(old(b.n.run_proc)) else [])
      && e.freed == old(e.freed) + (if complete then PostOrder(e.tree) else [])
      && (!complete ==> e.Represents())
  {
    NextRuns(b, ps, leaf.proc);
    AfterNext(b, ps, leaf.proc);
    AfterCnt(b, ps, leaf);
    ghost var c := LeafPlace(e, leaf);
    complete := e.LeafEnded(leaf, c, SetOf(ps));
  }

  /** The state after the processes ps of the tree b have ended, with what was ready and freed before; caller is the
      process waiting in RUN, if any. */
  ghost predicate Reached(e: Execution, b: Tree, ps: seq<Pid>, ready: seq<Pid>, freed: seq<Builder>, caller: seq<Pid>)
    reads e`tree, e`ready, e`freed, e`nodes, e.nodes
  {
    var s := After(b, ps);
    && e.tree == s.tree
    && if s.completions > 0 then e.ready == ready + ReadiedBy(b, ps) + caller && e.freed == freed + PostOrder(s.tree)
       else e.ready == ready + ReadiedBy(b, ps) && e.freed == freed && e.Represents()
  }

  method NextEnds(e: Execution, leaf: Builder, ghost b: Tree, ghost ps: seq<Pid>, ghost ready: seq<Pid>, ghost freed: seq<Builder>)
    requires Reached(e, b, ps, ready, freed, RunProc(b.n.run_proc)) && leaf in e.nodes && leaf.tag == PROC_BUILD
    requires Fresh(b) && Distinct(b) && IsRun(b, ps + [leaf.proc])
    modifies e`ready, e`tree, e`freed, e.nodes`num_childs, e.nodes`curr_build, e.nodes`first
    ensures Reached(e, b, ps + [leaf.proc], ready, freed, RunProc(old(b.n.run_proc)))
  {
    NextRuns(b, ps, leaf.proc);
    ReadiedNext(b, ps, leaf.proc);
    ghost var more := Finish(e.tree, leaf.proc).ready;
    assert (ready + ReadiedBy(b, ps)) + more == ready + (ReadiedBy(b, ps) + more);
    var complete := EndLeaf(e, leaf, b, ps);
  }

  /** A tree that has just been started, and any sequence of ends of its leaves that can happen: the nodes follow the
      meaning throughout. */
  method RunLeaves(e: Execution, leaves: seq<Builder>, ghost b: Tree)
    requires e.Represents() && e.tree == b && Fresh(b) && Distinct(b)
    requires forall i :: 0 <= i < |leaves| ==> leaves[i] in e.nodes && leaves[i].tag == PROC_BUILD
    requires IsRun(b, Ends(leaves))
    modifies e`ready, e`tree, e`freed, e.nodes`num_childs, e.nodes`curr_build, e.nodes`first
    ensures Reached(e, b, Ends(leaves), old(e.ready), old(e.freed), RunProc(old(b.n.run_proc)))
  {
    ghost var ready, freed := e.ready, e.freed;
    assert leaves[..0] == [] && ready + [] == ready;
    for i := 0 to |leaves|
      invariant Reached(e, b, Ends(leaves[..i]), ready, freed, RunProc(b.n.run_proc))
    {
      NextLeaf(b, leaves, i);
      NextEnds(e, leaves[i], b, Ends(leaves[..i]), ready, freed);
    }
    assert leaves[..|leaves|] == leaves;
  }

  /** So until the last leaf has ended nothing is freed and the caller of RUN is not readied; then every node is freed,
      once, and the caller is readied, once. */
  lemma {:induction false} FreedAtTheEnd(e: Execution, leaves: seq<Builder>, b: Tree, ready: seq<Pid>, freed: seq<Builder>, caller: seq<Pid>)
    requires Fresh(b) && Distinct(b) && IsRun(b, Ends(leaves)) && Reached(e, b, Ends(leaves), ready, freed, caller)
    requires forall x {:trigger Cnt(b, x)} :: x in e.nodes ==> Cnt(b, x) == 1
    ensures After(b, Ends(leaves)).started == Run(b) + ReadiedBy(b, Ends(leaves))
    ensures |leaves| <= |Leaves(b)|
    ensures |leaves| < |Leaves(b)| ==> e.freed == freed && e.ready == ready + ReadiedBy(b, Ends(leaves))
    ensures |leaves| == |Leaves(b)| ==>
      && (forall x :: x in e.nodes ==> multiset(e.freed)[x] == multiset(freed)[x] + 1)
      && e.ready == ready + ReadiedBy(b, Ends(leaves)) + caller
  {
    AllEnded(b, leaves);
    StartedBy(b, Ends(leaves));
    FreedOnce(e.nodes, b, Ends(leaves));
  }

  lemma {:induction false} FreedOnce(nodes: set<Builder>, b: Tree, ps: seq<Pid>)
    requires forall x {:trigger Cnt(b, x)} :: x in nodes ==> Cnt(b, x) == 1
    ensures forall x :: x in nodes ==> multiset(PostOrder(After(b, ps).tree))[x] == 1
  {
    forall x | x in nodes ensures multiset(PostOrder(After(b, ps).tree))[x] == 1 {
      AfterCnt(b, ps, x);
      PostOrderOnce(After(b, ps).tree, x);
    }
  }

  /** While there is a leaf to end, completion has not been reported. */
  lemma {:induction false} NextLeaf(b: Tree, leaves: seq<Builder>, i: nat)
    requires Fresh(b) && Distinct(b) && IsRun(b, Ends(leaves)) && i < |leaves|
    ensures var ps, p := Ends(leaves[..i]), leaves[i].proc;
      && Ends(leaves[..i + 1]) == ps + [p] && IsRun(b, ps + [p]) && After(b, ps).completions == 0
      && ReadiedBy(b, ps + [p]) == ReadiedBy(b, ps) + Finish(After(b, ps).tree, p).ready
  {
    assert leaves[..i + 1] == leaves[..i] + [leaves[i]];
    EndsNext(leaves[..i], leaves[i]);
    RunPrefix(b, leaves, i + 1);
    NextRuns(b, Ends(leaves[..i]), leaves[i].proc);
    ReadiedNext(b, Ends(leaves[..i]), leaves[i].proc);
  }

  lemma {:induction false} AllEnded(b: Tree, leaves: seq<Builder>)
    requires Fresh(b) && Distinct(b) && IsRun(b, Ends(leaves))
    ensures After(b, Ends(leaves)).completions > 0 <==> |leaves| == |Leaves(b)|
    ensures |leaves| <= |Leaves(b)|
  {
    EndsLen(leaves);
    RunProgress(b, Ends(leaves));
    RunFollowsMeaning(b, Ends(leaves));
  }
}
