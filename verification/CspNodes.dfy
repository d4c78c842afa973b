/**
 The builder nodes of src/csp.c and src/csp.h, linked by parent, first-child and next-sibling pointers.

 As for the red-black tree, a ghost `tree` pictures what the nodes form; csp_runbuild, csp_parsebuild and
 csp_cleanupbuild are proved to do on the nodes what `SeriesParallel` says of the picture.
 */
module CspNodes {
  import opened SeriesParallel
  import opened LeafOrder
  import opened Wrappers

  datatype Tag = PROC_BUILD | PAR_BUILD | SEQ_BUILD

  class Builder {
    const tag: Tag
    const proc: Pid
    var parent: Builder?
    var is_root: bool
    var next: Builder?
    var first: Builder?
    var num_childs: int
    var curr_build: Builder?
    var run_proc: Option<Pid>

    /** csp_create for a process, and for a PAR or a SEQ without children. */
    constructor Leaf(proc: Pid)
      ensures LinkOf(this) == Link(PROC_BUILD, Some(proc), null, false, null, null, Counts.Leaf) && run_proc == None
    {
      tag, this.proc, parent, is_root, next, first := PROC_BUILD, proc, null, false, null, null;
      num_childs, curr_build, run_proc := 0, null, None;
    }

    constructor Composite(kind: Kind)
      ensures LinkOf(this) == Link(if kind.PAR? then PAR_BUILD else SEQ_BUILD, None, null, false, null, null, Counts(0, null))
      ensures first == null && num_childs == 0 && curr_build == null && run_proc == None
    {
      tag, proc, parent, is_root, next, first := if kind.PAR? then PAR_BUILD else SEQ_BUILD, 0, null, false, null, null;
      num_childs, curr_build, run_proc := 0, null, None;
    }
  }

  type Tree = Build<Builder>
  type Trees = Builds<Builder>

  ghost function Size(b: Tree): nat { 1 + if b.Node? then SizeL(b.kids) else 0 }

  ghost function SizeL(l: Trees): nat { if l.Nil? then 0 else 1 + Size(l.head) + SizeL(l.tail) }

  ghost function HeadOf(l: Trees): Builder? { if l.Nil? then null else l.head.n }

  ghost function NthOf(l: Trees, i: nat): Builder? {
    if l.Nil? then null else if i == 0 then l.head.n else NthOf(l.tail, i - 1)
  }

  // ---------------------------------------------------------------- a place in a tree

  datatype Ctx = Top | In(n: Builder, kind: Kind, num: int, curr: nat, left: Trees, right: Trees, up: Ctx)

  ghost function Join(l: Trees, b: Tree, r: Trees): Trees { if l.Nil? then Cons(b, r) else Cons(l.head, Join(l.tail, b, r)) }

  ghost function Frame(c: Ctx, b: Tree): Tree
    requires c.In?
  {
    Node(c.n, c.kind, c.num, c.curr, Join(c.left, b, c.right))
  }

  ghost function Plug(c: Ctx, b: Tree): Tree { if c.Top? then b else Plug(c.up, Frame(c, b)) }

  ghost function Par(c: Ctx): Builder? { if c.Top? then null else c.n }

  ghost function NextOf(c: Ctx): Builder? { if c.Top? then null else HeadOf(c.right) }

  // ---------------------------------------------------------------- what the fields of a node must be

  ghost function Cnt(b: Tree, x: Builder): nat { (if b.n == x then 1 else 0) + if b.Node? then CntL(b.kids, x) else 0 }

  ghost function CntL(l: Trees, x: Builder): nat { if l.Nil? then 0 else Cnt(l.head, x) + CntL(l.tail, x) }

  ghost function CntC(c: Ctx, x: Builder): nat {
    if c.Top? then 0 else (if c.n == x then 1 else 0) + CntL(c.left, x) + CntL(c.right, x) + CntC(c.up, x)
  }

  datatype Link = Link(tag: Tag, proc: Option<Pid>, parent: Builder?, is_root: bool, next: Builder?, first: Builder?, counts: Counts)
  datatype Counts = Leaf | Counts(num: int, curr: Builder?)

  ghost function Own(b: Tree, p: Builder?, next: Builder?): Link {
    match b
    case Proc(_, q) => Link(PROC_BUILD, Some(q), p, p == null, next, null, Leaf)
    case Node(_, PAR, num, _, kids) => Link(PAR_BUILD, None, p, p == null, next, HeadOf(kids), Counts(num, null))
    case Node(_, SEQ, num, curr, kids) => Link(SEQ_BUILD, None, p, p == null, next, HeadOf(kids), Counts(num, NthOf(kids, curr)))
  }

  ghost function View(b: Tree, p: Builder?, next: Builder?, x: Builder): Link
    requires Cnt(b, x) > 0
  {
    if b.n == x then Own(b, p, next) else ViewL(b.kids, b.n, x)
  }

  ghost function ViewL(l: Trees, p: Builder?, x: Builder): Link
    requires CntL(l, x) > 0
  {
    if Cnt(l.head, x) > 0 then View(l.head, p, HeadOf(l.tail), x) else ViewL(l.tail, p, x)
  }

  ghost function LinkOf(n: Builder): Link
    reads n
  {
    match n.tag
    case PROC_BUILD => Link(n.tag, Some(n.proc), n.parent, n.is_root, n.next, null, Leaf)
    case PAR_BUILD => Link(n.tag, None, n.parent, n.is_root, n.next, n.first, Counts(n.num_childs, null))
    case SEQ_BUILD => Link(n.tag, None, n.parent, n.is_root, n.next, n.first, Counts(n.num_childs, n.curr_build))
  }

  // ---------------------------------------------------------------- places and views

  lemma {:induction false} JoinCnt(l: Trees, b: Tree, r: Trees, x: Builder)
    ensures CntL(Join(l, b, r), x) == CntL(l, x) + Cnt(b, x) + CntL(r, x)
  {
    if l.Cons? { JoinCnt(l.tail, b, r, x); }
  }

  lemma {:induction false} PlugCnt(c: Ctx, b: Tree, x: Builder)
    ensures Cnt(Plug(c, b), x) == CntC(c, x) + Cnt(b, x)
  {
    if c.In? {
      PlugCnt(c.up, Frame(c, b), x);
      JoinCnt(c.left, b, c.right, x);
    }
  }

  /** The node x of b keeps its view wherever b sits; here b is the child behind `left` of a node p. */
  lemma {:induction false} JoinView(l: Trees, b: Tree, r: Trees, p: Builder?, x: Builder)
    requires Cnt(b, x) > 0 && CntL(Join(l, b, r), x) == 1
    ensures ViewL(Join(l, b, r), p, x) == View(b, p, HeadOf(r), x)
  {
    JoinCnt(l, b, r, x);
    if l.Cons? { JoinView(l.tail, b, r, p, x); }
  }

  lemma {:induction false} PlugView(c: Ctx, b: Tree, x: Builder)
    requires Cnt(b, x) > 0 && Cnt(Plug(c, b), x) == 1
    ensures View(Plug(c, b), null, null, x) == View(b, Par(c), NextOf(c), x)
  {
    if c.In? {
      PlugCnt(c, b, x);
      JoinCnt(c.left, b, c.right, x);
      PlugView(c.up, Frame(c, b), x);
      JoinView(c.left, b, c.right, c.n, x);
    }
  }

  /** Two trees with the same root and the same view of x, put in the same place, give the same view of x. */
  lemma {:induction false} JoinSame(l: Trees, b: Tree, b': Tree, r: Trees, p: Builder?, x: Builder)
    requires b.n == b'.n && Cnt(b, x) == Cnt(b', x) && CntL(Join(l, b, r), x) == 1
    requires Cnt(b, x) > 0 ==> View(b, p, HeadOf(r), x) == View(b', p, HeadOf(r), x)
    ensures CntL(Join(l, b', r), x) == 1 && ViewL(Join(l, b, r), p, x) == ViewL(Join(l, b', r), p, x)
  {
    JoinCnt(l, b, r, x);
    JoinCnt(l, b', r, x);
    if l.Cons? {
      if Cnt(l.head, x) == 0 { JoinSame(l.tail, b, b', r, p, x); }
      JoinHead(l.tail, b, b', r);
    }
  }

  lemma JoinHead(l: Trees, b: Tree, b': Tree, r: Trees)
    requires b.n == b'.n
    ensures HeadOf(Join(l, b, r)) == HeadOf(Join(l, b', r))
  {
  }

  lemma {:induction false} JoinNth(l: Trees, b: Tree, b': Tree, r: Trees, i: nat)
    requires b.n == b'.n
    ensures NthOf(Join(l, b, r), i) == NthOf(Join(l, b', r), i)
  {
    if l.Cons? && i > 0 { JoinNth(l.tail, b, b', r, i - 1); }
  }

  lemma {:induction false} PlugSame(c: Ctx, b: Tree, b': Tree, x: Builder)
    requires b.n == b'.n && Cnt(b, x) == Cnt(b', x) && Cnt(Plug(c, b), x) == 1
    requires Cnt(b, x) > 0 ==> View(b, Par(c), NextOf(c), x) == View(b', Par(c), NextOf(c), x)
    ensures Cnt(Plug(c, b'), x) == 1 && View(Plug(c, b), null, null, x) == View(Plug(c, b'), null, null, x)
  {
    if c.In? {
      PlugCnt(c, b, x);
      JoinCnt(c.left, b, c.right, x);
      JoinCnt(c.left, b', c.right, x);
      JoinHead(c.left, b, b', c.right);
      JoinNth(c.left, b, b', c.right, c.curr);
      if CntL(Join(c.left, b, c.right), x) == 1 { JoinSame(c.left, b, b', c.right, c.n, x); }
      PlugSame(c.up, Frame(c, b), Frame(c, b'), x);
    }
  }

  // ---------------------------------------------------------------- completions seen from a place in the tree

  ghost function Snoc(l: Trees, b: Tree): Trees { if l.Nil? then Cons(b, Nil) else Cons(l.head, Snoc(l.tail, b)) }

  lemma {:induction false} JoinSnoc(l: Trees, a: Tree, b: Tree, r: Trees)
    ensures Join(l, a, Cons(b, r)) == Join(Snoc(l, a), b, r)
  {
    if l.Cons? { JoinSnoc(l.tail, a, b, r); }
  }

  lemma {:induction false} JoinLeaves(l: Trees, b: Tree, r: Trees)
    ensures LeavesL(Join(l, b, r)) == LeavesL(l) + Leaves(b) + LeavesL(r)
    ensures DistinctL(Join(l, b, r)) ==> Distinct(b) && Leaves(b) !! LeavesL(l)
  {
    if l.Cons? { JoinLeaves(l.tail, b, r); }
  }

  lemma {:induction false} JoinFinish(l: Trees, b: Tree, r: Trees, p: Pid)
    requires p in Leaves(b) && p !in LeavesL(l)
    ensures FinishL(Join(l, b, r), p) == Outcome(Join(l, Finish(b, p).tree, r), Finish(b, p).ready, Finish(b, p).complete)
  {
    if l.Cons? { JoinFinish(l.tail, b, r, p); }
  }

  lemma {:induction false} JoinRunning(l: Trees, b: Tree, r: Trees, curr: nat, p: Pid, D: set<Pid>)
    requires DistinctL(Join(l, b, r)) && p in Leaves(b)
    ensures ConsistentPar(Join(l, b, r), D) ==> Consistent(b, D)
    ensures p in RunningPar(Join(l, b, r), D) ==> p in Running(b, D)
    ensures p in RunningSeq(Join(l, b, r), D) ==> p in Running(b, D)
    ensures ConsistentSeq(Join(l, b, r), curr, D) && p in RunningSeq(Join(l, b, r), D) ==> Consistent(b, D)
  {
    JoinLeaves(l, b, r);
    if l.Cons? {
      Local(l.head, D, D);
      JoinLeaves(l.tail, b, r);
      JoinRunning(l.tail, b, r, if curr == 0 then 0 else curr - 1, p, D);
    } else {
      LocalL(r, 0, D, D);
    }
  }

  /** Consistency and the right to run reach down to every place above the leaf. */
  lemma {:induction false} PlugRunning(c: Ctx, b: Tree, p: Pid, D: set<Pid>)
    requires Consistent(Plug(c, b), D) && Distinct(Plug(c, b)) && p in Running(Plug(c, b), D) && p in Leaves(b)
    ensures Consistent(b, D) && Distinct(b) && p in Running(b, D)
  {
    if c.In? {
      JoinLeaves(c.left, b, c.right);
      PlugRunning(c.up, Frame(c, b), p, D);
      JoinRunning(c.left, b, c.right, c.curr, p, D);
    }
  }

  lemma {:induction false} PlugFinish(c: Ctx, b: Tree, p: Pid)
    requires Distinct(Plug(c, b)) && p in Leaves(b)
    ensures !Finish(b, p).complete ==>
      Finish(Plug(c, b), p) == Outcome(Plug(c, Finish(b, p).tree), Finish(b, p).ready, false)
    ensures c.In? ==> var o, f := Finish(b, p), FinishL(Frame(c, b).kids, p);
      f == Outcome(Join(c.left, o.tree, c.right), o.ready, o.complete)
  {
    if c.In? {
      DistinctDown(c, b);
      JoinLeaves(c.left, b, c.right);
      JoinFinish(c.left, b, c.right, p);
      PlugFinish(c.up, Frame(c, b), p);
    }
  }

  lemma {:induction false} DistinctDown(c: Ctx, b: Tree)
    requires Distinct(Plug(c, b))
    ensures Distinct(b) && (c.In? ==> Distinct(Frame(c, b)))
  {
    if c.In? {
      DistinctDown(c.up, Frame(c, b));
      JoinLeaves(c.left, b, c.right);
    }
  }

  /** When a SEQ goes on, there is a next child, and it is fit to be started. */
  lemma {:induction false} NextChild(b: Tree, p: Pid, D: set<Pid>)
    requires b.Node? && b.kind.SEQ? && Consistent(b, D) && Distinct(b) && p in Running(b, D)
    requires FinishL(b.kids, p).complete && b.num - 1 != 0
    ensures ConsistentSeq(FinishL(b.kids, p).tree, b.curr + 1, D + {p})
  {
    FinishSeq(b.kids, b.curr, p, D);
    DoneAllL(b.kids, D + {p});
  }

  // ---------------------------------------------------------------- the order in which nodes are freed

  ghost function PostOrder(b: Tree): seq<Builder> { (if b.Node? then PostOrderL(b.kids) else []) + [b.n] }

  ghost function PostOrderL(l: Trees): seq<Builder> { if l.Nil? then [] else PostOrder(l.head) + PostOrderL(l.tail) }

  /** Each node is freed as often as it occurs in the tree. */
  lemma {:induction false} PostOrderOnce(b: Tree, x: Builder)
    ensures multiset(PostOrder(b))[x] == Cnt(b, x)
  {
    if b.Node? { PostOrderOnceL(b.kids, x); }
  }

  lemma {:induction false} PostOrderOnceL(l: Trees, x: Builder)
    ensures multiset(PostOrderL(l))[x] == CntL(l, x)
  {
    if l.Cons? {
      PostOrderOnce(l.head, x);
      PostOrderOnceL(l.tail, x);
    }
  }

  /** The node x is below y, or in a part of the tree to the left of one that has y. */
  ghost predicate NodeBefore(b: Tree, x: Builder, y: Builder)
    decreases b
  {
    b.Node? && ((y == b.n && CntL(b.kids, x) > 0) || NodeBeforeL(b.kids, x, y))
  }

  ghost predicate NodeBeforeL(l: Trees, x: Builder, y: Builder)
    decreases l
  {
    l.Cons? && ((Cnt(l.head, x) > 0 && CntL(l.tail, y) > 0) || NodeBefore(l.head, x, y) || NodeBeforeL(l.tail, x, y))
  }

  /** A node is freed after all nodes below it, and these child by child in order. */
  lemma {:induction false} PostOrderInOrder(b: Tree, i: nat, j: nat)
    requires i < j < |PostOrder(b)|
    ensures NodeBefore(b, PostOrder(b)[i], PostOrder(b)[j])
    decreases b
  {
    if b.Node? {
      var ns := PostOrderL(b.kids);
      if j == |ns| { PostOrderHas(b.kids, i); } else { PostOrderInOrderL(b.kids, i, j); }
    }
  }

  lemma {:induction false} PostOrderInOrderL(l: Trees, i: nat, j: nat)
    requires i < j < |PostOrderL(l)|
    ensures NodeBeforeL(l, PostOrderL(l)[i], PostOrderL(l)[j])
    decreases l
  {
    var n := |PostOrder(l.head)|;
    if j < n {
      PostOrderInOrder(l.head, i, j);
    } else if n <= i {
      PostOrderInOrderL(l.tail, i - n, j - n);
    } else {
      assert PostOrder(l.head)[i] in multiset(PostOrder(l.head));
      PostOrderOnce(l.head, PostOrder(l.head)[i]);
      PostOrderHas(l.tail, j - n);
    }
  }

  lemma {:induction false} PostOrderHas(l: Trees, i: nat)
    requires i < |PostOrderL(l)|
    ensures CntL(l, PostOrderL(l)[i]) > 0
  {
    assert PostOrderL(l)[i] in multiset(PostOrderL(l));
    PostOrderOnceL(l, PostOrderL(l)[i]);
  }

  ghost function RunProc(r: Option<Pid>): seq<Pid> { if r.Some? then [r.value] else [] }

  // ---------------------------------------------------------------- following the pointers from a node down

  type Fields = map<Builder, Link>

  /** The fields of all nodes of b are in m as they must be below p. */
  ghost predicate Rep(m: Fields, b: Tree, p: Builder?, next: Builder?) {
    b.n in m && m[b.n] == Own(b, p, next) && (b.Node? ==> RepL(m, b.kids, b.n))
  }

  ghost predicate RepL(m: Fields, l: Trees, p: Builder?) {
    l.Cons? ==> Rep(m, l.head, p, HeadOf(l.tail)) && RepL(m, l.tail, p)
  }

  ghost predicate Kept(m: Fields, m': Fields, l: Trees) {
    forall x {:trigger CntL(l, x)} | x in m && CntL(l, x) > 0 :: x in m' && m'[x] == m[x]
  }

  lemma {:induction false} KeptRep(m: Fields, m': Fields, b: Tree, p: Builder?, next: Builder?)
    requires Rep(m, b, p, next) && forall x {:trigger Cnt(b, x)} | x in m && Cnt(b, x) > 0 :: x in m' && m'[x] == m[x]
    ensures Rep(m', b, p, next)
    decreases b
  {
    assert Cnt(b, b.n) > 0;
    if b.Node? {
      forall x | x in m && CntL(b.kids, x) > 0 ensures x in m' && m'[x] == m[x] { assert Cnt(b, x) > 0; }
      KeptRepL(m, m', b.kids, b.n);
    }
  }

  lemma {:induction false} KeptRepL(m: Fields, m': Fields, l: Trees, p: Builder?)
    requires RepL(m, l, p) && Kept(m, m', l)
    ensures RepL(m', l, p)
    decreases l
  {
    if l.Cons? {
      forall x | x in m && Cnt(l.head, x) > 0 ensures x in m' && m'[x] == m[x] { assert CntL(l, x) > 0; }
      forall x | x in m && CntL(l.tail, x) > 0 ensures x in m' && m'[x] == m[x] { assert CntL(l, x) > 0; }
      KeptRep(m, m', l.head, p, HeadOf(l.tail));
      KeptRepL(m, m', l.tail, p);
    }
  }

  /** The child under a cursor. */
  lemma {:induction false} RepAt(m: Fields, l: Trees, p: Builder?, i: nat, D: set<Pid>) returns (kid: Tree, next: Builder?)
    requires RepL(m, l, p) && ConsistentSeq(l, i, D)
    ensures Rep(m, kid, p, next) && kid.n == NthOf(l, i) && RunNth(l, i) == Run(kid) && Size(kid) < SizeL(l)
    ensures Consistent(kid, D)
  {
    if i == 0 { kid, next := l.head, HeadOf(l.tail); } else { kid, next := RepAt(m, l.tail, p, i - 1, D); }
  }

  lemma {:induction false} NextSibling(m: Fields, l: Trees, p: Builder?, i: nat, D: set<Pid>)
    requires RepL(m, l, p) && ConsistentSeq(l, i + 1, D)
    ensures var x := NthOf(l, i); x != null && x in m && m[x].next == NthOf(l, i + 1) != null
  {
    if i > 0 { NextSibling(m, l.tail, p, i - 1, D); }
  }

  /** One execution of a PAR/SEQ tree: its nodes, the scheduler's ready queue, and the nodes given to free. */
  class Execution {
    var ready: seq<Pid>
    var freed: seq<Builder>
    ghost var nodes: set<Builder>
    ghost var tree: Tree

    constructor (ghost ns: set<Builder>, ghost t: Tree)
      ensures ready == [] && freed == [] && nodes == ns && tree == t
    {
      ready, freed, nodes, tree := [], [], ns, t;
    }

    ghost predicate Sees(t: Tree, x: Builder)
      reads x
    {
      Cnt(t, x) == 1 && View(t, null, null, x) == LinkOf(x)
    }

    ghost predicate Within(b: Tree)
      reads this`nodes
    {
      b.n in nodes && (b.Node? ==> WithinL(b.kids))
    }

    ghost predicate WithinL(l: Trees)
      reads this`nodes
    {
      l.Cons? ==> Within(l.head) && WithinL(l.tail)
    }

    ghost predicate Represents()
      reads this`nodes, this`tree, nodes
    {
      Within(tree) && (forall x {:trigger Sees(tree, x)} | x in nodes :: Sees(tree, x))
    }

    ghost function AllFields(): Fields
      reads this`nodes, nodes
    {
      map x | x in nodes :: LinkOf(x)
    }

    lemma {:induction false} PlugWithin(c: Ctx, b: Tree)
      ensures Within(Plug(c, b)) ==> Within(b)
    {
      if c.In? {
        PlugWithin(c.up, Frame(c, b));
        JoinWithin(c.left, b, c.right);
      }
    }

    lemma {:induction false} JoinWithin(l: Trees, b: Tree, r: Trees)
      ensures WithinL(Join(l, b, r)) ==> Within(b)
    {
      if l.Cons? { JoinWithin(l.tail, b, r); }
    }

    lemma {:induction false} RepOf(c: Ctx, b: Tree)
      requires Represents() && tree == Plug(c, b)
      ensures Rep(AllFields(), b, Par(c), NextOf(c)) && LinkOf(b.n) == Own(b, Par(c), NextOf(c))
      decreases b
    {
      PlugWithin(c, b);
      assert Sees(tree, b.n);
      PlugView(c, b, b.n);
      if b.Node? && b.kids.Cons? { RepKids(c, b, Nil, b.kids.head, b.kids.tail); }
    }

    lemma {:induction false} RepKids(c: Ctx, b: Tree, left: Trees, kid: Tree, right: Trees)
      requires Represents() && tree == Plug(c, b) && b.Node? && b.kids == Join(left, kid, right)
      ensures RepL(AllFields(), Cons(kid, right), b.n)
      decreases Cons(kid, right)
    {
      RepOf(In(b.n, b.kind, b.num, b.curr, left, right, c), kid);
      if right.Cons? {
        JoinSnoc(left, kid, right.head, right.tail);
        RepKids(c, b, Snoc(left, kid), right.head, right.tail);
      }
    }

    // -------------------------------------------------------------- csp_runbuild (src/csp.c:72-97)

    method RunBuild(build: Builder, ghost b: Tree, ghost p: Builder?, ghost next: Builder?, ghost D: set<Pid>)
      requires Rep(AllFields(), b, p, next) && b.n == build && Consistent(b, D)
      modifies this`ready
      ensures ready == old(ready) + Run(b) && InOrder(b, Run(b))
      decreases Size(b), 0
    {
      RunInOrder(b);
      assert LinkOf(build) == Own(b, p, next);
      match build.tag
      case PROC_BUILD =>
        ready := ready + [build.proc];
      case PAR_BUILD =>
        RunChilds(build.first, build, b.kids, D);
      case SEQ_BUILD =>
        ghost var kid, after := RepAt(AllFields(), b.kids, build, b.curr, D);
        RunBuild(build.curr_build, kid, build, after, D);
    }

    method RunChilds(first: Builder?, ghost build: Builder, ghost l: Trees, ghost D: set<Pid>)
      requires RepL(AllFields(), l, build) && first == HeadOf(l) && ConsistentPar(l, D)
      modifies this`ready
      ensures ready == old(ready) + RunAll(l)
      decreases SizeL(l), 1
    {
      var child := first;
      ghost var rest, before := l, ready;
      while child != null
        invariant RepL(AllFields(), rest, build) && child == HeadOf(rest) && ConsistentPar(rest, D)
        invariant ready + RunAll(rest) == before + RunAll(l)
        invariant SizeL(rest) <= SizeL(l)
        decreases SizeL(rest)
      {
        assert (ready + Run(rest.head)) + RunAll(rest.tail) == ready + (Run(rest.head) + RunAll(rest.tail));
        RunBuild(child, rest.head, build, HeadOf(rest.tail), D);
        assert LinkOf(child) == Own(rest.head, build, HeadOf(rest.tail));
        rest := rest.tail;
        child := child.next;
      }
      assert ready + [] == ready;
    }

    /** proxc_go without a caller, proxc_run with one (src/proxc.c:168-206). */
    method Start(root: Builder, caller: Option<Pid>)
      requires Within(tree) && tree.n == root && Fresh(tree) && Distinct(tree)
      requires Cnt(tree, root) == 1 && LinkOf(root).(is_root := true) == View(tree, null, null, root)
      requires forall x {:trigger Sees(tree, x)} | x in nodes && x != root :: Sees(tree, x)
      modifies this`ready, root`is_root, root`run_proc
      ensures Represents() && Consistent(tree, {}) && root.run_proc == caller
      ensures ready == old(ready) + Run(tree) && InOrder(tree, Run(tree))
    {
      root.is_root := true;
      root.run_proc := caller;
      forall x | x in nodes ensures Sees(tree, x) {
        assert x != root ==> old(Sees(tree, x));
      }
      RepOf(Top, tree);
      RunStarts(tree, {});
      RunBuild(root, tree, null, null, {});
    }

    /** proc_free hands the leaf of a process that has ended to csp_parsebuild (src/proc.c:88-92). */
    method LeafEnded(leaf: Builder, ghost c: Ctx, ghost D: set<Pid>) returns (complete: bool)
      requires Represents() && leaf.tag == PROC_BUILD && tree == Plug(c, Proc(leaf, leaf.proc))
      requires Consistent(tree, D) && Distinct(tree) && leaf.proc in Running(tree, D)
      modifies this`ready, this`tree, this`freed, nodes`num_childs, nodes`curr_build, nodes`first
      ensures var o := Finish(old(tree), leaf.proc);
        && complete == o.complete
        && tree == o.tree
        && ready == old(ready) + o.ready + (if complete then RunProc(old(tree.n.run_proc)) else [])
        && freed == old(freed) + (if complete then PostOrder(o.tree) else [])
        && (!complete ==> Represents())
        && InOrder(tree, o.ready)
      ensures Consistent(tree, D + {leaf.proc}) && Distinct(tree) && Leaves(tree) == Leaves(old(tree))
      ensures complete <==> Leaves(tree) <= D + {leaf.proc}
    {
      ghost var t, D' := tree, D + {leaf.proc};
      FinishAdvances(t, leaf.proc, D);
      SameShape(Finish(t, leaf.proc).tree, t, D');
      FinishInOrder(t, leaf.proc);
      SameInOrder(t, Finish(t, leaf.proc).tree, Finish(t, leaf.proc).ready);
      DoneAll(t, D');
      complete := ParseBuild(leaf, c, Proc(leaf, leaf.proc), Proc(leaf, leaf.proc), leaf.proc, D);
    }

    // -------------------------------------------------------------- csp_parsebuild (src/csp.c:137-196)

    /** Only the counter and the cursor of b's root change. */
    method SetCounts(build: Builder, num: int, ghost curr: nat, to: Builder?, ghost c: Ctx, ghost b: Tree)
      requires Represents() && tree == Plug(c, b) && b.Node? && b.n == build
      requires b.kind.SEQ? ==> to == NthOf(b.kids, curr)
      modifies this`tree, build`num_childs, build`curr_build
      ensures Represents() && tree == Plug(c, b.(num := num, curr := curr))
      ensures build.num_childs == num
    {
      ghost var before, b' := tree, b.(num := num, curr := curr);
      PlugWithin(c, b);
      assert Sees(tree, build);
      PlugView(c, b, build);
      build.num_childs := num;
      build.curr_build := to;
      tree := Plug(c, b');
      WithinSame(c, b, b');
      forall x | x in nodes ensures Sees(tree, x) {
        assert old(Sees(before, x));
        PlugCnt(c, b, x);
        if x == build {
          PlugCnt(c, b', x);
          PlugView(c, b', x);
        } else {
          PlugSame(c, b, b', x);
        }
      }
    }

    lemma {:induction false} WithinSame(c: Ctx, b: Tree, b': Tree)
      requires Within(Plug(c, b)) && (Within(b) ==> Within(b'))
      ensures Within(Plug(c, b'))
    {
      if c.In? {
        JoinWithinSame(c.left, b, b', c.right);
        WithinSame(c.up, Frame(c, b), Frame(c, b'));
      }
    }

    lemma {:induction false} JoinWithinSame(l: Trees, b: Tree, b': Tree, r: Trees)
      requires Within(b) ==> Within(b')
      ensures WithinL(Join(l, b, r)) ==> WithinL(Join(l, b', r))
    {
      if l.Cons? { JoinWithinSame(l.tail, b, b', r); }
    }

    /** One node's share of csp_parsebuild; b0 is what the node's subtree was before the process p ended, and b what
        the completions below have made of it. */
    method ParseBuild(build: Builder, ghost c: Ctx, ghost b0: Tree, ghost b: Tree, ghost p: Pid, ghost D: set<Pid>)
      returns (complete: bool)
      requires Represents() && tree == Plug(c, b) && b.n == build
      requires Consistent(Plug(c, b0), D) && Distinct(Plug(c, b0)) && p in Running(Plug(c, b0), D) && p in Leaves(b0)
      requires if b0.Proc? then b == b0 else FinishL(b0.kids, p).complete && b == b0.(kids := FinishL(b0.kids, p).tree)
      modifies this`ready, this`tree, this`freed, nodes`num_childs, nodes`curr_build, nodes`first
      ensures var o := Finish(Plug(c, b0), p);
        && complete == o.complete
        && tree == o.tree
        && ready == old(ready) + o.ready + (if complete then RunProc(old(tree.n.run_proc)) else [])
        && freed == old(freed) + (if complete then PostOrder(o.tree) else [])
        && (!complete ==> Represents())
      decreases c
    {
      PlugRunning(c, b0, p, D);
      PlugFinish(c, b0, p);
      PlugWithin(c, b);
      var build_done := CountDown(build, c, b0, b, p, D);
      if build_done {
        ghost var b' := Finish(b0, p).tree;
        RepOf(c, b');
        RootSame(c, b, b');
        if build.is_root {
          FinishRoot(build, b');
          return true;
        } else {
          JoinLeaves(c.left, b0, c.right);
          complete := ParseBuild(build.parent, c.up, Frame(c, b0), Frame(c, b'), p, D);
        }
      } else {
        return false;
      }
    }

    static lemma {:induction false} RootSame(c: Ctx, b: Tree, b': Tree)
      requires b.n == b'.n
      ensures Plug(c, b).n == Plug(c, b').n && (c.Top? ==> Plug(c, b).n == b.n)
    {
      if c.In? { RootSame(c.up, Frame(c, b), Frame(c, b')); }
    }

    /** The switch at the start of csp_parsebuild: the node's own counter and cursor. */
    method CountDown(build: Builder, ghost c: Ctx, ghost b0: Tree, ghost b: Tree, ghost p: Pid, ghost D: set<Pid>)
      returns (build_done: bool)
      requires Represents() && tree == Plug(c, b) && b.n == build
      requires Consistent(b0, D) && Distinct(b0) && p in Running(b0, D)
      requires if b0.Proc? then b == b0 else FinishL(b0.kids, p).complete && b == b0.(kids := FinishL(b0.kids, p).tree)
      modifies this`ready, this`tree, build`num_childs, build`curr_build
      ensures var o := Finish(b0, p);
        Represents() && tree == Plug(c, o.tree) && build_done == o.complete && ready == old(ready) + o.ready
    {
      RepOf(c, b);
      match build.tag {
        case PROC_BUILD =>
          return true;
        case PAR_BUILD =>
          SetCounts(build, build.num_childs - 1, b.curr, build.curr_build, c, b);
          return build.num_childs == 0;
        case SEQ_BUILD =>
          SetCounts(build, build.num_childs - 1, b.curr, build.curr_build, c, b);
          if build.num_childs == 0 {
            return true;
          }
          NextChild(b0, p, D);
          StartNext(build, c, b.(num := b.num - 1), D + {p});
          return false;
      }
    }

    /** A SEQ goes on to the next child. */
    method StartNext(build: Builder, ghost c: Ctx, ghost b: Tree, ghost D: set<Pid>)
      requires Represents() && tree == Plug(c, b) && b.n == build && b.Node? && b.kind.SEQ?
      requires ConsistentSeq(b.kids, b.curr + 1, D)
      modifies this`ready, this`tree, build`num_childs, build`curr_build
      ensures Represents() && tree == Plug(c, b.(curr := b.curr + 1))
      ensures ready == old(ready) + RunNth(b.kids, b.curr + 1)
    {
      RepOf(c, b);
      NextSibling(AllFields(), b.kids, build, b.curr, D);
      ghost var kid, after := RepAt(AllFields(), b.kids, build, b.curr + 1, D);
      var cbuild := build.curr_build.next;
      RunBuild(cbuild, kid, build, after, D);
      SetCounts(build, build.num_childs, b.curr + 1, cbuild, c, b);
    }

    // -------------------------------------------------------------- csp_cleanupbuild (src/csp.c:99-135)

    /** The whole tree is complete: the caller of RUN, if any, is made ready, and every node is freed. */
    method FinishRoot(build: Builder, ghost b: Tree)
      requires Represents() && tree == b && b.n == build
      modifies this`ready, this`freed, nodes`first
      ensures freed == old(freed) + PostOrder(b) && ready == old(ready) + RunProc(build.run_proc)
    {
      if build.run_proc.Some? {
        ready := ready + [build.run_proc.value];
      }
      RepOf(Top, b);
      forall x | x in nodes ensures Cnt(b, x) == 1 { assert Sees(tree, x); }
      Cleanup(build, b, null, null);
    }

    method Cleanup(build: Builder, ghost b: Tree, ghost p: Builder?, ghost next: Builder?)
      requires Rep(AllFields(), b, p, next) && b.n == build
      requires forall x {:trigger Cnt(b, x)} | x in nodes :: Cnt(b, x) <= 1
      modifies this`freed, nodes`first
      ensures freed == old(freed) + PostOrder(b)
      ensures forall x {:trigger x.first} | x in nodes && Cnt(b, x) == 0 :: x.first == old(x.first)
      decreases Size(b), 0
    {
      assert LinkOf(build) == Own(b, p, next);
      if build.tag != PROC_BUILD {
        CleanupChilds(build, b);
      }
      freed := freed + [build];
    }

    method CleanupChilds(build: Builder, ghost b: Tree)
      requires b.Node? && b.n == build && build in nodes && build.first == HeadOf(b.kids) && RepL(AllFields(), b.kids, build)
      requires forall x {:trigger Cnt(b, x)} | x in nodes :: Cnt(b, x) <= 1
      modifies this`freed, nodes`first
      ensures freed == old(freed) + PostOrderL(b.kids)
      ensures forall x {:trigger x.first} | x in nodes && Cnt(b, x) == 0 :: x.first == old(x.first)
      decreases SizeL(b.kids), 1
    {
      ghost var rest, before := b.kids, freed;
      while build.first != null
        invariant RepL(AllFields(), rest, build) && build.first == HeadOf(rest)
        invariant freed + PostOrderL(rest) == before + PostOrderL(b.kids)
        invariant SizeL(rest) <= SizeL(b.kids)
        invariant AtMost(rest, b.kids)
        invariant forall x {:trigger x.first} | x in nodes && Cnt(b, x) == 0 :: x.first == old(x.first)
        decreases SizeL(rest)
      {
        ghost var h, t := rest.head, rest.tail;
        ChildrenApart(b, h, t);
        assert (freed + PostOrder(h)) + PostOrderL(t) == freed + (PostOrder(h) + PostOrderL(t));
        CleanupFirst(build, rest);
        rest := t;
      }
      assert freed + [] == freed;
    }

    ghost predicate AtMost(l: Trees, m: Trees)
      reads this`nodes
    {
      forall x {:trigger CntL(l, x)} | x in nodes :: CntL(l, x) <= CntL(m, x)
    }

    lemma {:induction false} ChildrenApart(b: Tree, h: Tree, t: Trees)
      requires b.Node? && b.n in nodes && AtMost(Cons(h, t), b.kids)
      requires forall x {:trigger Cnt(b, x)} | x in nodes :: Cnt(b, x) <= 1
      ensures forall x {:trigger Cnt(h, x)} {:trigger CntL(t, x)} | x in nodes :: Cnt(h, x) + CntL(t, x) <= 1
      ensures Cnt(h, b.n) + CntL(t, b.n) == 0 && AtMost(t, b.kids)
      ensures forall x {:trigger Cnt(b, x)} {:trigger Cnt(h, x)} | x in nodes && Cnt(b, x) == 0 :: Cnt(h, x) == 0
    {
      forall x | x in nodes ensures Cnt(h, x) + CntL(t, x) <= CntL(b.kids, x) && Cnt(b, x) == (if b.n == x then 1 else 0) + CntL(b.kids, x) {
        assert CntL(Cons(h, t), x) <= CntL(b.kids, x);
      }
    }

    /** The first child is taken off the queue and cleaned up. */
    method CleanupFirst(build: Builder, ghost l: Trees)
      requires build in nodes && l.Cons? && RepL(AllFields(), l, build) && build.first == l.head.n
      requires Cnt(l.head, build) + CntL(l.tail, build) == 0
      requires forall x {:trigger Cnt(l.head, x)} {:trigger CntL(l.tail, x)} | x in nodes :: Cnt(l.head, x) + CntL(l.tail, x) <= 1
      modifies this`freed, nodes`first
      ensures RepL(AllFields(), l.tail, build) && build.first == HeadOf(l.tail)
      ensures freed == old(freed) + PostOrder(l.head)
      ensures forall x {:trigger x.first} | x in nodes && x != build && Cnt(l.head, x) == 0 :: x.first == old(x.first)
      decreases SizeL(l), 0
    {
      ghost var h, t, m := l.head, l.tail, AllFields();
      var child := build.first;
      assert LinkOf(child) == Own(h, build, HeadOf(t));
      build.first := child.next;
      KeptRep(m, AllFields(), h, build, HeadOf(t));
      KeptRepL(m, AllFields(), t, build);
      m := AllFields();
      Cleanup(child, h, build, HeadOf(t));
      KeptRepL(m, AllFields(), t, build);
    }
  }
}
