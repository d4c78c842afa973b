/**
 PAR and SEQ trees: what they mean, and the counters and cursors that src/csp.c runs them with.

 The meaning is a function of the set D of processes that have ended: `Running(b, D)`.  The machine is
 `Run` (csp_runbuild) and `Finish` (csp_parsebuild, from a leaf up to where it stops).
 */
module SeriesParallel {

  type Pid = nat

  datatype Kind = PAR | SEQ

  /** A builder node n: a leaf with its process, or a composite with its counter, cursor and children. */
  datatype Build<N> = Proc(n: N, p: Pid) | Node(n: N, kind: Kind, num: int, curr: nat, kids: Builds<N>)
  datatype Builds<N> = Nil | Cons(head: Build<N>, tail: Builds<N>)

  function Len<N>(l: Builds<N>): nat { if l.Nil? then 0 else 1 + Len(l.tail) }

  function Leaves<N>(b: Build<N>): set<Pid> {
    match b
    case Proc(_, p) => {p}
    case Node(_, _, _, _, kids) => LeavesL(kids)
  }

  function LeavesL<N>(l: Builds<N>): set<Pid> { if l.Nil? then {} else Leaves(l.head) + LeavesL(l.tail) }

  /** No process occurs in two places. */
  ghost predicate Distinct<N>(b: Build<N>) { b.Node? ==> DistinctL(b.kids) }

  ghost predicate DistinctL<N>(l: Builds<N>) {
    l.Cons? ==> Leaves(l.head) !! LeavesL(l.tail) && Distinct(l.head) && DistinctL(l.tail)
  }

  /** As proxc_par and proxc_seq leave it (src/proxc.c:104-165), every composite having a child. */
  ghost predicate Fresh<N>(b: Build<N>) {
    b.Node? ==> b.kids.Cons? && b.num == Len(b.kids) && b.curr == 0 && FreshL(b.kids)
  }

  ghost predicate FreshL<N>(l: Builds<N>) { l.Cons? ==> Fresh(l.head) && FreshL(l.tail) }

  // ---------------------------------------------------------------- the meaning

  predicate Done<N>(b: Build<N>, D: set<Pid>) {
    match b
    case Proc(_, p) => p in D
    case Node(_, _, _, _, kids) => DoneL(kids, D)
  }

  predicate DoneL<N>(l: Builds<N>, D: set<Pid>) { l.Cons? ==> Done(l.head, D) && DoneL(l.tail, D) }

  /** The leaves that run once exactly the processes in D have ended: all of a PAR, the first unfinished of a SEQ. */
  function Running<N>(b: Build<N>, D: set<Pid>): set<Pid> {
    match b
    case Proc(_, p) => if p in D then {} else {p}
    case Node(_, kind, _, _, kids) => if kind.PAR? then RunningPar(kids, D) else RunningSeq(kids, D)
  }

  function RunningPar<N>(l: Builds<N>, D: set<Pid>): set<Pid> {
    if l.Nil? then {} else Running(l.head, D) + RunningPar(l.tail, D)
  }

  function RunningSeq<N>(l: Builds<N>, D: set<Pid>): set<Pid> {
    if l.Nil? then {} else if Done(l.head, D) then RunningSeq(l.tail, D) else Running(l.head, D)
  }

  /** The tree without counters and cursors. */
  function Shape<N>(b: Build<N>): Build<N> {
    match b
    case Proc(_, _) => b
    case Node(n, kind, _, _, kids) => Node(n, kind, 0, 0, ShapeL(kids))
  }

  function ShapeL<N>(l: Builds<N>): Builds<N> { if l.Nil? then Nil else Cons(Shape(l.head), ShapeL(l.tail)) }

  // ---------------------------------------------------------------- the machine

  /** csp_runbuild: the processes made ready, in order (src/csp.c:72-97). */
  function Run<N>(b: Build<N>): seq<Pid> {
    match b
    case Proc(_, p) => [p]
    case Node(_, kind, _, curr, kids) => if kind.PAR? then RunAll(kids) else RunNth(kids, curr)
  }

  function RunAll<N>(l: Builds<N>): seq<Pid> { if l.Nil? then [] else Run(l.head) + RunAll(l.tail) }

  function RunNth<N>(l: Builds<N>, i: nat): seq<Pid> {
    if l.Nil? then [] else if i == 0 then Run(l.head) else RunNth(l.tail, i - 1)
  }

  /** What a completion leaves: the tree, the processes made ready, and whether the whole tree is complete. */
  datatype Outcome<T> = Outcome(tree: T, ready: seq<Pid>, complete: bool)

  /** A composite one of whose children has just completed (src/csp.c:150-175). */
  function ChildDone<N>(b: Build<N>): Outcome<Build<N>>
    requires b.Node?
  {
    var num := b.num - 1;
    if num == 0 then Outcome(b.(num := num), [], true)
    else if b.kind.PAR? then Outcome(b.(num := num), [], false)
    else Outcome(b.(num := num, curr := b.curr + 1), RunNth(b.kids, b.curr + 1), false)
  }

  /** csp_parsebuild, called for the leaf of p and then for its parents as far as they complete (src/csp.c:137-196). */
  function Finish<N>(b: Build<N>, p: Pid): Outcome<Build<N>> {
    match b
    case Proc(_, _) => Outcome(b, [], true)
    case Node(_, _, _, _, kids) =>
      var o := FinishL(kids, p);
      if o.complete then ChildDone(b.(kids := o.tree)) else Outcome(b.(kids := o.tree), o.ready, false)
  }

  function FinishL<N>(l: Builds<N>, p: Pid): Outcome<Builds<N>> {
    match l
    case Nil => Outcome(Nil, [], false)
    case Cons(h, t) =>
      if p in Leaves(h) then
        var o := Finish(h, p);
        Outcome(Cons(o.tree, t), o.ready, o.complete)
      else
        var o := FinishL(t, p);
        Outcome(Cons(h, o.tree), o.ready, o.complete)
  }

  // ---------------------------------------------------------------- counters and cursors agree with the meaning

  function Undone<N>(l: Builds<N>, D: set<Pid>): nat {
    if l.Nil? then 0 else (if Done(l.head, D) then 0 else 1) + Undone(l.tail, D)
  }

  /** A started tree after the processes in D have ended: every counter is the number of unfinished children, and
      the cursor of a SEQ is on its only active child, with only finished ones before and untouched ones behind. */
  ghost predicate Consistent<N>(b: Build<N>, D: set<Pid>) {
    b.Node? ==>
      && b.kids.Cons?
      && b.num == Undone(b.kids, D)
      && if b.kind.PAR? then ConsistentPar(b.kids, D) else ConsistentSeq(b.kids, b.curr, D)
  }

  ghost predicate ConsistentPar<N>(l: Builds<N>, D: set<Pid>) {
    l.Cons? ==> Consistent(l.head, D) && ConsistentPar(l.tail, D)
  }

  ghost predicate ConsistentSeq<N>(l: Builds<N>, curr: nat, D: set<Pid>) {
    && l.Cons?
    && if curr == 0 then
         && Consistent(l.head, D) && FreshL(l.tail) && D * LeavesL(l.tail) == {}
         && (Done(l.head, D) ==> l.tail.Nil?)
       else
         Done(l.head, D) && ConsistentSeq(l.tail, curr - 1, D)
  }

  ghost predicate NoDup(s: seq<Pid>) { forall i, j :: 0 <= i < j < |s| ==> s[i] != s[j] }

  ghost function SetOf(s: seq<Pid>): set<Pid> { set x | x in s }

  // ---------------------------------------------------------------- the meaning depends on shape and local completions only

  lemma {:induction false} Local<N>(b: Build<N>, D: set<Pid>, E: set<Pid>)
    requires D * Leaves(b) == E * Leaves(b)
    ensures Done(b, D) == Done(b, E) && Running(b, D) == Running(b, E) && Running(b, D) <= Leaves(b)
    ensures Consistent(b, D) == Consistent(b, E)
  {
    match b
    case Proc(_, p) =>
      assert p in D <==> p in D * Leaves(b);
      assert p in E <==> p in E * Leaves(b);
    case Node(_, kind, _, curr, kids) =>
      LocalL(kids, curr, D, E);
  }

  lemma {:induction false} LocalL<N>(l: Builds<N>, curr: nat, D: set<Pid>, E: set<Pid>)
    requires D * LeavesL(l) == E * LeavesL(l)
    ensures DoneL(l, D) == DoneL(l, E) && RunningPar(l, D) == RunningPar(l, E) && RunningSeq(l, D) == RunningSeq(l, E)
    ensures RunningPar(l, D) <= LeavesL(l) && RunningSeq(l, D) <= LeavesL(l)
    ensures Undone(l, D) == Undone(l, E)
    ensures ConsistentPar(l, D) == ConsistentPar(l, E) && ConsistentSeq(l, curr, D) == ConsistentSeq(l, curr, E)
  {
    if l.Cons? {
      assert D * Leaves(l.head) == D * LeavesL(l) * Leaves(l.head) == E * Leaves(l.head);
      assert D * LeavesL(l.tail) == D * LeavesL(l) * LeavesL(l.tail) == E * LeavesL(l.tail);
      Local(l.head, D, E);
      LocalL(l.tail, if curr == 0 then 0 else curr - 1, D, E);
    }
  }

  lemma {:induction false} SameShape<N>(a: Build<N>, b: Build<N>, D: set<Pid>)
    requires Shape(a) == Shape(b)
    ensures Leaves(a) == Leaves(b) && Done(a, D) == Done(b, D) && Running(a, D) == Running(b, D)
    ensures Distinct(a) == Distinct(b)
  {
    if a.Node? { SameShapeL(a.kids, b.kids, D); }
  }

  lemma {:induction false} SameShapeL<N>(a: Builds<N>, b: Builds<N>, D: set<Pid>)
    requires ShapeL(a) == ShapeL(b)
    ensures LeavesL(a) == LeavesL(b) && DoneL(a, D) == DoneL(b, D)
    ensures RunningPar(a, D) == RunningPar(b, D) && RunningSeq(a, D) == RunningSeq(b, D)
    ensures Undone(a, D) == Undone(b, D) && DistinctL(a) == DistinctL(b)
  {
    if a.Cons? {
      SameShape(a.head, b.head, D);
      SameShapeL(a.tail, b.tail, D);
    }
  }

  lemma {:induction false} DoneAll<N>(b: Build<N>, D: set<Pid>)
    ensures Done(b, D) <==> Leaves(b) <= D
    ensures Done(b, D) ==> Running(b, D) == {}
    ensures Running(b, D) !! D
  {
    if b.Node? { DoneAllL(b.kids, D); }
  }

  lemma {:induction false} DoneAllL<N>(l: Builds<N>, D: set<Pid>)
    ensures DoneL(l, D) <==> LeavesL(l) <= D
    ensures DoneL(l, D) <==> Undone(l, D) == 0
    ensures DoneL(l, D) ==> RunningPar(l, D) == {} && RunningSeq(l, D) == {}
    ensures RunningPar(l, D) !! D && RunningSeq(l, D) !! D
  {
    if l.Cons? {
      DoneAll(l.head, D);
      DoneAllL(l.tail, D);
    }
  }

  lemma NoDupCat(a: seq<Pid>, b: seq<Pid>)
    requires NoDup(a) && NoDup(b) && SetOf(a) !! SetOf(b)
    ensures NoDup(a + b) && SetOf(a + b) == SetOf(a) + SetOf(b)
  {
    forall i, j | 0 <= i < j < |a + b| ensures (a + b)[i] != (a + b)[j] {
      if i < |a| <= j {
        assert a[i] in SetOf(a) && b[j - |a|] in SetOf(b);
      }
    }
  }

  // ---------------------------------------------------------------- starting a tree

  /** csp_runbuild on an untouched tree readies exactly the leaves that are to run, each once. */
  lemma {:induction false} RunStarts<N>(b: Build<N>, D: set<Pid>)
    requires Fresh(b) && Distinct(b) && Leaves(b) !! D
    ensures SetOf(Run(b)) == Running(b, D) != {} && NoDup(Run(b))
    ensures Consistent(b, D) && !Done(b, D) && Running(b, D) <= Leaves(b)
  {
    match b
    case Proc(_, p) =>
    case Node(_, kind, _, _, kids) =>
      RunAllStarts(kids, D);
      RunStarts(kids.head, D);
  }

  lemma {:induction false} RunAllStarts<N>(l: Builds<N>, D: set<Pid>)
    requires FreshL(l) && DistinctL(l) && LeavesL(l) !! D
    ensures SetOf(RunAll(l)) == RunningPar(l, D) <= LeavesL(l) && NoDup(RunAll(l))
    ensures ConsistentPar(l, D) && Undone(l, D) == Len(l)
    ensures l.Cons? ==> RunningPar(l, D) != {}
  {
    if l.Cons? {
      RunStarts(l.head, D);
      RunAllStarts(l.tail, D);
      NoDupCat(Run(l.head), RunAll(l.tail));
    }
  }

  // ---------------------------------------------------------------- a process of the tree ends

  /** What one completion does: exactly the leaves that may run now and did not before are made ready, each once. */
  ghost predicate Advances(before: set<Pid>, after: set<Pid>, p: Pid, ready: seq<Pid>) {
    && NoDup(ready)
    && SetOf(ready) !! before
    && after == before - {p} + SetOf(ready)
  }

  lemma {:induction false} FinishAdvances<N>(b: Build<N>, p: Pid, D: set<Pid>)
    requires Consistent(b, D) && Distinct(b) && p in Running(b, D)
    ensures var o := Finish(b, p);
      && Shape(o.tree) == Shape(b)
      && Consistent(o.tree, D + {p})
      && (o.complete <==> Done(b, D + {p}))
      && (o.complete ==> o.ready == [])
      && Advances(Running(b, D), Running(b, D + {p}), p, o.ready)
  {
    match b
    case Proc(_, _) =>
      assert SetOf([]) == {};
    case Node(_, kind, num, curr, kids) =>
      Local(b, D, D);
      DoneAllL(kids, D);
      DoneAllL(kids, D + {p});
      if kind.PAR? {
        FinishPar(kids, p, D);
        SameShapeL(FinishL(kids, p).tree, kids, D + {p});
      } else {
        FinishSeq(kids, curr, p, D);
        SameShapeL(FinishL(kids, p).tree, kids, D + {p});
      }
  }

  lemma {:induction false} FinishPar<N>(l: Builds<N>, p: Pid, D: set<Pid>)
    requires ConsistentPar(l, D) && DistinctL(l) && p in RunningPar(l, D)
    ensures var o := FinishL(l, p);
      && ShapeL(o.tree) == ShapeL(l)
      && ConsistentPar(o.tree, D + {p})
      && Undone(l, D + {p}) == Undone(l, D) - (if o.complete then 1 else 0)
      && (o.complete ==> o.ready == [])
      && Advances(RunningPar(l, D), RunningPar(l, D + {p}), p, o.ready)
  {
    LocalL(l, 0, D, D);
    Local(l.head, D, D);
    LocalL(l.tail, 0, D, D);
    DoneAll(l.head, D);
    if p in Leaves(l.head) {
      FinishAdvances(l.head, p, D);
      LocalL(l.tail, 0, D, D + {p});
      Local(l.head, D + {p}, D + {p});
    } else {
      FinishPar(l.tail, p, D);
      Local(l.head, D, D + {p});
      LocalL(l.tail, 0, D + {p}, D + {p});
    }
  }

  /** In a SEQ the completing process is in the child under the cursor. */
  lemma {:induction false} FinishSeq<N>(l: Builds<N>, curr: nat, p: Pid, D: set<Pid>)
    requires ConsistentSeq(l, curr, D) && DistinctL(l) && p in RunningSeq(l, D)
    ensures var o := FinishL(l, p);
      && ShapeL(o.tree) == ShapeL(l)
      && Undone(l, D + {p}) == Undone(l, D) - (if o.complete then 1 else 0)
      && (o.complete ==> o.ready == [])
      && (!o.complete ==> ConsistentSeq(o.tree, curr, D + {p}) && Advances(RunningSeq(l, D), RunningSeq(l, D + {p}), p, o.ready))
      && (o.complete && !DoneL(l, D + {p}) ==>
            && ConsistentSeq(o.tree, curr + 1, D + {p})
            && Advances(RunningSeq(l, D), RunningSeq(l, D + {p}), p, RunNth(o.tree, curr + 1)))
      && (o.complete && DoneL(l, D + {p}) ==> ConsistentSeq(o.tree, curr, D + {p}) && RunningSeq(l, D) == {p})
  {
    var D' := D + {p};
    Local(l.head, D, D);
    LocalL(l.tail, 0, D, D);
    if curr > 0 {
      Local(l.head, D, D');
      FinishSeq(l.tail, curr - 1, p, D);
    } else {
      FinishAdvances(l.head, p, D);
      SameShape(Finish(l.head, p).tree, l.head, D');
      LocalL(l.tail, 0, D, D');
      DoneAll(l.head, D');
      DoneAllL(l.tail, D);
      if l.tail.Cons? {
        RunAllStarts(l.tail, D');
        RunStarts(l.tail.head, D');
        assert RunNth(FinishL(l, p).tree, 1) == RunNth(l.tail, 0) == Run(l.tail.head);
      }
    }
  }

  // ---------------------------------------------------------------- series-parallel order

  /** The lowest common ancestor of the leaves x and y is a SEQ with x to the left. */
  predicate Precedes<N>(b: Build<N>, x: Pid, y: Pid)
    decreases b
  {
    b.Node? && PrecedesL(b.kind, b.kids, x, y)
  }

  predicate PrecedesL<N>(kind: Kind, l: Builds<N>, x: Pid, y: Pid)
    decreases l
  {
    l.Cons? && (
      || (kind.SEQ? && x in Leaves(l.head) && y in LeavesL(l.tail))
      || Precedes(l.head, x, y)
      || PrecedesL(kind, l.tail, x, y))
  }

  lemma {:induction false} PrecedesLeaves<N>(b: Build<N>, x: Pid, y: Pid)
    ensures Precedes(b, x, y) ==> x in Leaves(b) && y in Leaves(b)
    decreases b
  {
    if b.Node? { PrecedesLeavesL(b.kind, b.kids, x, y); }
  }

  lemma {:induction false} PrecedesLeavesL<N>(kind: Kind, l: Builds<N>, x: Pid, y: Pid)
    ensures PrecedesL(kind, l, x, y) ==> x in LeavesL(l) && y in LeavesL(l)
    decreases l
  {
    if l.Cons? {
      PrecedesLeaves(l.head, x, y);
      PrecedesLeavesL(kind, l.tail, x, y);
    }
  }

  /** A leaf runs exactly when it has not ended and everything that precedes it has. */
  ghost predicate Enabled<N>(b: Build<N>, y: Pid, D: set<Pid>) {
    y !in D && forall x :: Precedes(b, x, y) ==> x in D
  }

  lemma {:induction false} RunningIsEnabled<N>(b: Build<N>, y: Pid, D: set<Pid>)
    requires Distinct(b) && y in Leaves(b)
    ensures y in Running(b, D) <==> Enabled(b, y, D)
    decreases b
  {
    if b.Node? {
      RunningIsEnabledL(b.kind, b.kids, y, D);
      assert forall x :: Precedes(b, x, y) <==> PrecedesL(b.kind, b.kids, x, y);
    }
  }

  lemma {:induction false} RunningIsEnabledL<N>(kind: Kind, l: Builds<N>, y: Pid, D: set<Pid>)
    requires DistinctL(l) && y in LeavesL(l)
    ensures y in (if kind.PAR? then RunningPar(l, D) else RunningSeq(l, D))
        <==> y !in D && forall x :: PrecedesL(kind, l, x, y) ==> x in D
    decreases l
  {
    Local(l.head, D, D);
    LocalL(l.tail, 0, D, D);
    DoneAll(l.head, D);
    DoneAllL(l.tail, D);
    forall x ensures Precedes(l.head, x, y) ==> y in Leaves(l.head) { PrecedesLeaves(l.head, x, y); }
    forall x ensures PrecedesL(kind, l.tail, x, y) ==> y in LeavesL(l.tail) { PrecedesLeavesL(kind, l.tail, x, y); }
    if y in Leaves(l.head) {
      RunningIsEnabled(l.head, y, D);
    } else {
      RunningIsEnabledL(kind, l.tail, y, D);
    }
  }

  // ---------------------------------------------------------------- whole runs

  /** A tree in execution: the processes made ready so far, in order, and how often its completion was reported. */
  datatype Progress<N> = Progress(tree: Build<N>, started: seq<Pid>, completions: nat)

  /** The end of p. */
  ghost function Advanced<N>(s: Progress<N>, p: Pid): Progress<N> {
    var o := Finish(s.tree, p);
    Progress(o.tree, s.started + o.ready, s.completions + if o.complete then 1 else 0)
  }

  /** RUN or GO of b, followed by the ends of the processes ps in that order. */
  ghost function After<N>(b: Build<N>, ps: seq<Pid>): Progress<N> {
    if ps == [] then Progress(b, Run(b), 0) else Advanced(After(b, ps[..|ps| - 1]), ps[|ps| - 1])
  }

  /** In every run, only a process that has been made ready and has not ended yet can end. */
  ghost predicate IsRun<N>(b: Build<N>, ps: seq<Pid>) {
    ps != [] ==>
      var q := ps[..|ps| - 1];
      IsRun(b, q) && ps[|ps| - 1] in After(b, q).started && ps[|ps| - 1] !in q
  }

  /** What was started is what has ended and what the meaning says is running, each once; the counters and cursors are
      right; and completion has been reported once iff every leaf has ended. */
  ghost predicate Follows<N>(b: Build<N>, s: Progress<N>, D: set<Pid>) {
    && Shape(s.tree) == Shape(b) && Consistent(s.tree, D)
    && NoDup(s.started) && SetOf(s.started) == Running(b, D) + D
    && s.completions == (if Done(b, D) then 1 else 0)
    && D <= Leaves(b)
  }

  /** After any run the machine is where the meaning says. */
  lemma {:induction false} RunFollowsMeaning<N>(b: Build<N>, ps: seq<Pid>)
    requires Fresh(b) && Distinct(b) && IsRun(b, ps)
    ensures Follows(b, After(b, ps), SetOf(ps)) && NoDup(ps)
    decreases |ps|
  {
    if ps == [] {
      FollowsStart(b);
    } else {
      var q, p := ps[..|ps| - 1], ps[|ps| - 1];
      RunFollowsMeaning(b, q);
      SetOfNext(q, p);
      assert ps == q + [p];
      assert p in SetOf(After(b, q).started) && p !in SetOf(q);
      FollowsStep(b, After(b, q), p, SetOf(q));
    }
  }

  lemma {:induction false} FollowsStart<N>(b: Build<N>)
    requires Fresh(b) && Distinct(b)
    ensures Follows(b, Progress(b, Run(b), 0), SetOf([]))
  {
    assert SetOf([]) == {};
    RunStarts(b, {});
  }

  lemma SetOfNext(q: seq<Pid>, p: Pid)
    requires NoDup(q) && p !in q
    ensures NoDup(q + [p]) && SetOf(q + [p]) == SetOf(q) + {p}
  {
  }

  lemma {:induction false} FollowsStep<N>(b: Build<N>, s: Progress<N>, p: Pid, D: set<Pid>)
    requires Distinct(b) && Follows(b, s, D) && p in SetOf(s.started) && p !in D
    ensures Follows(b, Advanced(s, p), D + {p})
  {
    var o := Finish(s.tree, p);
    SameShape(s.tree, b, D);
    SameShape(s.tree, b, D + {p});
    DoneAll(b, D);
    FinishAdvances(s.tree, p, D);
    NewlyStarted(b, s.started, o.ready, p, D);
    Local(b, D, D);
  }

  lemma NewlyStarted<N>(b: Build<N>, started: seq<Pid>, ready: seq<Pid>, p: Pid, D: set<Pid>)
    requires NoDup(started) && SetOf(started) == Running(b, D) + D && p in Running(b, D)
    requires Advances(Running(b, D), Running(b, D + {p}), p, ready)
    ensures NoDup(started + ready) && SetOf(started + ready) == Running(b, D + {p}) + (D + {p})
  {
    DoneAll(b, D + {p});
    assert forall x :: x in SetOf(ready) ==> x in Running(b, D + {p}) && x !in D + {p};
    NoDupCat(started, ready);
  }

  /** Series composition: a leaf is not started before everything that precedes it has ended. */
  lemma {:induction false} SeriesOrder<N>(b: Build<N>, ps: seq<Pid>, x: Pid, y: Pid)
    requires Fresh(b) && Distinct(b) && IsRun(b, ps) && Precedes(b, x, y)
    ensures y in After(b, ps).started ==> x in ps
    decreases |ps|
  {
    RunFollowsMeaning(b, ps);
    var D := SetOf(ps);
    PrecedesLeaves(b, x, y);
    RunningIsEnabled(b, y, D);
    assert y in After(b, ps).started ==> y in SetOf(After(b, ps).started);
    if y in D {
      var q, p := ps[..|ps| - 1], ps[|ps| - 1];
      assert ps == q + [p];
      RunFollowsMeaning(b, q);
      assert y == p || y in SetOf(q);
      assert y in SetOf(After(b, q).started);
      SeriesOrder(b, q, x, y);
    }
  }

  /** Progress: an unfinished tree has a running leaf, and each end leaves fewer leaves to go. */
  lemma {:induction false} RunProgress<N>(b: Build<N>, ps: seq<Pid>)
    requires Fresh(b) && Distinct(b) && IsRun(b, ps)
    ensures |ps| <= |Leaves(b)|
    ensures |ps| < |Leaves(b)| <==> Running(b, SetOf(ps)) != {}
    ensures |ps| == |Leaves(b)| <==> After(b, ps).completions == 1
  {
    RunFollowsMeaning(b, ps);
    var D := SetOf(ps);
    Cardinality(ps);
    DoneAll(b, D);
    SubsetSize(D, Leaves(b));
    if !Done(b, D) { Unfinished(b, D); }
  }

  lemma {:induction false} Unfinished<N>(b: Build<N>, D: set<Pid>)
    requires !Done(b, D)
    ensures Running(b, D) != {}
  {
    if b.Node? { UnfinishedL(b.kids, D); }
  }

  lemma {:induction false} UnfinishedL<N>(l: Builds<N>, D: set<Pid>)
    requires !DoneL(l, D)
    ensures RunningPar(l, D) != {} && RunningSeq(l, D) != {}
  {
    if Done(l.head, D) { UnfinishedL(l.tail, D); } else { Unfinished(l.head, D); }
  }

  lemma {:induction false} Cardinality(s: seq<Pid>)
    requires NoDup(s)
    ensures |SetOf(s)| == |s|
  {
    if s == [] {
      assert SetOf(s) == {};
    } else {
      var q := s[..|s| - 1];
      Cardinality(q);
      assert s == q + [s[|s| - 1]];
      assert SetOf(s) == SetOf(q) + {s[|s| - 1]};
    }
  }

  lemma SubsetSize(a: set<Pid>, b: set<Pid>)
    requires a <= b
    ensures |a| <= |b| && (|a| == |b| <==> a == b)
  {
    assert b == a + (b - a);
    assert |b| == |a| + |b - a|;
  }

  /** The order in which processes end does not matter for what is running. */
  lemma {:induction false} OrderIrrelevant<N>(b: Build<N>, ps: seq<Pid>, qs: seq<Pid>)
    requires Fresh(b) && Distinct(b) && IsRun(b, ps) && IsRun(b, qs) && SetOf(ps) == SetOf(qs)
    ensures SetOf(After(b, ps).started) == SetOf(After(b, qs).started)
    ensures After(b, ps).completions == After(b, qs).completions
  {
    RunFollowsMeaning(b, ps);
    RunFollowsMeaning(b, qs);
  }
}
