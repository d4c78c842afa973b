/**
 What PAR and SEQ build, and which processes RUN, GO and the end of a process make ready, in which order: said by the
 relations `Precedes` and `LeftOf` between the leaves.
 */
module Launching {
  import opened Channels
  import opened Runtime
  import opened Forest
  import opened Placement
  import opened Invariant
  import opened Joining
  import opened Wrappers
  import opened LeafOrder

  // ---------------------------------------------------------------- PAR and SEQ

  /** x and y are leaves of two of the trees ts, that of x being named first. */
  ghost predicate Across(trees: map<Tid, Job>, ts: seq<Tid>, x: Pid, y: Pid) {
    exists i, j :: 0 <= i < j < |ts| && ts[i] in trees && ts[j] in trees
      && x in SP.Leaves(trees[ts[i]].build) && y in SP.Leaves(trees[ts[j]].build)
  }

  ghost predicate OneHas(trees: map<Tid, Job>, ts: seq<Tid>, x: Pid) {
    exists i :: 0 <= i < |ts| && ts[i] in trees && x in SP.Leaves(trees[ts[i]].build)
  }

  ghost predicate OnePrecedes(trees: map<Tid, Job>, ts: seq<Tid>, x: Pid, y: Pid) {
    exists i :: 0 <= i < |ts| && ts[i] in trees && SP.Precedes(trees[ts[i]].build, x, y)
  }

  ghost predicate OneLeftOf(trees: map<Tid, Job>, ts: seq<Tid>, x: Pid, y: Pid) {
    exists i :: 0 <= i < |ts| && ts[i] in trees && LeftOf(trees[ts[i]].build, x, y)
  }

  /** One more tree in front. */
  lemma {:induction false} MoreTrees(trees: map<Tid, Job>, ts: seq<Tid>, x: Pid, y: Pid)
    requires ts != [] && ts[0] in trees
    ensures var b := trees[ts[0]].build;
      && (OneHas(trees, ts, x) <==> x in SP.Leaves(b) || OneHas(trees, ts[1..], x))
      && (OnePrecedes(trees, ts, x, y) <==> SP.Precedes(b, x, y) || OnePrecedes(trees, ts[1..], x, y))
      && (OneLeftOf(trees, ts, x, y) <==> LeftOf(b, x, y) || OneLeftOf(trees, ts[1..], x, y))
  {
    assert forall i :: 0 <= i < |ts[1..]| ==> ts[1..][i] == ts[i + 1];
    assert forall i :: 0 < i < |ts| ==> ts[i] == ts[1..][i - 1];
  }

  lemma {:induction false} MoreAcross(trees: map<Tid, Job>, ts: seq<Tid>, x: Pid, y: Pid)
    requires ts != [] && ts[0] in trees
    ensures Across(trees, ts, x, y) <==>
      (x in SP.Leaves(trees[ts[0]].build) && OneHas(trees, ts[1..], y)) || Across(trees, ts[1..], x, y)
  {
    var us := ts[1..];
    assert forall i :: 0 <= i < |us| ==> us[i] == ts[i + 1];
    if Across(trees, ts, x, y) {
      var i, j :| 0 <= i < j < |ts| && ts[i] in trees && ts[j] in trees
        && x in SP.Leaves(trees[ts[i]].build) && y in SP.Leaves(trees[ts[j]].build);
      assert us[j - 1] == ts[j];
      if i > 0 { assert us[i - 1] == ts[i]; }
    }
  }

  lemma {:induction false} KidsMean(trees: map<Tid, Job>, ts: seq<Tid>, kind: SP.Kind, x: Pid, y: Pid)
    requires forall i :: 0 <= i < |ts| ==> ts[i] in trees
    ensures var kids := Kids(trees, ts);
      && SP.Len(kids) == |ts|
      && (x in SP.LeavesL(kids) <==> OneHas(trees, ts, x))
      && (SP.PrecedesL(kind, kids, x, y) <==> OnePrecedes(trees, ts, x, y) || (kind.SEQ? && Across(trees, ts, x, y)))
      && (LeftOfL(kids, x, y) <==> OneLeftOf(trees, ts, x, y) || Across(trees, ts, x, y))
  {
    if ts != [] {
      KidsMean(trees, ts[1..], kind, x, y);
      KidsMean(trees, ts[1..], kind, y, x);
      MoreTrees(trees, ts, x, y);
      MoreAcross(trees, ts, x, y);
    }
  }

  /** The tree that PAR or SEQ makes of the trees ts: it has their leaves, a SEQ puts all leaves of each before all of those
      named after it, a PAR adds no precedence, and the leaves are from left to right as the trees were named. */
  ghost predicate Composed(b: Build, trees: map<Tid, Job>, kind: SP.Kind, ts: seq<Tid>) {
    && (forall x {:trigger x in SP.Leaves(b)} :: x in SP.Leaves(b) <==> OneHas(trees, ts, x))
    && (forall x, y {:trigger SP.Precedes(b, x, y)} ::
          SP.Precedes(b, x, y) <==> OnePrecedes(trees, ts, x, y) || (kind.SEQ? && Across(trees, ts, x, y)))
    && (forall x, y {:trigger LeftOf(b, x, y)} :: LeftOf(b, x, y) <==> OneLeftOf(trees, ts, x, y) || Across(trees, ts, x, y))
  }

  /** proxc_par and proxc_seq: the trees named become one, that nobody has started, and no other tree changes. */
  lemma {:induction false} ComposeMeans(s: Sys, kind: SP.Kind, ts: seq<Tid>, t: Tid)
    requires Enabled(s, Compose(kind, ts, t))
    ensures var s' := Next(s, Compose(kind, ts, t));
      && s'.trees.Keys == s.trees.Keys - (set u | u in ts) + {t}
      && (forall u :: u in s'.trees && u != t ==> s'.trees[u] == s.trees[u])
      && Composed(s'.trees[t].build, s.trees, kind, ts) && !s'.trees[t].started && s'.trees[t].run.None?
      && s' == s.(trees := s'.trees, owner := s'.owner)
  {
    var kids := Kids(s.trees, ts);
    assert Next(s, Compose(kind, ts, t)).trees[t].build == SP.Node((), kind, SP.Len(kids), 0, kids);
    NodeMeans(s.trees, kind, ts);
  }

  lemma {:induction false} NodeMeans(trees: map<Tid, Job>, kind: SP.Kind, ts: seq<Tid>)
    requires forall i :: 0 <= i < |ts| ==> ts[i] in trees
    ensures var kids := Kids(trees, ts); Composed(SP.Node((), kind, SP.Len(kids), 0, kids), trees, kind, ts)
  {
    var kids := Kids(trees, ts);
    var b := SP.Node((), kind, SP.Len(kids), 0, kids);
    forall x ensures x in SP.Leaves(b) <==> OneHas(trees, ts, x) { KidsMean(trees, ts, kind, x, x); }
    forall x, y ensures SP.Precedes(b, x, y) <==> OnePrecedes(trees, ts, x, y) || (kind.SEQ? && Across(trees, ts, x, y)) {
      KidsMean(trees, ts, kind, x, y);
    }
    forall x, y ensures LeftOf(b, x, y) <==> OneLeftOf(trees, ts, x, y) || Across(trees, ts, x, y) {
      KidsMean(trees, ts, kind, x, y);
    }
  }

  /** proxc_proc: a tree of one leaf, that nobody has started. */
  lemma {:induction false} MakeProcMeans(s: Sys, t: Tid, p: Pid)
    requires Enabled(s, MakeProc(t, p))
    ensures var s' := Next(s, MakeProc(t, p));
      && s'.trees.Keys == s.trees.Keys + {t} && (forall u :: u in s.trees ==> s'.trees[u] == s.trees[u])
      && SP.Leaves(s'.trees[t].build) == {p} && !s'.trees[t].started && s'.trees[t].run.None?
      && In(s'.procs, p, Unstarted) && s'.readyQ == s.readyQ
  {
  }

  // ---------------------------------------------------------------- RUN and GO

  /** The leaf x has no predecessor in b. */
  ghost predicate Initial(b: Build, x: Pid) { x in SP.Leaves(b) && forall z {:trigger SP.Precedes(b, z, x)} :: !SP.Precedes(b, z, x) }

  /** The ready queue has grown by leaves of b, each once, from left to right. */
  ghost predicate GrewBy(s: Sys, s': Sys, b: Build, ps: seq<Pid>) {
    s'.readyQ == s.readyQ + ps && SP.NoDup(ps) && InOrder(b, ps)
  }

  lemma {:induction false} RunInitial(b: Build, ended: set<Pid>, x: Pid)
    requires SP.Fresh(b) && SP.Distinct(b) && SP.Leaves(b) !! ended
    ensures x in SP.Run(b) <==> Initial(b, x)
  {
    SP.RunStarts(b, ended);
    assert x in SP.Run(b) <==> x in SP.SetOf(SP.Run(b));
    if x in SP.Leaves(b) {
      SP.RunningIsEnabled(b, x, ended);
      forall z ensures SP.Precedes(b, z, x) ==> z in SP.Leaves(b) { SP.PrecedesLeaves(b, z, x); }
    }
  }

  /** RUN and GO make exactly those leaves ready that no other precedes, from left to right. */
  lemma {:induction false} LaunchReadies(s: Sys, a: Action, t: Tid) returns (ps: seq<Pid>)
    requires Inv(s) && Enabled(s, a) && (a == Go(t) || a == Run(t))
    ensures GrewBy(s, Next(s, a), s.trees[t].build, ps)
    ensures Next(s, a).trees == s.trees[t := Job(s.trees[t].build, if a.Run? then s.curr else None, true)]
    ensures forall x {:trigger x in ps} :: x in ps <==> Initial(s.trees[t].build, x)
  {
    var b := s.trees[t].build;
    ps := SP.Run(b);
    assert JobOk(s.trees[t], s.ended);
    LaunchFields(s, t, None);
    LaunchFields(s, t, s.curr);
    SP.RunStarts(b, s.ended);
    LeafOrder.RunInOrder(b);
    forall x ensures x in ps <==> Initial(b, x) { RunInitial(b, s.ended, x); }
  }

  // ---------------------------------------------------------------- the end of a process

  /** All that precede x in b have ended. */
  ghost predicate Awaits(b: Build, x: Pid, ended: set<Pid>) {
    forall z {:trigger SP.Precedes(b, z, x)} :: SP.Precedes(b, z, x) ==> z in ended
  }

  /** The end of p was the last that the leaf x was waiting for. */
  ghost predicate Released(b: Build, x: Pid, p: Pid, ended: set<Pid>) {
    x in SP.Leaves(b) && x !in ended + {p} && SP.Precedes(b, p, x) && Awaits(b, x, ended + {p})
  }

  lemma {:induction false} FinishReleases(b: Build, p: Pid, ended: set<Pid>, x: Pid)
    requires SP.Distinct(b) && SP.Consistent(b, ended) && p in SP.Running(b, ended) && p !in ended
    ensures x in SP.Finish(b, p).ready <==> Released(b, x, p, ended)
  {
    var ready, D' := SP.Finish(b, p).ready, ended + {p};
    SP.FinishAdvances(b, p, ended);
    SP.Local(b, D', D');
    SP.Local(b, ended, ended);
    assert x in ready <==> x in SP.SetOf(ready);
    assert x in ready <==> x in SP.Running(b, D') && (x == p || x !in SP.Running(b, ended)) by { SP.DoneAll(b, D'); }
    if x in SP.Leaves(b) {
      SP.RunningIsEnabled(b, x, ended);
      SP.RunningIsEnabled(b, x, D');
    }
  }

  /** The end of a process p in a tree t that is not complete with it: exactly those leaves are made ready for which p was
      the last to wait for, from left to right. */
  lemma {:induction false} EndReadies(s: Sys, p: Pid, t: Tid) returns (ps: seq<Pid>)
    requires Inv(s) && Enabled(s, End) && s.curr == Some(p) && p in s.owner && s.owner[p] == t && t in s.trees
    requires !(SP.Leaves(s.trees[t].build) <= s.ended + {p})
    ensures GrewBy(s, Next(s, End), s.trees[t].build, ps)
    ensures forall x {:trigger x in ps} :: x in ps <==> Released(s.trees[t].build, x, p, s.ended)
  {
    var j := s.trees[t];
    var o := SP.Finish(j.build, p);
    ps := o.ready;
    RunningCanEnd(s, p);
    FinishJob(s, p, t);
    assert JobOk(j, s.ended);
    AddReadyAllFields(Freed(s, p).(trees := s.trees[t := j.(build := o.tree)]), ps);
    assert DoEnd(s, p) == Report(Freed(s, p), p, t);
    FinishInOrder(j.build, p);
    SP.DoneAll(j.build, s.ended);
    forall x ensures x in ps <==> Released(j.build, x, p, s.ended) { FinishReleases(j.build, p, s.ended, x); }
  }

  /** The last end in a tree makes the process ready that waits for that tree in RUN, if there is one, and
      nobody else; nor does the end of a process without a tree. */
  lemma {:induction false} LastEndReadies(s: Sys, p: Pid)
    requires Inv(s) && Enabled(s, End) && s.curr == Some(p)
    ensures p !in s.owner ==> Next(s, End).readyQ == s.readyQ
    ensures p in s.owner && s.owner[p] in s.trees && SP.Leaves(s.trees[s.owner[p]].build) <= s.ended + {p} ==>
      var s', t := Next(s, End), s.owner[p];
      && (forall q :: In(s.procs, q, RunWait(t)) ==> s'.readyQ == s.readyQ + [q])
      && ((forall q :: !In(s.procs, q, RunWait(t))) ==> s'.readyQ == s.readyQ)
  {
    RunningCanEnd(s, p);
    if p in s.owner {
      var t := s.owner[p];
      FinishJob(s, p, t);
      assert JobOk(s.trees[t], s.ended);
      forall q: Pid ensures In(s.procs, q, RunWait(t)) <==> s.trees[t].run == Some(q) {
        assert Slots(s, q, RunWait(t)) == Bit(In(s.procs, q, RunWait(t)));
      }
      assert DoEnd(s, p) == Report(Freed(s, p), p, t);
    }
  }

  // ---------------------------------------------------------------- from PAR or SEQ to RUN or GO

  /** A tree that has not been started stays as it is. */
  lemma {:induction false} UnstartedStays(s: Sys, a: Action, t: Tid)
    requires Inv(s) && Enabled(s, a) && !Uses(a, t) && t in s.trees && !s.trees[t].started
    ensures t in Next(s, a).trees && Next(s, a).trees[t] == s.trees[t]
  {
    if a.Schedule? {
      ScheduleTrees(s, a.now);
    } else if a.Write? || a.Read? || a.Select? {
      CallTrees(s, a);
    } else if a.End? {
      EndElsewhere(s, s.curr.value, t);
    } else {
      BuildTrees(s, a, t);
    }
  }

  lemma {:induction false} EndElsewhere(s: Sys, p: Pid, t: Tid)
    requires Inv(s) && s.curr == Some(p) && p !in s.alts && t in s.trees && !s.trees[t].started
    ensures t in DoEnd(s, p).trees && DoEnd(s, p).trees[t] == s.trees[t]
  {
    RunningCanEnd(s, p);
    EndFields(s, p);
  }

  lemma {:induction false} TreeStays(main: Pid, run: seq<Action>, n: nat, t: Tid)
    requires IsRun(main, run) && n <= |run| && t in After(main, run[..n]).trees && !After(main, run[..n]).trees[t].started
    requires forall k :: n <= k < |run| ==> !Uses(run[k], t)
    ensures t in After(main, run).trees && After(main, run).trees[t] == After(main, run[..n]).trees[t]
    decreases |run|
  {
    if |run| == n {
      assert run[..n] == run;
    } else {
      var q := run[..|run| - 1];
      assert q[..n] == run[..n];
      TreeStays(main, q, n, t);
      AlwaysInv(main, q);
      UnstartedStays(After(main, q), run[|run| - 1], t);
    }
  }

  /** x is a leaf that can run at first in one of the trees ts; for SEQ, in the first of them. */
  ghost predicate InitialIn(trees: map<Tid, Job>, kind: SP.Kind, ts: seq<Tid>, x: Pid) {
    exists i :: 0 <= i < |ts| && (kind.SEQ? ==> i == 0) && ts[i] in trees && Initial(trees[ts[i]].build, x)
  }

  /** Each leaf is in one tree only. */
  lemma {:induction false} OneTree(s: Sys, ts: seq<Tid>, i: nat, x: Pid)
    requires ForestInv(s) && NoRepeat(ts) && i < |ts| && ts[i] in s.trees && x in SP.Leaves(s.trees[ts[i]].build)
    ensures forall k :: 0 <= k < |ts| && ts[k] in s.trees && x in SP.Leaves(s.trees[ts[k]].build) ==> k == i
  {
    assert s.owner[x] == ts[i];
  }

  lemma {:induction false} SomeLeaf(s: Sys, t: Tid) returns (x: Pid)
    requires ForestInv(s) && t in s.trees && !s.trees[t].started
    ensures x in SP.Leaves(s.trees[t].build)
  {
    assert JobOk(s.trees[t], s.ended);
    SP.RunStarts(s.trees[t].build, s.ended);
    x :| x in SP.Running(s.trees[t].build, s.ended);
  }

  /** In a SEQ the leaves of all parts but the first have predecessors. */
  lemma {:induction false} BehindFirst(s: Sys, ts: seq<Tid>, b: Build, i: nat, x: Pid)
    requires ForestInv(s) && Composed(b, s.trees, SP.SEQ, ts) && 0 < i < |ts| && ts[i] in s.trees && x in SP.Leaves(s.trees[ts[i]].build)
    requires ts[0] in s.trees && !s.trees[ts[0]].started
    ensures !Initial(b, x)
  {
    var z := SomeLeaf(s, ts[0]);
    assert Across(s.trees, ts, z, x);
    assert SP.Precedes(b, z, x);
  }

  lemma {:induction false} InitialFrom(s: Sys, kind: SP.Kind, ts: seq<Tid>, t: Tid, b: Build, x: Pid)
    requires Inv(s) && Enabled(s, Compose(kind, ts, t)) && Composed(b, s.trees, kind, ts)
    ensures Initial(b, x) ==> InitialIn(s.trees, kind, ts, x)
  {
    if Initial(b, x) {
      assert OneHas(s.trees, ts, x);
      var i :| 0 <= i < |ts| && ts[i] in s.trees && x in SP.Leaves(s.trees[ts[i]].build);
      if kind.SEQ? && i > 0 {
        BehindFirst(s, ts, b, i, x);
      } else {
        forall z ensures !SP.Precedes(s.trees[ts[i]].build, z, x) { assert !SP.Precedes(b, z, x); }
      }
    }
  }

  lemma {:induction false} InitialTo(s: Sys, kind: SP.Kind, ts: seq<Tid>, t: Tid, b: Build, x: Pid)
    requires Inv(s) && Enabled(s, Compose(kind, ts, t)) && Composed(b, s.trees, kind, ts)
    ensures InitialIn(s.trees, kind, ts, x) ==> Initial(b, x)
  {
    if InitialIn(s.trees, kind, ts, x) {
      var i :| 0 <= i < |ts| && (kind.SEQ? ==> i == 0) && ts[i] in s.trees && Initial(s.trees[ts[i]].build, x);
      assert OneHas(s.trees, ts, x);
      forall z ensures !SP.Precedes(b, z, x) { NoneBefore(s, kind, ts, i, z, x); }
    }
  }

  lemma {:induction false} NoneBefore(s: Sys, kind: SP.Kind, ts: seq<Tid>, i: nat, z: Pid, x: Pid)
    requires ForestInv(s) && NoRepeat(ts) && i < |ts| && (kind.SEQ? ==> i == 0) && ts[i] in s.trees && Initial(s.trees[ts[i]].build, x)
    ensures !OnePrecedes(s.trees, ts, z, x) && !(kind.SEQ? && Across(s.trees, ts, z, x))
  {
    OneTree(s, ts, i, x);
    forall k | 0 <= k < |ts| && ts[k] in s.trees ensures !SP.Precedes(s.trees[ts[k]].build, z, x) {
      SP.PrecedesLeaves(s.trees[ts[k]].build, z, x);
      if k == i { assert !SP.Precedes(s.trees[ts[i]].build, z, x); }
    }
  }

  /** A tree that is composed at action n of a run and used for the first time at its last action, in RUN or GO: of a PAR all
      leaves are made ready that could run at first in any of its parts, of a SEQ those that could in its first, from left
      to right, the parts in the order in which they were named. */
  lemma {:induction false} ComposedRuns(main: Pid, run: seq<Action>, n: nat, kind: SP.Kind, ts: seq<Tid>, t: Tid) returns (ps: seq<Pid>)
    requires IsRun(main, run) && n < |run| - 1 && run[n] == Compose(kind, ts, t)
    requires run[|run| - 1] == Go(t) || run[|run| - 1] == Run(t)
    requires forall k :: n < k < |run| - 1 ==> !Uses(run[k], t)
    ensures var s0, s, s' := After(main, run[..n]), After(main, run[..|run| - 1]), After(main, run);
      && t in s.trees && Composed(s.trees[t].build, s0.trees, kind, ts) && GrewBy(s, s', s.trees[t].build, ps)
      && forall x {:trigger x in ps} :: x in ps <==> InitialIn(s0.trees, kind, ts, x)
  {
    var q := run[..|run| - 1];
    var s0, s1, s := After(main, run[..n]), After(main, run[..n + 1]), After(main, q);
    RunPart(main, run, n + 1);
    assert run[..n + 1][..n] == run[..n] && q[..n + 1] == run[..n + 1];
    AlwaysInv(main, run[..n]);
    AlwaysInv(main, q);
    ComposeMeans(s0, kind, ts, t);
    TreeStays(main, q, n + 1, t);
    ps := LaunchReadies(s, run[|run| - 1], t);
    InitialExactly(s0, kind, ts, t, s.trees[t].build);
  }

  lemma {:induction false} InitialExactly(s: Sys, kind: SP.Kind, ts: seq<Tid>, t: Tid, b: Build)
    requires Inv(s) && Enabled(s, Compose(kind, ts, t)) && Composed(b, s.trees, kind, ts)
    ensures forall x {:trigger Initial(b, x)} :: Initial(b, x) <==> InitialIn(s.trees, kind, ts, x)
  {
    forall x ensures Initial(b, x) <==> InitialIn(s.trees, kind, ts, x) {
      InitialFrom(s, kind, ts, t, b, x);
      InitialTo(s, kind, ts, t, b, x);
    }
  }

  lemma {:induction false} RunPart(main: Pid, run: seq<Action>, n: nat)
    requires IsRun(main, run) && n <= |run|
    ensures IsRun(main, run[..n])
    decreases |run|
  {
    if n < |run| {
      assert run[..|run| - 1][..n] == run[..n];
      RunPart(main, run[..|run| - 1], n);
    } else {
      assert run[..n] == run;
    }
  }
}
