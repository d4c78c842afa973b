/**
 The builder trees of the runtime: all trees are well formed, share no process, and have their counters right for
 the processes that have ended.
 */
module Forest {
  import opened Channels
  import opened Runtime
  import opened Wrappers

  /** A tree is untouched until it is started; then it is as the ended processes say, and not complete. */
  ghost predicate JobOk(j: Job, ended: set<Pid>) {
    && SP.Distinct(j.build)
    && if j.started then SP.Consistent(j.build, ended) && !SP.Done(j.build, ended)
       else SP.Fresh(j.build) && SP.Leaves(j.build) !! ended
  }

  ghost predicate JobsOk(trees: map<Tid, Job>, ended: set<Pid>) {
    forall t {:trigger trees[t]} :: t in trees ==> JobOk(trees[t], ended)
  }

  /** Each leaf knows its tree, and each live process that has a tree is a leaf of it. */
  ghost predicate OwnOk(live: set<Pid>, trees: map<Tid, Job>, owner: map<Pid, Tid>, ended: set<Pid>) {
    && (forall t, q {:trigger q in SP.Leaves(trees[t].build)} :: t in trees && q in SP.Leaves(trees[t].build) ==>
          q in owner && owner[q] == t && (q in live || q in ended))
    && (forall q {:trigger q in live} :: q in live ==>
          q !in ended && (q in owner ==> owner[q] in trees && q in SP.Leaves(trees[owner[q]].build)))
  }

  ghost predicate ForestInv(s: Sys) {
    JobsOk(s.trees, s.ended) && OwnOk(s.procs.Keys, s.trees, s.owner, s.ended)
  }

  /** A process that ends outside a tree changes nothing for it. */
  lemma {:induction false} Elsewhere(j: Job, ended: set<Pid>, p: Pid)
    requires p !in SP.Leaves(j.build)
    ensures JobOk(j, ended + {p}) <==> JobOk(j, ended)
    ensures SP.Running(j.build, ended + {p}) == SP.Running(j.build, ended)
  {
    assert (ended + {p}) * SP.Leaves(j.build) == ended * SP.Leaves(j.build);
    SP.Local(j.build, ended, ended + {p});
  }

  lemma {:induction false} MakeProcForest(s: Sys, t: Tid, p: Pid)
    requires ForestInv(s) && t !in s.trees && p !in s.procs && p !in s.ended
    ensures ForestInv(DoMakeProc(s, t, p))
  {
    assert SP.Leaves(SP.Proc((), p)) == {p};
  }

  // ---------------------------------------------------------------- PAR and SEQ

  ghost predicate Unlaunched(trees: map<Tid, Job>, ts: seq<Tid>) {
    ts != [] ==> ts[0] in trees && !trees[ts[0]].started && ts[0] !in ts[1..] && Unlaunched(trees, ts[1..])
  }

  lemma {:induction false} ToUnlaunched(trees: map<Tid, Job>, ts: seq<Tid>)
    requires NoRepeat(ts) && forall i :: 0 <= i < |ts| ==> ts[i] in trees && !trees[ts[i]].started
    ensures Unlaunched(trees, ts)
    ensures forall t {:trigger t in ts} :: t in ts ==> t in trees && !trees[t].started
  {
    if ts != [] {
      assert forall i :: 0 <= i < |ts[1..]| ==> ts[1..][i] == ts[i + 1];
      ToUnlaunched(trees, ts[1..]);
      assert forall t :: t in ts ==> t == ts[0] || t in ts[1..];
    }
  }

  /** The leaves of the new composite are those of the trees it is made of. */
  lemma {:induction false} KidsLeaves(trees: map<Tid, Job>, ts: seq<Tid>, live: set<Pid>, owner: map<Pid, Tid>, ended: set<Pid>)
    requires OwnOk(live, trees, owner, ended) && JobsOk(trees, ended) && Unlaunched(trees, ts)
    ensures var kids := Kids(trees, ts);
      && SP.FreshL(kids) && SP.DistinctL(kids) && SP.LeavesL(kids) !! ended
      && SP.Len(kids) == |ts|
      && forall q {:trigger q in SP.LeavesL(kids)} ::
           q in SP.LeavesL(kids) <==> q in owner && owner[q] in ts && owner[q] in trees && q in SP.Leaves(trees[owner[q]].build)
  {
    if ts != [] {
      KidsLeaves(trees, ts[1..], live, owner, ended);
      assert JobOk(trees[ts[0]], ended);
      assert forall t :: t in ts <==> t == ts[0] || t in ts[1..];
    }
  }

  lemma {:induction false} ComposeForest(s: Sys, kind: SP.Kind, ts: seq<Tid>, t: Tid)
    requires ForestInv(s) && ts != [] && NoRepeat(ts) && t !in s.trees
    requires forall i :: 0 <= i < |ts| ==> ts[i] in s.trees && !s.trees[ts[i]].started
    ensures ForestInv(DoCompose(s, kind, ts, t))
  {
    var kids, s' := Kids(s.trees, ts), DoCompose(s, kind, ts, t);
    var b := SP.Node((), kind, SP.Len(kids), 0, kids);
    ToUnlaunched(s.trees, ts);
    KidsLeaves(s.trees, ts, s.procs.Keys, s.owner, s.ended);
    assert SP.Leaves(b) == SP.LeavesL(kids);
    forall u | u in s'.trees ensures JobOk(s'.trees[u], s.ended) {
      if u != t { assert JobOk(s.trees[u], s.ended); }
    }
    forall u, q | u in s'.trees && q in SP.Leaves(s'.trees[u].build)
      ensures q in s'.owner && s'.owner[q] == u && (q in s.procs || q in s.ended)
    {
      if u == t { assert q in SP.Leaves(s.trees[s.owner[q]].build); } else { assert q in SP.Leaves(s.trees[u].build); }
    }
    forall q | q in s.procs.Keys
      ensures q !in s.ended && (q in s'.owner ==> s'.owner[q] in s'.trees && q in SP.Leaves(s'.trees[s'.owner[q]].build))
    {
    }
  }

  // ---------------------------------------------------------------- RUN and GO

  lemma {:induction false} AddReadyAllFields(s: Sys, ps: seq<Pid>)
    ensures var s' := AddReadyAll(s, ps);
      && s' == s.(procs := s'.procs, readyQ := s.readyQ + ps)
      && s'.procs.Keys == s.procs.Keys + SP.SetOf(ps)
      && forall q {:trigger s'.procs[q]} :: q in s'.procs ==> s'.procs[q] == if q in ps then Ready else s.procs[q]
  {
    if ps == [] {
      assert s.readyQ + [] == s.readyQ && SP.SetOf(ps) == {};
    } else {
      var qs, p := ps[..|ps| - 1], ps[|ps| - 1];
      AddReadyAllFields(s, qs);
      assert ps == qs + [p] && s.readyQ + ps == (s.readyQ + qs) + [p];
      assert SP.SetOf(ps) == SP.SetOf(qs) + {p};
    }
  }

  lemma {:induction false} LaunchForest(s: Sys, t: Tid, run: Option<Pid>)
    requires ForestInv(s) && t in s.trees && !s.trees[t].started
    ensures ForestInv(Launch(s, t, run)) && Launch(s, t, run).procs.Keys == s.procs.Keys
  {
    var b := s.trees[t].build;
    assert JobOk(s.trees[t], s.ended);
    SP.RunStarts(b, s.ended);
    AddReadyAllFields(s.(trees := s.trees[t := Job(b, run, true)]), SP.Run(b));
    assert forall q :: q in SP.SetOf(SP.Run(b)) ==> q in SP.Leaves(s.trees[t].build) && q in s.procs;
    assert Launch(s, t, run).procs.Keys == s.procs.Keys;
  }

  // ---------------------------------------------------------------- a process ends

  /** The process p of the tree t, which is in execution there, ends. */
  lemma {:induction false} FinishJob(s: Sys, p: Pid, t: Tid)
    requires ForestInv(s) && t in s.trees && InExecution(s.trees[t], s.ended, p)
    ensures var b, D' := s.trees[t].build, s.ended + {p};
      var o := SP.Finish(b, p);
      && SP.Leaves(o.tree) == SP.Leaves(b)
      && SP.Running(o.tree, D') == SP.Running(b, D')
      && SP.Advances(SP.Running(b, s.ended), SP.Running(b, D'), p, o.ready)
      && (o.complete <==> SP.Leaves(b) <= D')
      && (!o.complete ==> JobOk(s.trees[t].(build := o.tree), D'))
  {
    var b, D' := s.trees[t].build, s.ended + {p};
    assert JobOk(s.trees[t], s.ended);
    SP.FinishAdvances(b, p, s.ended);
    SP.SameShape(SP.Finish(b, p).tree, b, D');
    SP.DoneAll(b, D');
  }

  /** The trees after the end of p: its own has gone one step further or is gone, and no other has changed. */
  ghost predicate TreesAfter(s: Sys, p: Pid, trees: map<Tid, Job>) {
    if p !in s.owner || s.owner[p] !in s.trees then trees == s.trees
    else
      var t := s.owner[p];
      var o := SP.Finish(s.trees[t].build, p);
      trees == if o.complete then s.trees - {t} else s.trees[t := s.trees[t].(build := o.tree)]
  }

  /** The process waiting for the tree that the end of p completes. */
  ghost function Joined(s: Sys, p: Pid): Option<Pid> {
    if p in s.owner && s.owner[p] in s.trees && SP.Finish(s.trees[s.owner[p]].build, p).complete
    then s.trees[s.owner[p]].run else None
  }

  ghost predicate InExecution(j: Job, ended: set<Pid>, p: Pid) {
    p in SP.Leaves(j.build) && j.started && p in SP.Running(j.build, ended)
  }

  /** p is the leaf of a tree where it is in execution, or has no tree; and it does not wait for a tree itself. */
  ghost predicate CanEnd(s: Sys, p: Pid) {
    && p in s.procs
    && (p in s.owner ==> s.owner[p] in s.trees && InExecution(s.trees[s.owner[p]], s.ended, p))
    && (Joined(s, p).Some? ==> Joined(s, p).value in s.procs && Joined(s, p).value != p)
  }

  lemma {:induction false} EndFields(s: Sys, p: Pid)
    requires ForestInv(s) && CanEnd(s, p)
    ensures var s' := DoEnd(s, p);
      && TreesAfter(s, p, s'.trees)
      && s'.procs.Keys == s.procs.Keys - {p}
      && s'.owner == s.owner && s'.ended == s.ended + {p}
  {
    if p in s.owner {
      var t := s.owner[p];
      FinishJob(s, p, t);
      NewlyReady(s, p, t, SP.Finish(s.trees[t].build, p).ready);
      ReportFields(Freed(s, p), p, t);
    }
  }

  lemma {:induction false} ReportFields(s: Sys, p: Pid, t: Tid)
    requires t in s.trees
    ensures var s' := Report(s, p, t); s'.owner == s.owner && s'.ended == s.ended
    ensures var s', o := Report(s, p, t), SP.Finish(s.trees[t].build, p);
      !o.complete ==>
        && s'.trees == s.trees[t := s.trees[t].(build := o.tree)]
        && s'.procs.Keys == s.procs.Keys + SP.SetOf(o.ready)
    ensures var s', o, run := Report(s, p, t), SP.Finish(s.trees[t].build, p), s.trees[t].run;
      o.complete ==>
        && s'.trees == s.trees - {t}
        && s'.procs.Keys == s.procs.Keys + if run.Some? then {run.value} else {}
  {
    var o, j := SP.Finish(s.trees[t].build, p), s.trees[t];
    if !o.complete {
      AdvanceFields(s, s.trees[t := j.(build := o.tree)], o.ready);
      assert Report(s, p, t) == AddReadyAll(s.(trees := s.trees[t := j.(build := o.tree)]), o.ready);
    } else if j.run.Some? {
      assert Report(s, p, t) == AddReady(s.(trees := s.trees - {t}), j.run.value);
    } else {
      assert Report(s, p, t) == s.(trees := s.trees - {t});
    }
  }

  lemma {:induction false} AdvanceFields(s: Sys, trees: map<Tid, Job>, ready: seq<Pid>)
    ensures var s' := AddReadyAll(s.(trees := trees), ready);
      && s'.owner == s.owner && s'.ended == s.ended && s'.trees == trees
      && s'.procs.Keys == s.procs.Keys + SP.SetOf(ready)
  {
    AddReadyAllFields(s.(trees := trees), ready);
  }

  /** What the end of p makes ready are other live processes of its tree. */
  lemma {:induction false} NewlyReady(s: Sys, p: Pid, t: Tid, ready: seq<Pid>)
    requires ForestInv(s) && t in s.trees && JobOk(s.trees[t], s.ended)
    requires SP.Advances(SP.Running(s.trees[t].build, s.ended), SP.Running(s.trees[t].build, s.ended + {p}), p, ready)
    ensures forall q :: q in SP.SetOf(ready) ==> q in SP.Leaves(s.trees[t].build) && q in s.procs && q !in s.ended && q != p
    ensures SP.SetOf(ready) <= s.procs.Keys - {p}
  {
    var b, D' := s.trees[t].build, s.ended + {p};
    SP.Local(b, D', D');
    SP.DoneAll(b, D');
    forall q | q in SP.SetOf(ready) ensures q in SP.Leaves(b) && q in s.procs && q !in s.ended && q != p {
      assert q in SP.Running(b, D');
    }
  }

  lemma {:induction false} EndJobs(s: Sys, p: Pid, trees: map<Tid, Job>)
    requires ForestInv(s) && CanEnd(s, p) && TreesAfter(s, p, trees)
    ensures JobsOk(trees, s.ended + {p})
  {
    forall u | u in trees ensures JobOk(trees[u], s.ended + {p}) {
      assert JobOk(s.trees[u], s.ended);
      if p in s.owner && s.owner[p] == u {
        FinishJob(s, p, u);
      } else {
        assert p !in SP.Leaves(s.trees[u].build);
        Elsewhere(s.trees[u], s.ended, p);
      }
    }
  }

  lemma {:induction false} EndOwn(s: Sys, p: Pid, trees: map<Tid, Job>)
    requires ForestInv(s) && CanEnd(s, p) && TreesAfter(s, p, trees)
    ensures OwnOk(s.procs.Keys - {p}, trees, s.owner, s.ended + {p})
  {
    if p in s.owner { FinishJob(s, p, s.owner[p]); }
    forall u, q | u in trees && q in SP.Leaves(trees[u].build)
      ensures q in s.owner && s.owner[q] == u && (q in s.procs.Keys - {p} || q in s.ended + {p})
    {
      assert q in SP.Leaves(s.trees[u].build);
    }
    forall q | q in s.procs.Keys - {p}
      ensures q !in s.ended + {p} && (q in s.owner ==> s.owner[q] in trees && q in SP.Leaves(trees[s.owner[q]].build))
    {
      assert q in s.procs.Keys;
    }
  }

  lemma {:induction false} EndForest(s: Sys, p: Pid)
    requires ForestInv(s) && CanEnd(s, p)
    ensures ForestInv(DoEnd(s, p))
  {
    EndFields(s, p);
    EndJobs(s, p, DoEnd(s, p).trees);
    EndOwn(s, p, DoEnd(s, p).trees);
  }
}
