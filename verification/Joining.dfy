/**
 RUN, GO and the trees over whole runs: the process that called RUN is made ready once, at the step in which the last
 process of its tree ends; and a process of a tree runs only when all that precede it have ended.
 */
module Joining {
  import opened Channels
  import opened Alts
  import opened Runtime
  import opened Forest
  import opened Placement
  import opened Invariant
  import opened Ordering
  import opened Wrappers

  /** The step in which the last process of the tree t ends. */
  ghost predicate Completes(s: Sys, a: Action, t: Tid) {
    && a.End? && s.curr.Some? && s.curr.value in s.owner && s.owner[s.curr.value] == t && t in s.trees
    && SP.Leaves(s.trees[t].build) <= s.ended + {s.curr.value}
  }

  /** A process that is not the running one, and waits for a tree, keeps waiting through anything but an end. */
  lemma {:induction false} KeepsWaiting(s: Sys, a: Action, q: Pid, t: Tid)
    requires Inv(s) && Enabled(s, a) && !a.End? && In(s.procs, q, RunWait(t))
    ensures In(Next(s, a).procs, q, RunWait(t))
  {
    StepInv(s, a);
    var s' := Next(s, a);
    assert Slots(s, q, RunWait(t)) == 1;
    assert Slots(s', q, RunWait(t)) == Bit(In(s'.procs, q, RunWait(t)));
    StartedTreesStay(s, a, t);
  }

  lemma {:induction false} WriteTrees(s: Sys, p: Pid, c: Cid, v: Value)
    requires c in s.chans
    ensures DoWrite(s, p, c, v).trees == s.trees
  {
    var ch, s1 := s.chans[c], s.(chans := s.chans[c := Written(s, p, c, v)]);
    if HeadAccepts(s, c) {
      assert DoWrite(s, p, c, v) == AddReady(Accept(s1, ch.altQ[0], OnChan(c)), ch.altQ[0].pid);
    } else if ReaderFirst(ch) {
      assert DoWrite(s, p, c, v) == AddReady(s1, ch.endQ[0].pid);
    } else {
      assert DoWrite(s, p, c, v) == Block(s1, p, ChanWait(c));
    }
  }

  lemma {:induction false} ReadTrees(s: Sys, p: Pid, c: Cid)
    requires c in s.chans
    ensures DoRead(s, p, c).trees == s.trees
  {
    var ch, s1 := s.chans[c], s.(chans := s.chans[c := Asked(s.chans[c], p)]);
    if WriterFirst(ch) {
      assert DoRead(s, p, c) == AddReady(s1, ch.endQ[0].pid);
    } else {
      assert DoRead(s, p, c) == Block(s1, p, ChanWait(c));
    }
  }

  lemma {:induction false} SelectTrees(s: Sys, p: Pid, args: Args, choice: nat)
    ensures DoSelect(s, p, args, choice).trees == s.trees
  {
    var ready := ReadyOf(s.chans, AddGuards(args));
    if ready == [] {
      assert DoSelect(s, p, args, choice) == SelectBlock(s, p, args);
    } else if choice < |ready| {
      SelectReadyChannel(s, p, args, ready[choice]);
    }
  }

  /** The action starts the tree t or makes it part of another. */
  predicate Uses(a: Action, t: Tid) { (a.Compose? && t in a.ts) || a == Go(t) || a == Run(t) }

  /** Only an end changes a tree that is started. */
  lemma {:induction false} StartedTreesStay(s: Sys, a: Action, t: Tid)
    requires Enabled(s, a) && !a.End? && t in s.trees && s.trees[t].started
    ensures t in Next(s, a).trees && Next(s, a).trees[t] == s.trees[t]
  {
    if a.Schedule? {
      ScheduleTrees(s, a.now);
    } else if a.Write? || a.Read? || a.Select? {
      CallTrees(s, a);
    } else {
      BuildTrees(s, a, t);
    }
  }

  /** An action that does not use the tree t leaves it alone. */
  lemma {:induction false} BuildTrees(s: Sys, a: Action, t: Tid)
    requires Enabled(s, a) && !Uses(a, t) && t in s.trees
    requires !a.Schedule? && !a.Write? && !a.Read? && !a.Select? && !a.End?
    ensures t in Next(s, a).trees && Next(s, a).trees[t] == s.trees[t]
  {
    match a
    case Go(u) => LaunchFields(s, u, None);
    case Run(u) => LaunchFields(s, u, s.curr);
    case _ =>
  }

  lemma {:induction false} CallTrees(s: Sys, a: Action)
    requires Enabled(s, a) && (a.Write? || a.Read? || a.Select?)
    ensures Next(s, a).trees == s.trees
  {
    var p := s.curr.value;
    match a
    case Write(c, v) => WriteTrees(s, p, c, v);
    case Read(c) => ReadTrees(s, p, c);
    case Select(args, choice) => SelectTrees(s, p, args, choice);
  }

  lemma {:induction false} ScheduleTrees(s: Sys, now: nat)
    ensures Dispatch(Wakeup(s, now)).trees == s.trees
  {
    WakeSleepersAside(s, now);
    FireGuardsFields(WakeSleepers(s, now), now);
  }

  /** The end of p touches no tree but its own, and completes that exactly when no other leaf is left. */
  lemma {:induction false} EndTrees(s: Sys, p: Pid, t: Tid)
    requires Inv(s) && s.curr == Some(p) && t in s.trees
    ensures var s' := DoEnd(s, p);
      && (p in s.owner && s.owner[p] == t ==>
            (t !in s'.trees <==> SP.Leaves(s.trees[t].build) <= s.ended + {p})
            && (t in s'.trees ==> s'.trees[t].run == s.trees[t].run && s'.trees[t].started))
      && (!(p in s.owner && s.owner[p] == t) ==> t in s'.trees && s'.trees[t] == s.trees[t])
  {
    RunningCanEnd(s, p);
    EndFields(s, p);
    if p in s.owner && s.owner[p] == t { FinishJob(s, p, t); }
  }

  /** Whoever waits in RUN for the tree t is made ready by the end of the last process of t, and by nothing else. */
  lemma {:induction false} JoinsExactly(s: Sys, a: Action, q: Pid, t: Tid)
    requires Inv(s) && Enabled(s, a) && In(s.procs, q, RunWait(t))
    ensures !Completes(s, a, t) ==> In(Next(s, a).procs, q, RunWait(t))
    ensures Completes(s, a, t) ==> In(Next(s, a).procs, q, Ready) && Next(s, a).readyQ == s.readyQ + [q] && t !in Next(s, a).trees
  {
    assert Slots(s, q, RunWait(t)) == 1;
    if !a.End? {
      KeepsWaiting(s, a, q, t);
    } else {
      var p := s.curr.value;
      EndTrees(s, p, t);
      if Completes(s, a, t) { JoinStep(s, p, t, q); } else { StillWaits(s, p, q, t); }
    }
  }

  lemma {:induction false} StillWaits(s: Sys, p: Pid, q: Pid, t: Tid)
    requires Inv(s) && s.curr == Some(p) && p !in s.alts && Slots(s, q, RunWait(t)) == 1
    requires t in DoEnd(s, p).trees && DoEnd(s, p).trees[t].run == s.trees[t].run && DoEnd(s, p).trees[t].started
    ensures In(DoEnd(s, p).procs, q, RunWait(t))
  {
    EndInv(s, p);
    assert Slots(DoEnd(s, p), q, RunWait(t)) == Bit(In(DoEnd(s, p).procs, q, RunWait(t)));
  }

  lemma {:induction false} JoinStep(s: Sys, p: Pid, t: Tid, q: Pid)
    requires Inv(s) && s.curr == Some(p) && p in s.owner && s.owner[p] == t && t in s.trees && s.trees[t].run == Some(q)
    requires SP.Leaves(s.trees[t].build) <= s.ended + {p}
    ensures var s' := DoEnd(s, p); In(s'.procs, q, Ready) && s'.readyQ == s.readyQ + [q] && t !in s'.trees
  {
    RunningCanEnd(s, p);
    FinishJob(s, p, t);
    assert DoEnd(s, p) == AddReady(Freed(s, p).(trees := s.trees - {t}), q);
  }

  /** A process with a tree has been started exactly when all leaves that precede it have ended; it is not held back
      by any other. */
  lemma {:induction false} RunsInOrder(main: Pid, run: seq<Action>, t: Tid, y: Pid)
    requires IsRun(main, run) && t in After(main, run).trees && After(main, run).trees[t].started
    requires y in SP.Leaves(After(main, run).trees[t].build) && y in After(main, run).procs
    ensures var s := After(main, run);
      s.procs[y] != Unstarted <==> forall x :: SP.Precedes(s.trees[t].build, x, y) ==> x in s.ended
  {
    AlwaysInv(main, run);
    var s := After(main, run);
    var b := s.trees[t].build;
    assert JobOk(s.trees[t], s.ended);
    SP.RunningIsEnabled(b, y, s.ended);
    assert y in s.procs.Keys;
    assert Slots(s, y, Unstarted) == Bit(In(s.procs, y, Unstarted));
  }

  /** A started tree always has a process that has been started and has not ended. */
  lemma {:induction false} TreesProgress(main: Pid, run: seq<Action>, t: Tid)
    requires IsRun(main, run) && t in After(main, run).trees && After(main, run).trees[t].started
    ensures var s := After(main, run);
      exists y :: y in SP.Leaves(s.trees[t].build) && y in s.procs && s.procs[y] != Unstarted
  {
    AlwaysInv(main, run);
    var s := After(main, run);
    var b := s.trees[t].build;
    assert JobOk(s.trees[t], s.ended);
    SP.Unfinished(b, s.ended);
    var y :| y in SP.Running(b, s.ended);
    SP.Local(b, s.ended, s.ended);
    SP.DoneAll(b, s.ended);
    assert y in SP.Leaves(s.trees[t].build) && y in s.procs;
    assert Slots(s, y, Unstarted) == Bit(In(s.procs, y, Unstarted));
    assert s.owner[y] == t;
  }
}
