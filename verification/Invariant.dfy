/**
 What holds at every point of every run.
 */
module Invariant {
  import opened Channels
  import opened Alts
  import opened Timers
  import opened Runtime
  import opened Forest
  import opened Placement
  import opened Choices
  import opened Wrappers

  ghost predicate Inv(s: Sys) { Placed(s) && ForestInv(s) && ChoiceInv(s) }

  lemma {:induction false} StartInv(main: Pid)
    ensures Inv(Start(main))
  {
    var s := Start(main);
    forall q: Pid, st: State ensures Slots(s, q, st) == Bit(In(s.procs, q, st)) {
      CntOne(main, q);
    }
  }

  /** The trees do not depend on anything else. */
  lemma {:induction false} ForestSame(s: Sys, s': Sys)
    requires ForestInv(s) && s'.procs.Keys == s.procs.Keys && s'.trees == s.trees && s'.owner == s.owner && s'.ended == s.ended
    ensures ForestInv(s')
  {
  }

  // ---------------------------------------------------------------- the scheduler

  lemma {:induction false} WakeSleeperInv(s: Sys, d: nat)
    requires Inv(s) && d in s.sleep
    ensures Inv(WakeSleeper(s, d))
  {
    WakeSleeperPlaced(s, d);
    assert Slots(s, s.sleep[d], Sleeping(d)) == 1;
    assert WakeSleeper(s, d).procs.Keys == s.procs.Keys;
    ForestSame(s, WakeSleeper(s, d));
    ReadyKeeps(s.(sleep := s.sleep - {d}), s.sleep[d]);
  }

  lemma {:induction false} FireGuardForest(s: Sys, d: nat)
    requires Placed(s) && ForestInv(s) && d in s.altsleep
    ensures ForestInv(FireGuard(s, d))
  {
    var r, s1 := s.altsleep[d], s.(altsleep := s.altsleep - {d});
    if r.pid in s.procs && s.procs[r.pid] == AltWait && r.pid in s.alts && s.alts[r.pid].winner.None? {
      ReadyForest(s, Accept(s1, r, Time(d)), r.pid);
    }
  }

  lemma {:induction false} FireGuardFields(s: Sys, d: nat)
    requires d in s.altsleep
    ensures var s' := FireGuard(s, d);
      && s'.altsleep == s.altsleep - {d} && s'.sleep == s.sleep && s'.chans == s.chans && s'.curr == s.curr
      && s'.trees == s.trees && s'.owner == s.owner && s'.ended == s.ended && s'.isExit == s.isExit && s'.main == s.main
  {
    var r, s1 := s.altsleep[d], s.(altsleep := s.altsleep - {d});
    if r.pid in s.procs && s.procs[r.pid] == AltWait && r.pid in s.alts && s.alts[r.pid].winner.None? {
      assert FireGuard(s, d) == AddReady(Accept(s1, r, Time(d)), r.pid);
    } else {
      assert FireGuard(s, d) == s1;
    }
  }

  lemma {:induction false} FireGuardInv(s: Sys, d: nat)
    requires Inv(s) && d in s.altsleep
    ensures Inv(FireGuard(s, d)) && FireGuard(s, d).altsleep == s.altsleep - {d} && FireGuard(s, d).curr == s.curr
  {
    FireGuardFields(s, d);
    FireGuardPlaced(s, d);
    FireGuardForest(s, d);
    FireGuardChoices(s, d);
  }

  lemma {:induction false} WakeSleepersInv(s: Sys, now: nat)
    requires Inv(s)
    ensures Inv(WakeSleepers(s, now)) && WakeSleepers(s, now).curr == s.curr
    decreases |s.sleep|
  {
    if s.sleep != map[] && MinKey(s.sleep) <= now {
      WakeSleeperInv(s, MinKey(s.sleep));
      WakeSleepersInv(WakeSleeper(s, MinKey(s.sleep)), now);
    }
  }

  lemma {:induction false} FireGuardsFields(s: Sys, now: nat)
    ensures FireGuards(s, now).curr == s.curr && FireGuards(s, now).trees == s.trees
    decreases |s.altsleep|
  {
    if s.altsleep != map[] && MinKey(s.altsleep) <= now {
      FireGuardFields(s, MinKey(s.altsleep));
      FireGuardsFields(FireGuard(s, MinKey(s.altsleep)), now);
    }
  }

  lemma {:induction false} FireGuardsInv(s: Sys, now: nat)
    requires Inv(s)
    ensures Inv(FireGuards(s, now))
    decreases |s.altsleep|
  {
    if s.altsleep != map[] && MinKey(s.altsleep) <= now {
      FireGuardInv(s, MinKey(s.altsleep));
      FireGuardsInv(FireGuard(s, MinKey(s.altsleep)), now);
    }
  }

  lemma {:induction false} DispatchInv(s: Sys)
    requires Inv(s) && s.curr.None?
    ensures Inv(Dispatch(s))
  {
    DispatchPlaced(s);
    if s.readyQ != [] {
      var s' := Dispatch(s);
      assert Slots(s, s.readyQ[0], Ready) > 0;
      assert s'.procs.Keys == s.procs.Keys;
      ForestSame(s, s');
      forall q | q in s'.alts && s'.alts[q].winner.Some? ensures In(s'.procs, q, Ready) || In(s'.procs, q, Running) {
        assert In(s.procs, q, Ready) || In(s.procs, q, Running);
      }
    }
  }

  lemma {:induction false} ScheduleInv(s: Sys, now: nat)
    requires Inv(s) && s.curr.None?
    ensures Inv(Dispatch(Wakeup(s, now)))
  {
    WakeSleepersInv(s, now);
    FireGuardsFields(WakeSleepers(s, now), now);
    FireGuardsInv(WakeSleepers(s, now), now);
    DispatchInv(Wakeup(s, now));
  }

  // ---------------------------------------------------------------- the running process

  lemma {:induction false} AcceptForest(s: Sys, s1: Sys, r: GuardRef, kind: Kind)
    requires Placed(s) && ForestInv(s) && s1 == s.(chans := s1.chans) && Undecided(s.alts, r.pid)
    ensures ForestInv(AddReady(Accept(s1, r, kind), r.pid))
  {
    assert Slots(s, r.pid, AltWait) == 1;
    ReadyForest(s, Accept(s1, r, kind), r.pid);
  }

  lemma {:induction false} WriteForest(s: Sys, p: Pid, c: Cid, v: Value)
    requires Placed(s) && ForestInv(s) && s.curr == Some(p) && c in s.chans
    ensures ForestInv(DoWrite(s, p, c, v))
  {
    var ch := s.chans[c];
    if HeadAccepts(s, c) {
      var r := ch.altQ[0];
      AcceptForest(s, s.(chans := s.chans[c := GiveAlt(ch, v, s.alts[r.pid].id, r.key)]), r, OnChan(c));
    } else if ReaderFirst(ch) {
      assert Slots(s, ch.endQ[0].pid, ChanWait(c)) > 0;
      ReadyForest(s, s.(chans := s.chans[c := GiveReader(ch, v)]), ch.endQ[0].pid);
    } else {
      assert Slots(s, p, Running) == 1;
      BlockForest(s, s.(chans := s.chans[c := QueueWriter(ch, p, v)]), p, ChanWait(c));
    }
  }

  /** The same for the trees, and the same processes in the same states. */
  ghost predicate SameForest(s: Sys, s': Sys) {
    s'.procs == s.procs && s'.trees == s.trees && s'.owner == s.owner && s'.ended == s.ended
  }

  lemma {:induction false} ReadyForest(s: Sys, s1: Sys, p: Pid)
    requires ForestInv(s) && SameForest(s, s1) && p in s.procs
    ensures ForestInv(AddReady(s1, p)) && ForestInv(YieldReady(s1, p)) && p in AddReady(s1, p).procs
  {
    assert s.procs[p := Ready].Keys == s.procs.Keys;
    ForestSame(s, AddReady(s1, p));
    ForestSame(s, YieldReady(s1, p));
  }

  lemma {:induction false} BlockForest(s: Sys, s1: Sys, p: Pid, st: State)
    requires ForestInv(s) && SameForest(s, s1) && p in s.procs
    ensures ForestInv(Block(s1, p, st))
  {
    assert s.procs[p := st].Keys == s.procs.Keys;
    ForestSame(s, Block(s1, p, st));
  }

  lemma {:induction false} WriteInv(s: Sys, p: Pid, c: Cid, v: Value)
    requires Inv(s) && s.curr == Some(p) && p !in s.alts && c in s.chans
    ensures Inv(DoWrite(s, p, c, v))
  {
    WritePlaced(s, p, c, v);
    WriteChoices(s, p, c, v);
    WriteForest(s, p, c, v);
  }

  lemma {:induction false} ReadForest(s: Sys, p: Pid, c: Cid)
    requires Placed(s) && ForestInv(s) && s.curr == Some(p) && c in s.chans
    ensures ForestInv(DoRead(s, p, c))
  {
    var ch := s.chans[c];
    if WriterFirst(ch) {
      assert Slots(s, ch.endQ[0].pid, ChanWait(c)) > 0;
      ReadyForest(s, s.(chans := s.chans[c := TakeWriter(ch)]), ch.endQ[0].pid);
    } else {
      assert Slots(s, p, Running) == 1;
      BlockForest(s, s.(chans := s.chans[c := QueueReader(ch, p)]), p, ChanWait(c));
    }
  }

  lemma {:induction false} ReadInv(s: Sys, p: Pid, c: Cid)
    requires Inv(s) && s.curr == Some(p) && p !in s.alts && c in s.chans
    ensures Inv(DoRead(s, p, c))
  {
    ReadPlaced(s, p, c);
    ReadChoices(s, p, c);
    ReadForest(s, p, c);
  }

  lemma {:induction false} SelectBlockInv(s: Sys, p: Pid, args: Args)
    requires Inv(s) && s.curr == Some(p) && p !in s.alts && SelectEnabled(s, args, 0) && ReadyOf(s.chans, AddGuards(args)) == []
    ensures Inv(SelectBlock(s, p, args))
  {
    EnableEnds(s.chans, s.altsleep, p, AddGuards(args));
    WaitingPlaced(s, p, args, EnableAll(s.chans, s.altsleep, p, AddGuards(args)));
    WaitingChoices(s, p, args);
    assert Slots(s, p, Running) == 1;
    assert SelectBlock(s, p, args).procs.Keys == s.procs.Keys;
    ForestSame(s, SelectBlock(s, p, args));
  }

  lemma {:induction false} SelectReadyForest(s: Sys, p: Pid, args: Args, w: Guard)
    requires Placed(s) && ForestInv(s) && s.curr == Some(p)
    ensures ForestInv(SelectReady(s, p, args, w))
  {
    var s1 := Chosen(s, p, args, w);
    assert Slots(s, p, Running) == 1;
    if w.kind.OnChan? && w.kind.c in s.chans && WriterFirst(s.chans[w.kind.c]) {
      var ch, id := s.chans[w.kind.c], AltId(p, s.altCount);
      assert Slots(s, ch.endQ[0].pid, ChanWait(w.kind.c)) > 0;
      ReadyForest(s, s1.(chans := s.chans[w.kind.c := AltTake(ch, id, w.key)]), ch.endQ[0].pid);
      var s2 := AltRead(s1, w.kind.c, id, w.key);
      ReadyForest(s2, s2, p);
    } else {
      ReadyForest(s, s1, p);
    }
  }

  lemma {:induction false} SelectReadyInv(s: Sys, p: Pid, args: Args, i: nat)
    requires Inv(s) && s.curr == Some(p) && i < |ReadyOf(s.chans, AddGuards(args))|
    ensures Inv(SelectReady(s, p, args, ReadyOf(s.chans, AddGuards(args))[i]))
  {
    var w := ReadyOf(s.chans, AddGuards(args))[i];
    SelectReadyPlaced(s, p, args, w);
    SelectReadyChoices(s, p, args, i);
    SelectReadyForest(s, p, args, w);
  }

  lemma {:induction false} SelectInv(s: Sys, p: Pid, args: Args, choice: nat)
    requires Inv(s) && s.curr == Some(p) && p !in s.alts && SelectEnabled(s, args, choice)
    ensures Inv(DoSelect(s, p, args, choice))
  {
    if ReadyOf(s.chans, AddGuards(args)) == [] {
      SelectBlockInv(s, p, args);
    } else {
      SelectReadyInv(s, p, args, choice);
    }
  }

  lemma {:induction false} ResumeInv(s: Sys, p: Pid)
    requires Inv(s) && s.curr == Some(p) && p in s.alts
    ensures Inv(DoResume(s, p))
  {
    ResumePlaced(s, p);
    ResumeChoices(s, p);
    ForestSame(s, DoResume(s, p));
  }

  lemma {:induction false} SleepInv(s: Sys, p: Pid, us: nat, now: nat)
    requires Inv(s) && s.curr == Some(p) && p !in s.alts
    ensures Inv(DoSleep(s, p, us, now))
  {
    if us == 0 {
      YieldInv(s, p, s.isExit);
      assert YieldReady(s, p).(isExit := s.isExit) == YieldReady(s, p);
    } else {
      SleepUntilInv(s, p, LeastFree(s.sleep.Keys, now + us));
    }
  }

  lemma {:induction false} SleepUntilInv(s: Sys, p: Pid, d: nat)
    requires Inv(s) && s.curr == Some(p) && p !in s.alts && d !in s.sleep
    ensures Inv(SleepUntil(s, p, d))
  {
    assert Slots(s, p, Running) == 1;
    SleepUntilPlaced(s, p, d);
    BlockForest(s, s.(sleep := s.sleep[d := p]), p, Sleeping(d));
    StateKeeps(s, SleepUntil(s, p, d), p);
  }

  lemma {:induction false} YieldInv(s: Sys, p: Pid, exit: bool)
    requires Inv(s) && s.curr == Some(p) && p !in s.alts
    ensures Inv(YieldReady(s, p).(isExit := exit))
  {
    assert Slots(s, p, Running) == 1;
    var s' := YieldReady(s, p).(isExit := exit);
    YieldKeeps(s, p);
    SameSlots(YieldReady(s, p), s');
    ReadyForest(s, s, p);
    ForestSame(YieldReady(s, p), s');
    StateKeeps(s, s', p);
  }

  lemma {:induction false} ChopenInv(s: Sys, c: Cid)
    requires Inv(s) && c !in s.chans
    ensures Inv(s.(chans := s.chans[c := NewChan]))
  {
    ChopenPlaced(s, c);
    ChopenChoices(s, c);
    ForestSame(s, s.(chans := s.chans[c := NewChan]));
  }

  lemma {:induction false} MakeProcInv(s: Sys, p: Pid, t: Tid, q: Pid)
    requires Inv(s) && p !in s.alts && t !in s.trees && q !in s.procs && q !in s.ended
    ensures Inv(DoMakeProc(s, t, q))
  {
    MakeProcPlaced(s, t, q);
    MakeProcForest(s, t, q);
    StateKeeps(s, DoMakeProc(s, t, q), p);
  }

  lemma {:induction false} ComposeInv(s: Sys, p: Pid, kind: SP.Kind, ts: seq<Tid>, t: Tid)
    requires Inv(s) && p !in s.alts && Enabled(s, Compose(kind, ts, t))
    ensures Inv(DoCompose(s, kind, ts, t))
  {
    ComposePlaced(s, kind, ts, t);
    ComposeForest(s, kind, ts, t);
    StateKeeps(s, DoCompose(s, kind, ts, t), p);
  }

  lemma {:induction false} LaunchStates(s: Sys, t: Tid, run: Option<Pid>)
    requires t in s.trees
    ensures var s' := Launch(s, t, run);
      forall q {:trigger q in s.procs} :: q in s.procs ==> q in s'.procs && (s'.procs[q] == s.procs[q] || s'.procs[q] == Ready)
  {
    var b := s.trees[t].build;
    AddReadyAllFields(s.(trees := s.trees[t := Job(b, run, true)]), SP.Run(b));
  }

  lemma {:induction false} GoInv(s: Sys, p: Pid, t: Tid)
    requires Inv(s) && p !in s.alts && t in s.trees && !s.trees[t].started
    ensures Inv(Launch(s, t, None))
  {
    GoPlaced(s, t);
    LaunchForest(s, t, None);
    LaunchFields(s, t, None);
    LaunchStates(s, t, None);
    StateKeeps(s, Launch(s, t, None), p);
  }

  lemma {:induction false} RunInv(s: Sys, p: Pid, t: Tid)
    requires Inv(s) && s.curr == Some(p) && p !in s.alts && t in s.trees && !s.trees[t].started
    ensures Inv(Block(Launch(s, t, Some(p)), p, RunWait(t)))
  {
    var s1 := Launch(s, t, Some(p));
    var s' := Block(s1, p, RunWait(t));
    RunPlaced(s, t, p);
    LaunchForest(s, t, Some(p));
    LaunchFields(s, t, Some(p));
    LaunchStates(s, t, Some(p));
    assert Slots(s, p, Running) == 1;
    assert s'.procs.Keys == s1.procs.Keys;
    ForestSame(s1, s');
    StateKeeps(s, s', p);
  }

  /** The second state differs from the first in procs, the ready queue and the trees only; of the processes other than
      p, some are ready now, and the rest are as they were. */
  ghost predicate OnlyReadies(s: Sys, s': Sys, p: Pid) {
    && s' == s.(procs := s'.procs, readyQ := s'.readyQ, trees := s'.trees)
    && s.readyQ <= s'.readyQ
    && forall q {:trigger q in s.procs} :: q in s.procs && q != p ==> q in s'.procs && (s'.procs[q] == s.procs[q] || s'.procs[q] == Ready)
  }

  lemma {:induction false} ReportStates(s: Sys, p: Pid, t: Tid)
    requires t in s.trees
    ensures OnlyReadies(s, Report(s, p, t), p)
  {
    var o, j := SP.Finish(s.trees[t].build, p), s.trees[t];
    if !o.complete {
      var s1 := s.(trees := s.trees[t := j.(build := o.tree)]);
      AddReadyAllFields(s1, o.ready);
      assert Report(s, p, t) == AddReadyAll(s1, o.ready);
    } else if j.run.Some? {
      assert Report(s, p, t) == AddReady(s.(trees := s.trees - {t}), j.run.value);
    } else {
      assert Report(s, p, t) == s.(trees := s.trees - {t});
    }
  }

  /** The end of p concerns no channel, timer or ALT. */
  lemma {:induction false} EndStates(s: Sys, p: Pid)
    ensures OnlyReadies(Freed(s, p), DoEnd(s, p), p)
  {
    if p in s.owner && s.owner[p] in s.trees { ReportStates(Freed(s, p), p, s.owner[p]); }
  }

  lemma {:induction false} EndChoices(s: Sys, s': Sys, p: Pid)
    requires ChoiceInv(s) && p !in s.alts && OnlyReadies(Freed(s, p), s', p)
    ensures ChoiceInv(s')
  {
    forall q | q in s.procs && q != p ensures q in s'.procs && (s'.procs[q] == s.procs[q] || s'.procs[q] == Ready) {
      assert q in Freed(s, p).procs;
    }
    StateKeeps(s, s', p);
  }

  lemma {:induction false} EndInv(s: Sys, p: Pid)
    requires Inv(s) && s.curr == Some(p) && p !in s.alts
    ensures Inv(DoEnd(s, p))
  {
    EndPlaced(s, p);
    RunningCanEnd(s, p);
    EndForest(s, p);
    EndStates(s, p);
    EndChoices(s, DoEnd(s, p), p);
  }

  // ---------------------------------------------------------------- steps and runs

  lemma {:induction false} StepInv(s: Sys, a: Action)
    requires Inv(s) && Enabled(s, a)
    ensures Inv(Next(s, a))
  {
    if a.Schedule? {
      ScheduleInv(s, a.now);
    } else {
      var p := s.curr.value;
      match a
      case Chopen(c) => ChopenInv(s, c);
      case Write(c, v) => WriteInv(s, p, c, v);
      case Read(c) => ReadInv(s, p, c);
      case Select(args, choice) => SelectInv(s, p, args, choice);
      case Resume => ResumeInv(s, p);
      case Sleep(us, now) => SleepInv(s, p, us, now);
      case Yield =>
        YieldInv(s, p, s.isExit);
        assert YieldReady(s, p).(isExit := s.isExit) == YieldReady(s, p);
      case MakeProc(t, q) => MakeProcInv(s, p, t, q);
      case Compose(kind, ts, t) => ComposeInv(s, p, kind, ts, t);
      case Go(t) => GoInv(s, p, t);
      case Run(t) => RunInv(s, p, t);
      case End => EndInv(s, p);
      case Exit => YieldInv(s, p, true);
      case Schedule(_) =>
    }
  }

  /** At every point of every run, each live process is in exactly one place, the trees are as the ended processes
      say, and every ALT is decided at most once and only by one of its own guards. */
  lemma {:induction false} AlwaysInv(main: Pid, run: seq<Action>)
    requires IsRun(main, run)
    ensures Inv(After(main, run))
    decreases |run|
  {
    if run == [] {
      StartInv(main);
    } else {
      AlwaysInv(main, run[..|run| - 1]);
      StepInv(After(main, run[..|run| - 1]), run[|run| - 1]);
    }
  }
}
