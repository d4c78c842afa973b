/**
 Control: after which steps the running process goes on, is queued again, waits or is gone; whom each call makes ready;
 whose turn is next; and when the scheduler stops.  All of it is said of the arguments of the call, the first entries of
 endQ and altQ and the states of the processes there.
 */
module Control {
  import opened Channels
  import opened Alts
  import opened Timers
  import opened Runtime
  import opened Placement
  import opened Forest
  import opened Invariant
  import opened Ordering
  import opened Waking
  import opened Readiness
  import opened Wrappers

  /** endQ starts with a reader. */
  predicate ReaderWaits(chans: map<Cid, Chan>, c: Cid) { c in chans && chans[c].endQ != [] && chans[c].endQ[0].Reader? }

  /** The first guard in altQ belongs to a process that waits in its ALT. */
  ghost predicate AltWaits(s: Sys, c: Cid) { c in s.chans && s.chans[c].altQ != [] && In(s.procs, s.chans[c].altQ[0].pid, AltWait) }

  /** What becomes of the running process. */
  datatype Fate = Continues | Requeued | Waits(st: State) | Gone

  ghost function FateOf(s: Sys, a: Action): Fate {
    match a
    case Write(c, _) => if AltWaits(s, c) || ReaderWaits(s.chans, c) then Continues else Waits(ChanWait(c))
    case Read(c) => if WriterWaits(s.chans, c) then Continues else Waits(ChanWait(c))
    case Select(args, _) => if NoneCanFire(s.chans, args) then Waits(AltWait) else Requeued
    case Sleep(us, now) => if us == 0 then Requeued else Waits(Sleeping(LeastFree(s.sleep.Keys, now + us)))
    case Yield => Requeued
    case Exit => Requeued
    case Run(t) => Waits(RunWait(t))
    case End => Gone
    case _ => Continues
  }

  ghost predicate Follows(s': Sys, p: Pid, fate: Fate) {
    match fate
    case Continues => s'.curr == Some(p) && In(s'.procs, p, Running)
    case Requeued => s'.curr.None? && In(s'.procs, p, Ready) && s'.readyQ != [] && s'.readyQ[|s'.readyQ| - 1] == p
    case Waits(st) => s'.curr.None? && In(s'.procs, p, st)
    case Gone => s'.curr.None? && p !in s'.procs && p in s'.ended
  }

  /** The process that the call makes ready. */
  ghost function Wakes(s: Sys, a: Action): seq<Pid> {
    match a
    case Write(c, _) =>
      if AltWaits(s, c) then [s.chans[c].altQ[0].pid]
      else if ReaderWaits(s.chans, c) then [s.chans[c].endQ[0].pid] else []
    case Read(c) => if WriterWaits(s.chans, c) then [s.chans[c].endQ[0].pid] else []
    case _ => []
  }

  /** The ready queue grows at its end, by the process that the call wakes and then by the calling one if it stays ready. */
  ghost predicate Queues(s: Sys, s': Sys, p: Pid, a: Action) {
    s'.readyQ == s.readyQ + Wakes(s, a) + if FateOf(s, a).Requeued? then [p] else []
  }

  // ---------------------------------------------------------------- the three ways in which a call ends

  lemma {:induction false} Woken(s: Sys, p: Pid, q: Pid)
    requires s.curr == Some(p) && In(s.procs, p, Running) && q != p
    ensures AddReady(s, q).readyQ == s.readyQ + [q] + [] && Follows(AddReady(s, q), p, Continues)
  {
  }

  lemma {:induction false} Blocked(s: Sys, p: Pid, st: State)
    ensures Block(s, p, st).readyQ == s.readyQ + [] + [] && Follows(Block(s, p, st), p, Waits(st))
  {
  }

  lemma {:induction false} Yielded(s: Sys, p: Pid)
    ensures YieldReady(s, p).readyQ == s.readyQ + [] + [p] && Follows(YieldReady(s, p), p, Requeued)
  {
  }

  // ---------------------------------------------------------------- channels

  lemma {:induction false} AltWaitsIs(s: Sys, c: Cid)
    requires Placed(s) && c in s.chans
    ensures AltWaits(s, c) <==> HeadAccepts(s, c)
  {
    if s.chans[c].altQ != [] {
      var q := s.chans[c].altQ[0].pid;
      assert Slots(s, q, AltWait) == Bit(In(s.procs, q, AltWait));
    }
  }

  lemma {:induction false} WriteControl(s: Sys, p: Pid, c: Cid, v: Value)
    requires Placed(s) && s.curr == Some(p) && c in s.chans
    ensures var s', a := DoWrite(s, p, c, v), Write(c, v); Queues(s, s', p, a) && Follows(s', p, FateOf(s, a))
  {
    var ch, s1 := s.chans[c], s.(chans := s.chans[c := Ordering.Written(s, p, c, v)]);
    AltWaitsIs(s, c);
    RunningOnly(s, p);
    if HeadAccepts(s, c) {
      AcceptControl(s1, p, ch.altQ[0], OnChan(c));
      assert DoWrite(s, p, c, v) == AddReady(Accept(s1, ch.altQ[0], OnChan(c)), ch.altQ[0].pid);
    } else if ReaderWaits(s.chans, c) {
      EndWaits(s, c);
      Woken(s1, p, ch.endQ[0].pid);
      assert DoWrite(s, p, c, v) == AddReady(s1, ch.endQ[0].pid);
    } else {
      Blocked(s1, p, ChanWait(c));
      assert DoWrite(s, p, c, v) == Block(s1, p, ChanWait(c));
    }
  }

  lemma {:induction false} AcceptControl(s: Sys, p: Pid, r: GuardRef, kind: Kind)
    requires s.curr == Some(p) && In(s.procs, p, Running) && r.pid != p && r.pid in s.alts
    ensures var s' := AddReady(Accept(s, r, kind), r.pid); s'.readyQ == s.readyQ + [r.pid] + [] && Follows(s', p, Continues)
  {
    Woken(Accept(s, r, kind), p, r.pid);
  }

  lemma {:induction false} ReadControl(s: Sys, p: Pid, c: Cid)
    requires Placed(s) && s.curr == Some(p) && c in s.chans
    ensures var s', a := DoRead(s, p, c), Read(c); Queues(s, s', p, a) && Follows(s', p, FateOf(s, a))
  {
    var ch, s1 := s.chans[c], s.(chans := s.chans[c := Asked(s.chans[c], p)]);
    RunningOnly(s, p);
    if WriterWaits(s.chans, c) {
      EndWaits(s, c);
      Woken(s1, p, ch.endQ[0].pid);
      assert DoRead(s, p, c) == AddReady(s1, ch.endQ[0].pid);
    } else {
      Blocked(s1, p, ChanWait(c));
      assert DoRead(s, p, c) == Block(s1, p, ChanWait(c));
    }
  }

  lemma {:induction false} RunningOnly(s: Sys, p: Pid)
    requires Placed(s) && s.curr == Some(p)
    ensures In(s.procs, p, Running)
  {
    assert Slots(s, p, Running) == Bit(In(s.procs, p, Running));
  }

  lemma {:induction false} EndWaits(s: Sys, c: Cid)
    requires Placed(s) && c in s.chans && s.chans[c].endQ != []
    ensures In(s.procs, s.chans[c].endQ[0].pid, ChanWait(c))
  {
    assert Slots(s, s.chans[c].endQ[0].pid, ChanWait(c)) > 0;
  }

  // ---------------------------------------------------------------- ALT, sleeping and trees

  lemma {:induction false} SelectControl(s: Sys, args: Args, choice: nat)
    requires Enabled(s, Select(args, choice))
    ensures var a := Select(args, choice); Follows(Next(s, a), s.curr.value, FateOf(s, a))
  {
    WaitsExactly(s, args, choice);
    if NoneCanFire(s.chans, args) {
      NoneReady(s.chans, args);
      assert Next(s, Select(args, choice)) == SelectBlock(s, s.curr.value, args);
    } else {
      WinnerCanFire(s, args, choice);
    }
  }

  lemma {:induction false} SleepControl(s: Sys, p: Pid, us: nat, now: nat)
    ensures var s', a := DoSleep(s, p, us, now), Sleep(us, now); Queues(s, s', p, a) && Follows(s', p, FateOf(s, a))
  {
    if us == 0 {
      Yielded(s, p);
    } else {
      var d := LeastFree(s.sleep.Keys, now + us);
      Blocked(s.(sleep := s.sleep[d := p]), p, Sleeping(d));
      assert DoSleep(s, p, us, now) == Block(s.(sleep := s.sleep[d := p]), p, Sleeping(d));
    }
  }

  lemma {:induction false} TreeControl(s: Sys, a: Action)
    requires Inv(s) && Enabled(s, a) && (a.Go? || a.Run? || a.End?)
    ensures Follows(Next(s, a), s.curr.value, FateOf(s, a))
  {
    var p := s.curr.value;
    StepInv(s, a);
    match a
    case Go(t) =>
      LaunchFields(s, t, None);
      RunningOnly(Next(s, a), p);
    case Run(t) => LaunchFields(s, t, Some(p));
    case End => EndControl(s, p);
  }

  lemma {:induction false} EndControl(s: Sys, p: Pid)
    requires Inv(s) && s.curr == Some(p) && p !in s.alts
    ensures var s' := DoEnd(s, p); s'.curr.None? && p !in s'.procs && p in s'.ended
  {
    RunningCanEnd(s, p);
    EndFields(s, p);
    EndStates(s, p);
  }

  // ---------------------------------------------------------------- every action of a process

  /** The law of control: each action of the running process leaves it running, queued last, waiting, or gone, as its
      fate says. */
  lemma {:induction false} ControlStep(s: Sys, a: Action)
    requires Inv(s) && Enabled(s, a) && !a.Schedule?
    ensures Follows(Next(s, a), s.curr.value, FateOf(s, a))
  {
    var p := s.curr.value;
    match a
    case Write(c, v) => WriteControl(s, p, c, v);
    case Read(c) => ReadControl(s, p, c);
    case Select(args, choice) => SelectControl(s, args, choice);
    case Sleep(us, now) => SleepControl(s, p, us, now);
    case Go(_) => TreeControl(s, a);
    case Run(_) => TreeControl(s, a);
    case End => TreeControl(s, a);
    case _ => PlainControl(s, a);
  }

  lemma {:induction false} PlainControl(s: Sys, a: Action)
    requires Inv(s) && Enabled(s, a) && (a.Chopen? || a.Resume? || a.MakeProc? || a.Compose? || a.Yield? || a.Exit?)
    ensures Follows(Next(s, a), s.curr.value, FateOf(s, a)) && Queues(s, Next(s, a), s.curr.value, a)
  {
    var p := s.curr.value;
    RunningOnly(s, p);
    if a.Yield? || a.Exit? {
      Yielded(s, p);
    } else {
      assert s.readyQ + [] + [] == s.readyQ;
      assert Next(s, a).curr == s.curr && Next(s, a).readyQ == s.readyQ && In(Next(s, a).procs, p, Running);
    }
  }

  /** Whom a call wakes: for a write the ALT at the head of altQ if it still waits, else the reader at the head of endQ; for a
      read the writer there; for the other calls nobody.  (For ALT see Readiness, for RUN, GO and ends Launching.) */
  lemma {:induction false} WakesExactly(s: Sys, a: Action)
    requires Inv(s) && Enabled(s, a) && !a.Schedule? && !a.Select? && !a.Go? && !a.Run? && !a.End?
    ensures Queues(s, Next(s, a), s.curr.value, a)
  {
    var p := s.curr.value;
    match a
    case Write(c, v) => WriteControl(s, p, c, v);
    case Read(c) => ReadControl(s, p, c);
    case Sleep(us, now) => SleepControl(s, p, us, now);
    case _ => PlainControl(s, a);
  }

  /** The processor is given up exactly by the actions whose fate is not to continue. */
  lemma {:induction false} GivesUp(s: Sys, a: Action)
    requires Inv(s) && Enabled(s, a) && !a.Schedule?
    ensures Next(s, a).curr == if FateOf(s, a).Continues? then s.curr else None
  {
    ControlStep(s, a);
  }

  // ---------------------------------------------------------------- the scheduler

  /** All that are ready at a turn of the scheduler, the due sleepers and then the due ALTs last. */
  ghost function ReadyAt(s: Sys, now: nat): seq<Pid> {
    s.readyQ + PidsAt(s.sleep, Due(s.sleep, now)) + Fired(s.alts, s.altsleep, Due(s.altsleep, now))
  }

  /** The first of them gets the processor; if there is none, nobody does. */
  lemma {:induction false} TurnExactly(s: Sys, now: nat)
    requires Inv(s) && Enabled(s, Schedule(now))
    ensures var s', q := Next(s, Schedule(now)), ReadyAt(s, now);
      if q == [] then s'.curr.None? && s'.readyQ == []
      else s'.curr == Some(q[0]) && In(s'.procs, q[0], Running) && s'.readyQ == q[1..]
  {
    WakeupExact(s, now);
    WakeSleepersAside(s, now);
    FireGuardsFields(WakeSleepers(s, now), now);
    Dispatched(Wakeup(s, now));
  }

  lemma {:induction false} Dispatched(s: Sys)
    requires s.curr.None?
    ensures var s', q := Dispatch(s), s.readyQ;
      if q == [] then s'.curr.None? && s'.readyQ == []
      else s'.curr == Some(q[0]) && In(s'.procs, q[0], Running) && s'.readyQ == q[1..]
  {
  }

  /** There is always something that can happen next, until the scheduler has been told to exit or no process is left. */
  lemma {:induction false} StopsExactly(s: Sys)
    requires Inv(s)
    ensures (forall a :: !Enabled(s, a)) <==> s.curr.None? && (s.isExit || s.procs == map[])
  {
    if s.curr.Some? {
      assert Enabled(s, if s.curr.value in s.alts then Resume else Yield);
    } else if !s.isExit && s.procs != map[] {
      assert Enabled(s, Schedule(0));
    }
  }

  // ---------------------------------------------------------------- exit

  predicate Exits(run: seq<Action>) { exists i :: 0 <= i < |run| && run[i].Exit? }

  /** Only proxc_exit and the end of a process can change is_exit. */
  lemma {:induction false} ExitKept(s: Sys, a: Action)
    requires Enabled(s, a) && !a.End?
    ensures Next(s, a).isExit == (s.isExit || a.Exit?) && Next(s, a).main == s.main && Next(s, a).ended == s.ended
  {
    if a.Schedule? {
      ScheduleExit(s, a.now);
    } else if a.Write? || a.Read? || a.Select? {
      CallExit(s, a);
    } else {
      OtherExit(s, a);
    }
  }

  lemma {:induction false} OtherExit(s: Sys, a: Action)
    requires Enabled(s, a) && !a.End? && !a.Schedule? && !a.Write? && !a.Read? && !a.Select?
    ensures Next(s, a).isExit == (s.isExit || a.Exit?) && Next(s, a).main == s.main && Next(s, a).ended == s.ended
  {
    match a
    case Go(t) => LaunchExit(s, t, None);
    case Run(t) => LaunchExit(s, t, s.curr);
    case Sleep(us, now) => SleepExit(s, s.curr.value, us, now);
    case _ =>
  }

  lemma {:induction false} LaunchExit(s: Sys, t: Tid, run: Option<Pid>)
    requires t in s.trees
    ensures SameEnd(s, Launch(s, t, run))
  {
    LaunchFields(s, t, run);
  }

  lemma {:induction false} SleepExit(s: Sys, p: Pid, us: nat, now: nat)
    ensures SameEnd(s, DoSleep(s, p, us, now))
  {
    if us == 0 {
      assert DoSleep(s, p, us, now) == YieldReady(s, p);
    } else {
      assert DoSleep(s, p, us, now) == SleepUntil(s, p, LeastFree(s.sleep.Keys, now + us));
    }
  }

  ghost predicate SameEnd(s: Sys, s': Sys) { s'.isExit == s.isExit && s'.main == s.main && s'.ended == s.ended }

  lemma {:induction false} CallExit(s: Sys, a: Action)
    requires Enabled(s, a) && (a.Write? || a.Read? || a.Select?)
    ensures SameEnd(s, Next(s, a))
  {
    var p := s.curr.value;
    match a
    case Write(c, v) => WriteExit(s, p, c, v);
    case Read(c) => ReadExit(s, p, c);
    case Select(args, choice) => SelectExit(s, p, args, choice);
  }

  lemma {:induction false} WriteExit(s: Sys, p: Pid, c: Cid, v: Value)
    requires c in s.chans
    ensures SameEnd(s, DoWrite(s, p, c, v))
  {
    var ch, s1 := s.chans[c], s.(chans := s.chans[c := Ordering.Written(s, p, c, v)]);
    if HeadAccepts(s, c) {
      assert SameEnd(s1, Accept(s1, ch.altQ[0], OnChan(c)));
      assert DoWrite(s, p, c, v) == AddReady(Accept(s1, ch.altQ[0], OnChan(c)), ch.altQ[0].pid);
    } else if ReaderFirst(ch) {
      assert DoWrite(s, p, c, v) == AddReady(s1, ch.endQ[0].pid);
    } else {
      assert DoWrite(s, p, c, v) == Block(s1, p, ChanWait(c));
    }
  }

  lemma {:induction false} ReadExit(s: Sys, p: Pid, c: Cid)
    requires c in s.chans
    ensures SameEnd(s, DoRead(s, p, c))
  {
    var ch, s1 := s.chans[c], s.(chans := s.chans[c := Asked(s.chans[c], p)]);
    if WriterFirst(ch) {
      assert DoRead(s, p, c) == AddReady(s1, ch.endQ[0].pid);
    } else {
      assert DoRead(s, p, c) == Block(s1, p, ChanWait(c));
    }
  }

  lemma {:induction false} SelectExit(s: Sys, p: Pid, args: Args, choice: nat)
    ensures SameEnd(s, DoSelect(s, p, args, choice))
  {
    var ready := ReadyOf(s.chans, AddGuards(args));
    if ready == [] {
      assert DoSelect(s, p, args, choice) == SelectBlock(s, p, args);
    } else if choice < |ready| {
      var s1 := Chosen(s, p, args, ready[choice]);
      CompletedExit(s1, AltId(p, s.altCount), ready[choice]);
      assert DoSelect(s, p, args, choice) == YieldReady(Completed(s1, AltId(p, s.altCount), ready[choice]), p);
    }
  }

  lemma {:induction false} CompletedExit(s: Sys, id: AltId, w: Guard)
    ensures SameEnd(s, Completed(s, id, w))
  {
  }

  lemma {:induction false} ScheduleExit(s: Sys, now: nat)
    ensures SameEnd(s, Dispatch(Wakeup(s, now)))
  {
    WakeSleepersAside(s, now);
    FireExit(WakeSleepers(s, now), now);
  }

  lemma {:induction false} FireExit(s: Sys, now: nat)
    ensures SameEnd(s, FireGuards(s, now))
    decreases |s.altsleep|
  {
    if s.altsleep != map[] && MinKey(s.altsleep) <= now {
      FireGuardFields(s, MinKey(s.altsleep));
      FireExit(FireGuard(s, MinKey(s.altsleep)), now);
    }
  }

  lemma {:induction false} EndExit(s: Sys, p: Pid)
    ensures DoEnd(s, p).isExit == (s.isExit || p == s.main) && DoEnd(s, p).main == s.main && DoEnd(s, p).ended == s.ended + {p}
  {
    EndStates(s, p);
  }

  /** The scheduler is to stop exactly when the main process has ended or some process has called proxc_exit. */
  lemma {:induction false} ExitExactly(main: Pid, run: seq<Action>)
    requires IsRun(main, run)
    ensures var s := After(main, run); s.main == main && (s.isExit <==> main in s.ended || Exits(run))
    decreases |run|
  {
    if run != [] {
      var q, a := run[..|run| - 1], run[|run| - 1];
      ExitExactly(main, q);
      assert Exits(run) <==> Exits(q) || a.Exit? by {
        assert forall i :: 0 <= i < |q| ==> q[i] == run[i];
      }
      if a.End? { EndExit(After(main, q), After(main, q).curr.value); } else { ExitKept(After(main, q), a); }
    }
  }

  /** Once it is to stop, the scheduler gives nobody another turn: when the running process has yielded, the run is over. */
  lemma {:induction false} ExitStops(main: Pid, run: seq<Action>, a: Action)
    requires IsRun(main, run) && (main in After(main, run).ended || Exits(run)) && After(main, run).curr.None?
    ensures !Enabled(After(main, run), a)
  {
    ExitExactly(main, run);
  }
}
