/**
 A run in which a writer waits although an ALT wants its value, and in which the next value then overtakes it: the
 main process 0 and the process 1 are in an ALT on the same channel when the process 2 writes twice, and then the main
 process writes.
 */
module Overlooked {
  import opened Channels
  import opened Alts
  import opened Runtime
  import opened Ordering
  import opened Wrappers

  const ARGS: Args := [Some(OnChan(0))]
  const GUARDS: seq<Guard> := [Guard(0, OnChan(0))]

  const FIRST := AltId(0, 0)
  const SECOND := AltId(1, 1)

  const WANTED: Chan := NewChan.(altQ := [GuardRef(0, 0), GuardRef(1, 0)])
  const GIVEN: Chan := WANTED.(writes := [5], deliveries := [Delivery(0, 5, ByAlt(FIRST, 0))])
  const WAITED: Chan := GIVEN.(writes := [5, 6], endQ := [Writer(2, 1, 6)])

  function Leaf(p: Pid, started: bool): Job { Job(SP.Proc((), p), None, started) }

  /** The processes 0, 1 and 2 in the given states, 1 and 2 being started leaves. */
  function Three(p0: State, p1: State, p2: State, readyQ: seq<Pid>, curr: Option<Pid>, ch: Chan,
                 alts: map<Pid, Alt>, altCount: nat, outcomes: map<AltId, Outcome>): Sys
  {
    Start(0).(procs := map[0 := p0, 1 := p1, 2 := p2], readyQ := readyQ, curr := curr, chans := map[0 := ch],
              trees := map[1 := Leaf(1, true), 2 := Leaf(2, true)], owner := map[1 := 1, 2 := 2],
              alts := alts, altCount := altCount, outcomes := outcomes)
  }

  function Waiter(id: AltId, winner: Option<nat>): Alt { Alt(id, ARGS, GUARDS, winner) }

  /** The states of the run, and the actions between them. */
  function At(n: nat): Sys
    requires n <= 14
  {
    var begun := Start(0).(procs := map[0 := Running], readyQ := [], curr := Some(0), chans := map[0 := NewChan]);
    var a0, a1 := Waiter(FIRST, None), Waiter(SECOND, None);
    var done := map[FIRST := Outcome(0, OnChan(0), ARGS)];
    var won := Waiter(FIRST, Some(0));
    match n
    case 0 => Start(0)
    case 1 => begun.(chans := map[])
    case 2 => begun
    case 3 => begun.(procs := map[0 := Running, 1 := Unstarted], trees := map[1 := Leaf(1, false)], owner := map[1 := 1])
    case 4 => begun.(procs := map[0 := Running, 1 := Unstarted, 2 := Unstarted], owner := map[1 := 1, 2 := 2],
                     trees := map[1 := Leaf(1, false), 2 := Leaf(2, false)])
    case 5 => begun.(procs := map[0 := Running, 1 := Ready, 2 := Unstarted], owner := map[1 := 1, 2 := 2],
                     trees := map[1 := Leaf(1, true), 2 := Leaf(2, false)], readyQ := [1])
    case 6 => Three(Running, Ready, Ready, [1, 2], Some(0), NewChan, map[], 0, map[])
    case 7 => Three(AltWait, Ready, Ready, [1, 2], None, NewChan.(altQ := [GuardRef(0, 0)]), map[0 := a0], 1, map[])
    case 8 => Three(AltWait, Running, Ready, [2], Some(1), NewChan.(altQ := [GuardRef(0, 0)]), map[0 := a0], 1, map[])
    case 9 => Three(AltWait, AltWait, Ready, [2], None, WANTED, map[0 := a0, 1 := a1], 2, map[])
    case 10 => Three(AltWait, AltWait, Running, [], Some(2), WANTED, map[0 := a0, 1 := a1], 2, map[])
    case 11 => Three(Ready, AltWait, Running, [0], Some(2), GIVEN, map[0 := won, 1 := a1], 2, done)
    case 12 => Three(Ready, AltWait, ChanWait(0), [0], None, WAITED, map[0 := won, 1 := a1], 2, done)
    case 13 => Three(Running, AltWait, ChanWait(0), [], Some(0), WAITED, map[0 := won, 1 := a1], 2, done)
    case _ => Three(Running, AltWait, ChanWait(0), [], Some(0), WAITED.(altQ := [GuardRef(1, 0)]), map[1 := a1], 2, done)
  }

  function Act(n: nat): Action
    requires n < 15
  {
    match n
    case 0 => Schedule(0)
    case 1 => Chopen(0)
    case 2 => MakeProc(1, 1)
    case 3 => MakeProc(2, 2)
    case 4 => Go(1)
    case 5 => Go(2)
    case 6 => Select(ARGS, 0)
    case 7 => Schedule(0)
    case 8 => Select(ARGS, 0)
    case 9 => Schedule(0)
    case 10 => Write(0, 5)
    case 11 => Write(0, 6)
    case 12 => Schedule(0)
    case 13 => Resume
    case _ => Write(0, 7)
  }

  /** The first n actions. */
  function Trace(n: nat): seq<Action>
    requires n <= 15
  {
    if n == 0 then [] else Trace(n - 1) + [Act(n - 1)]
  }

  ghost predicate Leads(n: nat) requires n < 14 { Enabled(At(n), Act(n)) && Next(At(n), Act(n)) == At(n + 1) }

  lemma NothingDue(s: Sys)
    requires s.sleep == map[] && s.altsleep == map[]
    ensures Wakeup(s, 0) == s
  {
  }

  lemma Schedules(n: nat)
    requires n == 0 || n == 7 || n == 9 || n == 12
    ensures 0 in At(n).procs && Wakeup(At(n), 0) == At(n) && Dispatch(At(n)) == At(n + 1)
  {
    NothingDue(At(n));
    assert At(n).procs[At(n).readyQ[0] := Running] == At(n + 1).procs;
  }

  lemma Opens()
    ensures Leads(1)
  {
    assert At(1).chans[0 := NewChan] == At(2).chans;
  }

  lemma Makes(n: nat)
    requires n == 2 || n == 3
    ensures DoMakeProc(At(n), n - 1, n - 1) == At(n + 1)
  {
    assert At(n).procs[n - 1 := Unstarted] == At(n + 1).procs;
    assert At(n).trees[n - 1 := Leaf(n - 1, false)] == At(n + 1).trees;
    assert At(n).owner[n - 1 := n - 1] == At(n + 1).owner;
  }

  lemma GoLeaf(s: Sys, t: Tid)
    requires t in s.trees && s.trees[t].build == SP.Proc((), t)
    ensures Launch(s, t, None) == AddReady(s.(trees := s.trees[t := Leaf(t, true)]), t)
  {
    assert [t][..0] == [];
    assert AddReadyAll(s.(trees := s.trees[t := Leaf(t, true)]), [t][..0]) == s.(trees := s.trees[t := Leaf(t, true)]);
  }

  lemma FirstGoes()
    ensures Launch(At(4), 1, None) == At(5)
  {
    GoLeaf(At(4), 1);
    assert At(4).procs[1 := Ready] == At(5).procs;
    assert At(4).trees[1 := Leaf(1, true)] == At(5).trees;
  }

  lemma SecondGoes()
    ensures Launch(At(5), 2, None) == At(6)
  {
    GoLeaf(At(5), 2);
    assert At(5).procs[2 := Ready] == At(6).procs;
    assert At(5).trees[2 := Leaf(2, true)] == At(6).trees;
  }

  lemma OneArgument()
    ensures AddGuards(ARGS) == GUARDS
  {
    assert ARGS[..0] == [];
    assert AddGuards([]) == [];
    assert [] + GUARDS == GUARDS;
  }

  lemma NotReady(chans: map<Cid, Chan>)
    requires 0 in chans && !WriterFirst(chans[0])
    ensures ReadyOf(chans, GUARDS) == []
  {
    assert GUARDS[..0] == [];
  }

  lemma NoTimer()
    ensures TimeOf(GUARDS) == None
  {
    assert GUARDS[1..] == [];
  }

  lemma Enables(s: Sys, p: Pid)
    requires 0 in s.chans && !WriterFirst(s.chans[0])
    ensures var ch := s.chans[0];
      EnableAll(s.chans, s.altsleep, p, GUARDS)
      == Enabling(s.chans[0 := ch.(altQ := ch.altQ + [GuardRef(p, 0)])], s.altsleep, GUARDS)
  {
    var e := Enabling(s.chans, s.altsleep, []);
    assert GUARDS[..0] == [];
    assert EnableAll(s.chans, s.altsleep, p, GUARDS[..0]) == e;
    assert [] + GUARDS == GUARDS;
    assert EnableAll(s.chans, s.altsleep, p, GUARDS) == EnableOne(e, p, GUARDS[0]);
  }

  /** The process p waits in its ALT. */
  function Blocked(s: Sys, p: Pid): Sys
    requires 0 in s.chans
  {
    var ch := s.chans[0];
    Waiting(s, p, ARGS, Enabling(s.chans[0 := ch.(altQ := ch.altQ + [GuardRef(p, 0)])], s.altsleep, GUARDS))
  }

  lemma Blocks(s: Sys, p: Pid)
    requires 0 in s.chans && !WriterFirst(s.chans[0])
    ensures SelectEnabled(s, ARGS, 0) && DoSelect(s, p, ARGS, 0) == Blocked(s, p)
  {
    OneArgument();
    NotReady(s.chans);
    NoTimer();
    Enables(s, p);
  }

  lemma FirstBlocks()
    ensures Blocked(At(6), 0) == At(7)
  {
    var s := At(6);
    assert s.procs[0 := AltWait] == At(7).procs && s.alts[0 := Waiter(FIRST, None)] == At(7).alts;
    assert s.chans[0].altQ + [GuardRef(0, 0)] == [GuardRef(0, 0)];
    assert s.chans[0 := NewChan.(altQ := [GuardRef(0, 0)])] == At(7).chans;
  }

  lemma SecondBlocks()
    ensures Blocked(At(8), 1) == At(9)
  {
    var s := At(8);
    assert s.procs[1 := AltWait] == At(9).procs && s.alts[1 := Waiter(SECOND, None)] == At(9).alts;
    assert s.chans[0].altQ + [GuardRef(1, 0)] == WANTED.altQ;
    assert s.chans[0 := WANTED] == At(9).chans;
  }

  lemma Gives()
    ensures HeadAccepts(At(10), 0) && DoWrite(At(10), 2, 0, 5) == At(11)
  {
    var s := At(10);
    assert GiveAlt(WANTED, 5, FIRST, 0) == GIVEN;
    assert s.chans[0 := GIVEN] == At(11).chans;
    assert s.alts[0 := Waiter(FIRST, Some(0))] == At(11).alts;
    assert s.outcomes[FIRST := Outcome(0, OnChan(0), ARGS)] == At(11).outcomes;
    assert s.procs[0 := Ready] == At(11).procs;
  }

  lemma Waits()
    ensures DoWrite(At(11), 2, 0, 6) == At(12)
  {
    var s := At(11);
    assert QueueWriter(GIVEN, 2, 6) == WAITED;
    assert s.chans[0 := WAITED] == At(12).chans;
    assert s.procs[2 := ChanWait(0)] == At(12).procs;
  }

  lemma Resumes()
    ensures DoResume(At(13), 0) == At(14)
  {
    assert [GuardRef(0, 0), GuardRef(1, 0)][1..] == [GuardRef(1, 0)] && [GuardRef(1, 0)][1..] == [];
    assert Without([GuardRef(0, 0), GuardRef(1, 0)], 0) == [GuardRef(1, 0)];
    assert DoResume(At(13), 0).chans == At(14).chans;
    assert DoResume(At(13), 0).alts == At(14).alts;
    assert DoResume(At(13), 0).altsleep == At(14).altsleep;
  }

  lemma ViaSchedule(s: Sys)
    requires s.curr.None? && !s.isExit && 0 in s.procs && Wakeup(s, 0) == s
    ensures Enabled(s, Schedule(0)) && Next(s, Schedule(0)) == Dispatch(s)
  {
  }

  lemma ViaWrite(s: Sys, v: Value)
    requires s.curr.Some? && s.curr.value !in s.alts && 0 in s.chans
    ensures Enabled(s, Write(0, v)) && Next(s, Write(0, v)) == DoWrite(s, s.curr.value, 0, v)
  {
  }

  lemma ViaSelect(s: Sys)
    requires s.curr.Some? && s.curr.value !in s.alts && 0 in s.chans && !WriterFirst(s.chans[0])
    ensures Enabled(s, Select(ARGS, 0)) && Next(s, Select(ARGS, 0)) == Blocked(s, s.curr.value)
  {
    Blocks(s, s.curr.value);
  }

  lemma ViaGo(s: Sys, t: Tid)
    requires s.curr.Some? && s.curr.value !in s.alts && t in s.trees && !s.trees[t].started
    ensures Enabled(s, Go(t)) && Next(s, Go(t)) == Launch(s, t, None)
  {
  }

  lemma ViaMakeProc(s: Sys, t: Tid)
    requires s.curr.Some? && s.curr.value !in s.alts && t !in s.trees && t !in s.procs && t !in s.ended
    ensures Enabled(s, MakeProc(t, t)) && Next(s, MakeProc(t, t)) == DoMakeProc(s, t, t)
  {
  }

  lemma ViaResume(s: Sys)
    requires s.curr.Some? && s.curr.value in s.alts
    ensures Enabled(s, Resume) && Next(s, Resume) == DoResume(s, s.curr.value)
  {
  }

  lemma Scheduled(n: nat)
    requires n == 0 || n == 7 || n == 9 || n == 12
    ensures Leads(n)
  {
    Schedules(n);
    ViaSchedule(At(n));
  }

  lemma Made(n: nat)
    requires n == 2 || n == 3
    ensures Leads(n)
  {
    Makes(n);
    ViaMakeProc(At(n), n - 1);
  }

  lemma Went()
    ensures Leads(4) && Leads(5)
  {
    FirstGoes();
    SecondGoes();
    ViaGo(At(4), 1);
    ViaGo(At(5), 2);
  }

  lemma FirstSelected()
    ensures Leads(6)
  {
    FirstBlocks();
    ViaSelect(At(6));
  }

  lemma SecondSelected()
    ensures Leads(8)
  {
    SecondBlocks();
    ViaSelect(At(8));
  }

  lemma Given()
    ensures Leads(10)
  {
    Gives();
    ViaWrite(At(10), 5);
  }

  lemma Waited()
    ensures Leads(11)
  {
    Waits();
    ViaWrite(At(11), 6);
  }

  lemma Resumed()
    ensures Leads(13)
  {
    Resumes();
    ViaResume(At(13));
  }

  lemma Step(n: nat)
    requires n < 14
    ensures Leads(n)
  {
    if n == 0 || n == 7 || n == 9 || n == 12 {
      Scheduled(n);
    } else if n == 1 {
      Opens();
    } else if n < 4 {
      Made(n);
    } else if n < 6 {
      Went();
    } else {
      FirstSelected();
      SecondSelected();
      Given();
      Waited();
      Resumed();
    }
  }

  lemma {:induction false} Reaches(n: nat)
    requires n <= 14
    ensures IsRun(0, Trace(n)) && After(0, Trace(n)) == At(n)
  {
    if n > 0 {
      Reaches(n - 1);
      Step(n - 1);
      Extend(Trace(n - 1), Act(n - 1), At(n - 1), At(n));
    }
  }

  lemma {:induction false} Extend(run: seq<Action>, a: Action, s: Sys, s': Sys)
    requires IsRun(0, run) && After(0, run) == s && Enabled(s, a) && Next(s, a) == s'
    ensures IsRun(0, run + [a]) && After(0, run + [a]) == s'
  {
    assert (run + [a])[..|run|] == run;
  }

  /** The rendezvous is missed, and order is lost: with two ALTs on one channel neither property holds of every run. */
  lemma {:induction false} CanMissAndOvertake()
    ensures IsRun(0, Trace(15))
    ensures Missed(After(0, Trace(12)), 0)
    ensures !Ordered(After(0, Trace(15)).chans, 0)
  {
    Reaches(12);
    Reaches(14);
    SecondWants();
    Extend(Trace(14), Act(14), At(14), Next(At(14), Write(0, 7)));
    assert Trace(15)[..|Trace(15)| - 1] == Trace(14);
    WriteChannel(At(14), 0, 0, 7);
    ChannelOrder(0, Trace(15), 0);
  }

  lemma {:induction false} SecondWants()
    ensures Missed(At(12), 0) && Overtakes(At(14), Write(0, 7), 0)
  {
    assert [GuardRef(0, 0), GuardRef(1, 0)][1..] == [GuardRef(1, 0)];
    assert Wants(At(12).alts, [GuardRef(1, 0)]);
  }
}
