/**
 The histories kept beside the state are those of the run: what was written to each channel, how often it was read, which
 channels are open, and which processes have ended.
 */
module Histories {
  import opened Channels
  import opened Alts
  import opened Runtime
  import opened Placement
  import opened Ordering
  import opened Control

  function LastOf(run: seq<Action>): Action
    requires run != []
  {
    run[|run| - 1]
  }

  /** The values of the write calls on c. */
  function WritesIn(run: seq<Action>, c: Cid): seq<Value> {
    if run == [] then [] else WritesIn(run[..|run| - 1], c) + NewWrites(LastOf(run), c)
  }

  function NewWrites(a: Action, c: Cid): seq<Value> { if a.Write? && a.c == c then [a.v] else [] }

  /** How many read calls there were on c. */
  function ReadsIn(run: seq<Action>, c: Cid): nat {
    if run == [] then 0 else ReadsIn(run[..|run| - 1], c) + Bit(LastOf(run) == Read(c))
  }

  function OpensIn(run: seq<Action>, c: Cid): nat {
    if run == [] then 0 else OpensIn(run[..|run| - 1], c) + Bit(LastOf(run) == Chopen(c))
  }

  /** The processes that were running when they came to their end. */
  ghost function EndsIn(main: Pid, run: seq<Action>): set<Pid> {
    if run == [] then {}
    else
      var q := run[..|run| - 1];
      EndsIn(main, q) + if LastOf(run).End? && After(main, q).curr.Some? then {After(main, q).curr.value} else {}
  }

  // ---------------------------------------------------------------- one step

  /** The calls in the channel's books, after one more action. */
  ghost predicate CallsGrow(ch: Chan, ch': Chan, a: Action, c: Cid) {
    && ch'.writes == ch.writes + NewWrites(a, c)
    && ch'.readCalls == ch.readCalls + Bit(a == Read(c))
  }

  ghost predicate StepCalls(s: Sys, s': Sys, a: Action, c: Cid) {
    && (c in s'.chans <==> c in s.chans || a == Chopen(c))
    && (c in s.chans && c in s'.chans ==> CallsGrow(s.chans[c], s'.chans[c], a, c))
  }

  lemma {:induction false} SameCalls(ch: Chan, ch': Chan, a: Action, c: Cid)
    requires ch'.writes == ch.writes && ch'.readCalls == ch.readCalls && NewWrites(a, c) == [] && a != Read(c)
    ensures CallsGrow(ch, ch', a, c)
  {
    assert ch.writes + [] == ch.writes;
  }

  lemma {:induction false} WriteCalls(s: Sys, p: Pid, d: Cid, v: Value, c: Cid)
    requires d in s.chans
    ensures StepCalls(s, DoWrite(s, p, d, v), Write(d, v), c)
  {
    WriteChannel(s, p, d, v);
    if c != d && c in s.chans { SameCalls(s.chans[c], s.chans[c], Write(d, v), c); }
  }

  lemma {:induction false} ReadCalls(s: Sys, p: Pid, d: Cid, c: Cid)
    requires d in s.chans
    ensures StepCalls(s, DoRead(s, p, d), Read(d), c)
  {
    ReadChannel(s, p, d);
    if c in s.chans { assert s.chans[c].writes + [] == s.chans[c].writes; }
  }

  lemma {:induction false} SelectCalls(s: Sys, p: Pid, args: Args, choice: nat, c: Cid)
    requires SelectEnabled(s, args, choice)
    ensures StepCalls(s, DoSelect(s, p, args, choice), Select(args, choice), c)
  {
    var a, s', ready := Select(args, choice), DoSelect(s, p, args, choice), ReadyOf(s.chans, AddGuards(args));
    if ready == [] {
      EnableEnds(s.chans, s.altsleep, p, AddGuards(args));
      if c in s.chans { BlockSame(s, p, args, c); }
    } else {
      SelectReadyChannel(s, p, args, ready[choice]);
    }
    if c in s.chans { SameCalls(s.chans[c], s'.chans[c], a, c); }
  }

  lemma {:induction false} StepHistory(s: Sys, a: Action, c: Cid)
    requires Enabled(s, a)
    ensures StepCalls(s, Next(s, a), a, c)
  {
    if a.Write? || a.Read? || a.Select? {
      var p := s.curr.value;
      match a
      case Write(d, v) => WriteCalls(s, p, d, v, c);
      case Read(d) => ReadCalls(s, p, d, c);
      case Select(args, choice) => SelectCalls(s, p, args, choice, c);
    } else {
      OtherCalls(s, a, c);
    }
  }

  lemma {:induction false} OtherCalls(s: Sys, a: Action, c: Cid)
    requires Enabled(s, a) && !a.Write? && !a.Read? && !a.Select?
    ensures StepCalls(s, Next(s, a), a, c)
  {
    if a.Chopen? || a.Resume? {
      QueueCalls(s, a, c);
    } else {
      if Aside(a) { AsideKeeps(s, a); } else { ScheduleFewer(s, a.now); }
      if c in s.chans { SameCalls(s.chans[c], s.chans[c], a, c); }
    }
  }

  lemma {:induction false} QueueCalls(s: Sys, a: Action, c: Cid)
    requires Enabled(s, a) && (a.Chopen? || a.Resume?)
    ensures StepCalls(s, Next(s, a), a, c)
  {
    if c in s.chans { SameCalls(s.chans[c], Next(s, a).chans[c], a, c); }
  }

  // ---------------------------------------------------------------- whole runs

  /** At every point of every run: a channel is open exactly if it has been opened, and its books hold the values of all
      write calls on it, in their order, and the number of its read calls. */
  lemma {:induction false} CallsExactly(main: Pid, run: seq<Action>, c: Cid)
    requires IsRun(main, run)
    ensures var chans := After(main, run).chans;
      if c in chans then OpensIn(run, c) == 1 && chans[c].writes == WritesIn(run, c) && chans[c].readCalls == ReadsIn(run, c)
      else OpensIn(run, c) == 0 && WritesIn(run, c) == [] && ReadsIn(run, c) == 0
    decreases |run|
  {
    if run != [] {
      var q, a := run[..|run| - 1], LastOf(run);
      CallsExactly(main, q, c);
      StepHistory(After(main, q), a, c);
      if c !in After(main, q).chans && c in After(main, run).chans { Opened(After(main, q), a, c); }
    }
  }

  /** The processes that have ended are those that came to their end while they were running. */
  lemma {:induction false} EndsExactly(main: Pid, run: seq<Action>)
    requires IsRun(main, run)
    ensures After(main, run).ended == EndsIn(main, run)
    decreases |run|
  {
    if run != [] {
      var q, a := run[..|run| - 1], LastOf(run);
      EndsExactly(main, q);
      if a.End? { EndExit(After(main, q), After(main, q).curr.value); } else { ExitKept(After(main, q), a); }
    }
  }
}
