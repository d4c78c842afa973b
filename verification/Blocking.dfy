/**
 Who ends the waiting of a blocked process, and when: for each way of waiting, the exact condition.  (Waiting in RUN is
 in the module Joining.)
 */
module Blocking {
  import opened Channels
  import opened Alts
  import opened Timers
  import opened Runtime
  import opened Placement
  import opened Choices
  import opened Invariant
  import opened Ordering
  import opened Deciding
  import opened Waking
  import opened Wrappers

  // ---------------------------------------------------------------- waiting in a channel

  /** The step takes the first entry of the channel's endQ. */
  predicate Meets(s: Sys, a: Action, c: Cid) {
    c in s.chans && match a
    case Write(d, _) => d == c && !HeadAccepts(s, c) && ReaderFirst(s.chans[c])
    case Read(d) => d == c && WriterFirst(s.chans[c])
    case Select(args, choice) =>
      var ready := ReadyOf(s.chans, AddGuards(args));
      choice < |ready| && ready[choice].kind == OnChan(c)
    case _ => false
  }

  /** What a step does to the endQ q of a channel; p is the running process. */
  ghost predicate EndAfter(q: seq<ChanEnd>, q': seq<ChanEnd>, meets: bool, p: Option<Pid>) {
    if meets then q != [] && q' == q[1..]
    else q' == q || exists e :: q' == q + [e] && p == Some(e.pid)
  }

  lemma {:induction false} WriteEnds(s: Sys, p: Pid, d: Cid, v: Value, c: Cid)
    requires c in s.chans && d in s.chans
    ensures c in DoWrite(s, p, d, v).chans
    ensures EndAfter(s.chans[c].endQ, DoWrite(s, p, d, v).chans[c].endQ, Meets(s, Write(d, v), c), Some(p))
  {
    WriteChannel(s, p, d, v);
    var ch := s.chans[d];
    if !HeadAccepts(s, d) && !ReaderFirst(ch) { assert QueueWriter(ch, p, v).endQ == ch.endQ + [Writer(p, |ch.writes|, v)]; }
  }

  lemma {:induction false} ReadEnds(s: Sys, p: Pid, d: Cid, c: Cid)
    requires c in s.chans && d in s.chans
    ensures c in DoRead(s, p, d).chans
    ensures EndAfter(s.chans[c].endQ, DoRead(s, p, d).chans[c].endQ, Meets(s, Read(d), c), Some(p))
  {
    ReadChannel(s, p, d);
    var ch := s.chans[d];
    if !WriterFirst(ch) { assert QueueReader(ch, p).endQ == ch.endQ + [Reader(p, ch.readCalls)]; }
  }

  lemma {:induction false} SelectEnds(s: Sys, p: Pid, args: Args, choice: nat, c: Cid)
    requires c in s.chans && SelectEnabled(s, args, choice)
    ensures c in DoSelect(s, p, args, choice).chans
    ensures EndAfter(s.chans[c].endQ, DoSelect(s, p, args, choice).chans[c].endQ, Meets(s, Select(args, choice), c), Some(p))
  {
    var ready := ReadyOf(s.chans, AddGuards(args));
    if ready == [] {
      EnableEnds(s.chans, s.altsleep, p, AddGuards(args));
    } else {
      ReadyHas(s.chans, AddGuards(args), choice);
      SelectReadyChannel(s, p, args, ready[choice]);
    }
  }

  lemma {:induction false} StepEnds(s: Sys, a: Action, c: Cid)
    requires Enabled(s, a) && c in s.chans
    ensures c in Next(s, a).chans
    ensures EndAfter(s.chans[c].endQ, Next(s, a).chans[c].endQ, Meets(s, a, c), s.curr)
  {
    if Aside(a) {
      AsideKeeps(s, a);
    } else if a.Schedule? {
      ScheduleFewer(s, a.now);
    } else {
      var p := s.curr.value;
      match a
      case Write(d, v) => WriteEnds(s, p, d, v, c);
      case Read(d) => ReadEnds(s, p, d, c);
      case Select(args, choice) => SelectEnds(s, p, args, choice, c);
      case _ =>
    }
  }

  predicate IsFirst(s: Sys, p: Pid, c: Cid) { c in s.chans && s.chans[c].endQ != [] && s.chans[c].endQ[0].pid == p }

  lemma {:induction false} EndAfterCnt(q: seq<ChanEnd>, q': seq<ChanEnd>, meets: bool, curr: Option<Pid>, p: Pid)
    requires EndAfter(q, q', meets, curr) && curr != Some(p)
    ensures EndCnt(q', p) == EndCnt(q, p) - Bit(meets && q[0].pid == p)
  {
    if !meets && q' != q {
      var e :| q' == q + [e] && curr == Some(e.pid);
      EndCntAppend(q, e, p);
    }
  }

  lemma {:induction false} InChannel(s: Sys, p: Pid, c: Cid)
    requires Placed(s)
    ensures In(s.procs, p, ChanWait(c)) <==> c in s.chans && EndCnt(s.chans[c].endQ, p) == 1
    ensures c in s.chans ==> EndCnt(s.chans[c].endQ, p) <= 1
    ensures In(s.procs, p, ChanWait(c)) ==> s.curr != Some(p)
  {
    assert Slots(s, p, ChanWait(c)) == Bit(In(s.procs, p, ChanWait(c)));
    assert Slots(s, p, Running) == Bit(In(s.procs, p, Running));
  }

  /** A process that waits in a channel goes on waiting until it is the first there and the other side arrives. */
  lemma {:induction false} WaitsForPartner(s: Sys, a: Action, p: Pid, c: Cid)
    requires Inv(s) && Enabled(s, a) && In(s.procs, p, ChanWait(c))
    ensures In(Next(s, a).procs, p, ChanWait(c)) <==> !(Meets(s, a, c) && IsFirst(s, p, c))
  {
    StepInv(s, a);
    InChannel(s, p, c);
    StepEnds(s, a, c);
    EndAfterCnt(s.chans[c].endQ, Next(s, a).chans[c].endQ, Meets(s, a, c), s.curr, p);
    InChannel(Next(s, a), p, c);
  }

  // ---------------------------------------------------------------- sleeping

  lemma {:induction false} SleepKept(s: Sys, a: Action)
    requires Enabled(s, a) && !a.Schedule?
    ensures Next(s, a).sleep == s.sleep || (a.Sleep? && exists f: nat :: f !in s.sleep && Next(s, a).sleep == s.sleep[f := s.curr.value])
  {
    var p := s.curr.value;
    match a
    case Go(u) => LaunchFields(s, u, None);
    case Run(u) => LaunchFields(s, u, Some(p));
    case End => EndStates(s, p);
    case Write(c, v) => WriteSleep(s, p, c, v);
    case Read(c) => ReadSleep(s, p, c);
    case Select(args, choice) => SelectSleep(s, p, args, choice);
    case Sleep(us, now) => SleepSleep(s, p, us, now);
    case _ =>
  }

  lemma {:induction false} WriteSleep(s: Sys, p: Pid, c: Cid, v: Value)
    requires c in s.chans
    ensures DoWrite(s, p, c, v).sleep == s.sleep
  {
    var ch, s1 := s.chans[c], s.(chans := s.chans[c := Written(s, p, c, v)]);
    if HeadAccepts(s, c) {
      assert DoWrite(s, p, c, v) == AddReady(Accept(s1, ch.altQ[0], OnChan(c)), ch.altQ[0].pid);
    } else if ReaderFirst(ch) {
      assert DoWrite(s, p, c, v) == AddReady(s1, ch.endQ[0].pid);
    } else {
      assert DoWrite(s, p, c, v) == Block(s1, p, ChanWait(c));
    }
  }

  lemma {:induction false} ReadSleep(s: Sys, p: Pid, c: Cid)
    requires c in s.chans
    ensures DoRead(s, p, c).sleep == s.sleep
  {
    var ch, s1 := s.chans[c], s.(chans := s.chans[c := Asked(s.chans[c], p)]);
    if WriterFirst(ch) {
      assert DoRead(s, p, c) == AddReady(s1, ch.endQ[0].pid);
    } else {
      assert DoRead(s, p, c) == Block(s1, p, ChanWait(c));
    }
  }

  lemma {:induction false} SelectSleep(s: Sys, p: Pid, args: Args, choice: nat)
    ensures DoSelect(s, p, args, choice).sleep == s.sleep
  {
    var ready := ReadyOf(s.chans, AddGuards(args));
    if ready == [] {
      assert DoSelect(s, p, args, choice) == SelectBlock(s, p, args);
    } else if choice < |ready| {
      CompletedSleep(Chosen(s, p, args, ready[choice]), AltId(p, s.altCount), ready[choice]);
      assert DoSelect(s, p, args, choice) == SelectReady(s, p, args, ready[choice]);
    }
  }

  lemma {:induction false} CompletedSleep(s: Sys, id: AltId, w: Guard)
    ensures Completed(s, id, w).sleep == s.sleep
  {
  }

  /** The process sleeps until the first free deadline from the requested one on. */
  lemma {:induction false} SleepSleep(s: Sys, p: Pid, us: nat, now: nat)
    ensures us == 0 ==> DoSleep(s, p, us, now).sleep == s.sleep
    ensures us > 0 ==> var f := LeastFree(s.sleep.Keys, now + us);
      f !in s.sleep && DoSleep(s, p, us, now).sleep == s.sleep[f := p] && In(DoSleep(s, p, us, now).procs, p, Sleeping(f))
  {
    if us == 0 {
      assert DoSleep(s, p, us, now) == YieldReady(s, p);
    } else {
      assert DoSleep(s, p, us, now) == SleepUntil(s, p, LeastFree(s.sleep.Keys, now + us));
    }
  }

  /** A sleeper sleeps on until the scheduler runs at or after its deadline; then it wakes at once. */
  lemma {:induction false} SleepsUntilDue(s: Sys, a: Action, p: Pid, d: nat)
    requires Inv(s) && Enabled(s, a) && In(s.procs, p, Sleeping(d))
    ensures In(Next(s, a).procs, p, Sleeping(d)) <==> !(a.Schedule? && d <= a.now)
  {
    StepInv(s, a);
    AsleepIn(s, p, d);
    AsleepAfter(s, a, d);
    AsleepIn(Next(s, a), p, d);
  }

  lemma {:induction false} AsleepAfter(s: Sys, a: Action, d: nat)
    requires Inv(s) && Enabled(s, a) && d in s.sleep
    ensures if a.Schedule? && d <= a.now then d !in Next(s, a).sleep
            else d in Next(s, a).sleep && Next(s, a).sleep[d] == s.sleep[d]
  {
    if a.Schedule? { DueWakes(s, a.now, d); } else { SleepKept(s, a); }
  }

  lemma {:induction false} AsleepIn(s: Sys, p: Pid, d: nat)
    requires Placed(s)
    ensures In(s.procs, p, Sleeping(d)) <==> d in s.sleep && s.sleep[d] == p
  {
    assert Slots(s, p, Sleeping(d)) == Bit(In(s.procs, p, Sleeping(d)));
  }

  lemma {:induction false} DueWakes(s: Sys, now: nat, d: nat)
    requires Inv(s) && d in s.sleep
    ensures var s' := Dispatch(Wakeup(s, now)); if d <= now then d !in s'.sleep else d in s'.sleep && s'.sleep[d] == s.sleep[d]
  {
    WakeupExact(s, now);
  }

  // ---------------------------------------------------------------- waiting in an ALT

  /** A time guard of p is due. */
  ghost predicate TimerDue(s: Sys, p: Pid, now: nat) {
    exists d {:trigger s.altsleep[d]} :: d in s.altsleep && d <= now && s.altsleep[d].pid == p
  }

  lemma {:induction false} TimersDecide(s: Sys, now: nat, p: Pid)
    requires Inv(s) && Undecided(s.alts, p)
    ensures Undecided(FireGuards(s, now).alts, p) <==> !TimerDue(s, p, now)
    decreases |s.altsleep|
  {
    if s.altsleep != map[] {
      var e := MinKey(s.altsleep);
      assert IsMin(s.altsleep, e);
      if e <= now {
        var s1 := FireGuard(s, e);
        if s.altsleep[e].pid == p {
          FiredDecides(s, e, now, p);
        } else {
          FireGuardInv(s, e);
          FiredOther(s, e, p);
          TimersDecide(s1, now, p);
          SameDue(s, s1, e, p, now);
        }
      }
    }
  }

  lemma {:induction false} SameDue(s: Sys, s1: Sys, e: nat, p: Pid, now: nat)
    requires e in s.altsleep && s.altsleep[e].pid != p && s1.altsleep == s.altsleep - {e}
    ensures TimerDue(s1, p, now) <==> TimerDue(s, p, now)
  {
    if TimerDue(s, p, now) {
      var d :| d in s.altsleep && d <= now && s.altsleep[d].pid == p;
      assert s1.altsleep[d] == s.altsleep[d];
    }
    if TimerDue(s1, p, now) {
      var d :| d in s1.altsleep && d <= now && s1.altsleep[d].pid == p;
      assert s1.altsleep[d] == s.altsleep[d];
    }
  }

  /** A process that waits in an ALT goes on waiting until a write finds its guard at the head of an altQ, or the
      scheduler runs when its time guard is due. */
  lemma {:induction false} WaitsForGuard(s: Sys, a: Action, p: Pid)
    requires Inv(s) && Enabled(s, a) && In(s.procs, p, AltWait)
    ensures In(Next(s, a).procs, p, AltWait) <==>
      && !(a.Write? && HeadAccepts(s, a.c) && s.chans[a.c].altQ[0].pid == p)
      && !(a.Schedule? && TimerDue(s, p, a.now))
  {
    StepInv(s, a);
    AltWaits(s, p);
    AltAfter(s, a, p);
    AltWaits(Next(s, a), p);
  }

  lemma {:induction false} AltWaits(s: Sys, p: Pid)
    requires Placed(s)
    ensures In(s.procs, p, AltWait) <==> Undecided(s.alts, p)
    ensures In(s.procs, p, AltWait) ==> s.curr != Some(p)
  {
    assert Slots(s, p, AltWait) == Bit(In(s.procs, p, AltWait));
    assert Slots(s, p, Running) == Bit(In(s.procs, p, Running));
  }

  lemma {:induction false} AltAfter(s: Sys, a: Action, p: Pid)
    requires Inv(s) && Enabled(s, a) && Undecided(s.alts, p) && s.curr != Some(p)
    ensures Undecided(Next(s, a).alts, p) <==>
      && !(a.Write? && HeadAccepts(s, a.c) && s.chans[a.c].altQ[0].pid == p)
      && !(a.Schedule? && TimerDue(s, p, a.now))
  {
    if Aside(a) { AsideKeeps(s, a); } else if a.Schedule? { ScheduleDecides(s, a.now, p); } else { CallAfter(s, a, p); }
  }

  lemma {:induction false} CallAfter(s: Sys, a: Action, p: Pid)
    requires ChoiceInv(s) && Enabled(s, a) && !Aside(a) && !a.Schedule? && Undecided(s.alts, p) && s.curr != Some(p)
    ensures Undecided(Next(s, a).alts, p) <==> !(a.Write? && HeadAccepts(s, a.c) && s.chans[a.c].altQ[0].pid == p)
  {
    var q := s.curr.value;
    match a
    case Write(c, v) => WriteDecides(s, q, c, v, p);
    case Read(c) => ReadChannel(s, q, c);
    case Select(args, choice) => SelectOthers(s, q, args, choice, p);
    case _ =>
  }

  lemma {:induction false} ScheduleDecides(s: Sys, now: nat, p: Pid)
    requires Inv(s) && Undecided(s.alts, p)
    ensures Undecided(Dispatch(Wakeup(s, now)).alts, p) <==> !TimerDue(s, p, now)
  {
    WakeSleepersInv(s, now);
    WakeSleepersAside(s, now);
    TimersDecide(WakeSleepers(s, now), now, p);
  }

  lemma {:induction false} SelectOthers(s: Sys, q: Pid, args: Args, choice: nat, p: Pid)
    requires p != q
    ensures Undecided(DoSelect(s, q, args, choice).alts, p) == Undecided(s.alts, p)
  {
    var ready := ReadyOf(s.chans, AddGuards(args));
    if ready != [] && choice < |ready| { SelectReadyChannel(s, q, args, ready[choice]); }
  }
}
