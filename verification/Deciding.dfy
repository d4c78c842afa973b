/**
 ALT over whole runs: it is decided once, by an event that one of its arguments waits for; it returns the position of
 that argument; it takes one value from the channel that decides it and none from any other; and it leaves no trace.
 */
module Deciding {
  import opened Channels
  import opened Alts
  import opened Runtime
  import opened Placement
  import opened Choices
  import opened Invariant
  import opened Ordering
  import opened Readiness

  // ---------------------------------------------------------------- decided once

  ghost predicate Grows(a: map<AltId, Outcome>, b: map<AltId, Outcome>) {
    forall id {:trigger b[id]} {:trigger a[id]} :: id in a ==> id in b && b[id] == a[id]
  }

  lemma {:induction false} GrowsTrans(a: map<AltId, Outcome>, b: map<AltId, Outcome>, c: map<AltId, Outcome>)
    requires Grows(a, b) && Grows(b, c)
    ensures Grows(a, c)
  {
  }

  lemma {:induction false} AcceptGrows(s: Sys, r: GuardRef, kind: Kind)
    requires IdsOk(s.alts, s.outcomes, s.altCount) && r.pid in s.alts && s.alts[r.pid].winner.None?
    ensures Grows(s.outcomes, Accept(s, r, kind).outcomes)
  {
  }

  lemma {:induction false} FireGuardsGrow(s: Sys, now: nat)
    requires IdsOk(s.alts, s.outcomes, s.altCount)
    ensures Grows(s.outcomes, FireGuards(s, now).outcomes)
    decreases |s.altsleep|
  {
    if s.altsleep != map[] && MinKey(s.altsleep) <= now {
      var s1 := FireGuard(s, MinKey(s.altsleep));
      FireGuardFields(s, MinKey(s.altsleep));
      FireGuardGrows(s, MinKey(s.altsleep));
      FireGuardsGrow(s1, now);
      GrowsTrans(s.outcomes, s1.outcomes, FireGuards(s, now).outcomes);
    }
  }

  lemma {:induction false} FireGuardGrows(s: Sys, d: nat)
    requires IdsOk(s.alts, s.outcomes, s.altCount) && d in s.altsleep
    ensures var s' := FireGuard(s, d);
      IdsOk(s'.alts, s'.outcomes, s'.altCount) && Grows(s.outcomes, s'.outcomes)
  {
    var r, s1 := s.altsleep[d], s.(altsleep := s.altsleep - {d});
    if r.pid in s.alts && s.alts[r.pid].winner.None? {
      AcceptGrows(s1, r, Time(d));
      AcceptIds(s1, r, Time(d));
    }
  }

  lemma {:induction false} WriteGrows(s: Sys, p: Pid, c: Cid, v: Value)
    requires IdsOk(s.alts, s.outcomes, s.altCount) && c in s.chans
    ensures Grows(s.outcomes, DoWrite(s, p, c, v).outcomes)
  {
    var ch, s1 := s.chans[c], s.(chans := s.chans[c := Written(s, p, c, v)]);
    if HeadAccepts(s, c) {
      AcceptGrows(s1, ch.altQ[0], OnChan(c));
      assert DoWrite(s, p, c, v) == AddReady(Accept(s1, ch.altQ[0], OnChan(c)), ch.altQ[0].pid);
    } else if ReaderFirst(ch) {
      assert DoWrite(s, p, c, v) == AddReady(s1, ch.endQ[0].pid);
    } else {
      assert DoWrite(s, p, c, v) == Block(s1, p, ChanWait(c));
    }
  }

  lemma {:induction false} ReadGrows(s: Sys, p: Pid, c: Cid)
    requires c in s.chans
    ensures Grows(s.outcomes, DoRead(s, p, c).outcomes)
  {
    var s1 := s.(chans := s.chans[c := Asked(s.chans[c], p)]);
    if WriterFirst(s.chans[c]) {
      assert DoRead(s, p, c) == AddReady(s1, s.chans[c].endQ[0].pid);
    } else {
      assert DoRead(s, p, c) == Block(s1, p, ChanWait(c));
    }
  }

  lemma {:induction false} SelectGrows(s: Sys, p: Pid, args: Args, choice: nat)
    requires IdsOk(s.alts, s.outcomes, s.altCount)
    ensures Grows(s.outcomes, DoSelect(s, p, args, choice).outcomes)
  {
    var ready := ReadyOf(s.chans, AddGuards(args));
    if ready == [] {
      assert DoSelect(s, p, args, choice) == SelectBlock(s, p, args);
    } else if choice < |ready| {
      var w := ready[choice];
      ChosenIds(s, p, args, w);
      CompletedOutcomes(Chosen(s, p, args, w), AltId(p, s.altCount), w);
    }
  }

  lemma {:induction false} CompletedOutcomes(s: Sys, id: AltId, w: Guard)
    ensures Completed(s, id, w).outcomes == s.outcomes
  {
  }

  lemma {:induction false} StepGrows(s: Sys, a: Action)
    requires Inv(s) && Enabled(s, a)
    ensures Grows(s.outcomes, Next(s, a).outcomes)
  {
    if Aside(a) { AsideKeeps(s, a); } else if a.Schedule? { ScheduleGrows(s, a.now); } else { CallGrows(s, a); }
  }

  lemma {:induction false} ScheduleGrows(s: Sys, now: nat)
    requires IdsOk(s.alts, s.outcomes, s.altCount)
    ensures Grows(s.outcomes, Dispatch(Wakeup(s, now)).outcomes)
  {
    WakeSleepersAside(s, now);
    FireGuardsGrow(WakeSleepers(s, now), now);
  }

  lemma {:induction false} CallGrows(s: Sys, a: Action)
    requires IdsOk(s.alts, s.outcomes, s.altCount) && Enabled(s, a) && !Aside(a) && !a.Schedule?
    ensures Grows(s.outcomes, Next(s, a).outcomes)
  {
    var p := s.curr.value;
    match a
    case Write(c, v) => WriteGrows(s, p, c, v);
    case Read(c) => ReadGrows(s, p, c);
    case Select(args, choice) => SelectGrows(s, p, args, choice);
    case _ =>
  }

  /** Once an ALT is decided, it stays decided in the same way. */
  lemma {:induction false} DecidedForGood(main: Pid, run: seq<Action>, n: nat)
    requires IsRun(main, run) && n <= |run|
    ensures Grows(After(main, run[..n]).outcomes, After(main, run).outcomes)
    decreases |run|
  {
    if |run| == n {
      assert run[..n] == run;
    } else {
      var q := run[..|run| - 1];
      assert q[..n] == run[..n];
      DecidedForGood(main, q, n);
      AlwaysInv(main, q);
      StepGrows(After(main, q), run[|run| - 1]);
    }
  }

  /** A decided ALT has taken one value, under its key, from the channel that decided it, and none from any other; an
      undecided one has taken nothing. */
  lemma {:induction false} TakesOnce(main: Pid, run: seq<Action>, id: AltId, c: Cid)
    requires IsRun(main, run) && c in After(main, run).chans
    ensures var s := After(main, run);
      AltKeys(s.chans[c].deliveries, id) == if id in s.outcomes && s.outcomes[id].kind == OnChan(c) then [s.outcomes[id].key] else []
  {
    AlwaysInv(main, run);
  }

  // ---------------------------------------------------------------- what is returned, and what is left

  /** The process that continues from an ALT returns the position of an argument, inactive ones counted, that waits for
      the very event that decided the ALT. */
  lemma {:induction false} ReturnsPosition(main: Pid, run: seq<Action>)
    requires IsRun(main, run) && Enabled(After(main, run), Resume)
    ensures var s := After(main, run);
      var a := s.alts[s.curr.value];
      && a.winner.Some? && a.id in s.outcomes
      && s.outcomes[a.id].key == a.winner.value && s.outcomes[a.id].args == a.args
      && a.winner.value < |a.args| && Answers(a.args, a.winner.value, s.outcomes[a.id].kind)
  {
    AlwaysInv(main, run);
    var s := After(main, run);
    var p := s.curr.value;
    assert Slots(s, p, Running) == 1 && Slots(s, p, AltWait) == 0;
  }

  /** The same for an ALT that finds a guard ready: the key that it will return is that of an argument whose event could
      happen at once, and a channel guard has the value of the first waiting writer. */
  lemma {:induction false} ReturnsReady(main: Pid, run: seq<Action>, args: Args, choice: nat)
    requires IsRun(main, run) && Enabled(After(main, run), Select(args, choice))
    requires !NoneCanFire(After(main, run).chans, args)
    ensures var s := After(main, run);
      var s', id := Next(s, Select(args, choice)), AltId(s.curr.value, s.altCount);
      && id !in s.outcomes && id in s'.outcomes && s'.outcomes[id].args == args
      && ReadyAnswer(s, s', id, s'.outcomes[id])
  {
    AlwaysInv(main, run);
    var s := After(main, run);
    NoneReady(s.chans, args);
    var w := ReadyOf(s.chans, AddGuards(args))[choice];
    ReadyCanFire(s.chans, args, choice);
    ChosenIds(s, s.curr.value, args, w);
    CompletedTakes(s, s.curr.value, args, w);
  }

  /** The outcome is the argument at its key, that could happen at once, and a channel has given its first waiting value. */
  ghost predicate ReadyAnswer(s: Sys, s': Sys, id: AltId, o: Outcome) {
    && CanFire(s.chans, o.args, o.key) && o.kind == o.args[o.key].value
    && (o.kind.OnChan? ==>
          var c := o.kind.c;
          && c in s'.chans
          && s'.chans[c].deliveries
             == s.chans[c].deliveries + [Delivery(s.chans[c].endQ[0].call, s.chans[c].endQ[0].data, ByAlt(id, o.key))])
  }

  lemma {:induction false} CompletedTakes(s: Sys, p: Pid, args: Args, w: Guard)
    requires CanFire(s.chans, args, w.key) && w.kind == args[w.key].value
    ensures var s', id := SelectReady(s, p, args, w), AltId(p, s.altCount);
      && id in s'.outcomes && s'.outcomes[id] == Outcome(w.key, w.kind, args)
      && ReadyAnswer(s, s', id, s'.outcomes[id])
  {
    SelectReadyChannel(s, p, args, w);
    CompletedOutcomes(Chosen(s, p, args, w), AltId(p, s.altCount), w);
  }

  /** No guard of p is anywhere. */
  ghost predicate NoTrace(s: Sys, p: Pid) {
    && p !in s.alts
    && (forall c, k {:trigger GuardRef(p, k) in s.chans[c].altQ} :: c in s.chans ==> GuardRef(p, k) !in s.chans[c].altQ)
    && (forall d {:trigger s.altsleep[d]} :: d in s.altsleep ==> s.altsleep[d].pid != p)
  }

  /** A process that is not in an ALT has no guard anywhere. */
  lemma {:induction false} Traceless(s: Sys, p: Pid)
    requires ChoiceInv(s) && p !in s.alts
    ensures NoTrace(s, p)
  {
    forall c, k: nat | c in s.chans ensures GuardRef(p, k) !in s.chans[c].altQ {
      CntIn(s.chans[c].altQ, GuardRef(p, k));
      assert Cnt(s.chans[c].altQ, GuardRef(p, k)) == Bit(GuardOn(s.alts, GuardRef(p, k), OnChan(c)));
    }
    forall d | d in s.altsleep ensures s.altsleep[d].pid != p {
      assert GuardOn(s.alts, s.altsleep[d], Time(d));
    }
  }

  /** The entries of others, in their order. */
  ghost predicate OthersKept(q: seq<GuardRef>, q': seq<GuardRef>, p: Pid) { Without(q, p) == Without(q', p) }

  lemma {:induction false} WithoutTwice(q: seq<GuardRef>, p: Pid)
    ensures Without(Without(q, p), p) == Without(q, p)
  {
    if q != [] {
      WithoutTwice(q[1..], p);
      var rest := Without(q[1..], p);
      assert ([q[0]] + rest)[1..] == rest && [] + rest == rest;
    }
  }

  /** Whichever way an ALT ends, none of its guards is left in an altQ or among the time guards, and the entries of the
      other processes are what they were. */
  lemma {:induction false} LeavesNoTrace(s: Sys, a: Action)
    requires Inv(s) && Enabled(s, a) && (a.Resume? || (a.Select? && !NoneCanFire(s.chans, a.args)))
    ensures var s', p := Next(s, a), s.curr.value;
      NoTrace(s', p) && Left(s, s', p)
  {
    if a.Select? { NoneReady(s.chans, a.args); }
    LeavesOthers(s, a);
    StepInv(s, a);
    Traceless(Next(s, a), s.curr.value);
  }

  /** p is in no ALT, and the guards of the others are what they were. */
  ghost predicate Left(s: Sys, s': Sys, p: Pid) {
    && p !in s'.alts
    && (forall c :: c in s.chans ==> c in s'.chans && OthersKept(s.chans[c].altQ, s'.chans[c].altQ, p))
    && (forall d :: d in s.altsleep && s.altsleep[d].pid != p ==> d in s'.altsleep && s'.altsleep[d] == s.altsleep[d])
  }

  lemma {:induction false} LeavesOthers(s: Sys, a: Action)
    requires Enabled(s, a) && (a.Resume? || (a.Select? && ReadyOf(s.chans, AddGuards(a.args)) != []))
    ensures Left(s, Next(s, a), s.curr.value)
  {
    var p := s.curr.value;
    if a.Resume? {
      ResumeOthers(s, p);
    } else {
      ReadyOthers(s, p, a.args, ReadyOf(s.chans, AddGuards(a.args))[a.choice]);
    }
  }

  lemma {:induction false} ReadyOthers(s: Sys, p: Pid, args: Args, w: Guard)
    requires p !in s.alts
    ensures Left(s, SelectReady(s, p, args, w), p)
  {
    SelectReadyChannel(s, p, args, w);
  }

  lemma {:induction false} ResumeOthers(s: Sys, p: Pid)
    ensures Left(s, DoResume(s, p), p)
  {
    var s' := DoResume(s, p);
    forall c | c in s.chans ensures c in s'.chans && OthersKept(s.chans[c].altQ, s'.chans[c].altQ, p) {
      WithoutTwice(s.chans[c].altQ, p);
    }
  }

  // ---------------------------------------------------------------- how a waiting ALT is decided

  /** What fired for the ALT that p was in. */
  ghost predicate DecidedBy(s: Sys, s': Sys, p: Pid, kind: Kind)
    requires p in s.alts
  {
    var id := s.alts[p].id;
    p in s'.alts && s'.alts[p].winner.Some? && id in s'.outcomes && s'.outcomes[id].kind == kind
  }

  lemma {:induction false} WriteDecides(s: Sys, q: Pid, c: Cid, v: Value, p: Pid)
    requires ChoiceInv(s) && c in s.chans && p != q && Undecided(s.alts, p)
    ensures var s' := DoWrite(s, q, c, v);
      if HeadAccepts(s, c) && s.chans[c].altQ[0].pid == p then DecidedBy(s, s', p, OnChan(c)) else Undecided(s'.alts, p)
  {
    var ch, s1 := s.chans[c], s.(chans := s.chans[c := Written(s, q, c, v)]);
    if HeadAccepts(s, c) {
      assert DoWrite(s, q, c, v) == AddReady(Accept(s1, ch.altQ[0], OnChan(c)), ch.altQ[0].pid);
    } else {
      WriteChannel(s, q, c, v);
    }
  }

  /** The time guard of p fires at d, and nothing later takes that back. */
  lemma {:induction false} FiredDecides(s: Sys, d: nat, now: nat, p: Pid)
    requires Inv(s) && Undecided(s.alts, p) && d in s.altsleep && s.altsleep[d].pid == p
    ensures DecidedBy(s, FireGuards(FireGuard(s, d), now), p, Time(d))
  {
    var s1 := FireGuard(s, d);
    assert Slots(s, p, AltWait) == 1;
    FiredNow(s, d, p);
    FireGuardInv(s, d);
    StaysDecided(s, s1, now, p, Time(d));
  }

  lemma {:induction false} StaysDecided(s: Sys, s1: Sys, now: nat, p: Pid, kind: Kind)
    requires Inv(s1) && p in s.alts && DecidedBy(s, s1, p, kind)
    ensures DecidedBy(s, FireGuards(s1, now), p, kind)
  {
    FireGuardsGrow(s1, now);
    FireGuardsFewer(s1, now);
  }

  lemma {:induction false} FiredNow(s: Sys, d: nat, p: Pid)
    requires In(s.procs, p, AltWait) && Undecided(s.alts, p) && d in s.altsleep && s.altsleep[d].pid == p
    ensures DecidedBy(s, FireGuard(s, d), p, Time(d))
  {
    assert FireGuard(s, d) == Runtime.AddReady(Accept(s.(altsleep := s.altsleep - {d}), s.altsleep[d], Time(d)), p);
  }

  lemma {:induction false} FiredOther(s: Sys, d: nat, p: Pid)
    requires Undecided(s.alts, p) && d in s.altsleep && s.altsleep[d].pid != p
    ensures Undecided(FireGuard(s, d).alts, p) && FireGuard(s, d).alts[p] == s.alts[p]
  {
    var r, s1 := s.altsleep[d], s.(altsleep := s.altsleep - {d});
    if r.pid in s.procs && s.procs[r.pid] == AltWait && r.pid in s.alts && s.alts[r.pid].winner.None? {
      assert FireGuard(s, d) == Runtime.AddReady(Accept(s1, r, Time(d)), r.pid);
    } else {
      assert FireGuard(s, d) == s1;
    }
  }

  lemma {:induction false} OthersFire(s: Sys, e: nat, p: Pid)
    requires Inv(s) && Undecided(s.alts, p) && e in s.altsleep && s.altsleep[e].pid != p
    ensures var s1 := FireGuard(s, e);
      Inv(s1) && Undecided(s1.alts, p) && s1.alts[p] == s.alts[p] && s1.altsleep == s.altsleep - {e}
  {
    FireGuardInv(s, e);
    FiredOther(s, e, p);
  }

  /** The ALT of p still waits in s', or its own time guard, due at d, has decided it. */
  ghost predicate TimedOut(s: Sys, s': Sys, now: nat, p: Pid, d: nat)
    requires p in s.alts
  {
    Undecided(s'.alts, p) || (d <= now && d in s.altsleep && s.altsleep[d].pid == p && DecidedBy(s, s', p, Time(d)))
  }

  lemma {:induction false} TimedOutBefore(s: Sys, s1: Sys, s': Sys, now: nat, p: Pid, e: nat, d: nat)
    requires p in s.alts && p in s1.alts && s1.alts[p] == s.alts[p] && s1.altsleep == s.altsleep - {e} && TimedOut(s1, s', now, p, d)
    ensures TimedOut(s, s', now, p, d)
  {
  }

  /** A wakeup decides a waiting ALT only by its own time guard, and only when that is due. */
  lemma {:induction false} TimeDecides(s: Sys, now: nat, p: Pid) returns (d: nat)
    requires Inv(s) && Undecided(s.alts, p)
    ensures TimedOut(s, FireGuards(s, now), now, p, d)
    decreases |s.altsleep|
  {
    d := 0;
    if s.altsleep != map[] && MinKey(s.altsleep) <= now {
      var e := MinKey(s.altsleep);
      if s.altsleep[e].pid == p {
        FiredDecides(s, e, now, p);
        d := e;
      } else {
        OthersFire(s, e, p);
        d := TimeDecides(FireGuard(s, e), now, p);
        TimedOutBefore(s, FireGuard(s, e), FireGuards(s, now), now, p, e, d);
      }
    }
  }
}
