/**
 Time and fairness: who a wakeup makes ready and in which order, and when a process in the ready queue gets its turn.
 */
module Waking {
  import opened Channels
  import opened Alts
  import opened Timers
  import opened Runtime
  import opened Placement
  import opened Choices
  import opened Invariant
  import opened Ordering
  import opened Wrappers

  /** The deadlines up to now, earliest first. */
  ghost function Due<T>(m: map<nat, T>, now: nat): seq<nat>
    decreases |m|
  {
    if m == map[] || MinKey(m) > now then [] else [MinKey(m)] + Due(m - {MinKey(m)}, now)
  }

  function Later<T>(m: map<nat, T>, now: nat): map<nat, T> { map d | d in m && d > now :: m[d] }

  ghost predicate Increasing(ds: seq<nat>) { forall i, j :: 0 <= i < j < |ds| ==> ds[i] < ds[j] }

  lemma {:induction false} MinUnique<T>(m: map<nat, T>, d: nat)
    requires IsMin(m, d)
    ensures m != map[] && MinKey(m) == d
  {
    assert d in m;
    assert IsMin(m, MinKey(m));
  }

  /** These are exactly the deadlines up to now, each once. */
  lemma {:induction false} DueExact<T>(m: map<nat, T>, now: nat)
    ensures forall d: nat :: d in Due(m, now) <==> d in m && d <= now
    ensures Increasing(Due(m, now))
    decreases |m|
  {
    if m != map[] && MinKey(m) <= now {
      var d := MinKey(m);
      var rest := Due(m - {d}, now);
      DueExact(m - {d}, now);
      assert forall e: nat :: e in Due(m, now) <==> e == d || e in rest;
      forall j | 0 <= j < |rest| ensures d < rest[j] { assert rest[j] in rest; }
    }
  }

  function PidsAt(m: map<nat, Pid>, ds: seq<nat>): seq<Pid> {
    if ds == [] || ds[0] !in m then [] else [m[ds[0]]] + PidsAt(m, ds[1..])
  }

  lemma {:induction false} PidsFewer(m: map<nat, Pid>, n: map<nat, Pid>, ds: seq<nat>)
    requires forall d {:trigger d in ds} :: d in ds ==> d in m && d in n && m[d] == n[d]
    ensures PidsAt(m, ds) == PidsAt(n, ds)
  {
    if ds != [] {
      assert ds[0] in ds;
      assert forall d {:trigger d in ds[1..]} :: d in ds[1..] ==> d in ds;
      PidsFewer(m, n, ds[1..]);
    }
  }

  lemma {:induction false} LaterStep<T>(m: map<nat, T>, d: nat, now: nat)
    requires d in m && d <= now
    ensures Later(m - {d}, now) == Later(m, now)
  {
  }

  lemma {:induction false} PidsStep(m: map<nat, Pid>, d: nat, now: nat)
    requires IsMin(m, d) && d <= now
    ensures PidsAt(m, Due(m, now)) == [m[d]] + PidsAt(m - {d}, Due(m - {d}, now))
  {
    var rest := Due(m - {d}, now);
    MinUnique(m, d);
    DueExact(m - {d}, now);
    PidsFewer(m, m - {d}, rest);
    assert Due(m, now) == [d] + rest && ([d] + rest)[1..] == rest;
  }

  /** Exactly the sleepers that are due join the ready queue, in the order of their deadlines; nobody wakes early. */
  lemma {:induction false} SleepersWake(s: Sys, now: nat)
    ensures var s' := WakeSleepers(s, now);
      && s'.readyQ == s.readyQ + PidsAt(s.sleep, Due(s.sleep, now))
      && s'.sleep == Later(s.sleep, now)
      && s'.altsleep == s.altsleep && s'.alts == s.alts && s'.chans == s.chans
    decreases |s.sleep|
  {
    if s.sleep == map[] || MinKey(s.sleep) > now {
      assert Later(s.sleep, now) == s.sleep;
      assert s.readyQ + [] == s.readyQ;
    } else {
      var d := MinKey(s.sleep);
      var p, s1 := s.sleep[d], WakeSleeper(s, d);
      SleepersWake(s1, now);
      PidsStep(s.sleep, d, now);
      LaterStep(s.sleep, d, now);
      var rest := PidsAt(s1.sleep, Due(s1.sleep, now));
      assert (s.readyQ + [p]) + rest == s.readyQ + ([p] + rest);
    }
  }

  /** The ALTs that the time guards due at ds, fired in that order, make ready: those not decided before. */
  function Fired(alts: map<Pid, Alt>, m: map<nat, GuardRef>, ds: seq<nat>): seq<Pid> {
    if ds == [] || ds[0] !in m then []
    else
      var p := m[ds[0]].pid;
      (if p in alts && alts[p].winner.None? then [p] else []) + Fired(alts, m, ds[1..])
  }

  /** Each ALT has at most one time guard. */
  lemma {:induction false} OneTimer(s: Sys, d: nat, e: nat)
    requires TimersOk(s.alts, s.altsleep) && ProperOk(s.alts) && d in s.altsleep && e in s.altsleep && s.altsleep[d].pid == s.altsleep[e].pid
    ensures d == e
  {
    var a := s.alts[s.altsleep[d].pid];
    assert GuardOn(s.alts, s.altsleep[d], Time(d)) && GuardOn(s.alts, s.altsleep[e], Time(e));
    HasTime(a.guards, s.altsleep[d].key, Time(d));
    HasTime(a.guards, s.altsleep[e].key, Time(e));
  }

  lemma {:induction false} FiredSame(a: map<Pid, Alt>, b: map<Pid, Alt>, m: map<nat, GuardRef>, n: map<nat, GuardRef>, ds: seq<nat>)
    requires forall d {:trigger d in ds} :: d in ds ==> d in m && d in n && m[d] == n[d]
    requires forall d {:trigger d in ds} :: d in ds ==>
      var p := m[d].pid; (p in a && a[p].winner.None?) <==> (p in b && b[p].winner.None?)
    ensures Fired(a, m, ds) == Fired(b, n, ds)
  {
    if ds != [] {
      assert ds[0] in ds;
      assert forall d {:trigger d in ds[1..]} :: d in ds[1..] ==> d in ds;
      FiredSame(a, b, m, n, ds[1..]);
    }
  }

  lemma {:induction false} FiredStep(s: Sys, d: nat, now: nat, b: map<Pid, Alt>)
    requires TimersOk(s.alts, s.altsleep) && ProperOk(s.alts) && IsMin(s.altsleep, d) && d <= now
    requires forall p {:trigger p in b} :: p != s.altsleep[d].pid ==>
      ((p in b && b[p].winner.None?) <==> (p in s.alts && s.alts[p].winner.None?))
    ensures var m, p := s.altsleep, s.altsleep[d].pid;
      Fired(s.alts, m, Due(m, now))
      == (if p in s.alts && s.alts[p].winner.None? then [p] else []) + Fired(b, m - {d}, Due(m - {d}, now))
  {
    var m := s.altsleep;
    var rest := Due(m - {d}, now);
    MinUnique(m, d);
    DueExact(m - {d}, now);
    forall e | e in rest && m[e].pid == m[d].pid ensures false { OneTimer(s, d, e); }
    FiredSame(s.alts, b, m, m - {d}, rest);
    assert Due(m, now) == [d] + rest && ([d] + rest)[1..] == rest;
  }

  /** What the guard due at d does to the ready queue. */
  lemma {:induction false} FireOne(s: Sys, d: nat)
    requires Placed(s) && TimersOk(s.alts, s.altsleep) && d in s.altsleep
    ensures var s1, p := FireGuard(s, d), s.altsleep[d].pid;
      && s1.readyQ == s.readyQ + (if p in s.alts && s.alts[p].winner.None? then [p] else [])
      && s1.alts.Keys == s.alts.Keys
      && forall q {:trigger q in s1.alts} :: q in s.alts && q != p ==> s1.alts[q] == s.alts[q]
  {
    var r, s0 := s.altsleep[d], s.(altsleep := s.altsleep - {d});
    FireGuardIs(s, d);
    if s.alts[r.pid].winner.None? {
      assert Accept(s0, r, Time(d)).alts.Keys == s.alts.Keys;
    } else {
      assert s.readyQ + [] == s.readyQ;
    }
  }

  /** One guard first and then the rest is all. */
  lemma {:induction false} FireRest(s: Sys, d: nat, now: nat, s1: Sys, s': Sys)
    requires TimersOk(s.alts, s.altsleep) && ProperOk(s.alts) && IsMin(s.altsleep, d) && d <= now && s1.altsleep == s.altsleep - {d}
    requires s1.alts.Keys == s.alts.Keys && forall q {:trigger q in s1.alts} :: q in s.alts && q != s.altsleep[d].pid ==>
      s1.alts[q] == s.alts[q]
    requires var p := s.altsleep[d].pid; s1.readyQ == s.readyQ + (if p in s.alts && s.alts[p].winner.None? then [p] else [])
    requires s'.readyQ == s1.readyQ + Fired(s1.alts, s1.altsleep, Due(s1.altsleep, now))
    ensures s'.readyQ == s.readyQ + Fired(s.alts, s.altsleep, Due(s.altsleep, now))
  {
    var p := s.altsleep[d].pid;
    FiredStep(s, d, now, s1.alts);
    CatAssoc(s.readyQ, if p in s.alts && s.alts[p].winner.None? then [p] else [], Fired(s1.alts, s1.altsleep, Due(s1.altsleep, now)));
  }

  lemma CatAssoc(a: seq<Pid>, b: seq<Pid>, c: seq<Pid>)
    ensures (a + b) + c == a + (b + c)
  {
  }

  /** Exactly the ALTs that still wait and whose time guard is due are made ready, each once, in the order of their
      deadlines. */
  lemma {:induction false} GuardsFire(s: Sys, now: nat)
    requires Inv(s)
    ensures var s' := FireGuards(s, now);
      && s'.readyQ == s.readyQ + Fired(s.alts, s.altsleep, Due(s.altsleep, now))
      && s'.altsleep == Later(s.altsleep, now)
      && s'.sleep == s.sleep && s'.chans == s.chans
    decreases |s.altsleep|
  {
    if s.altsleep == map[] || MinKey(s.altsleep) > now {
      assert Later(s.altsleep, now) == s.altsleep;
      assert s.readyQ + [] == s.readyQ;
    } else {
      var d := MinKey(s.altsleep);
      FireGuardInv(s, d);
      FireGuardFields(s, d);
      FireOne(s, d);
      GuardsFire(FireGuard(s, d), now);
      FireRest(s, d, now, FireGuard(s, d), FireGuards(s, now));
      LaterStep(s.altsleep, d, now);
    }
  }

  /** _scheduler_wakeup as a whole: after those that are ready already come the due sleepers, then the due ALTs. */
  lemma {:induction false} WakeupExact(s: Sys, now: nat)
    requires Inv(s)
    ensures var s' := Wakeup(s, now);
      && s'.readyQ == s.readyQ + PidsAt(s.sleep, Due(s.sleep, now)) + Fired(s.alts, s.altsleep, Due(s.altsleep, now))
      && s'.sleep == Later(s.sleep, now) && s'.altsleep == Later(s.altsleep, now)
  {
    SleepersWake(s, now);
    WakeSleepersInv(s, now);
    GuardsFire(WakeSleepers(s, now), now);
  }

  // ---------------------------------------------------------------- the ready queue is served in order

  lemma {:induction false} WriteQueue(s: Sys, p: Pid, c: Cid, v: Value)
    requires c in s.chans
    ensures s.readyQ <= DoWrite(s, p, c, v).readyQ
  {
    var ch, s1 := s.chans[c], s.(chans := s.chans[c := Written(s, p, c, v)]);
    if HeadAccepts(s, c) {
      assert Accept(s1, ch.altQ[0], OnChan(c)).readyQ == s.readyQ;
      assert DoWrite(s, p, c, v) == AddReady(Accept(s1, ch.altQ[0], OnChan(c)), ch.altQ[0].pid);
    } else if ReaderFirst(ch) {
      assert DoWrite(s, p, c, v) == AddReady(s1, ch.endQ[0].pid);
    } else {
      assert DoWrite(s, p, c, v) == Block(s1, p, ChanWait(c));
    }
  }

  lemma {:induction false} ReadQueue(s: Sys, p: Pid, c: Cid)
    requires c in s.chans
    ensures s.readyQ <= DoRead(s, p, c).readyQ
  {
    var ch, s1 := s.chans[c], s.(chans := s.chans[c := Asked(s.chans[c], p)]);
    if WriterFirst(ch) {
      assert DoRead(s, p, c) == AddReady(s1, ch.endQ[0].pid);
    } else {
      assert DoRead(s, p, c) == Block(s1, p, ChanWait(c));
    }
  }

  lemma {:induction false} CompletedQueue(s: Sys, id: AltId, w: Guard)
    ensures s.readyQ <= Completed(s, id, w).readyQ
  {
  }

  lemma {:induction false} SelectQueue(s: Sys, p: Pid, args: Args, choice: nat)
    ensures s.readyQ <= DoSelect(s, p, args, choice).readyQ
  {
    var ready := ReadyOf(s.chans, AddGuards(args));
    if ready == [] {
      assert DoSelect(s, p, args, choice) == SelectBlock(s, p, args);
    } else if choice < |ready| {
      CompletedQueue(Chosen(s, p, args, ready[choice]), AltId(p, s.altCount), ready[choice]);
    }
  }

  lemma {:induction false} SleepQueue(s: Sys, p: Pid, us: nat, now: nat)
    ensures s.readyQ <= DoSleep(s, p, us, now).readyQ
  {
    if us == 0 {
      assert DoSleep(s, p, us, now) == YieldReady(s, p);
    } else {
      assert DoSleep(s, p, us, now) == SleepUntil(s, p, LeastFree(s.sleep.Keys, now + us));
    }
  }

  lemma {:induction false} ScheduleQueue(s: Sys, now: nat)
    requires Inv(s) && s.readyQ != []
    ensures var s' := Dispatch(Wakeup(s, now)); s'.curr == Some(s.readyQ[0]) && s.readyQ[1..] <= s'.readyQ
  {
    WakeupExact(s, now);
  }

  /** Processes join the ready queue at its end, and leave it at its front when they get their turn. */
  lemma {:induction false} QueueStep(s: Sys, a: Action)
    requires Inv(s) && Enabled(s, a)
    ensures !a.Schedule? ==> s.readyQ <= Next(s, a).readyQ
    ensures a.Schedule? && s.readyQ != [] ==>
      Next(s, a).curr == Some(s.readyQ[0]) && s.readyQ[1..] <= Next(s, a).readyQ
  {
    if !a.Schedule? { CallQueue(s, a); } else if s.readyQ != [] { ScheduleQueue(s, a.now); }
  }

  lemma {:induction false} CallQueue(s: Sys, a: Action)
    requires Enabled(s, a) && !a.Schedule?
    ensures s.readyQ <= Next(s, a).readyQ
  {
    var p := s.curr.value;
    match a
    case Go(u) => LaunchFields(s, u, None);
    case Run(u) => LaunchFields(s, u, Some(p));
    case End => EndStates(s, p);
    case Write(c, v) => WriteQueue(s, p, c, v);
    case Read(c) => ReadQueue(s, p, c);
    case Select(args, choice) => SelectQueue(s, p, args, choice);
    case Sleep(us, now) => SleepQueue(s, p, us, now);
    case _ =>
  }

  /** How often the scheduler ran after the first n actions. */
  function Turns(run: seq<Action>, n: nat): nat {
    if |run| <= n then 0 else Turns(run[..|run| - 1], n) + if run[|run| - 1].Schedule? then 1 else 0
  }

  lemma {:induction false} MoveUp(s: Sys, a: Action, j: nat)
    requires Inv(s) && Enabled(s, a) && j < |s.readyQ|
    ensures var s' := Next(s, a);
      && (!a.Schedule? ==> j < |s'.readyQ| && s'.readyQ[j] == s.readyQ[j])
      && (a.Schedule? && j > 0 ==> j - 1 < |s'.readyQ| && s'.readyQ[j - 1] == s.readyQ[j])
      && (a.Schedule? && j == 0 ==> s'.curr == Some(s.readyQ[j]))
  {
    QueueStep(s, a);
  }

  /** The process p has t turns of the scheduler behind it since it was at position k. */
  ghost predicate Advanced(s: Sys, p: Pid, k: nat, t: nat) { t <= k ==> k - t < |s.readyQ| && s.readyQ[k - t] == p }

  lemma {:induction false} AdvanceStep(s: Sys, a: Action, p: Pid, k: nat, t: nat)
    requires Inv(s) && Enabled(s, a) && Advanced(s, p, k, t)
    ensures Advanced(Next(s, a), p, k, t + if a.Schedule? then 1 else 0)
    ensures t == k && a.Schedule? ==> Next(s, a).curr == Some(p)
  {
    if t <= k { MoveUp(s, a, k - t); }
  }

  /** Bounded bypass: from position k of the ready queue a process moves up by one at each turn of the scheduler, and
      gets its turn at the one after exactly k others, whatever the processes do in between. */
  lemma {:induction false} BoundedBypass(main: Pid, run: seq<Action>, n: nat, k: nat)
    requires IsRun(main, run) && n <= |run| && k < |After(main, run[..n]).readyQ|
    ensures Advanced(After(main, run), After(main, run[..n]).readyQ[k], k, Turns(run, n))
    ensures n < |run| && Turns(run, n) == k + 1 && run[|run| - 1].Schedule? ==>
      After(main, run).curr == Some(After(main, run[..n]).readyQ[k])
    decreases |run|
  {
    if |run| == n {
      assert run[..n] == run;
    } else {
      var q, a := run[..|run| - 1], run[|run| - 1];
      assert q[..n] == run[..n];
      BoundedBypass(main, q, n, k);
      AlwaysInv(main, q);
      AdvanceStep(After(main, q), a, After(main, run[..n]).readyQ[k], k, Turns(q, n));
    }
  }
}
