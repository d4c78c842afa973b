/**
 The runtime in the form of its source: an object whose methods change the queues, timers and states step by step
 (src/scheduler.c, src/chan.c, src/alt.c, src/proxc.c).  Each method is shown to take the step that the machine of the
 module Runtime takes.
 */
module Machine {
  import opened Channels
  import opened Alts
  import opened Timers
  import opened Runtime
  import opened Placement
  import opened Choices
  import opened Invariant
  import LeafOrder
  import opened Readiness
  import opened Wrappers

  // ---------------------------------------------------------------- queues

  /** TAILQ_REMOVE. */
  function RemoveOne(q: seq<GuardRef>, r: GuardRef): seq<GuardRef> {
    if q == [] then [] else if q[0] == r then q[1..] else [q[0]] + RemoveOne(q[1..], r)
  }

  lemma {:induction false} RemoveLast(q: seq<GuardRef>, r: GuardRef)
    requires Cnt(q, r) == 0
    ensures RemoveOne(q + [r], r) == q
  {
    if q == [] {
      assert [r][1..] == [] && q + [r] == [r];
    } else {
      assert (q + [r])[1..] == q[1..] + [r];
      RemoveLast(q[1..], r);
    }
  }

  lemma {:induction false} RemoveCnt(q: seq<GuardRef>, r: GuardRef, x: GuardRef)
    ensures Cnt(RemoveOne(q, r), x) == Cnt(q, x) - Bit(r == x && Cnt(q, x) > 0)
    ensures Without(RemoveOne(q, r), r.pid) == Without(q, r.pid)
  {
    if q != [] {
      RemoveCnt(q[1..], r, x);
      if q[0] != r {
        var rest := RemoveOne(q[1..], r);
        assert ([q[0]] + rest)[1..] == rest;
      } else {
        assert [] + Without(q[1..], r.pid) == Without(q[1..], r.pid);
      }
    }
  }

  lemma {:induction false} AllOthers(q: seq<GuardRef>, p: Pid)
    requires forall k: nat :: Cnt(q, GuardRef(p, k)) == 0
    ensures Without(q, p) == q
  {
    if q != [] {
      assert Cnt(q, GuardRef(p, q[0].key)) == 0;
      forall k: nat ensures Cnt(q[1..], GuardRef(p, k)) == 0 { assert Cnt(q, GuardRef(p, k)) == 0; }
      AllOthers(q[1..], p);
    }
  }

  // ---------------------------------------------------------------- enabling and disabling

  /** Only guards of p with a key in gs are new in an altQ. */
  lemma {:induction false} NotQueued(chans: map<Cid, Chan>, altsleep: map<nat, GuardRef>, p: Pid, gs: seq<Guard>, c: Cid, k: nat)
    requires c in chans && !HasKey(gs, k)
    ensures var e := EnableAll(chans, altsleep, p, gs);
      c in e.chans && Cnt(e.chans[c].altQ, GuardRef(p, k)) == Cnt(chans[c].altQ, GuardRef(p, k))
  {
    if gs != [] {
      var n := |gs| - 1;
      var e := EnableAll(chans, altsleep, p, gs[..n]);
      assert gs == gs[..n] + [gs[n]];
      HasAppend(gs[..n], gs[n], k, Skip);
      NotQueued(chans, altsleep, p, gs[..n], c, k);
      EnableEnds(chans, altsleep, p, gs[..n]);
      if gs[n].kind.OnChan? && gs[n].kind.c == c { CntAppend(e.chans[c].altQ, GuardRef(p, gs[n].key), GuardRef(p, k)); }
    }
  }

  /** Disabling the guard that was enabled last takes back what that did. */
  lemma {:induction false} Undo(s: Sys, p: Pid, gs: seq<Guard>, g: Guard)
    requires QueuesOk(s.alts, s.chans) && p !in s.alts && Proper(gs + [g])
    ensures var e, e' := EnableAll(s.chans, s.altsleep, p, gs), EnableAll(s.chans, s.altsleep, p, gs + [g]);
      && e' == EnableOne(e, p, g)
      && (g.kind.Time? ==> e'.altsleep - {LeastFree(e.altsleep.Keys, g.kind.at)} == e.altsleep)
      && (g.kind.OnChan? && g.kind.c in e.chans && !WriterFirst(e.chans[g.kind.c]) ==>
            var c := g.kind.c;
            c in e'.chans && e'.chans[c := e'.chans[c].(altQ := RemoveOne(e'.chans[c].altQ, GuardRef(p, g.key)))] == e.chans)
  {
    var e, e' := EnableAll(s.chans, s.altsleep, p, gs), EnableAll(s.chans, s.altsleep, p, gs + [g]);
    assert (gs + [g])[..|gs|] == gs;
    HasAppend(gs, g, g.key, g.kind);
    EnableEnds(s.chans, s.altsleep, p, gs);
    if g.kind.OnChan? && g.kind.c in e.chans && !WriterFirst(e.chans[g.kind.c]) {
      var c, r := g.kind.c, GuardRef(p, g.key);
      NotQueued(s.chans, s.altsleep, p, gs, c, g.key);
      assert Cnt(s.chans[c].altQ, r) == Bit(GuardOn(s.alts, r, OnChan(c)));
      RemoveLast(e.chans[c].altQ, r);
      assert e'.chans == e.chans[c := e.chans[c].(altQ := e.chans[c].altQ + [r])];
    }
  }

  /** Enabling keeps the guards' places in the list. */
  lemma {:induction false} EnableLength(chans: map<Cid, Chan>, altsleep: map<nat, GuardRef>, p: Pid, gs: seq<Guard>)
    ensures |EnableAll(chans, altsleep, p, gs).guards| == |gs|
  {
    if gs != [] { EnableLength(chans, altsleep, p, gs[..|gs| - 1]); }
  }

  lemma {:induction false} EnablePrefix(chans: map<Cid, Chan>, altsleep: map<nat, GuardRef>, p: Pid, gs: seq<Guard>, i: nat)
    requires i <= |gs|
    ensures |EnableAll(chans, altsleep, p, gs).guards| == |gs|
    ensures EnableAll(chans, altsleep, p, gs[..i]).guards == EnableAll(chans, altsleep, p, gs).guards[..i]
  {
    EnableLength(chans, altsleep, p, gs);
    if i < |gs| {
      var n := |gs| - 1;
      EnablePrefix(chans, altsleep, p, gs[..n], i);
      assert gs[..n][..i] == gs[..i];
    } else {
      assert gs[..i] == gs;
    }
  }

  /** The guard is put into an altQ when it is enabled. */
  predicate Queued(chans: map<Cid, Chan>, g: Guard) {
    g.kind.OnChan? && g.kind.c in chans && !WriterFirst(chans[g.kind.c])
  }

  /** The flags in_chan after the guards gs have been enabled. */
  ghost predicate InChans(chans: map<Cid, Chan>, gs: seq<Guard>, inChan: seq<bool>) {
    |inChan| == |gs| && forall i {:trigger inChan[i]} :: 0 <= i < |gs| ==> (inChan[i] <==> Queued(chans, gs[i]))
  }

  /** ready holds the places in gs of the guards picked. */
  ghost predicate Picks(gs: seq<Guard>, ready: seq<nat>, picked: seq<Guard>) {
    |ready| == |picked| && forall j {:trigger ready[j]} :: 0 <= j < |ready| ==> ready[j] < |gs| && gs[ready[j]] == picked[j]
  }

  lemma {:induction false} MorePicks(chans: map<Cid, Chan>, gs: seq<Guard>, g: Guard, inChan: seq<bool>, ready: seq<nat>)
    requires InChans(chans, gs, inChan) && Picks(gs, ready, ReadyOf(chans, gs))
    ensures InChans(chans, gs + [g], inChan + [Queued(chans, g)])
    ensures Picks(gs + [g], ready + (if IsReady(chans, g) then [|gs|] else []), ReadyOf(chans, gs + [g]))
    ensures ready + [] == ready
  {
    assert (gs + [g])[..|gs|] == gs;
  }

  /** The guards are on open channels, and the time guard finds a free deadline. */
  ghost predicate CanEnable(chans: map<Cid, Chan>, altsleep: map<nat, GuardRef>, gs: seq<Guard>) {
    && Proper(gs)
    && (TimeOf(gs).Some? ==> Fits(altsleep.Keys, TimeOf(gs).value.kind.at))
    && forall i {:trigger gs[i]} :: 0 <= i < |gs| && gs[i].kind.OnChan? ==> gs[i].kind.c in chans
  }

  lemma {:induction false} SelectCanEnable(s: Sys, args: Args, choice: nat)
    requires SelectEnabled(s, args, choice)
    ensures CanEnable(s.chans, s.altsleep, AddGuards(args))
  {
    var gs := AddGuards(args);
    AddGuardsMeans(args, 0, Skip);
    forall i | 0 <= i < |gs| && gs[i].kind.OnChan? ensures gs[i].kind.c in s.chans {
      HasAt(gs, i);
      AddGuardsMeans(args, gs[i].key, gs[i].kind);
    }
  }

  /** The last guard enabled and what enabling it did, as far as disabling has to know. */
  ghost predicate Undoes(e: Enabling, e': Enabling, chans: map<Cid, Chan>, p: Pid, g: Guard, g': Guard) {
    && g'.key == g.key && (g'.kind.OnChan? <==> g.kind.OnChan?) && (g'.kind.Time? <==> g.kind.Time?)
    && (g'.kind.Time? ==> e'.altsleep - {g'.kind.at} == e.altsleep && e'.chans == e.chans)
    && (!g'.kind.Time? ==> e'.altsleep == e.altsleep)
    && (g'.kind.OnChan? ==> g' == g)
    && (Queued(chans, g) ==>
          var c := g.kind.c;
          c in e'.chans && e'.chans[c := e'.chans[c].(altQ := RemoveOne(e'.chans[c].altQ, GuardRef(p, g.key)))] == e.chans)
    && (!Queued(chans, g) ==> e'.chans == e.chans)
  }

  lemma {:induction false} UndoLast(s: Sys, p: Pid, gs: seq<Guard>, g: Guard)
    requires QueuesOk(s.alts, s.chans) && p !in s.alts && Proper(gs + [g])
    ensures var e, e' := EnableAll(s.chans, s.altsleep, p, gs), EnableAll(s.chans, s.altsleep, p, gs + [g]);
      |e'.guards| == |gs| + 1 && Undoes(e, e', s.chans, p, g, e'.guards[|gs|])
  {
    Undo(s, p, gs, g);
    EnableLength(s.chans, s.altsleep, p, gs);
    EnableEnds(s.chans, s.altsleep, p, gs);
  }

  /** The i-th guard and what enabling it did, when those before it are enabled. */
  lemma {:induction false} UndoAt(s: Sys, p: Pid, gs: seq<Guard>, i: nat)
    requires QueuesOk(s.alts, s.chans) && p !in s.alts && Proper(gs) && i < |gs|
    ensures var e, e' := EnableAll(s.chans, s.altsleep, p, gs[..i]), EnableAll(s.chans, s.altsleep, p, gs[..i + 1]);
      var g := EnableAll(s.chans, s.altsleep, p, gs).guards;
      |g| == |gs| && Undoes(e, e', s.chans, p, gs[i], g[i])
  {
    assert gs[..i + 1] == gs[..i] + [gs[i]];
    ProperPrefix(gs, i + 1);
    UndoLast(s, p, gs[..i], gs[i]);
    EnablePrefix(s.chans, s.altsleep, p, gs, i + 1);
    assert EnableAll(s.chans, s.altsleep, p, gs).guards[i] == EnableAll(s.chans, s.altsleep, p, gs[..i + 1]).guards[i];
  }

  /** When a time guard is enabled, it is the first. */
  lemma {:induction false} TimeFirst(chans: map<Cid, Chan>, altsleep: map<nat, GuardRef>, p: Pid, gs: seq<Guard>, i: nat)
    requires Proper(gs) && i < |gs|
    ensures gs[i].kind.Time? ==> TimeOf(gs) == Some(gs[i]) && EnableAll(chans, altsleep, p, gs[..i]).altsleep == altsleep
  {
    assert gs[..i + 1] == gs[..i] + [gs[i]];
    ProperPrefix(gs, i + 1);
    HasAppend(gs[..i], gs[i], 0, Skip);
    EnableGuards(chans, altsleep, p, gs[..i], 0, Skip);
    TimePrefix(gs, i + 1);
  }

  lemma {:induction false} TimePrefix(gs: seq<Guard>, i: nat)
    requires i <= |gs|
    ensures TimeOf(gs[..i]).Some? ==> TimeOf(gs) == TimeOf(gs[..i])
  {
    if i < |gs| {
      var n := |gs| - 1;
      assert gs == gs[..n] + [gs[n]];
      HasAppend(gs[..n], gs[n], 0, Skip);
      TimePrefix(gs[..n], i);
      assert gs[..n][..i] == gs[..i];
    } else {
      assert gs[..i] == gs;
    }
  }

  lemma {:induction false} ProperPrefix(gs: seq<Guard>, i: nat)
    requires Proper(gs) && i <= |gs|
    ensures Proper(gs[..i])
  {
    if i < |gs| {
      var n := |gs| - 1;
      assert gs == gs[..n] + [gs[n]];
      HasAppend(gs[..n], gs[n], 0, Skip);
      ProperPrefix(gs[..n], i);
      assert gs[..n][..i] == gs[..i];
    } else {
      assert gs[..i] == gs;
    }
  }

  lemma {:induction false} HasAt(gs: seq<Guard>, i: nat)
    requires i < |gs|
    ensures Has(gs, gs[i].key, gs[i].kind)
  {
    if i > 0 { HasAt(gs[1..], i - 1); }
  }

  /** The deadline under which the i-th guard is in the tree of time guards. */
  lemma {:induction false} TimerOf(s: Sys, p: Pid, gs: seq<Guard>, i: nat)
    requires Proper(gs) && i < |gs|
    ensures var e, g := EnableAll(s.chans, s.altsleep, p, gs[..i + 1]), EnableAll(s.chans, s.altsleep, p, gs).guards;
      |g| == |gs| && (g[i].kind.Time? ==> g[i].kind.at in e.altsleep && e.altsleep[g[i].kind.at] == GuardRef(p, g[i].key))
  {
    assert gs[..i + 1][..i] == gs[..i];
    EnablePrefix(s.chans, s.altsleep, p, gs, i + 1);
    EnableLength(s.chans, s.altsleep, p, gs[..i]);
    assert EnableAll(s.chans, s.altsleep, p, gs).guards[i] == EnableAll(s.chans, s.altsleep, p, gs[..i + 1]).guards[i];
  }

  // ---------------------------------------------------------------- disabling after the yield

  /** From the state s, the guards of p other than gs have been disabled. */
  ghost predicate Disabled(s: Sys, p: Pid, gs: seq<Guard>, chans: map<Cid, Chan>, altsleep: map<nat, GuardRef>) {
    && SameButQueues(s.chans, chans)
    && (forall c {:trigger chans[c]} :: c in s.chans && c in chans ==> Without(chans[c].altQ, p) == Without(s.chans[c].altQ, p))
    && (forall c, k: nat {:trigger Cnt(chans[c].altQ, GuardRef(p, k))} :: c in chans ==>
          Cnt(chans[c].altQ, GuardRef(p, k)) == Bit(Has(gs, k, OnChan(c))))
    && (forall d {:trigger altsleep[d]} :: d in altsleep ==>
          && d in s.altsleep && altsleep[d] == s.altsleep[d]
          && (altsleep[d].pid == p ==> Has(gs, altsleep[d].key, Time(d))))
    && (forall d {:trigger s.altsleep[d]} :: d in s.altsleep && s.altsleep[d].pid != p ==> d in altsleep)
  }

  lemma {:induction false} BeforeDisable(s: Sys, p: Pid)
    requires QueuesOk(s.alts, s.chans) && TimersOk(s.alts, s.altsleep) && p in s.alts
    ensures Disabled(s, p, s.alts[p].guards, s.chans, s.altsleep)
  {
    forall c, k: nat | c in s.chans ensures Cnt(s.chans[c].altQ, GuardRef(p, k)) == Bit(Has(s.alts[p].guards, k, OnChan(c))) {
      assert Cnt(s.chans[c].altQ, GuardRef(p, k)) == Bit(GuardOn(s.alts, GuardRef(p, k), OnChan(c)));
    }
    forall d | d in s.altsleep ensures GuardOn(s.alts, s.altsleep[d], Time(d)) {
    }
  }

  lemma {:induction false} DisableOne(s: Sys, p: Pid, gs: seq<Guard>, g: Guard, chans: map<Cid, Chan>, altsleep: map<nat, GuardRef>)
    requires Disabled(s, p, gs + [g], chans, altsleep) && Proper(gs + [g]) && (g.kind.OnChan? ==> g.kind.c in chans)
    ensures var r := GuardRef(p, g.key);
      var timers := if g.kind.Time? && g.kind.at in altsleep && altsleep[g.kind.at] == r then altsleep - {g.kind.at} else altsleep;
      var queues := if g.kind.OnChan?
                    then chans[g.kind.c := chans[g.kind.c].(altQ := RemoveOne(chans[g.kind.c].altQ, r))] else chans;
      Disabled(s, p, gs, queues, timers)
  {
    DisableQueue(s, p, gs, g, chans, altsleep);
    DisableTimer(s, p, gs, g, chans, altsleep);
  }

  lemma {:induction false} DisableQueue(s: Sys, p: Pid, gs: seq<Guard>, g: Guard, chans: map<Cid, Chan>, altsleep: map<nat, GuardRef>)
    requires Disabled(s, p, gs + [g], chans, altsleep) && Proper(gs + [g]) && (g.kind.OnChan? ==> g.kind.c in chans)
    ensures var r := GuardRef(p, g.key);
      var queues := if g.kind.OnChan?
                    then chans[g.kind.c := chans[g.kind.c].(altQ := RemoveOne(chans[g.kind.c].altQ, r))] else chans;
      && SameButQueues(s.chans, queues)
      && (forall c {:trigger queues[c]} :: c in s.chans && c in queues ==> Without(queues[c].altQ, p) == Without(s.chans[c].altQ, p))
      && (forall c, k: nat {:trigger Cnt(queues[c].altQ, GuardRef(p, k))} :: c in queues ==>
            Cnt(queues[c].altQ, GuardRef(p, k)) == Bit(Has(gs, k, OnChan(c))))
  {
    var r := GuardRef(p, g.key);
    var queues := if g.kind.OnChan?
                  then chans[g.kind.c := chans[g.kind.c].(altQ := RemoveOne(chans[g.kind.c].altQ, r))] else chans;
    forall c, k: nat | c in queues ensures Cnt(queues[c].altQ, GuardRef(p, k)) == Bit(Has(gs, k, OnChan(c))) {
      HasAppend(gs, g, k, OnChan(c));
      HasTime(gs, k, OnChan(c));
      assert Cnt(chans[c].altQ, GuardRef(p, k)) == Bit(Has(gs + [g], k, OnChan(c)));
      RemoveCnt(chans[c].altQ, r, GuardRef(p, k));
    }
    forall c | c in s.chans && c in queues ensures Without(queues[c].altQ, p) == Without(s.chans[c].altQ, p) {
      RemoveCnt(chans[c].altQ, r, r);
    }
  }

  lemma {:induction false} DisableTimer(s: Sys, p: Pid, gs: seq<Guard>, g: Guard, chans: map<Cid, Chan>, altsleep: map<nat, GuardRef>)
    requires Disabled(s, p, gs + [g], chans, altsleep)
    ensures var r := GuardRef(p, g.key);
      var timers := if g.kind.Time? && g.kind.at in altsleep && altsleep[g.kind.at] == r then altsleep - {g.kind.at} else altsleep;
      && (forall d {:trigger timers[d]} :: d in timers ==>
            && d in s.altsleep && timers[d] == s.altsleep[d]
            && (timers[d].pid == p ==> Has(gs, timers[d].key, Time(d))))
      && (forall d {:trigger s.altsleep[d]} :: d in s.altsleep && s.altsleep[d].pid != p ==> d in timers)
  {
    forall d | d in altsleep && altsleep[d].pid == p ensures Has(gs, altsleep[d].key, Time(d)) || g == Guard(altsleep[d].key, Time(d)) {
      HasAppend(gs, g, altsleep[d].key, Time(d));
    }
  }

  /** When all are disabled, the entries of p are gone and no others. */
  lemma {:induction false} AllDisabled(s: Sys, p: Pid, chans: map<Cid, Chan>, altsleep: map<nat, GuardRef>)
    requires Disabled(s, p, [], chans, altsleep)
    ensures chans == map c | c in s.chans :: s.chans[c].(altQ := Without(s.chans[c].altQ, p))
    ensures altsleep == map d | d in s.altsleep && s.altsleep[d].pid != p :: s.altsleep[d]
  {
    forall c | c in chans ensures chans[c] == s.chans[c].(altQ := Without(s.chans[c].altQ, p)) {
      forall k: nat ensures Cnt(chans[c].altQ, GuardRef(p, k)) == 0 {
        assert Cnt(chans[c].altQ, GuardRef(p, k)) == Bit(Has([], k, OnChan(c)));
      }
      AllOthers(chans[c].altQ, p);
    }
  }

  lemma {:induction false} AddReadyCat(s: Sys, ps: seq<Pid>, qs: seq<Pid>)
    ensures AddReadyAll(AddReadyAll(s, ps), qs) == AddReadyAll(s, ps + qs)
  {
    if qs == [] {
      assert ps + qs == ps;
    } else {
      var n := |qs| - 1;
      AddReadyCat(s, ps, qs[..n]);
      assert (ps + qs)[..|ps + qs| - 1] == ps + qs[..n];
    }
  }

  /** The ALT of p is accepted, and all its guards are where they were put. */
  ghost predicate CanResume(s: Sys, p: Pid) {
    && p in s.alts && s.alts[p].winner.Some? && Proper(s.alts[p].guards)
    && Disabled(s, p, s.alts[p].guards, s.chans, s.altsleep)
    && forall i {:trigger s.alts[p].guards[i]} :: 0 <= i < |s.alts[p].guards| && s.alts[p].guards[i].kind.OnChan? ==>
         s.alts[p].guards[i].kind.c in s.chans
  }

  lemma {:induction false} ResumeReady(s: Sys)
    requires Inv(s) && Enabled(s, Resume)
    ensures CanResume(s, s.curr.value)
  {
    var p := s.curr.value;
    var gs := s.alts[p].guards;
    assert Slots(s, p, Running) == 1 && Slots(s, p, AltWait) == 0;
    BeforeDisable(s, p);
    forall i | 0 <= i < |gs| && gs[i].kind.OnChan? ensures gs[i].kind.c in s.chans {
      HasAt(gs, i);
      assert Has(s.alts[p].guards, gs[i].key, OnChan(gs[i].kind.c));
    }
  }

  lemma {:induction false} AllTimersLive(s: Sys)
    requires Inv(s)
    ensures forall d {:trigger s.altsleep[d]} :: d in s.altsleep ==> s.altsleep[d].pid in s.alts && s.altsleep[d].pid in s.procs
  {
    forall d | d in s.altsleep ensures s.altsleep[d].pid in s.alts && s.altsleep[d].pid in s.procs {
      var p := s.altsleep[d].pid;
      assert GuardOn(s.alts, s.altsleep[d], Time(d));
      assert Slots(s, p, AltWait) == Bit(In(s.procs, p, AltWait));
      assert s.alts[p].winner.Some? ==> In(s.procs, p, Ready) || In(s.procs, p, Running);
    }
  }

  class Scheduler {
    const main: Pid
    var procs: map<Pid, State>
    var readyQ: seq<Pid>
    var sleep: map<nat, Pid>
    var altsleep: map<nat, GuardRef>
    var chans: map<Cid, Chan>
    var alts: map<Pid, Alt>
    var trees: map<Tid, Job>
    var owner: map<Pid, Tid>
    var curr: Option<Pid>
    var isExit: bool
    var altCount: nat
    ghost var ended: set<Pid>
    ghost var outcomes: map<AltId, Outcome>

    ghost function View(): Sys reads this {
      Sys(procs, readyQ, sleep, altsleep, chans, alts, trees, owner, curr, main, isExit, ended, altCount, outcomes)
    }

    ghost predicate Valid() reads this { Inv(View()) }

    /** proxc_start (src/proxc.c:10-23). */
    constructor (main: Pid)
      ensures View() == Start(main) && Valid()
    {
      this.main := main;
      procs, readyQ := map[main := State.Ready], [main];
      sleep, altsleep, chans, alts, trees, owner := map[], map[], map[], map[], map[], map[];
      curr, isExit, ended, altCount, outcomes := None, false, {}, 0, map[];
      new;
      StartInv(main);
    }

    // -------------------------------------------------------------- ready queue

    method AddReady(p: Pid)
      modifies this`procs, this`readyQ
      ensures View() == Runtime.AddReady(old(View()), p)
    {
      procs := procs[p := State.Ready];
      readyQ := readyQ + [p];
    }

    /** proc_yield of a process that stays ready, and what the scheduler does then (src/scheduler.c:301-305). */
    method YieldNow()
      requires curr.Some?
      modifies this`procs, this`readyQ, this`curr
      ensures View() == YieldReady(old(View()), old(curr.value))
    {
      AddReady(curr.value);
      curr := None;
    }

    /** proc_yield of a process that has set its state to one of waiting (src/scheduler.c:301-323). */
    method YieldWaiting(st: State)
      requires curr.Some?
      modifies this`procs, this`curr
      ensures View() == Block(old(View()), old(curr.value), st)
    {
      procs := procs[curr.value := st];
      curr := None;
    }

    // -------------------------------------------------------------- channels

    /** alt_accept (src/alt.c:121-135). */
    method AltAccept(r: GuardRef, ghost kind: Kind) returns (ok: bool)
      requires r.pid in alts
      modifies this`alts, this`outcomes
      ensures ok <==> old(alts[r.pid].winner.None?)
      ensures View() == if ok then Accept(old(View()), r, kind) else old(View())
    {
      var alt := alts[r.pid];
      if alt.winner.None? {
        alts := alts[r.pid := alt.(winner := Some(r.key))];
        outcomes := outcomes[alt.id := Outcome(r.key, kind, alt.args)];
        return true;
      }
      return false;
    }

    /** The head of an altQ belongs to a process that is in an ALT. */
    lemma HeadInAlt(c: Cid)
      requires Valid() && c in chans && chans[c].altQ != []
      ensures chans[c].altQ[0].pid in alts
    {
      HeadOfQueue(chans[c].altQ);
      assert Cnt(View().chans[c].altQ, chans[c].altQ[0]) == Bit(GuardOn(alts, chans[c].altQ[0], OnChan(c)));
    }

    /** The first part of chan_write: an ALT that is enabled on the channel may take the value (src/chan.c:61-72). */
    method GiveToAlt(c: Cid, v: Value) returns (ok: bool)
      requires c in chans && (chans[c].altQ != [] ==> chans[c].altQ[0].pid in alts)
      modifies this`procs, this`readyQ, this`chans, this`alts, this`outcomes
      ensures ok <==> old(HeadAccepts(View(), c))
      ensures !ok ==> View() == old(View())
      ensures ok ==> var s, r := old(View()), old(chans[c].altQ[0]);
        View() == Runtime.AddReady(Accept(s.(chans := s.chans[c := GiveAlt(s.chans[c], v, s.alts[r.pid].id, r.key)]), r, OnChan(c)), r.pid)
    {
      var ch := chans[c];
      ok := false;
      if ch.altQ != [] {
        var first := ch.altQ[0];
        ok := AltAccept(first, OnChan(c));
        if ok {
          chans := chans[c := GiveAlt(ch, v, alts[first.pid].id, first.key)];
          AddReady(first.pid);
        }
      }
    }

    /** chan_write (src/chan.c:50-113). */
    method ChanWrite(c: Cid, v: Value)
      requires curr.Some? && c in chans && (chans[c].altQ != [] ==> chans[c].altQ[0].pid in alts)
      modifies this`procs, this`readyQ, this`chans, this`alts, this`curr, this`outcomes
      ensures View() == DoWrite(old(View()), old(curr.value), c, v)
    {
      var given := GiveToAlt(c, v);
      if given { return; }
      var ch := chans[c];
      if ch.endQ != [] && ch.endQ[0].Reader? {
        chans := chans[c := GiveReader(ch, v)];
        AddReady(ch.endQ[0].pid);
        return;
      }
      chans := chans[c := QueueWriter(ch, curr.value, v)];
      YieldWaiting(ChanWait(c));
    }

    /** chan_read (src/chan.c:115-164). */
    method ChanRead(c: Cid)
      requires curr.Some? && c in chans
      modifies this`procs, this`readyQ, this`chans, this`curr
      ensures View() == DoRead(old(View()), old(curr.value), c)
    {
      var ch := chans[c];
      if ch.endQ != [] && ch.endQ[0].Writer? {
        chans := chans[c := TakeWriter(ch)];
        AddReady(ch.endQ[0].pid);
        return;
      }
      chans := chans[c := QueueReader(ch, curr.value)];
      YieldWaiting(ChanWait(c));
    }

    // -------------------------------------------------------------- ALT

    /** proxc_alt up to alt_select: the arguments are added one by one, and of the time guards only the one with the
        lowest deadline is kept (src/proxc.c:245-249, src/alt.c:90-119). */
    static method CollectGuards(args: Args) returns (gs: seq<Guard>)
      ensures gs == AddGuards(args)
    {
      gs := [];
      var keyCount := 0;
      var guardTime: Option<Guard> := None;
      assert args[..0] == [];
      while keyCount < |args|
        invariant keyCount <= |args|
        invariant gs == AddGuards(args[..keyCount]) && guardTime == TimeOf(gs)
      {
        var key, guard := keyCount, args[keyCount];
        keyCount := keyCount + 1;
        assert args[..keyCount][..key] == args[..key];
        AddGuardsMeans(args[..key], 0, Skip);
        if guard.Some? {
          HasWithoutTime(gs, key, guard.value);
          HasAppend(gs, Guard(key, guard.value), key, guard.value);
          HasAppend(WithoutTime(gs), Guard(key, guard.value), key, guard.value);
          if guard.value.Time? {
            if guardTime.Some? && guard.value.at >= guardTime.value.kind.at {
              continue;
            }
            if guardTime.Some? {
              gs := WithoutTime(gs);
            } else {
              NoTime(gs);
            }
            guardTime := Some(Guard(key, guard.value));
          }
          gs := gs + [Guard(key, guard.value)];
        }
      }
      assert args[..|args|] == args;
    }

    static lemma {:induction false} NoTime(gs: seq<Guard>)
      requires TimeOf(gs).None?
      ensures WithoutTime(gs) == gs
    {
      if gs != [] { NoTime(gs[1..]); }
    }

    /** scheduler_addaltsleep (src/scheduler.c:161-180). */
    method AddAltSleep(r: GuardRef, usec: nat) returns (at: nat)
      requires Fits(altsleep.Keys, usec)
      modifies this`altsleep
      ensures at == LeastFree(old(altsleep).Keys, usec) && altsleep == old(altsleep)[at := r]
    {
      at := usec;
      var tries := 0;
      while at in altsleep && tries < MAX_TRIES
        invariant at == usec + tries <= LeastFree(altsleep.Keys, usec)
        decreases MAX_TRIES - tries
      {
        tries := tries + 1;
        at := at + 1;
      }
      altsleep := altsleep[at := r];
    }

    /** alt_enable (src/alt.c:137-154): g is the guard with the deadline it got, inChan whether it is in an altQ. */
    method AltEnable(p: Pid, guard: Guard) returns (ready: bool, g: Guard, inChan: bool)
      requires guard.kind.Time? ==> Fits(altsleep.Keys, guard.kind.at)
      requires guard.kind.OnChan? ==> guard.kind.c in chans
      modifies this`altsleep, this`chans
      ensures ready <==> IsReady(old(chans), guard)
      ensures inChan <==> Queued(old(chans), guard)
      ensures forall gs :: EnableOne(Enabling(old(chans), old(altsleep), gs), p, guard) == Enabling(chans, altsleep, gs + [g])
    {
      ready, g, inChan := false, guard, false;
      match guard.kind
      case Skip => ready := true;
      case Time(at) =>
        var f := AddAltSleep(GuardRef(p, guard.key), at);
        g := Guard(guard.key, Time(f));
      case OnChan(c) =>
        var ch := chans[c];
        if ch.endQ != [] && ch.endQ[0].Writer? {
          ready := true;
        } else {
          chans := chans[c := ch.(altQ := ch.altQ + [GuardRef(p, guard.key)])];
          inChan := true;
        }
    }

    /** The first loop of alt_select (src/alt.c:219-225); ready holds places in the list of guards. */
    method EnableGuards(p: Pid, gs: seq<Guard>) returns (enabled: seq<Guard>, ready: seq<nat>, inChan: seq<bool>)
      requires CanEnable(chans, altsleep, gs)
      modifies this`altsleep, this`chans
      ensures EnableAll(old(chans), old(altsleep), p, gs) == Enabling(chans, altsleep, enabled)
      ensures InChans(old(chans), gs, inChan) && Picks(gs, ready, ReadyOf(old(chans), gs))
    {
      enabled, ready, inChan := [], [], [];
      ghost var before, timers := chans, altsleep;
      var i := 0;
      while i < |gs|
        invariant i <= |gs|
        invariant EnableAll(before, timers, p, gs[..i]) == Enabling(chans, altsleep, enabled)
        invariant InChans(before, gs[..i], inChan) && Picks(gs[..i], ready, ReadyOf(before, gs[..i]))
      {
        assert gs[..i + 1][..i] == gs[..i];
        assert gs[..i + 1] == gs[..i] + [gs[i]];
        EnableEnds(before, timers, p, gs[..i]);
        TimeFirst(before, timers, p, gs, i);
        MorePicks(before, gs[..i], gs[i], inChan, ready);
        var isReady, g, queued := AltEnable(p, gs[i]);
        enabled, inChan := enabled + [g], inChan + [queued];
        if isReady { ready := ready + [i]; }
        i := i + 1;
      }
      assert gs[..|gs|] == gs;
    }

    /** alt_disable (src/alt.c:156-172): a time guard that has left its tree is left alone. */
    method AltDisable(p: Pid, guard: Guard, inChan: bool)
      requires inChan ==> guard.kind.OnChan? && guard.kind.c in chans
      modifies this`altsleep, this`chans
      ensures var r := GuardRef(p, guard.key);
        && altsleep == (if guard.kind.Time? && guard.kind.at in old(altsleep) && old(altsleep)[guard.kind.at] == r
                        then old(altsleep) - {guard.kind.at} else old(altsleep))
        && chans == if inChan then
                      var c := guard.kind.c;
                      old(chans)[c := old(chans)[c].(altQ := RemoveOne(old(chans)[c].altQ, r))]
                    else old(chans)
    {
      match guard.kind
      case Skip =>
      case Time(at) =>
        if at in altsleep && altsleep[at] == GuardRef(p, guard.key) { altsleep := altsleep - {at}; }
      case OnChan(c) =>
        if inChan { chans := chans[c := chans[c].(altQ := RemoveOne(chans[c].altQ, GuardRef(p, guard.key)))]; }
    }

    /** The second loop of alt_select, when no other process has run since the first (src/alt.c:233-235): nothing that
        the first loop did is left. */
    method DisableGuards(p: Pid, ghost s: Sys, ghost gs: seq<Guard>, enabled: seq<Guard>, inChan: seq<bool>)
      requires QueuesOk(s.alts, s.chans) && p !in s.alts && Proper(gs)
      requires EnableAll(s.chans, s.altsleep, p, gs) == Enabling(chans, altsleep, enabled)
      requires InChans(s.chans, gs, inChan)
      modifies this`altsleep, this`chans
      ensures chans == s.chans && altsleep == s.altsleep
    {
      EnableLength(s.chans, s.altsleep, p, gs);
      assert gs[..|gs|] == gs;
      var i: nat := |enabled|;
      while i > 0
        invariant i <= |enabled| == |gs|
        invariant var e := EnableAll(s.chans, s.altsleep, p, gs[..i]); chans == e.chans && altsleep == e.altsleep
      {
        i := i - 1;
        UndoAt(s, p, gs, i);
        TimerOf(s, p, gs, i);
        EnableEnds(s.chans, s.altsleep, p, gs[..i]);
        AltDisable(p, enabled[i], inChan[i]);
      }
      assert gs[..0] == [];
    }

    /** chan_altread: ok is false where the source panics (src/chan.c:190-211). */
    method ChanAltRead(c: Cid, id: AltId, key: nat) returns (ok: bool)
      requires c in chans && chans[c].endQ != []
      modifies this`procs, this`readyQ, this`chans
      ensures ok <==> WriterFirst(old(chans)[c])
      ensures View() == if ok then AltRead(old(View()), c, id, key) else old(View())
    {
      var ch := chans[c];
      if !ch.endQ[0].Writer? { return false; }
      chans := chans[c := AltTake(ch, id, key)];
      AddReady(ch.endQ[0].pid);
      return true;
    }

    /** alt_complete of a guard that was ready (src/alt.c:179-181); the panic of chan_altread is not reached. */
    method AltComplete(id: AltId, winner: Guard, inChan: bool)
      requires IsReady(chans, winner) && !inChan
      modifies this`procs, this`readyQ, this`chans
      ensures View() == Completed(old(View()), id, winner)
    {
      if winner.kind.OnChan? && !inChan {
        var ok := ChanAltRead(winner.kind.c, id, winner.key);
        assert ok;
      }
    }

    /** The rest of alt_select when a guard is ready: the chosen one is completed, the process yields, and its key is what
        the process returns with. */
    method SelectChosen(args: Args, gs: seq<Guard>, ready: seq<nat>, inChan: seq<bool>, choice: nat) returns (key: nat)
      requires curr.Some? && gs == AddGuards(args) && choice < |ReadyOf(chans, gs)|
      requires InChans(chans, gs, inChan) && Picks(gs, ready, ReadyOf(chans, gs))
      modifies this`procs, this`readyQ, this`chans, this`curr, this`altCount, this`outcomes
      ensures View() == SelectReady(old(View()), old(curr.value), args, ReadyOf(old(chans), gs)[choice])
      ensures key == ReadyOf(old(chans), gs)[choice].key
    {
      ghost var s := View();
      var p, id := curr.value, AltId(curr.value, altCount);
      ReadyHas(chans, gs, choice);
      var winner := gs[ready[choice]];
      altCount := altCount + 1;
      outcomes := outcomes[id := Outcome(winner.key, winner.kind, args)];
      assert View() == Chosen(s, p, args, winner);
      AltComplete(id, winner, inChan[ready[choice]]);
      YieldNow();
      key := winner.key;
    }

    /** The rest of alt_select up to its yield when no guard is ready. */
    method SelectWaiting(args: Args, enabled: seq<Guard>)
      requires curr.Some?
      modifies this`procs, this`alts, this`curr, this`altCount
      ensures View() == Waiting(old(View()), old(curr.value), args, Enabling(chans, altsleep, enabled))
    {
      alts := alts[curr.value := Alt(AltId(curr.value, altCount), args, enabled, None)];
      altCount := altCount + 1;
      YieldWaiting(AltWait);
    }

    /** proxc_alt up to its yield (src/proxc.c:238-253, src/alt.c:188-240). */
    method AltSelect(args: Args, choice: nat) returns (key: Option<nat>)
      requires curr.Some? && curr.value !in alts && QueuesOk(alts, chans) && CanEnable(chans, altsleep, AddGuards(args))
      requires ReadyOf(chans, AddGuards(args)) == [] || choice < |ReadyOf(chans, AddGuards(args))|
      modifies this`procs, this`readyQ, this`altsleep, this`chans, this`alts, this`curr, this`altCount, this`outcomes
      ensures View() == DoSelect(old(View()), old(curr.value), args, choice)
      ensures key.None? <==> NoneCanFire(old(chans), args)
      ensures key.Some? ==> CanFire(old(chans), args, key.value)
      ensures var ready := ReadyOf(old(chans), AddGuards(args)); key == if ready == [] then None else Some(ready[choice].key)
    {
      NoneReady(chans, args);
      if ReadyOf(chans, AddGuards(args)) != [] { ReadyCanFire(chans, args, choice); }
      ghost var s := View();
      var p := curr.value;
      var gs := CollectGuards(args);
      var enabled, ready, inChan := EnableGuards(p, gs);
      if ready == [] {
        key := None;
        SelectWaiting(args, enabled);
        assert View() == Waiting(s, p, args, EnableAll(s.chans, s.altsleep, p, gs));
      } else {
        DisableGuards(p, s, gs, enabled, inChan);
        assert View() == s;
        var winner := SelectChosen(args, gs, ready, inChan, choice);
        key := Some(winner);
      }
    }

    // -------------------------------------------------------------- an accepted ALT continues

    /** The second loop of alt_select, after the process has waited: the guards leave their queues, the last first
        (src/alt.c:233-235). */
    method DisableWaiting(p: Pid, gs: seq<Guard>)
      requires Proper(gs) && Disabled(View(), p, gs, chans, altsleep)
      requires forall i {:trigger gs[i]} :: 0 <= i < |gs| && gs[i].kind.OnChan? ==> gs[i].kind.c in chans
      modifies this`altsleep, this`chans
      ensures Disabled(old(View()), p, [], chans, altsleep)
    {
      ghost var s := View();
      var i: nat := |gs|;
      assert gs[..i] == gs;
      while i > 0
        invariant i <= |gs|
        invariant Disabled(s, p, gs[..i], chans, altsleep)
      {
        i := i - 1;
        assert gs[..i + 1] == gs[..i] + [gs[i]];
        ProperPrefix(gs, i + 1);
        DisableOne(s, p, gs[..i], gs[i], chans, altsleep);
        AltDisable(p, gs[i], gs[i].kind.OnChan?);
      }
      assert gs[..0] == [];
    }

    /** alt_select after its yield (src/alt.c:233-240): the key of the winner is returned. */
    method AltResume() returns (key: nat)
      requires curr.Some? && CanResume(View(), curr.value)
      modifies this`altsleep, this`chans, this`alts
      ensures View() == DoResume(old(View()), old(curr.value))
      ensures old(alts)[old(curr.value)].winner == Some(key)
    {
      ghost var s := View();
      var p := curr.value;
      DisableWaiting(p, alts[p].guards);
      AllDisabled(s, p, chans, altsleep);
      key := alts[p].winner.value;
      alts := alts - {p};
    }

    // -------------------------------------------------------------- sleep and wakeup

    /** scheduler_addsleep and the yield after it (src/scheduler.c:132-150, src/proxc.c:46-55). */
    method ProcSleep(us: nat, now: nat)
      requires curr.Some? && (us > 0 ==> Fits(sleep.Keys, now + us))
      modifies this`procs, this`readyQ, this`sleep, this`curr
      ensures View() == DoSleep(old(View()), old(curr.value), us, now)
    {
      if us > 0 {
        var at, tries := now + us, 0;
        while at in sleep && tries < MAX_TRIES
          invariant at == now + us + tries <= LeastFree(sleep.Keys, now + us)
          decreases MAX_TRIES - tries
        {
          tries := tries + 1;
          at := at + 1;
        }
        sleep := sleep[at := curr.value];
        YieldWaiting(Sleeping(at));
      } else {
        YieldNow();
      }
    }

    /** RB_MIN of the sleepers. */
    static method EarliestOf<T>(m: map<nat, T>) returns (d: nat)
      requires m != map[]
      ensures IsMin(m, d) && d == MinKey(m)
    {
      HasMin(m);
      d :| d in m && forall e | e in m :: d <= e;
      assert IsMin(m, d) && IsMin(m, MinKey(m));
    }

    /** The first loop of _scheduler_wakeup (src/scheduler.c:201-209). */
    method WakeSleeping(now: nat)
      modifies this`procs, this`readyQ, this`sleep
      ensures View() == WakeSleepers(old(View()), now) && procs.Keys >= old(procs).Keys
    {
      ghost var s := View();
      while sleep != map[]
        invariant WakeSleepers(View(), now) == WakeSleepers(s, now) && procs.Keys >= s.procs.Keys
        decreases |sleep|
      {
        var d := EarliestOf(sleep);
        if d > now { break; }
        var proc := sleep[d];
        ghost var before := View();
        sleep := sleep - {d};
        AddReady(proc);
        assert View() == WakeSleeper(before, d);
      }
    }

    /** The second loop (src/scheduler.c:211-224). */
    method FireDue(now: nat)
      requires TimersLive()
      modifies this`procs, this`readyQ, this`altsleep, this`alts, this`outcomes
      ensures View() == FireGuards(old(View()), now)
    {
      ghost var s := View();
      while altsleep != map[]
        invariant FireGuards(View(), now) == FireGuards(s, now) && TimersLive()
        decreases |altsleep|
      {
        var d := EarliestOf(altsleep);
        if d > now { break; }
        FireOne(d);
      }
    }

    /** All time guards are of processes in an ALT. */
    ghost predicate TimersLive() reads this {
      forall d {:trigger altsleep[d]} :: d in altsleep ==> altsleep[d].pid in alts && altsleep[d].pid in procs
    }

    method FireOne(d: nat)
      requires d in altsleep && TimersLive()
      modifies this`procs, this`readyQ, this`altsleep, this`alts, this`outcomes
      ensures View() == FireGuard(old(View()), d) && altsleep == old(altsleep) - {d} && TimersLive()
    {
      var guard := altsleep[d];
      altsleep := altsleep - {d};
      if procs[guard.pid] == AltWait {
        var ok := AltAccept(guard, Time(d));
        if ok { AddReady(guard.pid); }
      }
    }

    /** _scheduler_wakeup (src/scheduler.c:191-225). */
    method WakeUp(now: nat)
      requires TimersLive()
      modifies this`procs, this`readyQ, this`sleep, this`altsleep, this`alts, this`outcomes
      ensures View() == Wakeup(old(View()), now)
    {
      ghost var s := View();
      WakeSleeping(now);
      FireDue(now);
    }

    /** One round of scheduler_run up to the context switch (src/scheduler.c:275-298). */
    method Round(now: nat)
      requires TimersLive()
      modifies this`procs, this`readyQ, this`sleep, this`altsleep, this`alts, this`outcomes, this`curr
      ensures View() == Dispatch(Wakeup(old(View()), now))
    {
      WakeUp(now);
      if readyQ != [] {
        curr := Some(readyQ[0]);
        readyQ := readyQ[1..];
        procs := procs[curr.value := Running];
      }
    }

    // -------------------------------------------------------------- PAR, SEQ, RUN and GO

    /** csp_runbuild (src/csp.c:72-97): the processes of the tree that can run are made ready, in order. */
    method RunBuild(b: Build)
      modifies this`procs, this`readyQ
      ensures View() == AddReadyAll(old(View()), SP.Run(b)) && LeafOrder.InOrder(b, SP.Run(b))
      decreases b
    {
      LeafOrder.RunInOrder(b);
      match b
      case Proc(_, p) =>
        assert [p][..0] == [];
        AddReady(p);
      case Node(_, kind, _, cursor, kids) =>
        if kind.PAR? { RunChilds(kids); } else { RunNth(kids, cursor); }
    }

    method RunChilds(l: SP.Builds<()>)
      modifies this`procs, this`readyQ
      ensures View() == AddReadyAll(old(View()), SP.RunAll(l))
      decreases l
    {
      if l.Cons? {
        ghost var s := View();
        RunBuild(l.head);
        RunChilds(l.tail);
        AddReadyCat(s, SP.Run(l.head), SP.RunAll(l.tail));
      }
    }

    /** The child under the cursor of a SEQ. */
    method RunNth(l: SP.Builds<()>, cursor: nat)
      modifies this`procs, this`readyQ
      ensures View() == AddReadyAll(old(View()), SP.RunNth(l, cursor))
      decreases l
    {
      if l.Cons? {
        if cursor == 0 { RunBuild(l.head); } else { RunNth(l.tail, cursor - 1); }
      }
    }

    /** proxc_go, and proxc_run up to its yield (src/proxc.c:168-197). */
    method LaunchTree(t: Tid, run: Option<Pid>)
      requires t in trees
      modifies this`procs, this`readyQ, this`trees
      ensures View() == Launch(old(View()), t, run)
    {
      var build := trees[t].build;
      trees := trees[t := Job(build, run, true)];
      RunBuild(build);
    }

    /** csp_parsebuild for the leaf of p, as far as the tree completes (src/csp.c:137-196). */
    method ReportEnd(p: Pid, t: Tid)
      requires t in trees
      modifies this`procs, this`readyQ, this`trees
      ensures View() == Report(old(View()), p, t)
    {
      var job := trees[t];
      var o := SP.Finish(job.build, p);
      if o.complete {
        trees := trees - {t};
        if job.run.Some? { AddReady(job.run.value); }
      } else {
        trees := trees[t := job.(build := o.tree)];
        ghost var s := View();
        var i := 0;
        while i < |o.ready|
          invariant i <= |o.ready| && View() == AddReadyAll(s, o.ready[..i])
        {
          assert o.ready[..i + 1][..i] == o.ready[..i];
          AddReady(o.ready[i]);
          i := i + 1;
        }
        assert o.ready[..|o.ready|] == o.ready;
      }
    }

    /** The end of the running process (src/scheduler.c:306-312, src/proc.c:80-97). */
    method EndProc()
      requires curr.Some?
      modifies this`procs, this`readyQ, this`trees, this`curr, this`isExit, this`ended
      ensures View() == DoEnd(old(View()), old(curr.value))
    {
      var p := curr.value;
      isExit := isExit || p == main;
      procs, curr, ended := procs - {p}, None, ended + {p};
      if p in owner && owner[p] in trees { ReportEnd(p, owner[p]); }
    }

    method MakeProc(t: Tid, p: Pid)
      modifies this`procs, this`owner, this`trees
      ensures View() == DoMakeProc(old(View()), t, p)
    {
      procs := procs[p := Unstarted];
      owner := owner[p := t];
      trees := trees[t := Job(SP.Proc((), p), None, false)];
    }

    /** proxc_par and proxc_seq (src/proxc.c:104-165, src/csp.c:47-70): the children are counted as they are linked in. */
    method Compose(kind: SP.Kind, ts: seq<Tid>, t: Tid)
      requires forall i :: 0 <= i < |ts| ==> ts[i] in trees
      modifies this`owner, this`trees
      ensures View() == DoCompose(old(View()), kind, ts, t)
    {
      var num, kids := 0, SP.Nil;
      var i: nat := |ts|;
      while i > 0
        invariant i <= |ts| && kids == Kids(trees, ts[i..]) && num == SP.Len(kids)
      {
        i := i - 1;
        assert ts[i..][1..] == ts[i + 1..];
        num, kids := num + 1, SP.Cons(trees[ts[i]].build, kids);
      }
      assert ts[0..] == ts;
      owner := map p | p in owner :: if p in SP.LeavesL(kids) then t else owner[p];
      trees := (map u | u in trees && u !in ts :: trees[u])[t := Job(SP.Node((), kind, num, 0, kids), None, false)];
    }

    // -------------------------------------------------------------- every action

    method Communicate(a: Action)
      requires Valid() && Enabled(View(), a) && (a.Chopen? || a.Write? || a.Read? || a.Select? || a.Resume?)
      modifies this
      ensures View() == Next(old(View()), a)
    {
      match a
      case Chopen(c) => chans := chans[c := NewChan];
      case Write(c, v) =>
        if chans[c].altQ != [] { HeadInAlt(c); }
        ChanWrite(c, v);
      case Read(c) => ChanRead(c);
      case Select(args, choice) =>
        SelectCanEnable(View(), args, choice);
        var key := AltSelect(args, choice);
      case Resume =>
        ResumeReady(View());
        var key := AltResume();
    }

    method BuildTrees(a: Action)
      requires Enabled(View(), a) && (a.MakeProc? || a.Compose? || a.Go? || a.Run? || a.End?)
      modifies this
      ensures View() == Next(old(View()), a)
    {
      match a
      case MakeProc(t, p) => MakeProc(t, p);
      case Compose(kind, ts, t) => Compose(kind, ts, t);
      case Go(t) => LaunchTree(t, None);
      case Run(t) =>
        LaunchTree(t, Some(curr.value));
        YieldWaiting(RunWait(t));
      case End => EndProc();
    }

    method PassTime(a: Action)
      requires Valid() && Enabled(View(), a) && (a.Sleep? || a.Yield? || a.Exit? || a.Schedule?)
      modifies this
      ensures View() == Next(old(View()), a)
    {
      match a
      case Sleep(us, now) => ProcSleep(us, now);
      case Yield => YieldNow();
      case Exit =>
        YieldNow();
        isExit := true;
      case Schedule(now) =>
        AllTimersLive(View());
        Round(now);
    }

    /** Each action of a process, and each round of the scheduler, is one step of the machine and keeps the invariant. */
    method Perform(a: Action)
      requires Valid() && Enabled(View(), a)
      modifies this
      ensures View() == Next(old(View()), a) && Valid()
    {
      StepInv(View(), a);
      match a
      case Chopen(_) | Write(_, _) | Read(_) | Select(_, _) | Resume => Communicate(a);
      case MakeProc(_, _) | Compose(_, _, _) | Go(_) | Run(_) | End => BuildTrees(a);
      case Sleep(_, _) | Yield | Exit | Schedule(_) => PassTime(a);
    }
  }
}
