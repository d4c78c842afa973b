/**
 Channels that ALTs receive from: when a writer waits although an ALT wants its value, and when values leave a channel
 in another order than they were written.  Both come from chan_write looking at the head of altQ only
 (src/chan.c:61-72); here is exactly when.
 */
module Ordering {
  import opened Channels
  import opened Alts
  import opened Timers
  import opened Runtime
  import opened Placement
  import opened Choices
  import opened Invariant
  import opened Wrappers

  /** Some ALT with a guard in this queue is not accepted yet. */
  ghost predicate Wants(alts: map<Pid, Alt>, q: seq<GuardRef>) {
    q != [] && ((q[0].pid in alts && alts[q[0].pid].winner.None?) || Wants(alts, q[1..]))
  }

  /** A writer waits on c, and so does an ALT that could take its value. */
  ghost predicate Missed(s: Sys, c: Cid) {
    c in s.chans && WriterFirst(s.chans[c]) && Wants(s.alts, s.chans[c].altQ)
  }

  /** A write that has to wait although an ALT wants it: that ALT is behind one which is accepted already. */
  ghost predicate Overlooks(s: Sys, a: Action, c: Cid) {
    a.Write? && a.c == c && c in s.chans && !HeadAccepts(s, c) && !ReaderFirst(s.chans[c]) && Wants(s.alts, s.chans[c].altQ)
  }

  /** A write that an ALT takes while an earlier one waits. */
  ghost predicate Overtakes(s: Sys, a: Action, c: Cid) {
    a.Write? && a.c == c && c in s.chans && HeadAccepts(s, c) && WriterFirst(s.chans[c])
  }

  /** All guards enabled on c belong to one ALT. */
  ghost predicate OneAlt(s: Sys, c: Cid) {
    c in s.chans ==> forall i, j :: 0 <= i < |s.chans[c].altQ| && 0 <= j < |s.chans[c].altQ| ==>
      s.chans[c].altQ[i].pid == s.chans[c].altQ[j].pid
  }

  // ---------------------------------------------------------------- who still wants a value

  /** Fewer ALTs are undecided, or none of those that are new is in this queue. */
  lemma {:induction false} WantsFewer(a: map<Pid, Alt>, b: map<Pid, Alt>, q: seq<GuardRef>)
    requires forall p {:trigger p in b} :: p in b && b[p].winner.None? ==> p in a && a[p].winner.None?
    ensures Wants(b, q) ==> Wants(a, q)
  {
    if q != [] { WantsFewer(a, b, q[1..]); }
  }

  lemma {:induction false} WantsWithout(alts: map<Pid, Alt>, q: seq<GuardRef>, p: Pid)
    requires p in alts ==> alts[p].winner.Some?
    ensures Wants(alts - {p}, Without(q, p)) <==> Wants(alts, q)
  {
    if q != [] {
      WantsWithout(alts, q[1..], p);
      var rest := Without(q[1..], p);
      assert ([q[0]] + rest)[1..] == rest && [] + rest == rest;
    }
  }

  /** Only a queue whose head is accepted can hide an ALT that wants a value. */
  lemma {:induction false} WantsHead(alts: map<Pid, Alt>, q: seq<GuardRef>)
    requires Wants(alts, q) && forall i, j :: 0 <= i < |q| && 0 <= j < |q| ==> q[i].pid == q[j].pid
    ensures q[0].pid in alts && alts[q[0].pid].winner.None?
  {
    if Wants(alts, q[1..]) {
      assert q[1].pid == q[0].pid;
      WantsHead(alts, q[1..]);
    }
  }

  /** A process that enters an ALT and has no guard in the queue yet. */
  lemma {:induction false} WantsNew(a: map<Pid, Alt>, p: Pid, alt: Alt, q: seq<GuardRef>)
    requires p !in a
    requires forall r {:trigger r in q} :: r in q ==> r.pid != p
    ensures Wants(a[p := alt], q) <==> Wants(a, q)
  {
    if q != [] {
      assert q[0] in q;
      assert forall r {:trigger r in q[1..]} :: r in q[1..] ==> r in q;
      WantsNew(a, p, alt, q[1..]);
    }
  }

  // ---------------------------------------------------------------- what one step does to a channel

  lemma {:induction false} CntIn<T>(q: seq<T>, x: T)
    ensures x in q <==> Cnt(q, x) > 0
  {
    if q != [] { CntIn(q[1..], x); }
  }

  /** A blocked ALT has no guard on a channel where a writer waits. */
  lemma {:induction false} BlockedQueue(s: Sys, p: Pid, args: Args, c: Cid)
    requires Inv(s) && c in s.chans && p !in s.alts && WriterFirst(s.chans[c]) && ReadyOf(s.chans, AddGuards(args)) == []
    ensures var e := EnableAll(s.chans, s.altsleep, p, AddGuards(args));
      c in e.chans && e.chans[c].altQ == s.chans[c].altQ && forall r :: r in s.chans[c].altQ ==> r.pid != p
  {
    EnableElsewhere(s.chans, s.altsleep, p, AddGuards(args), c);
    forall r | r in s.chans[c].altQ ensures r.pid != p {
      CntIn(s.chans[c].altQ, r);
      assert Cnt(s.chans[c].altQ, r) == Bit(GuardOn(s.alts, r, OnChan(c)));
    }
  }

  lemma {:induction false} EnableElsewhere(chans: map<Cid, Chan>, altsleep: map<nat, GuardRef>, p: Pid, gs: seq<Guard>, c: Cid)
    requires c in chans && WriterFirst(chans[c])
    ensures var e := EnableAll(chans, altsleep, p, gs); c in e.chans && e.chans[c] == chans[c]
  {
    if gs != [] { EnableElsewhere(chans, altsleep, p, gs[..|gs| - 1], c); }
  }

  /** The steps that concern neither channels nor ALTs. */
  predicate Aside(a: Action) {
    !a.Chopen? && !a.Write? && !a.Read? && !a.Select? && !a.Resume? && !a.Schedule?
  }

  ghost predicate SameChoices(s: Sys, s': Sys) {
    s'.chans == s.chans && s'.alts == s.alts && s'.altsleep == s.altsleep && s'.outcomes == s.outcomes && s'.altCount == s.altCount
  }

  lemma {:induction false} LaunchAside(s: Sys, t: Tid, run: Option<Pid>)
    requires t in s.trees
    ensures SameChoices(s, Launch(s, t, run))
  {
    LaunchFields(s, t, run);
  }

  lemma {:induction false} EndAside(s: Sys, p: Pid)
    ensures SameChoices(s, DoEnd(s, p))
  {
    EndStates(s, p);
  }

  lemma {:induction false} BuildAside(s: Sys, a: Action)
    requires Enabled(s, a) && (a.MakeProc? || a.Compose?)
    ensures SameChoices(s, Next(s, a))
  {
  }

  lemma {:induction false} YieldAside(s: Sys, p: Pid, d: nat)
    ensures SameChoices(s, YieldReady(s, p)) && SameChoices(s, SleepUntil(s, p, d))
  {
  }

  lemma {:induction false} AsideKeeps(s: Sys, a: Action)
    requires Enabled(s, a) && Aside(a)
    ensures SameChoices(s, Next(s, a))
  {
    var p := s.curr.value;
    match a
    case Go(t) => LaunchAside(s, t, None);
    case Run(t) => LaunchAside(s, t, Some(p));
    case End => EndAside(s, p);
    case MakeProc(_, _) => BuildAside(s, a);
    case Compose(_, _, _) => BuildAside(s, a);
    case Sleep(us, now) => YieldAside(s, p, LeastFree(s.sleep.Keys, now + us));
    case Yield => YieldAside(s, p, 0);
    case Exit => YieldAside(s, p, 0);
    case _ =>
  }

  /** The ALTs are the same, and none becomes undecided again. */
  ghost predicate FewerWaiting(a: map<Pid, Alt>, b: map<Pid, Alt>) {
    b.Keys == a.Keys && forall p {:trigger p in b} :: p in b && b[p].winner.None? ==> p in a && a[p].winner.None?
  }

  lemma {:induction false} AcceptFewer(s: Sys, r: GuardRef, kind: Kind)
    requires r.pid in s.alts
    ensures FewerWaiting(s.alts, Accept(s, r, kind).alts) && Accept(s, r, kind).chans == s.chans
  {
    assert s.alts[r.pid := s.alts[r.pid].(winner := Some(r.key))].Keys == s.alts.Keys;
  }

  lemma {:induction false} FireGuardsFewer(s: Sys, now: nat)
    ensures FireGuards(s, now).chans == s.chans && FewerWaiting(s.alts, FireGuards(s, now).alts)
    decreases |s.altsleep|
  {
    if s.altsleep != map[] && MinKey(s.altsleep) <= now {
      var d := MinKey(s.altsleep);
      FireGuardFields(s, d);
      if s.altsleep[d].pid in s.alts { AcceptFewer(s.(altsleep := s.altsleep - {d}), s.altsleep[d], Time(d)); }
      FireGuardsFewer(FireGuard(s, d), now);
    }
  }

  lemma {:induction false} WakeSleepersAside(s: Sys, now: nat)
    ensures var s' := WakeSleepers(s, now); s' == s.(procs := s'.procs, readyQ := s'.readyQ, sleep := s'.sleep)
    decreases |s.sleep|
  {
    if s.sleep != map[] && MinKey(s.sleep) <= now { WakeSleepersAside(WakeSleeper(s, MinKey(s.sleep)), now); }
  }

  lemma {:induction false} ScheduleFewer(s: Sys, now: nat)
    ensures var s' := Dispatch(Wakeup(s, now)); s'.chans == s.chans && FewerWaiting(s.alts, s'.alts)
  {
    WakeSleepersAside(s, now);
    FireGuardsFewer(WakeSleepers(s, now), now);
  }

  // ---------------------------------------------------------------- what one step does to one channel

  /** What a write does to its channel. */
  function Written(s: Sys, p: Pid, c: Cid, v: Value): Chan
    requires c in s.chans
  {
    var ch := s.chans[c];
    if HeadAccepts(s, c) then GiveAlt(ch, v, s.alts[ch.altQ[0].pid].id, ch.altQ[0].key)
    else if ReaderFirst(ch) then GiveReader(ch, v)
    else QueueWriter(ch, p, v)
  }

  lemma {:induction false} WriteAccept(s: Sys, p: Pid, c: Cid, v: Value)
    requires c in s.chans && HeadAccepts(s, c)
    ensures DoWrite(s, p, c, v).chans == s.chans[c := Written(s, p, c, v)]
    ensures FewerWaiting(s.alts, DoWrite(s, p, c, v).alts)
  {
    var s1, r := s.(chans := s.chans[c := Written(s, p, c, v)]), s.chans[c].altQ[0];
    AcceptFewer(s1, r, OnChan(c));
    assert DoWrite(s, p, c, v) == AddReady(Accept(s1, r, OnChan(c)), r.pid);
  }

  lemma {:induction false} WriteChannel(s: Sys, p: Pid, c: Cid, v: Value)
    requires c in s.chans
    ensures DoWrite(s, p, c, v).chans == s.chans[c := Written(s, p, c, v)]
    ensures FewerWaiting(s.alts, DoWrite(s, p, c, v).alts)
    ensures !HeadAccepts(s, c) ==> DoWrite(s, p, c, v).alts == s.alts
  {
    if HeadAccepts(s, c) { WriteAccept(s, p, c, v); } else { WriteUnaccepted(s, p, c, v); }
  }

  lemma {:induction false} WriteUnaccepted(s: Sys, p: Pid, c: Cid, v: Value)
    requires c in s.chans && !HeadAccepts(s, c)
    ensures DoWrite(s, p, c, v).chans == s.chans[c := Written(s, p, c, v)] && DoWrite(s, p, c, v).alts == s.alts
  {
    var s1 := s.(chans := s.chans[c := Written(s, p, c, v)]);
    if ReaderFirst(s.chans[c]) {
      assert DoWrite(s, p, c, v) == AddReady(s1, s.chans[c].endQ[0].pid);
    } else {
      assert DoWrite(s, p, c, v) == Block(s1, p, ChanWait(c));
    }
  }

  lemma {:induction false} WriteWaits(s: Sys, p: Pid, c: Cid, v: Value)
    requires c in s.chans && ChanInv(s.chans[c])
    ensures WriterFirst(Written(s, p, c, v)) <==>
      WriterFirst(s.chans[c]) || (!HeadAccepts(s, c) && !ReaderFirst(s.chans[c]))
    ensures Written(s, p, c, v).altQ == s.chans[c].altQ
  {
    var q := s.chans[c].endQ;
    if ReaderFirst(s.chans[c]) { assert AllReaders(q[1..]); }
  }

  /** What a read does to its channel. */
  function Asked(ch: Chan, p: Pid): Chan { if WriterFirst(ch) then TakeWriter(ch) else QueueReader(ch, p) }

  lemma {:induction false} ReadChannel(s: Sys, p: Pid, c: Cid)
    requires c in s.chans
    ensures DoRead(s, p, c).chans == s.chans[c := Asked(s.chans[c], p)] && DoRead(s, p, c).alts == s.alts
  {
    var s1 := s.(chans := s.chans[c := Asked(s.chans[c], p)]);
    if WriterFirst(s.chans[c]) {
      assert DoRead(s, p, c) == AddReady(s1, s.chans[c].endQ[0].pid);
    } else {
      assert DoRead(s, p, c) == Block(s1, p, ChanWait(c));
    }
  }

  lemma {:induction false} ReadWaits(ch: Chan, p: Pid)
    ensures WriterFirst(Asked(ch, p)) ==> WriterFirst(ch)
    ensures Asked(ch, p).altQ == ch.altQ
  {
  }

  /** An ALT with a ready guard leaves all altQs and the other ALTs alone, and takes at most the first writer. */
  lemma {:induction false} SelectReadyChannel(s: Sys, p: Pid, args: Args, w: Guard)
    ensures var s', id := SelectReady(s, p, args, w), AltId(p, s.altCount);
      && s'.alts == s.alts && s'.altsleep == s.altsleep && s'.trees == s.trees
      && s'.chans == if w.kind.OnChan? && w.kind.c in s.chans && WriterFirst(s.chans[w.kind.c])
                     then s.chans[w.kind.c := AltTake(s.chans[w.kind.c], id, w.key)] else s.chans
  {
    var s1 := Chosen(s, p, args, w);
    if w.kind.OnChan? && w.kind.c in s.chans && WriterFirst(s.chans[w.kind.c]) {
      AltReadChannel(s1, w.kind.c, AltId(p, s.altCount), w.key);
      assert SelectReady(s, p, args, w) == YieldReady(AltRead(s1, w.kind.c, AltId(p, s.altCount), w.key), p);
    } else {
      assert SelectReady(s, p, args, w) == YieldReady(s1, p);
    }
  }

  lemma {:induction false} AltReadChannel(s: Sys, c: Cid, id: AltId, key: nat)
    requires c in s.chans && WriterFirst(s.chans[c])
    ensures var s' := AltRead(s, c, id, key);
      && s'.alts == s.alts && s'.altsleep == s.altsleep && s'.trees == s.trees
      && s'.chans == s.chans[c := AltTake(s.chans[c], id, key)]
  {
  }

  // ---------------------------------------------------------------- missed rendezvous

  lemma {:induction false} MissedWrite(s: Sys, p: Pid, d: Cid, v: Value, c: Cid)
    requires ChansOk(s.chans) && d in s.chans && !Missed(s, c)
    ensures Missed(DoWrite(s, p, d, v), c) <==> Overlooks(s, Write(d, v), c)
  {
    WriteChannel(s, p, d, v);
    if c in s.chans { WantsFewer(s.alts, DoWrite(s, p, d, v).alts, s.chans[c].altQ); }
    assert ChanInv(s.chans[d]);
    WriteWaits(s, p, d, v);
  }

  lemma {:induction false} MissedRead(s: Sys, p: Pid, d: Cid, c: Cid)
    requires d in s.chans && !Missed(s, c)
    ensures !Missed(DoRead(s, p, d), c)
  {
    ReadChannel(s, p, d);
    ReadWaits(s.chans[d], p);
  }

  lemma {:induction false} MissedBlock(s: Sys, p: Pid, args: Args, c: Cid)
    requires Inv(s) && p !in s.alts && !Missed(s, c) && ReadyOf(s.chans, AddGuards(args)) == []
    ensures !Missed(SelectBlock(s, p, args), c)
  {
    var e := EnableAll(s.chans, s.altsleep, p, AddGuards(args));
    EnableEnds(s.chans, s.altsleep, p, AddGuards(args));
    if c in s.chans && WriterFirst(s.chans[c]) {
      BlockedQueue(s, p, args, c);
      MissedWaiting(s, p, args, e, c);
    }
  }

  lemma {:induction false} MissedWaiting(s: Sys, p: Pid, args: Args, e: Enabling, c: Cid)
    requires p !in s.alts && !Missed(s, c) && c in s.chans && c in e.chans && e.chans[c].altQ == s.chans[c].altQ
    requires WriterFirst(s.chans[c]) && forall r {:trigger r in s.chans[c].altQ} :: r in s.chans[c].altQ ==> r.pid != p
    ensures !Missed(Waiting(s, p, args, e), c)
  {
    WantsNew(s.alts, p, Alt(AltId(p, s.altCount), args, e.guards, None), s.chans[c].altQ);
  }

  lemma {:induction false} MissedSelect(s: Sys, p: Pid, args: Args, choice: nat, c: Cid)
    requires Inv(s) && p !in s.alts && !Missed(s, c) && SelectEnabled(s, args, choice)
    ensures !Missed(DoSelect(s, p, args, choice), c)
  {
    var ready := ReadyOf(s.chans, AddGuards(args));
    if ready == [] { MissedBlock(s, p, args, c); } else { SelectReadyChannel(s, p, args, ready[choice]); }
  }

  lemma {:induction false} MissedResume(s: Sys, p: Pid, c: Cid)
    requires Placed(s) && s.curr == Some(p) && !Missed(s, c)
    ensures !Missed(DoResume(s, p), c)
  {
    assert Slots(s, p, Running) == 1 && Slots(s, p, AltWait) == 0;
    if c in s.chans { WantsWithout(s.alts, s.chans[c].altQ, p); }
  }

  /** A writer comes to wait although an ALT wants its value exactly at a write whose first altQ entry is accepted and
      hides an ALT that is not. */
  lemma {:induction false} MissedStep(s: Sys, a: Action, c: Cid)
    requires Inv(s) && Enabled(s, a) && !Missed(s, c)
    ensures Missed(Next(s, a), c) <==> Overlooks(s, a, c)
  {
    if Aside(a) {
      AsideKeeps(s, a);
    } else if a.Schedule? {
      ScheduleFewer(s, a.now);
      if c in s.chans { WantsFewer(s.alts, Next(s, a).alts, s.chans[c].altQ); }
    } else {
      var p := s.curr.value;
      match a
      case Write(d, v) => MissedWrite(s, p, d, v, c);
      case Read(d) => MissedRead(s, p, d, c);
      case Select(args, choice) => MissedSelect(s, p, args, choice, c);
      case Resume => MissedResume(s, p, c);
      case _ =>
    }
  }

  /** At no point of the run a writer waits on c while an ALT wants its value. */
  ghost predicate NeverMissed(main: Pid, run: seq<Action>, c: Cid) {
    !Missed(After(main, run), c) && (run != [] ==> NeverMissed(main, run[..|run| - 1], c))
  }

  /** No write of the run overlooks an ALT on c. */
  ghost predicate NeverOverlooks(main: Pid, run: seq<Action>, c: Cid) {
    run != [] ==>
      !Overlooks(After(main, run[..|run| - 1]), run[|run| - 1], c) && NeverOverlooks(main, run[..|run| - 1], c)
  }

  lemma {:induction false} NoMissedRendezvous(main: Pid, run: seq<Action>, c: Cid)
    requires IsRun(main, run)
    ensures NeverMissed(main, run, c) <==> NeverOverlooks(main, run, c)
    decreases |run|
  {
    if run != [] {
      var q := run[..|run| - 1];
      NoMissedRendezvous(main, q, c);
      AlwaysInv(main, q);
      if !Missed(After(main, q), c) { MissedStep(After(main, q), run[|run| - 1], c); }
      assert NeverMissed(main, q, c) ==> !Missed(After(main, q), c);
    }
  }

  // ---------------------------------------------------------------- order

  /** What is delivered and what waits is in the order of the writes. */
  ghost predicate Ordered(chans: map<Cid, Chan>, c: Cid) { c in chans && Fifo(BooksOf(chans[c])) }

  lemma {:induction false} FifoWrite(s: Sys, p: Pid, d: Cid, v: Value, c: Cid)
    requires ChansOk(s.chans) && d in s.chans && c in s.chans
    ensures c in DoWrite(s, p, d, v).chans
    ensures Ordered(DoWrite(s, p, d, v).chans, c) <==> Ordered(s.chans, c) && !Overtakes(s, Write(d, v), c)
  {
    WriteChannel(s, p, d, v);
    if c == d { FifoWritten(s, p, c, v); }
  }

  lemma {:induction false} FifoWritten(s: Sys, p: Pid, c: Cid, v: Value)
    requires ChansOk(s.chans) && c in s.chans
    ensures Fifo(BooksOf(Written(s, p, c, v))) <==> Fifo(BooksOf(s.chans[c])) && !(HeadAccepts(s, c) && WriterFirst(s.chans[c]))
  {
    var ch := s.chans[c];
    assert ChanInv(ch);
    if HeadAccepts(s, c) {
      GiveAltKeeps(ch, v, s.alts[ch.altQ[0].pid].id, ch.altQ[0].key);
    } else if ReaderFirst(ch) {
      GiveReaderKeeps(ch, v);
    } else {
      QueueWriterKeeps(ch, p, v);
    }
  }

  lemma {:induction false} FifoRead(s: Sys, p: Pid, d: Cid, c: Cid)
    requires ChansOk(s.chans) && d in s.chans && c in s.chans
    ensures c in DoRead(s, p, d).chans
    ensures Ordered(DoRead(s, p, d).chans, c) <==> Ordered(s.chans, c)
  {
    var ch := s.chans[d];
    ReadChannel(s, p, d);
    assert ChanInv(ch);
    if WriterFirst(ch) { TakeWriterKeeps(ch); } else { QueueReaderKeeps(ch, p); }
  }

  lemma {:induction false} FifoSelect(s: Sys, p: Pid, args: Args, choice: nat, c: Cid)
    requires ChansOk(s.chans) && c in s.chans && SelectEnabled(s, args, choice)
    ensures c in DoSelect(s, p, args, choice).chans
    ensures Ordered(DoSelect(s, p, args, choice).chans, c) <==> Ordered(s.chans, c)
  {
    var ready := ReadyOf(s.chans, AddGuards(args));
    if ready == [] {
      BlockSame(s, p, args, c);
    } else {
      SelectReadyChannel(s, p, args, ready[choice]);
      FifoTake(s.chans, c, AltId(p, s.altCount), ready[choice].key);
    }
  }

  lemma {:induction false} FifoTake(chans: map<Cid, Chan>, c: Cid, id: AltId, key: nat)
    requires ChansOk(chans) && c in chans
    ensures WriterFirst(chans[c]) ==> (Ordered(chans[c := AltTake(chans[c], id, key)], c) <==> Ordered(chans, c))
  {
    assert ChanInv(chans[c]);
    if WriterFirst(chans[c]) { AltTakeKeeps(chans[c], id, key); }
  }

  /** An ALT that has to wait changes altQs only. */
  lemma {:induction false} BlockSame(s: Sys, p: Pid, args: Args, c: Cid)
    requires c in s.chans && ReadyOf(s.chans, AddGuards(args)) == []
    ensures var chans := SelectBlock(s, p, args).chans; c in chans && chans[c] == s.chans[c].(altQ := chans[c].altQ)
  {
    AddGuardsMeans(args, 0, Skip);
    EnableQueues(s.chans, s.altsleep, p, AddGuards(args), c, GuardRef(0, 0));
  }

  lemma {:induction false} FifoResume(s: Sys, p: Pid, c: Cid)
    requires c in s.chans
    ensures Ordered(DoResume(s, p).chans, c) <==> Ordered(s.chans, c)
  {
  }

  /** The steps other than calls to a channel keep the order. */
  lemma {:induction false} FifoOther(s: Sys, a: Action, c: Cid)
    requires Enabled(s, a) && c in s.chans && !a.Write? && !a.Read? && !a.Select?
    ensures c in Next(s, a).chans
    ensures Ordered(Next(s, a).chans, c) <==> Ordered(s.chans, c)
  {
    if Aside(a) {
      AsideKeeps(s, a);
    } else if a.Schedule? {
      ScheduleFewer(s, a.now);
    } else if a.Resume? {
      FifoResume(s, s.curr.value, c);
    }
  }

  /** Values leave a channel in the order in which they were written until a write overtakes another, and never
      after. */
  lemma {:induction false} FifoStep(s: Sys, a: Action, c: Cid)
    requires ChansOk(s.chans) && Enabled(s, a) && c in s.chans
    ensures c in Next(s, a).chans
    ensures Ordered(Next(s, a).chans, c) <==> Ordered(s.chans, c) && !Overtakes(s, a, c)
  {
    if a.Write? || a.Read? || a.Select? { FifoCall(s, a, c); } else { FifoOther(s, a, c); }
  }

  lemma {:induction false} FifoCall(s: Sys, a: Action, c: Cid)
    requires ChansOk(s.chans) && Enabled(s, a) && c in s.chans && (a.Write? || a.Read? || a.Select?)
    ensures c in Next(s, a).chans
    ensures Ordered(Next(s, a).chans, c) <==> Ordered(s.chans, c) && !Overtakes(s, a, c)
  {
    var p := s.curr.value;
    match a
    case Write(d, v) =>
      assert Next(s, a) == DoWrite(s, p, d, v);
      FifoWrite(s, p, d, v, c);
    case Read(d) =>
      assert Next(s, a) == DoRead(s, p, d);
      FifoRead(s, p, d, c);
    case Select(args, choice) =>
      assert Next(s, a) == DoSelect(s, p, args, choice);
      FifoSelect(s, p, args, choice, c);
  }

  /** No write of the run overtakes another on c. */
  ghost predicate NeverOvertakes(main: Pid, run: seq<Action>, c: Cid) {
    run != [] ==>
      !Overtakes(After(main, run[..|run| - 1]), run[|run| - 1], c) && NeverOvertakes(main, run[..|run| - 1], c)
  }

  lemma {:induction false} ChannelOrder(main: Pid, run: seq<Action>, c: Cid)
    requires IsRun(main, run) && c in After(main, run).chans
    ensures Ordered(After(main, run).chans, c) <==> NeverOvertakes(main, run, c)
    decreases |run|
  {
    if run != [] {
      var q, a := run[..|run| - 1], run[|run| - 1];
      AlwaysInv(main, q);
      if c in After(main, q).chans {
        ChannelOrder(main, q, c);
        FifoStep(After(main, q), a, c);
      } else {
        NotOpenYet(main, q, c);
        Opened(After(main, q), a, c);
      }
    }
  }

  lemma {:induction false} NotOpenYet(main: Pid, run: seq<Action>, c: Cid)
    requires IsRun(main, run) && c !in After(main, run).chans
    ensures NeverOvertakes(main, run, c)
    decreases |run|
  {
    if run != [] {
      AlwaysInv(main, run[..|run| - 1]);
      if c in After(main, run[..|run| - 1]).chans { FifoStep(After(main, run[..|run| - 1]), run[|run| - 1], c); }
      NotOpenYet(main, run[..|run| - 1], c);
    }
  }

  /** A channel appears by chopen only. */
  lemma {:induction false} Opened(s: Sys, a: Action, c: Cid)
    requires Enabled(s, a) && c !in s.chans && c in Next(s, a).chans
    ensures Next(s, a).chans[c] == NewChan && Fifo(BooksOf(NewChan))
  {
    NewChanInv();
    if Aside(a) {
      AsideKeeps(s, a);
    } else if a.Schedule? {
      ScheduleFewer(s, a.now);
    } else {
      var p := s.curr.value;
      match a
      case Write(d, v) => WriteChannel(s, p, d, v);
      case Read(d) => ReadChannel(s, p, d);
      case Select(args, choice) =>
        EnableEnds(s.chans, s.altsleep, p, AddGuards(args));
        var ready := ReadyOf(s.chans, AddGuards(args));
        if ready != [] { SelectReadyChannel(s, p, args, ready[choice]); }
      case _ =>
    }
  }

  /** A run in which no writer ever waits beside an ALT that wants its value keeps the order. */
  lemma {:induction false} NoMissedKeepsOrder(main: Pid, run: seq<Action>, c: Cid)
    requires IsRun(main, run) && NeverMissed(main, run, c)
    ensures NeverOvertakes(main, run, c)
    decreases |run|
  {
    if run != [] {
      var q := run[..|run| - 1];
      NoMissedKeepsOrder(main, q, c);
      var s := After(main, q);
      if c in s.chans && HeadAccepts(s, c) { assert Wants(s.alts, s.chans[c].altQ); }
    }
  }

  /** With at most one ALT enabled on a channel no write overlooks one. */
  lemma {:induction false} OneAltSuffices(s: Sys, a: Action, c: Cid)
    requires OneAlt(s, c)
    ensures !Overlooks(s, a, c)
  {
    if c in s.chans && Wants(s.alts, s.chans[c].altQ) { WantsHead(s.alts, s.chans[c].altQ); }
  }

  /** At every point of the run at most one ALT is enabled on c. */
  ghost predicate AlwaysOne(main: Pid, run: seq<Action>, c: Cid) {
    OneAlt(After(main, run), c) && (run != [] ==> AlwaysOne(main, run[..|run| - 1], c))
  }

  lemma {:induction false} OneAltNeverOverlooks(main: Pid, run: seq<Action>, c: Cid)
    requires AlwaysOne(main, run, c)
    ensures NeverOverlooks(main, run, c)
    decreases |run|
  {
    if run != [] {
      var q := run[..|run| - 1];
      OneAltNeverOverlooks(main, q, c);
      OneAltSuffices(After(main, q), run[|run| - 1], c);
    }
  }

  /** In a run with at most one ALT enabled on a channel at a time, no writer ever waits there while an ALT wants its
      value, and values leave in the order in which they were written. */
  lemma {:induction false} OneAltKeepsOrder(main: Pid, run: seq<Action>, c: Cid)
    requires IsRun(main, run) && AlwaysOne(main, run, c)
    ensures NeverMissed(main, run, c)
    ensures c in After(main, run).chans ==> Ordered(After(main, run).chans, c)
  {
    OneAltNeverOverlooks(main, run, c);
    NoMissedRendezvous(main, run, c);
    NoMissedKeepsOrder(main, run, c);
    if c in After(main, run).chans { ChannelOrder(main, run, c); }
  }

  // ---------------------------------------------------------------- channels without ALT

  /** ch' is a later state of the channel; if no ALT has received from it by then, none had before. */
  ghost predicate StillNoAlts(ch: Chan, ch': Chan) { NoAlts(ch'.deliveries) ==> NoAlts(ch.deliveries) }

  lemma {:induction false} NoAltsBefore(ch: Chan, ch': Chan)
    requires ch'.deliveries == ch.deliveries || exists d :: ch'.deliveries == ch.deliveries + [d]
    ensures StillNoAlts(ch, ch')
  {
    if ch'.deliveries != ch.deliveries {
      var d :| ch'.deliveries == ch.deliveries + [d];
      assert ch'.deliveries[..|ch'.deliveries| - 1] == ch.deliveries;
    }
  }

  lemma {:induction false} NoAltsWrite(s: Sys, p: Pid, c: Cid, v: Value)
    requires c in s.chans
    ensures StillNoAlts(s.chans[c], Written(s, p, c, v))
    ensures NoAlts(Written(s, p, c, v).deliveries) ==> !Overtakes(s, Write(c, v), c)
  {
    var ch, ch' := s.chans[c], Written(s, p, c, v);
    if HeadAccepts(s, c) {
      var d := Delivery(|ch.writes|, v, ByAlt(s.alts[ch.altQ[0].pid].id, ch.altQ[0].key));
      assert ch'.deliveries == ch.deliveries + [d];
      assert ch'.deliveries[|ch'.deliveries| - 1] == d;
    } else if ReaderFirst(ch) {
      assert ch'.deliveries == ch.deliveries + [Delivery(|ch.writes|, v, ByRead(ch.endQ[0].call))];
    }
    NoAltsBefore(ch, ch');
  }

  lemma {:induction false} NoAltsRead(ch: Chan, p: Pid)
    ensures StillNoAlts(ch, Asked(ch, p))
  {
    if WriterFirst(ch) {
      assert Asked(ch, p).deliveries == ch.deliveries + [Delivery(ch.endQ[0].call, ch.endQ[0].data, ByRead(ch.readCalls))];
    }
    NoAltsBefore(ch, Asked(ch, p));
  }

  lemma {:induction false} NoAltsSelect(s: Sys, p: Pid, args: Args, choice: nat, c: Cid)
    requires c in s.chans && SelectEnabled(s, args, choice)
    ensures c in DoSelect(s, p, args, choice).chans && StillNoAlts(s.chans[c], DoSelect(s, p, args, choice).chans[c])
  {
    var ready := ReadyOf(s.chans, AddGuards(args));
    if ready == [] {
      BlockSame(s, p, args, c);
    } else {
      var ch, w := s.chans[c], ready[choice];
      SelectReadyChannel(s, p, args, w);
      if WriterFirst(ch) {
        var d := Delivery(ch.endQ[0].call, ch.endQ[0].data, ByAlt(AltId(p, s.altCount), w.key));
        assert AltTake(ch, AltId(p, s.altCount), w.key).deliveries == ch.deliveries + [d];
        NoAltsBefore(ch, AltTake(ch, AltId(p, s.altCount), w.key));
      }
    }
  }

  /** Where no ALT has received anything, none had before the step, and the step is no write that overtakes. */
  lemma {:induction false} NoAltsStep(s: Sys, a: Action, c: Cid)
    requires Enabled(s, a) && c in s.chans
    ensures c in Next(s, a).chans
    ensures NoAlts(Next(s, a).chans[c].deliveries) ==> NoAlts(s.chans[c].deliveries) && !Overtakes(s, a, c)
  {
    if Aside(a) {
      AsideKeeps(s, a);
    } else if a.Schedule? {
      ScheduleFewer(s, a.now);
    } else {
      var p := s.curr.value;
      match a
      case Write(d, v) =>
        WriteChannel(s, p, d, v);
        NoAltsWrite(s, p, d, v);
      case Read(d) =>
        ReadChannel(s, p, d);
        NoAltsRead(s.chans[d], p);
      case Select(args, choice) => NoAltsSelect(s, p, args, choice, c);
      case _ =>
    }
  }

  lemma {:induction false} NoAltsNoOvertaking(main: Pid, run: seq<Action>, c: Cid)
    requires IsRun(main, run) && c in After(main, run).chans && NoAlts(After(main, run).chans[c].deliveries)
    ensures NeverOvertakes(main, run, c)
    decreases |run|
  {
    if run != [] {
      var q := run[..|run| - 1];
      if c in After(main, q).chans {
        NoAltsStep(After(main, q), run[|run| - 1], c);
        NoAltsNoOvertaking(main, q, c);
      } else {
        NotOpenYet(main, q, c);
      }
    }
  }

  /** The channel as a rendezvous of two sequences of calls: after any run in which no ALT has received from it, the k-th
      write has met the k-th read, and endQ is the unmatched rest of the longer of the two, all of one kind, in order. */
  lemma {:induction false} RendezvousInOrder(main: Pid, run: seq<Action>, c: Cid)
    requires IsRun(main, run) && c in After(main, run).chans && NoAlts(After(main, run).chans[c].deliveries)
    ensures Matched(After(main, run).chans[c])
  {
    AlwaysInv(main, run);
    NoAltsNoOvertaking(main, run, c);
    ChannelOrder(main, run, c);
    assert ChanInv(After(main, run).chans[c]);
    Rendezvous(After(main, run).chans[c]);
  }
}
