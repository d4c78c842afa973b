/**
 Every live process is in exactly one place, and that place matches its state.
 */
module Placement {
  import opened Channels
  import opened Alts
  import opened Runtime
  import opened Forest
  import opened Wrappers

  function Bit(b: bool): nat { if b then 1 else 0 }

  ghost predicate In(procs: map<Pid, State>, p: Pid, st: State) { p in procs && procs[p] == st }

  function EndCnt(q: seq<ChanEnd>, p: Pid): nat {
    if q == [] then 0 else (if q[0].pid == p then 1 else 0) + EndCnt(q[1..], p)
  }

  /** A leaf that its tree has not reached yet. */
  ghost predicate NotReached(j: Job, ended: set<Pid>, p: Pid) {
    p in SP.Leaves(j.build) && p !in ended && (j.started ==> p !in SP.Running(j.build, ended))
  }

  /** p is in an ALT that is not accepted yet. */
  predicate Undecided(alts: map<Pid, Alt>, p: Pid) { p in alts && alts[p].winner.None? }

  /** How many records of the runtime hold p for being in that state. */
  ghost function Slots(s: Sys, p: Pid, st: State): nat {
    match st
    case Ready => Cnt(s.readyQ, p)
    case Running => Bit(s.curr == Some(p))
    case Sleeping(d) => Bit(d in s.sleep && s.sleep[d] == p)
    case ChanWait(c) => if c in s.chans then EndCnt(s.chans[c].endQ, p) else 0
    case AltWait => Bit(Undecided(s.alts, p))
    case RunWait(t) => Bit(t in s.trees && s.trees[t].started && s.trees[t].run == Some(p))
    case Unstarted => Bit(p in s.owner && s.owner[p] in s.trees && NotReached(s.trees[s.owner[p]], s.ended, p))
  }

  /** A live process is held once, for its state; a process that does not live is not held anywhere. */
  ghost predicate Placed(s: Sys) {
    forall p, st {:trigger Slots(s, p, st)} {:trigger In(s.procs, p, st)} :: Slots(s, p, st) == Bit(In(s.procs, p, st))
  }

  // ---------------------------------------------------------------- moves

  lemma {:induction false} EndCntAppend(q: seq<ChanEnd>, e: ChanEnd, p: Pid)
    ensures EndCnt(q + [e], p) == EndCnt(q, p) + Bit(e.pid == p)
  {
    if q == [] {
      assert q + [e] == [e];
    } else {
      assert (q + [e])[1..] == q[1..] + [e];
      EndCntAppend(q[1..], e, p);
    }
  }

  lemma {:induction false} CntAppend<T>(q: seq<T>, e: T, x: T)
    ensures Cnt(q + [e], x) == Cnt(q, x) + Bit(e == x)
  {
    CntCat(q, [e], x);
    CntOne(e, x);
  }

  /** Of all records, only the one that holds p for that state is gone. */
  ghost predicate Vacates(s: Sys, s': Sys, p: Pid, from: State) {
    && In(s.procs, p, from) && s'.procs == s.procs
    && forall q: Pid, st: State {:trigger Slots(s', q, st)} :: Slots(s', q, st) == Slots(s, q, st) - Bit(q == p && st == from)
  }

  lemma {:induction false} AddReadySlots(s: Sys, p: Pid, q: Pid, st: State)
    ensures Slots(AddReady(s, p), q, st) == Slots(s, q, st) + Bit(q == p && st == Ready)
  {
    CntAppend(s.readyQ, p, q);
  }

  /** Making a process ready whose record has just been taken away. */
  lemma {:induction false} AddReadyKeeps(s: Sys, s1: Sys, p: Pid, from: State)
    requires Placed(s) && Vacates(s, s1, p, from) && from != Ready
    ensures Placed(AddReady(s1, p))
  {
    var s' := AddReady(s1, p);
    forall q: Pid, st: State ensures Slots(s', q, st) == Bit(In(s'.procs, q, st)) {
      AddReadySlots(s1, p, q, st);
      assert Slots(s1, q, st) == Slots(s, q, st) - Bit(q == p && st == from);
      assert Slots(s, q, st) == Bit(In(s.procs, q, st));
    }
  }

  lemma {:induction false} YieldKeeps(s: Sys, p: Pid)
    requires Placed(s) && s.curr == Some(p)
    ensures Placed(YieldReady(s, p))
  {
    var s1 := s.(curr := None);
    assert Slots(s, p, Running) == 1;
    forall q: Pid, st: State ensures Slots(s1, q, st) == Slots(s, q, st) - Bit(q == p && st == Running) {
      assert Slots(s, q, Running) == Bit(In(s.procs, q, Running));
    }
    AddReadyKeeps(s, s1, p, Running);
    assert YieldReady(s, p) == AddReady(s1, p);
  }

  /** Only one record has come, for the running process p in its new state. */
  ghost predicate Enters(s: Sys, s': Sys, p: Pid, to: State) {
    && s'.procs == s.procs && s'.curr == s.curr
    && forall q: Pid, st: State {:trigger Slots(s', q, st)} :: Slots(s', q, st) == Slots(s, q, st) + Bit(q == p && st == to)
  }

  lemma {:induction false} BlockKeeps(s: Sys, s1: Sys, p: Pid, to: State)
    requires Placed(s) && s.curr == Some(p) && Enters(s, s1, p, to) && to != Running
    ensures Placed(Block(s1, p, to))
  {
    var s' := Block(s1, p, to);
    assert Slots(s, p, Running) == 1;
    forall q: Pid, st: State ensures Slots(s', q, st) == Bit(In(s'.procs, q, st)) {
      assert Slots(s1, q, st) == Slots(s, q, st) + Bit(q == p && st == to);
      assert Slots(s, q, st) == Bit(In(s.procs, q, st));
    }
  }

  // ---------------------------------------------------------------- channels

  lemma {:induction false} PopEnd(s: Sys, c: Cid, ch: Chan)
    requires Placed(s) && c in s.chans && s.chans[c].endQ != [] && ch.endQ == s.chans[c].endQ[1..]
    ensures Vacates(s, s.(chans := s.chans[c := ch]), s.chans[c].endQ[0].pid, ChanWait(c))
  {
    var p := s.chans[c].endQ[0].pid;
    assert Slots(s, p, ChanWait(c)) > 0;
  }

  lemma {:induction false} QueueKeeps(s: Sys, p: Pid, c: Cid, ch: Chan, e: ChanEnd)
    requires Placed(s) && s.curr == Some(p) && c in s.chans && e.pid == p && ch.endQ == s.chans[c].endQ + [e]
    ensures Placed(Block(s.(chans := s.chans[c := ch]), p, ChanWait(c)))
  {
    var s1 := s.(chans := s.chans[c := ch]);
    forall q: Pid, st: State ensures Slots(s1, q, st) == Slots(s, q, st) + Bit(q == p && st == ChanWait(c)) {
      EndCntAppend(s.chans[c].endQ, e, q);
    }
    BlockKeeps(s, s1, p, ChanWait(c));
  }

  lemma {:induction false} AcceptVacates(s: Sys, chans: map<Cid, Chan>, r: GuardRef, kind: Kind)
    requires Placed(s) && SameEnds(s.chans, chans) && r.pid in s.alts && s.alts[r.pid].winner.None?
    ensures Vacates(s, Accept(s.(chans := chans), r, kind), r.pid, AltWait)
  {
    assert Slots(s, r.pid, AltWait) == 1;
  }

  /** The same channels, with the same endQs. */
  ghost predicate SameEnds(a: map<Cid, Chan>, b: map<Cid, Chan>) {
    a.Keys == b.Keys && forall c {:trigger b[c]} :: c in a ==> a[c].endQ == b[c].endQ
  }

  lemma {:induction false} WritePlaced(s: Sys, p: Pid, c: Cid, v: Value)
    requires Placed(s) && s.curr == Some(p) && c in s.chans
    ensures Placed(DoWrite(s, p, c, v))
  {
    var ch := s.chans[c];
    if HeadAccepts(s, c) {
      var r := ch.altQ[0];
      var chans := s.chans[c := GiveAlt(ch, v, s.alts[r.pid].id, r.key)];
      AcceptVacates(s, chans, r, OnChan(c));
      AddReadyKeeps(s, Accept(s.(chans := chans), r, OnChan(c)), r.pid, AltWait);
    } else if ReaderFirst(ch) {
      PopEnd(s, c, GiveReader(ch, v));
      AddReadyKeeps(s, s.(chans := s.chans[c := GiveReader(ch, v)]), ch.endQ[0].pid, ChanWait(c));
    } else {
      QueueKeeps(s, p, c, QueueWriter(ch, p, v), Writer(p, |ch.writes|, v));
    }
  }

  lemma {:induction false} ReadPlaced(s: Sys, p: Pid, c: Cid)
    requires Placed(s) && s.curr == Some(p) && c in s.chans
    ensures Placed(DoRead(s, p, c))
  {
    var ch := s.chans[c];
    if WriterFirst(ch) {
      PopEnd(s, c, TakeWriter(ch));
      AddReadyKeeps(s, s.(chans := s.chans[c := TakeWriter(ch)]), ch.endQ[0].pid, ChanWait(c));
    } else {
      QueueKeeps(s, p, c, QueueReader(ch, p), Reader(p, ch.readCalls));
    }
  }

  lemma {:induction false} ChopenPlaced(s: Sys, c: Cid)
    requires Placed(s) && c !in s.chans
    ensures Placed(s.(chans := s.chans[c := NewChan]))
  {
    var s' := s.(chans := s.chans[c := NewChan]);
    forall q: Pid, st: State ensures Slots(s', q, st) == Bit(In(s'.procs, q, st)) {
      assert Slots(s, q, st) == Bit(In(s.procs, q, st));
    }
  }

  // ---------------------------------------------------------------- ALT

  lemma {:induction false} EnableEnds(chans: map<Cid, Chan>, altsleep: map<nat, GuardRef>, p: Pid, gs: seq<Guard>)
    ensures SameEnds(chans, EnableAll(chans, altsleep, p, gs).chans)
  {
    if gs != [] { EnableEnds(chans, altsleep, p, gs[..|gs| - 1]); }
  }

  lemma {:induction false} AltEnters(s: Sys, p: Pid, a: Alt)
    requires p !in s.alts && a.winner.None?
    ensures Enters(s, s.(alts := s.alts[p := a]), p, AltWait)
  {
  }

  lemma {:induction false} WaitingPlaced(s: Sys, p: Pid, args: Args, e: Enabling)
    requires Placed(s) && s.curr == Some(p) && p !in s.alts && SameEnds(s.chans, e.chans)
    ensures Placed(Waiting(s, p, args, e))
  {
    var a := Alt(AltId(p, s.altCount), args, e.guards, None);
    var s0 := s.(altCount := s.altCount + 1, chans := e.chans, altsleep := e.altsleep);
    SameSlots(s, s0);
    AltEnters(s0, p, a);
    BlockKeeps(s0, s0.(alts := s0.alts[p := a]), p, AltWait);
  }

  lemma {:induction false} SelectReadyPlaced(s: Sys, p: Pid, args: Args, w: Guard)
    requires Placed(s) && s.curr == Some(p)
    ensures Placed(SelectReady(s, p, args, w))
  {
    var s1 := Chosen(s, p, args, w);
    SameSlots(s, s1);
    if w.kind.OnChan? && w.kind.c in s.chans && WriterFirst(s.chans[w.kind.c]) {
      AltReadPlaced(s1, w.kind.c, AltId(p, s.altCount), w.key);
      YieldKeeps(AltRead(s1, w.kind.c, AltId(p, s.altCount), w.key), p);
    } else {
      YieldKeeps(s1, p);
    }
  }

  lemma {:induction false} AltReadPlaced(s: Sys, c: Cid, id: AltId, key: nat)
    requires Placed(s) && c in s.chans && WriterFirst(s.chans[c])
    ensures Placed(AltRead(s, c, id, key))
  {
    var ch := AltTake(s.chans[c], id, key);
    PopEnd(s, c, ch);
    AddReadyKeeps(s, s.(chans := s.chans[c := ch]), s.chans[c].endQ[0].pid, ChanWait(c));
  }

  /** What does not concern any record. */
  lemma {:induction false} SameSlots(s: Sys, s': Sys)
    requires Placed(s) && SameEnds(s.chans, s'.chans)
    requires s'.procs == s.procs && s'.readyQ == s.readyQ && s'.sleep == s.sleep && s'.curr == s.curr
    requires s'.trees == s.trees && s'.owner == s.owner && s'.ended == s.ended
    requires forall q {:trigger Undecided(s'.alts, q)} :: Undecided(s.alts, q) <==> Undecided(s'.alts, q)
    ensures Placed(s')
  {
    forall q: Pid, st: State ensures Slots(s', q, st) == Bit(In(s'.procs, q, st)) {
      assert Slots(s, q, st) == Bit(In(s.procs, q, st));
      assert Slots(s', q, st) == Slots(s, q, st);
    }
  }

  lemma {:induction false} ResumePlaced(s: Sys, p: Pid)
    requires Placed(s) && s.curr == Some(p)
    ensures Placed(DoResume(s, p))
  {
    assert Slots(s, p, Running) == 1 && Slots(s, p, AltWait) == 0;
    SameSlots(s, DoResume(s, p));
  }

  // ---------------------------------------------------------------- sleep, wakeup, dispatch

  lemma {:induction false} SleepUntilPlaced(s: Sys, p: Pid, d: nat)
    requires Placed(s) && s.curr == Some(p) && d !in s.sleep
    ensures Placed(SleepUntil(s, p, d))
  {
    var s1 := s.(sleep := s.sleep[d := p]);
    assert Enters(s, s1, p, Sleeping(d));
    BlockKeeps(s, s1, p, Sleeping(d));
  }

  lemma {:induction false} WakeSleeperPlaced(s: Sys, d: nat)
    requires Placed(s) && d in s.sleep
    ensures Placed(WakeSleeper(s, d))
  {
    var p, s1 := s.sleep[d], s.(sleep := s.sleep - {d});
    assert Slots(s, p, Sleeping(d)) == 1;
    assert Vacates(s, s1, p, Sleeping(d));
    AddReadyKeeps(s, s1, p, Sleeping(d));
  }

  /** A time guard that is due readies its process, last in the queue, exactly if the ALT of that is undecided, and
      moves nobody else. */
  lemma {:induction false} FireGuardPlaced(s: Sys, d: nat)
    requires Placed(s) && d in s.altsleep
    ensures Placed(FireGuard(s, d))
    ensures var s', p := FireGuard(s, d), s.altsleep[d].pid;
      if Undecided(s.alts, p) then s'.procs == s.procs[p := Ready] && s'.readyQ == s.readyQ + [p]
      else s'.procs == s.procs && s'.readyQ == s.readyQ
  {
    var r, s1 := s.altsleep[d], s.(altsleep := s.altsleep - {d});
    SameSlots(s, s1);
    assert Slots(s, r.pid, AltWait) == Bit(In(s.procs, r.pid, AltWait));
    if Undecided(s.alts, r.pid) {
      AcceptVacates(s1, s.chans, r, Time(d));
      AddReadyKeeps(s1, Accept(s1, r, Time(d)), r.pid, AltWait);
      assert FireGuard(s, d) == AddReady(Accept(s1, r, Time(d)), r.pid);
    } else {
      assert FireGuard(s, d) == s1;
    }
  }

  lemma {:induction false} DispatchPlaced(s: Sys)
    requires Placed(s) && s.curr.None?
    ensures Placed(Dispatch(s))
  {
    if s.readyQ != [] {
      var p, s' := s.readyQ[0], Dispatch(s);
      assert Slots(s, p, Ready) > 0;
      forall q: Pid, st: State ensures Slots(s', q, st) == Bit(In(s'.procs, q, st)) {
        assert Slots(s, q, st) == Bit(In(s.procs, q, st));
      }
    }
  }

  // ---------------------------------------------------------------- trees

  lemma {:induction false} MakeProcPlaced(s: Sys, t: Tid, p: Pid)
    requires Placed(s) && t !in s.trees && p !in s.procs && p !in s.ended
    ensures Placed(DoMakeProc(s, t, p))
  {
    var s' := DoMakeProc(s, t, p);
    forall q: Pid, st: State ensures Slots(s', q, st) == Bit(In(s'.procs, q, st)) {
      assert Slots(s, q, st) == Bit(In(s.procs, q, st));
      assert SP.Leaves(SP.Proc((), p)) == {p};
    }
  }

  lemma {:induction false} ComposePlaced(s: Sys, kind: SP.Kind, ts: seq<Tid>, t: Tid)
    requires Placed(s) && ForestInv(s) && Enabled(s, Compose(kind, ts, t))
    ensures Placed(DoCompose(s, kind, ts, t))
  {
    var kids, s' := Kids(s.trees, ts), DoCompose(s, kind, ts, t);
    ToUnlaunched(s.trees, ts);
    KidsLeaves(s.trees, ts, s.procs.Keys, s.owner, s.ended);
    assert SP.Leaves(SP.Node((), kind, SP.Len(kids), 0, kids)) == SP.LeavesL(kids);
    forall q: Pid, st: State ensures Slots(s', q, st) == Bit(In(s'.procs, q, st)) {
      assert Slots(s, q, st) == Bit(In(s.procs, q, st));
    }
  }

  lemma {:induction false} CntNoDup(ps: seq<Pid>, q: Pid)
    requires SP.NoDup(ps)
    ensures Cnt(ps, q) == Bit(q in SP.SetOf(ps))
  {
    if ps == [] {
      assert q !in SP.SetOf(ps);
    } else {
      assert forall i :: 0 <= i < |ps[1..]| ==> ps[1..][i] == ps[i + 1];
      CntNoDup(ps[1..], q);
      assert q in ps <==> q == ps[0] || q in ps[1..];
      assert q in ps[1..] ==> q != ps[0];
    }
  }

  /** Readying leaves that their tree has just reached. */
  lemma {:induction false} ReachedPlaced(s: Sys, s1: Sys, s': Sys, ps: seq<Pid>, extra: State, run: Option<Pid>)
    requires s' == AddReadyAll(s1, ps)
    requires Placed(s) && s1.procs == s.procs && SP.NoDup(ps) && !extra.Ready? && !extra.Unstarted?
    requires forall q: Pid, st: State {:trigger Slots(s1, q, st)} ::
      Slots(s1, q, st) == Slots(s, q, st) - Bit(st == Unstarted && q in SP.SetOf(ps)) + Bit(st == extra && run == Some(q))
    ensures forall q: Pid, st: State {:trigger Slots(s', q, st)} ::
      Slots(s', q, st) == Bit(In(s'.procs, q, st)) + Bit(st == extra && run == Some(q))
  {
    AddReadyAllFields(s1, ps);
    forall q: Pid, st: State ensures Slots(s', q, st) == Bit(In(s'.procs, q, st)) + Bit(st == extra && run == Some(q)) {
      assert Slots(s1, q, st) == Slots(s, q, st) - Bit(st == Unstarted && q in SP.SetOf(ps)) + Bit(st == extra && run == Some(q));
      assert Slots(s, q, st) == Bit(In(s.procs, q, st));
      assert Slots(s, q, Unstarted) == Bit(In(s.procs, q, Unstarted));
      assert Slots(s1, q, Unstarted) == Slots(s, q, Unstarted) - Bit(q in SP.SetOf(ps));
      CntNoDup(ps, q);
      if st == Ready { CntCat(s1.readyQ, ps, q); } else { assert Slots(s', q, st) == Slots(s1, q, st); }
    }
  }

  lemma {:induction false} LaunchPlaced(s: Sys, t: Tid, run: Option<Pid>)
    requires Placed(s) && ForestInv(s) && t in s.trees && !s.trees[t].started
    ensures var s' := Launch(s, t, run);
      forall q: Pid, st: State {:trigger Slots(s', q, st)} ::
        Slots(s', q, st) == Bit(In(s'.procs, q, st)) + Bit(st == RunWait(t) && run == Some(q))
  {
    var b := s.trees[t].build;
    var s1 := s.(trees := s.trees[t := Job(b, run, true)]);
    assert JobOk(s.trees[t], s.ended);
    SP.RunStarts(b, s.ended);
    forall q: Pid, st: State
      ensures Slots(s1, q, st)
           == Slots(s, q, st) - Bit(st == Unstarted && q in SP.SetOf(SP.Run(b))) + Bit(st == RunWait(t) && run == Some(q))
    {
      assert q in SP.Leaves(b) ==> q in SP.Leaves(s.trees[t].build);
    }
    ReachedPlaced(s, s1, Launch(s, t, run), SP.Run(b), RunWait(t), run);
  }

  lemma {:induction false} RunPlaced(s: Sys, t: Tid, p: Pid)
    requires Placed(s) && ForestInv(s) && t in s.trees && !s.trees[t].started && s.curr == Some(p)
    ensures Placed(Block(Launch(s, t, Some(p)), p, RunWait(t)))
  {
    var s1 := Launch(s, t, Some(p));
    var s' := Block(s1, p, RunWait(t));
    LaunchPlaced(s, t, Some(p));
    LaunchFields(s, t, Some(p));
    assert Slots(s1, p, Running) == 1;
    forall q: Pid, st: State ensures Slots(s', q, st) == Bit(In(s'.procs, q, st)) {
      assert Slots(s1, q, st) == Bit(In(s1.procs, q, st)) + Bit(st == RunWait(t) && q == p);
      assert Slots(s', q, st) == Slots(s1, q, st) - Bit(st == Running && q == p);
    }
  }

  lemma {:induction false} GoPlaced(s: Sys, t: Tid)
    requires Placed(s) && ForestInv(s) && t in s.trees && !s.trees[t].started
    ensures Placed(Launch(s, t, None))
  {
    LaunchPlaced(s, t, None);
    Exactly(Launch(s, t, None), RunWait(t));
  }

  lemma {:induction false} LaunchFields(s: Sys, t: Tid, run: Option<Pid>)
    requires t in s.trees
    ensures var s', b := Launch(s, t, run), s.trees[t].build;
      s' == s.(procs := s'.procs, readyQ := s.readyQ + SP.Run(b), trees := s.trees[t := Job(b, run, true)])
  {
    var b := s.trees[t].build;
    AddReadyAllFields(s.(trees := s.trees[t := Job(b, run, true)]), SP.Run(b));
  }

  // ---------------------------------------------------------------- the end of a process

  /** The running process is somewhere its tree has reached, and whoever waits for that tree is another. */
  lemma {:induction false} RunningCanEnd(s: Sys, p: Pid)
    requires Placed(s) && ForestInv(s) && s.curr == Some(p)
    ensures CanEnd(s, p)
  {
    assert Slots(s, p, Running) == 1;
    assert Slots(s, p, Unstarted) == 0;
    assert p in s.procs.Keys;
    if p in s.owner {
      var t := s.owner[p];
      assert NotReached(s.trees[t], s.ended, p) || InExecution(s.trees[t], s.ended, p);
      if s.trees[t].run.Some? { assert Slots(s, s.trees[t].run.value, RunWait(t)) == 1; }
    }
  }

  /** Before anybody is made ready: p is gone, and its tree has gone one step further or is gone. */
  function Ending(s: Sys, p: Pid, trees: map<Tid, Job>): Sys { Freed(s, p).(trees := trees) }

  lemma {:induction false} StepPlaced(s: Sys, p: Pid, t: Tid)
    requires Placed(s) && ForestInv(s) && s.curr == Some(p) && p in s.owner && s.owner[p] == t && CanEnd(s, p)
    requires !SP.Finish(s.trees[t].build, p).complete
    ensures Placed(DoEnd(s, p))
  {
    var o := SP.Finish(s.trees[t].build, p);
    var s0 := s.(procs := s.procs - {p}, curr := None);
    var s1 := Ending(s, p, s.trees[t := s.trees[t].(build := o.tree)]);
    LeavesPlaced(s, p);
    FinishJob(s, p, t);
    NewlyReady(s, p, t, o.ready);
    forall q: Pid, st: State ensures Slots(s1, q, st) == Slots(s0, q, st) - Bit(st == Unstarted && q in SP.SetOf(o.ready)) {
      if st == Unstarted { StepSlots(s, p, t, q); }
    }
    ReachedPlaced(s0, s1, DoEnd(s, p), o.ready, Running, None);
    Exactly(DoEnd(s, p), Running);
  }

  lemma {:induction false} Exactly(s: Sys, extra: State)
    requires forall q: Pid, st: State {:trigger Slots(s, q, st)} ::
      Slots(s, q, st) == Bit(In(s.procs, q, st)) + Bit(st == extra && None == Some(q))
    ensures Placed(s)
  {
    forall q: Pid, st: State ensures Slots(s, q, st) == Bit(In(s.procs, q, st)) {
    }
  }

  lemma {:induction false} LeavesPlaced(s: Sys, p: Pid)
    requires Placed(s) && s.curr == Some(p)
    ensures Placed(s.(procs := s.procs - {p}, curr := None))
  {
    var s' := s.(procs := s.procs - {p}, curr := None);
    assert Slots(s, p, Running) == 1;
    forall q: Pid, st: State ensures Slots(s', q, st) == Bit(In(s'.procs, q, st)) {
      assert Slots(s, q, st) == Bit(In(s.procs, q, st));
      assert Slots(s', q, st) == Slots(s, q, st) - Bit(st == Running && q == p);
    }
  }

  /** Which leaves their trees have not reached after the end of p. */
  lemma {:induction false} StepSlots(s: Sys, p: Pid, t: Tid, q: Pid)
    requires ForestInv(s) && p in s.owner && s.owner[p] == t && CanEnd(s, p)
    ensures var o := SP.Finish(s.trees[t].build, p);
      var trees := if o.complete then s.trees - {t} else s.trees[t := s.trees[t].(build := o.tree)];
      Slots(Ending(s, p, trees), q, Unstarted) == Slots(s, q, Unstarted) - Bit(!o.complete && q in SP.SetOf(o.ready))
  {
    var o := SP.Finish(s.trees[t].build, p);
    FinishJob(s, p, t);
    NewlyReady(s, p, t, o.ready);
    StepReached(s, p, t, q);
    SlotsAfter(s, p, t, q, o.complete, o.tree, SP.SetOf(o.ready));
  }

  lemma {:induction false} SlotsAfter(s: Sys, p: Pid, t: Tid, q: Pid, complete: bool, b: Build, ready: set<Pid>)
    requires ForestInv(s) && t in s.trees && p in s.owner && s.owner[p] == t
    requires q in ready ==> q in SP.Leaves(s.trees[t].build)
    requires complete ==> !NotReached(s.trees[t], s.ended, q)
    requires !complete ==>
      (NotReached(s.trees[t].(build := b), s.ended + {p}, q) <==> NotReached(s.trees[t], s.ended, q) && q !in ready)
    requires q in ready ==> NotReached(s.trees[t], s.ended, q)
    ensures var trees := if complete then s.trees - {t} else s.trees[t := s.trees[t].(build := b)];
      Slots(Ending(s, p, trees), q, Unstarted) == Slots(s, q, Unstarted) - Bit(!complete && q in ready)
  {
    if q in s.owner && s.owner[q] in s.trees && s.owner[q] != t {
      Unconcerned(s, p, s.owner[q], q);
    } else if q !in s.owner || s.owner[q] != t {
      assert q !in ready;
    }
  }

  lemma {:induction false} StepReached(s: Sys, p: Pid, t: Tid, q: Pid)
    requires ForestInv(s) && t in s.trees && InExecution(s.trees[t], s.ended, p)
    ensures var j, o := s.trees[t], SP.Finish(s.trees[t].build, p);
      && (o.complete ==> !NotReached(j, s.ended, q))
      && (q in SP.SetOf(o.ready) ==> NotReached(j, s.ended, q))
      && (!o.complete ==>
            (NotReached(j.(build := o.tree), s.ended + {p}, q) <==> NotReached(j, s.ended, q) && q !in SP.SetOf(o.ready)))
  {
    FinishJob(s, p, t);
    NewlyReady(s, p, t, SP.Finish(s.trees[t].build, p).ready);
    assert JobOk(s.trees[t], s.ended);
  }

  lemma {:induction false} Unconcerned(s: Sys, p: Pid, u: Tid, q: Pid)
    requires ForestInv(s) && u in s.trees && (p in s.owner ==> s.owner[p] != u)
    ensures NotReached(s.trees[u], s.ended + {p}, q) <==> NotReached(s.trees[u], s.ended, q)
  {
    assert p !in SP.Leaves(s.trees[u].build);
    Elsewhere(s.trees[u], s.ended, p);
  }

  lemma {:induction false} EndPlaced(s: Sys, p: Pid)
    requires Placed(s) && ForestInv(s) && s.curr == Some(p)
    ensures Placed(DoEnd(s, p))
  {
    RunningCanEnd(s, p);
    if p !in s.owner {
      LonePlaced(s, p);
    } else if SP.Finish(s.trees[s.owner[p]].build, p).complete {
      CompletePlaced(s, p, s.owner[p]);
    } else {
      StepPlaced(s, p, s.owner[p]);
    }
  }

  lemma {:induction false} CompletePlaced(s: Sys, p: Pid, t: Tid)
    requires Placed(s) && ForestInv(s) && s.curr == Some(p) && p in s.owner && s.owner[p] == t && CanEnd(s, p)
    requires SP.Finish(s.trees[t].build, p).complete
    ensures Placed(DoEnd(s, p))
  {
    var s0 := s.(procs := s.procs - {p}, curr := None);
    var run, s1 := s.trees[t].run, Ending(s, p, s.trees - {t});
    LeavesPlaced(s, p);
    assert InExecution(s.trees[t], s.ended, p);
    forall q: Pid, st: State ensures Slots(s1, q, st) == Slots(s0, q, st) - Bit(st == RunWait(t) && run == Some(q)) {
      if st == Unstarted { StepSlots(s, p, t, q); }
    }
    if run.Some? {
      assert Slots(s0, run.value, RunWait(t)) == 1;
      AddReadyKeeps(s0, s1, run.value, RunWait(t));
      assert DoEnd(s, p) == AddReady(s1, run.value);
    } else {
      SameAll(s0, s1);
      assert DoEnd(s, p) == s1;
    }
  }

  lemma {:induction false} LoneSlots(s: Sys, p: Pid, q: Pid)
    requires ForestInv(s) && p !in s.owner
    ensures Slots(Ending(s, p, s.trees), q, Unstarted) == Slots(s, q, Unstarted)
  {
    if q in s.owner && s.owner[q] in s.trees { Unconcerned(s, p, s.owner[q], q); }
  }

  lemma {:induction false} LonePlaced(s: Sys, p: Pid)
    requires Placed(s) && ForestInv(s) && s.curr == Some(p) && p !in s.owner
    ensures Placed(DoEnd(s, p))
  {
    var s0, s1 := s.(procs := s.procs - {p}, curr := None), Ending(s, p, s.trees);
    LeavesPlaced(s, p);
    forall q: Pid, st: State ensures Slots(s1, q, st) == Slots(s0, q, st) {
      if st == Unstarted { LoneSlots(s, p, q); }
    }
    SameAll(s0, s1);
    assert DoEnd(s, p) == s1;
  }

  lemma {:induction false} SameAll(s: Sys, s': Sys)
    requires Placed(s) && s'.procs == s.procs
    requires forall q: Pid, st: State {:trigger Slots(s', q, st)} :: Slots(s', q, st) == Slots(s, q, st)
    ensures Placed(s')
  {
    forall q: Pid, st: State ensures Slots(s', q, st) == Bit(In(s'.procs, q, st)) {
      assert Slots(s, q, st) == Bit(In(s.procs, q, st));
    }
  }
}
