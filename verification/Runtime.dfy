/**
 The runtime as a step machine.  Control changes hands only where a process yields, so what the running process does
 between two calls into the library, and each call up to its yield, is one step.  The bodies of the processes, the
 random choice of a ready guard and the clock are the nondeterminism: they choose the next action.
 */
module Runtime {
  import opened Channels
  import opened Alts
  import opened Timers
  import opened Wrappers
  import SP = SeriesParallel

  type Tid = nat
  type Build = SP.Build<()>

  /** The state of a process.  Where the source keeps only the kind of waiting, it is named here what is waited for;
      Unstarted is PROC_READY of a leaf that csp_runbuild has not reached. */
  datatype State = Unstarted | Ready | Running | Sleeping(at: nat) | ChanWait(c: Cid) | RunWait(t: Tid) | AltWait

  /** An ALT that waits for one of its guards or has been accepted; winner is Some once is_accepted is set. */
  datatype Alt = Alt(id: AltId, args: Args, guards: seq<Guard>, winner: Option<nat>)

  /** History: what fired for an ALT called with these arguments. */
  datatype Outcome = Outcome(key: nat, kind: Kind, args: Args)

  /** A builder tree that is not part of another; run is the process that waits for it. */
  datatype Job = Job(build: Build, run: Option<Pid>, started: bool)

  /** ended, outcomes and altCount are history. */
  datatype Sys = Sys(
    procs: map<Pid, State>, readyQ: seq<Pid>, sleep: map<nat, Pid>, altsleep: map<nat, GuardRef>,
    chans: map<Cid, Chan>, alts: map<Pid, Alt>, trees: map<Tid, Job>, owner: map<Pid, Tid>,
    curr: Option<Pid>, main: Pid, isExit: bool,
    ended: set<Pid>, altCount: nat, outcomes: map<AltId, Outcome>)

  datatype Action =
    | Chopen(c: Cid) | Write(c: Cid, v: Value) | Read(c: Cid)
    | Select(args: Args, choice: nat) | Resume
    | Sleep(us: nat, now: nat) | Yield
    | MakeProc(t: Tid, p: Pid) | Compose(kind: SP.Kind, ts: seq<Tid>, t: Tid) | Go(t: Tid) | Run(t: Tid)
    | End | Exit
    | Schedule(now: nat)

  // ---------------------------------------------------------------- ready queue

  /** scheduler_addready (src/scheduler.c:113-122). */
  function AddReady(s: Sys, p: Pid): Sys { s.(procs := s.procs[p := Ready], readyQ := s.readyQ + [p]) }

  function AddReadyAll(s: Sys, ps: seq<Pid>): Sys {
    if ps == [] then s else AddReady(AddReadyAll(s, ps[..|ps| - 1]), ps[|ps| - 1])
  }

  /** The running process waits: it sets its state and yields (src/scheduler.c:301-323). */
  function Block(s: Sys, p: Pid, st: State): Sys { s.(procs := s.procs[p := st], curr := None) }

  /** The running process yields and stays ready. */
  function YieldReady(s: Sys, p: Pid): Sys { AddReady(s, p).(curr := None) }

  // ---------------------------------------------------------------- channels

  /** The first entry of altQ belongs to an ALT that is not accepted yet. */
  predicate HeadAccepts(s: Sys, c: Cid)
    requires c in s.chans
  {
    var q := s.chans[c].altQ;
    q != [] && q[0].pid in s.alts && s.alts[q[0].pid].winner.None?
  }

  /** alt_accept of the guard r, which the event of that kind fired (src/alt.c:121-135). */
  function Accept(s: Sys, r: GuardRef, kind: Kind): Sys
    requires r.pid in s.alts
  {
    var a := s.alts[r.pid];
    s.(alts := s.alts[r.pid := a.(winner := Some(r.key))], outcomes := s.outcomes[a.id := Outcome(r.key, kind, a.args)])
  }

  /** chan_write (src/chan.c:50-113). */
  function DoWrite(s: Sys, p: Pid, c: Cid, v: Value): Sys
    requires c in s.chans
  {
    var ch := s.chans[c];
    if HeadAccepts(s, c) then
      var r := ch.altQ[0];
      AddReady(Accept(s.(chans := s.chans[c := GiveAlt(ch, v, s.alts[r.pid].id, r.key)]), r, OnChan(c)), r.pid)
    else if ReaderFirst(ch) then
      AddReady(s.(chans := s.chans[c := GiveReader(ch, v)]), ch.endQ[0].pid)
    else
      Block(s.(chans := s.chans[c := QueueWriter(ch, p, v)]), p, ChanWait(c))
  }

  /** chan_read (src/chan.c:115-164). */
  function DoRead(s: Sys, p: Pid, c: Cid): Sys
    requires c in s.chans
  {
    var ch := s.chans[c];
    if WriterFirst(ch) then
      AddReady(s.(chans := s.chans[c := TakeWriter(ch)]), ch.endQ[0].pid)
    else
      Block(s.(chans := s.chans[c := QueueReader(ch, p)]), p, ChanWait(c))
  }

  // ---------------------------------------------------------------- ALT

  /** The guard fires at once (src/alt.c:137-154, src/chan.c:171-174). */
  predicate IsReady(chans: map<Cid, Chan>, g: Guard) {
    g.kind.Skip? || (g.kind.OnChan? && g.kind.c in chans && WriterFirst(chans[g.kind.c]))
  }

  function ReadyOf(chans: map<Cid, Chan>, gs: seq<Guard>): seq<Guard> {
    if gs == [] then []
    else ReadyOf(chans, gs[..|gs| - 1]) + if IsReady(chans, gs[|gs| - 1]) then [gs[|gs| - 1]] else []
  }

  /** What enabling leaves: queues, time guards, and the guards with the deadlines they got. */
  datatype Enabling = Enabling(chans: map<Cid, Chan>, altsleep: map<nat, GuardRef>, guards: seq<Guard>)

  /** alt_enable of a guard of process p (src/alt.c:137-154). */
  function EnableOne(e: Enabling, p: Pid, g: Guard): Enabling {
    match g.kind
    case Skip => e.(guards := e.guards + [g])
    case Time(at) =>
      var f := LeastFree(e.altsleep.Keys, at);
      e.(altsleep := e.altsleep[f := GuardRef(p, g.key)], guards := e.guards + [Guard(g.key, Time(f))])
    case OnChan(c) =>
      if c !in e.chans || WriterFirst(e.chans[c]) then e.(guards := e.guards + [g])
      else
        var ch := e.chans[c];
        e.(chans := e.chans[c := ch.(altQ := ch.altQ + [GuardRef(p, g.key)])], guards := e.guards + [g])
  }

  /** The first loop of alt_select (src/alt.c:219-225). */
  function EnableAll(chans: map<Cid, Chan>, altsleep: map<nat, GuardRef>, p: Pid, gs: seq<Guard>): Enabling {
    if gs == [] then Enabling(chans, altsleep, [])
    else EnableOne(EnableAll(chans, altsleep, p, gs[..|gs| - 1]), p, gs[|gs| - 1])
  }

  /** The number and the outcome of an ALT whose guard w is chosen among the ready ones. */
  function Chosen(s: Sys, p: Pid, args: Args, w: Guard): Sys {
    s.(altCount := s.altCount + 1, outcomes := s.outcomes[AltId(p, s.altCount) := Outcome(w.key, w.kind, args)])
  }

  /** chan_altread, for a chosen channel guard (src/chan.c:190-211). */
  function AltRead(s: Sys, c: Cid, id: AltId, key: nat): Sys
    requires c in s.chans && WriterFirst(s.chans[c])
  {
    AddReady(s.(chans := s.chans[c := AltTake(s.chans[c], id, key)]), s.chans[c].endQ[0].pid)
  }

  /** alt_complete of a ready guard, up to its yield (src/alt.c:179-181). */
  function Completed(s: Sys, id: AltId, w: Guard): Sys {
    if w.kind.OnChan? && w.kind.c in s.chans && WriterFirst(s.chans[w.kind.c]) then AltRead(s, w.kind.c, id, w.key) else s
  }

  /** alt_select when the guard w is chosen among the ready ones: nothing stays enabled, a channel guard takes the
      waiting writer, and the process yields (src/alt.c:174-205). */
  function SelectReady(s: Sys, p: Pid, args: Args, w: Guard): Sys {
    YieldReady(Completed(Chosen(s, p, args, w), AltId(p, s.altCount), w), p)
  }

  /** alt_select when no guard is ready, up to its yield (src/alt.c:200-204, src/alt.c:207-228). */
  function SelectBlock(s: Sys, p: Pid, args: Args): Sys {
    Waiting(s, p, args, EnableAll(s.chans, s.altsleep, p, AddGuards(args)))
  }

  /** The process waits with its guards enabled. */
  function Waiting(s: Sys, p: Pid, args: Args, e: Enabling): Sys {
    var a := Alt(AltId(p, s.altCount), args, e.guards, None);
    Block(s.(altCount := s.altCount + 1, chans := e.chans, altsleep := e.altsleep, alts := s.alts[p := a]), p, AltWait)
  }

  function DoSelect(s: Sys, p: Pid, args: Args, choice: nat): Sys {
    var ready := ReadyOf(s.chans, AddGuards(args));
    if ready == [] then SelectBlock(s, p, args)
    else if choice < |ready| then SelectReady(s, p, args, ready[choice]) else s
  }

  /** altQ without the guards of p, the others in their order. */
  function Without(q: seq<GuardRef>, p: Pid): seq<GuardRef> {
    if q == [] then [] else (if q[0].pid == p then [] else [q[0]]) + Without(q[1..], p)
  }

  /** alt_select after its yield: the guards are disabled, those that have left their queue being left alone
      (src/alt.c:233-240). */
  function DoResume(s: Sys, p: Pid): Sys {
    s.(alts := s.alts - {p},
       chans := map c | c in s.chans :: s.chans[c].(altQ := Without(s.chans[c].altQ, p)),
       altsleep := map d | d in s.altsleep && s.altsleep[d].pid != p :: s.altsleep[d])
  }

  // ---------------------------------------------------------------- sleep and wakeup

  /** proxc_sleep (src/proxc.c:46-55, src/scheduler.c:132-150). */
  function DoSleep(s: Sys, p: Pid, us: nat, now: nat): Sys {
    if us == 0 then YieldReady(s, p) else SleepUntil(s, p, LeastFree(s.sleep.Keys, now + us))
  }

  function SleepUntil(s: Sys, p: Pid, d: nat): Sys { Block(s.(sleep := s.sleep[d := p]), p, Sleeping(d)) }

  ghost predicate IsMin<T>(m: map<nat, T>, d: nat) { d in m && forall e :: e in m ==> d <= e }

  /** RB_MIN. */
  ghost function MinKey<T>(m: map<nat, T>): (d: nat)
    requires m != map[]
    ensures IsMin(m, d)
  {
    HasMin(m);
    var d :| IsMin(m, d);
    d
  }

  lemma {:induction false} HasMin<T>(m: map<nat, T>)
    requires m != map[]
    ensures exists d :: IsMin(m, d)
    decreases |m|
  {
    var d :| d in m;
    var rest := m - {d};
    if rest == map[] {
      assert forall e :: e in m ==> e == d || e in rest;
      assert IsMin(m, d);
    } else {
      HasMin(rest);
      var f :| IsMin(rest, f);
      assert forall e :: e in m ==> e == d || e in rest;
      assert IsMin(m, if d < f then d else f);
    }
  }

  /** The sleeper with the earliest deadline d wakes up (src/scheduler.c:206-208). */
  function WakeSleeper(s: Sys, d: nat): Sys
    requires d in s.sleep
  {
    AddReady(s.(sleep := s.sleep - {d}), s.sleep[d])
  }

  /** The time guard with the earliest deadline d fires (src/scheduler.c:216-223). */
  function FireGuard(s: Sys, d: nat): Sys
    requires d in s.altsleep
  {
    var r, s1 := s.altsleep[d], s.(altsleep := s.altsleep - {d});
    if r.pid in s.procs && s.procs[r.pid] == AltWait && r.pid in s.alts && s.alts[r.pid].winner.None? then
      AddReady(Accept(s1, r, Time(d)), r.pid)
    else s1
  }

  ghost function WakeSleepers(s: Sys, now: nat): Sys
    decreases |s.sleep|
  {
    if s.sleep == map[] then s
    else
      var d := MinKey(s.sleep);
      if d > now then s else WakeSleepers(WakeSleeper(s, d), now)
  }

  ghost function FireGuards(s: Sys, now: nat): Sys
    decreases |s.altsleep|
  {
    if s.altsleep == map[] then s
    else
      var d := MinKey(s.altsleep);
      if d > now then s else FireGuards(FireGuard(s, d), now)
  }

  /** _scheduler_wakeup (src/scheduler.c:191-225). */
  ghost function Wakeup(s: Sys, now: nat): Sys { FireGuards(WakeSleepers(s, now), now) }

  /** The first process of the ready queue is resumed (src/scheduler.c:283-298). */
  function Dispatch(s: Sys): Sys {
    if s.readyQ == [] then s
    else s.(readyQ := s.readyQ[1..], procs := s.procs[s.readyQ[0] := Running], curr := Some(s.readyQ[0]))
  }

  // ---------------------------------------------------------------- PAR, SEQ, RUN and GO

  /** proxc_proc (src/proxc.c:62-96). */
  function DoMakeProc(s: Sys, t: Tid, p: Pid): Sys {
    s.(procs := s.procs[p := Unstarted], owner := s.owner[p := t], trees := s.trees[t := Job(SP.Proc((), p), None, false)])
  }

  function Kids(trees: map<Tid, Job>, ts: seq<Tid>): SP.Builds<()> {
    if ts == [] || ts[0] !in trees then SP.Nil else SP.Cons(trees[ts[0]].build, Kids(trees, ts[1..]))
  }

  /** proxc_par and proxc_seq (src/proxc.c:104-165, src/csp.c:47-70). */
  function DoCompose(s: Sys, kind: SP.Kind, ts: seq<Tid>, t: Tid): Sys {
    var kids := Kids(s.trees, ts);
    var b := SP.Node((), kind, SP.Len(kids), 0, kids);
    s.(trees := (map u | u in s.trees && u !in ts :: s.trees[u])[t := Job(b, None, false)],
       owner := map p | p in s.owner :: if p in SP.LeavesL(kids) then t else s.owner[p])
  }

  /** proxc_go, and proxc_run up to its yield (src/proxc.c:168-206). */
  function Launch(s: Sys, t: Tid, run: Option<Pid>): Sys
    requires t in s.trees
  {
    var j := s.trees[t];
    AddReadyAll(s.(trees := s.trees[t := Job(j.build, run, true)]), SP.Run(j.build))
  }

  /** The running process has ended and is freed (src/proc.c:27-28, src/scheduler.c:306-312). */
  function Freed(s: Sys, p: Pid): Sys {
    s.(procs := s.procs - {p}, ended := s.ended + {p}, curr := None, isExit := s.isExit || p == s.main)
  }

  /** The end of p is reported to its tree t (src/csp.c:137-196). */
  function Report(s: Sys, p: Pid, t: Tid): Sys
    requires t in s.trees
  {
    var j := s.trees[t];
    var o := SP.Finish(j.build, p);
    if !o.complete then AddReadyAll(s.(trees := s.trees[t := j.(build := o.tree)]), o.ready)
    else if j.run.Some? then AddReady(s.(trees := s.trees - {t}), j.run.value)
    else s.(trees := s.trees - {t})
  }

  /** The end of a process (src/proc.c:80-97). */
  function DoEnd(s: Sys, p: Pid): Sys {
    if p in s.owner && s.owner[p] in s.trees then Report(Freed(s, p), p, s.owner[p]) else Freed(s, p)
  }

  // ---------------------------------------------------------------- steps and runs

  /** The loop that looks for a free deadline stops in time (src/scheduler.c:149, src/scheduler.c:178). */
  predicate Fits(taken: set<nat>, at: nat) { LeastFree(taken, at) < at + MAX_TRIES }

  predicate SelectEnabled(s: Sys, args: Args, choice: nat) {
    var gs := AddGuards(args);
    && (forall i | 0 <= i < |args| :: args[i].Some? ==>
          match args[i].value case OnChan(c) => c in s.chans case Time(at) => at > 0 case Skip => true)
    && (TimeOf(gs).Some? ==> Fits(s.altsleep.Keys, TimeOf(gs).value.kind.at))
    && (ReadyOf(s.chans, gs) == [] || choice < |ReadyOf(s.chans, gs)|)
  }

  predicate NoRepeat(ts: seq<Tid>) { forall i, j | 0 <= i < j < |ts| :: ts[i] != ts[j] }

  /** The actions that can be next.  An accepted ALT is always completed before its process does anything else. */
  predicate Enabled(s: Sys, a: Action) {
    if a.Schedule? then s.curr.None? && !s.isExit && s.procs != map[]
    else
      && s.curr.Some?
      && (a.Resume? <==> s.curr.value in s.alts)
      && match a
         case Chopen(c) => c !in s.chans
         case Write(c, _) => c in s.chans
         case Read(c) => c in s.chans
         case Select(args, choice) => SelectEnabled(s, args, choice)
         case Sleep(us, now) => us > 0 ==> Fits(s.sleep.Keys, now + us)
         case MakeProc(t, p) => t !in s.trees && p !in s.procs && p !in s.ended
         case Compose(_, ts, t) =>
           && ts != [] && NoRepeat(ts) && t !in s.trees
           && forall i | 0 <= i < |ts| :: ts[i] in s.trees && !s.trees[ts[i]].started
         case Go(t) => t in s.trees && !s.trees[t].started
         case Run(t) => t in s.trees && !s.trees[t].started
         case _ => true
  }

  ghost function Next(s: Sys, a: Action): Sys
    requires Enabled(s, a)
  {
    if a.Schedule? then Dispatch(Wakeup(s, a.now))
    else
      var p := s.curr.value;
      match a
      case Chopen(c) => s.(chans := s.chans[c := NewChan])
      case Write(c, v) => DoWrite(s, p, c, v)
      case Read(c) => DoRead(s, p, c)
      case Select(args, choice) => DoSelect(s, p, args, choice)
      case Resume => DoResume(s, p)
      case Sleep(us, now) => DoSleep(s, p, us, now)
      case Yield => YieldReady(s, p)
      case MakeProc(t, q) => DoMakeProc(s, t, q)
      case Compose(kind, ts, t) => DoCompose(s, kind, ts, t)
      case Go(t) => Launch(s, t, None)
      case Run(t) => Block(Launch(s, t, Some(p)), p, RunWait(t))
      case End => DoEnd(s, p)
      case Exit => YieldReady(s, p).(isExit := true)
      case Schedule(_) => s
  }

  /** proxc_start: the main process is ready (src/proxc.c:10-23). */
  function Start(main: Pid): Sys {
    Sys(map[main := Ready], [main], map[], map[], map[], map[], map[], map[], None, main, false, {}, 0, map[])
  }

  ghost predicate IsRun(main: Pid, run: seq<Action>) {
    run != [] ==> IsRun(main, run[..|run| - 1]) && Enabled(After(main, run[..|run| - 1]), run[|run| - 1])
  }

  ghost function After(main: Pid, run: seq<Action>): Sys {
    if run == [] then Start(main)
    else
      var s := After(main, run[..|run| - 1]);
      if Enabled(s, run[|run| - 1]) then Next(s, run[|run| - 1]) else s
  }
}
