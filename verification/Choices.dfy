/**
 ALT over all runs: which queues and timers hold the guards of whom, and that each ALT is decided once.
 */
module Choices {
  import opened Channels
  import opened Alts
  import opened Timers
  import opened Runtime
  import opened Placement
  import opened Wrappers

  /** r is an enabled guard of that kind. */
  ghost predicate GuardOn(alts: map<Pid, Alt>, r: GuardRef, kind: Kind) {
    r.pid in alts && Has(alts[r.pid].guards, r.key, kind)
  }

  /** Each altQ holds exactly the guards on its channel, each once. */
  ghost predicate QueuesOk(alts: map<Pid, Alt>, chans: map<Cid, Chan>) {
    forall c, r {:trigger Cnt(chans[c].altQ, r)} :: c in chans ==> Cnt(chans[c].altQ, r) == Bit(GuardOn(alts, r, OnChan(c)))
  }

  /** The tree of time guards holds only enabled ones, and all of those that can still win. */
  ghost predicate TimersOk(alts: map<Pid, Alt>, altsleep: map<nat, GuardRef>) {
    && (forall d: nat {:trigger altsleep[d]} :: d in altsleep ==> GuardOn(alts, altsleep[d], Time(d)))
    && (forall p: Pid, k: nat, d: nat {:trigger Has(alts[p].guards, k, Time(d))} ::
          p in alts && alts[p].winner.None? && Has(alts[p].guards, k, Time(d)) ==> d in altsleep && altsleep[d] == GuardRef(p, k))
  }

  /** The event of that kind is the one that the argument at position key waits for; a time guard may have been
      moved to the next free deadline. */
  ghost predicate Answers(args: Args, key: nat, kind: Kind) {
    && Active(args, key)
    && match args[key].value
       case Time(at) => kind.Time? && at <= kind.at < at + MAX_TRIES
       case other => kind == other
  }

  ghost predicate ArgsOk(alts: map<Pid, Alt>) {
    forall p, k, kind {:trigger Has(alts[p].guards, k, kind)} ::
      p in alts && Has(alts[p].guards, k, kind) ==> Answers(alts[p].args, k, kind)
  }

  ghost predicate ProperOk(alts: map<Pid, Alt>) { forall p {:trigger alts[p]} :: p in alts ==> Proper(alts[p].guards) }

  /** An ALT is decided when it has an outcome, and then its winner is that. */
  ghost predicate IdsOk(alts: map<Pid, Alt>, outcomes: map<AltId, Outcome>, altCount: nat) {
    && (forall p {:trigger alts[p]} :: p in alts ==>
          var a := alts[p];
          && a.id.pid == p && a.id.number < altCount
          && a.winner == (if a.id in outcomes then Some(outcomes[a.id].key) else None)
          && (a.id in outcomes ==> outcomes[a.id].args == a.args))
    && (forall id {:trigger outcomes[id]} :: id in outcomes ==> id.number < altCount)
  }

  ghost predicate OutcomesOk(outcomes: map<AltId, Outcome>) {
    forall id {:trigger outcomes[id]} :: id in outcomes ==> Answers(outcomes[id].args, outcomes[id].key, outcomes[id].kind)
  }

  /** An ALT took one value from the channel that decided it, and nothing from any other. */
  ghost predicate TookOk(chans: map<Cid, Chan>, outcomes: map<AltId, Outcome>) {
    forall c, id {:trigger AltKeys(chans[c].deliveries, id)} :: c in chans ==>
      AltKeys(chans[c].deliveries, id) == if id in outcomes && outcomes[id].kind == OnChan(c) then [outcomes[id].key] else []
  }

  ghost predicate ChansOk(chans: map<Cid, Chan>) { forall c {:trigger chans[c]} :: c in chans ==> ChanInv(chans[c]) }

  /** An accepted ALT is ready or running. */
  ghost predicate AwakeOk(procs: map<Pid, State>, alts: map<Pid, Alt>) {
    forall p {:trigger alts[p]} :: p in alts && alts[p].winner.Some? ==> In(procs, p, Ready) || In(procs, p, Running)
  }

  /** Guards wait, and have fired, on open channels only. */
  ghost predicate KnownOk(alts: map<Pid, Alt>, outcomes: map<AltId, Outcome>, open: set<Cid>) {
    && (forall p, k, c {:trigger Has(alts[p].guards, k, OnChan(c))} :: p in alts && Has(alts[p].guards, k, OnChan(c)) ==> c in open)
    && (forall id {:trigger outcomes[id]} :: id in outcomes && outcomes[id].kind.OnChan? ==> outcomes[id].kind.c in open)
  }

  ghost predicate ChoiceInv(s: Sys) {
    && KnownOk(s.alts, s.outcomes, s.chans.Keys)
    && QueuesOk(s.alts, s.chans) && TimersOk(s.alts, s.altsleep)
    && ArgsOk(s.alts) && ProperOk(s.alts) && AwakeOk(s.procs, s.alts)
    && IdsOk(s.alts, s.outcomes, s.altCount) && OutcomesOk(s.outcomes)
    && TookOk(s.chans, s.outcomes) && ChansOk(s.chans)
  }

  // ---------------------------------------------------------------- one channel changes

  /** Nothing new for any ALT in that channel. */
  ghost predicate SameForAlts(ch: Chan, ch': Chan) {
    ch'.altQ == ch.altQ && forall id :: AltKeys(ch'.deliveries, id) == AltKeys(ch.deliveries, id)
  }

  lemma {:induction false} ChanKeeps(s: Sys, c: Cid, ch: Chan)
    requires ChoiceInv(s) && c in s.chans && SameForAlts(s.chans[c], ch) && ChanInv(ch)
    ensures ChoiceInv(s.(chans := s.chans[c := ch]))
  {
    assert s.chans[c := ch].Keys == s.chans.Keys;
    SameQueues(s.alts, s.chans, c, ch);
    SameTaken(s.chans, s.outcomes, c, ch);
  }

  lemma {:induction false} SameQueues(alts: map<Pid, Alt>, chans: map<Cid, Chan>, c: Cid, ch: Chan)
    requires QueuesOk(alts, chans) && c in chans && ch.altQ == chans[c].altQ
    ensures QueuesOk(alts, chans[c := ch])
  {
    forall d, r | d in chans ensures Cnt(chans[c := ch][d].altQ, r) == Bit(GuardOn(alts, r, OnChan(d))) {
      assert Cnt(chans[d].altQ, r) == Bit(GuardOn(alts, r, OnChan(d)));
    }
  }

  lemma {:induction false} SameTaken(chans: map<Cid, Chan>, outcomes: map<AltId, Outcome>, c: Cid, ch: Chan)
    requires TookOk(chans, outcomes) && c in chans && SameForAlts(chans[c], ch)
    ensures TookOk(chans[c := ch], outcomes)
  {
    forall d, id | d in chans
      ensures AltKeys(chans[c := ch][d].deliveries, id)
           == if id in outcomes && outcomes[id].kind == OnChan(d) then [outcomes[id].key] else []
    {
      assert AltKeys(chans[c := ch][d].deliveries, id) == AltKeys(chans[d].deliveries, id);
    }
  }

  lemma {:induction false} ReadDelivered(ds: seq<Delivery>, d: Delivery)
    requires d.to.ByRead?
    ensures forall id :: AltKeys(ds + [d], id) == AltKeys(ds, id)
  {
    forall id ensures AltKeys(ds + [d], id) == AltKeys(ds, id) {
      DeliveredTo(ds, d, id);
      assert AltKeys(ds, id) + [] == AltKeys(ds, id);
    }
  }

  /** A process that is not in an ALT changes state. */
  lemma {:induction false} StateKeeps(s: Sys, s': Sys, p: Pid)
    requires ChoiceInv(s) && p !in s.alts
    requires s'.alts == s.alts && s'.chans == s.chans && s'.altsleep == s.altsleep
    requires s'.outcomes == s.outcomes && s'.altCount == s.altCount
    requires forall q {:trigger q in s.procs} :: q in s.procs && q != p ==> q in s'.procs && (s'.procs[q] == s.procs[q] || s'.procs[q] == Ready)
    ensures ChoiceInv(s')
  {
    forall q | q in s'.alts && s'.alts[q].winner.Some? ensures In(s'.procs, q, Ready) || In(s'.procs, q, Running) {
      assert In(s.procs, q, Ready) || In(s.procs, q, Running);
    }
  }

  /** A process is made ready. */
  lemma {:induction false} ReadyKeeps(s: Sys, p: Pid)
    requires ChoiceInv(s)
    ensures ChoiceInv(AddReady(s, p))
  {
    forall q | q in s.alts && s.alts[q].winner.Some? ensures In(AddReady(s, p).procs, q, Ready) || In(AddReady(s, p).procs, q, Running) {
      assert In(s.procs, q, Ready) || In(s.procs, q, Running);
    }
  }

  /** A process of the channel is made ready. */
  lemma {:induction false} PartnerKeeps(s: Sys, c: Cid, ch: Chan, p: Pid)
    requires ChoiceInv(s) && c in s.chans && SameForAlts(s.chans[c], ch) && ChanInv(ch)
    ensures ChoiceInv(AddReady(s.(chans := s.chans[c := ch]), p))
  {
    ChanKeeps(s, c, ch);
    ReadyKeeps(s.(chans := s.chans[c := ch]), p);
  }

  /** The running process waits in the channel. */
  lemma {:induction false} WaiterKeeps(s: Sys, p: Pid, c: Cid, ch: Chan)
    requires ChoiceInv(s) && c in s.chans && SameForAlts(s.chans[c], ch) && ChanInv(ch) && p !in s.alts
    ensures ChoiceInv(Block(s.(chans := s.chans[c := ch]), p, ChanWait(c)))
  {
    var s1 := s.(chans := s.chans[c := ch]);
    ChanKeeps(s, c, ch);
    StateKeeps(s1, Block(s1, p, ChanWait(c)), p);
  }

  // ---------------------------------------------------------------- an ALT is decided

  /** Of all channels, only the one that fired, if one did, has delivered to an ALT: once, to that one. */
  ghost predicate Gives(before: map<Cid, Chan>, after: map<Cid, Chan>, alt: AltId, kind: Kind, key: nat) {
    && after.Keys == before.Keys
    && forall c, id {:trigger AltKeys(after[c].deliveries, id)} :: c in before && c in after ==>
         AltKeys(after[c].deliveries, id) == AltKeys(before[c].deliveries, id) + if id == alt && kind == OnChan(c) then [key] else []
  }

  /** The guard r of a waiting ALT fires and the process is made ready; the channel that fired it has delivered to it. */
  lemma {:induction false} AcceptKeeps(s: Sys, r: GuardRef, kind: Kind, chans: map<Cid, Chan>)
    requires ChoiceInv(s) && GuardOn(s.alts, r, kind) && s.alts[r.pid].winner.None?
    requires Gives(s.chans, chans, s.alts[r.pid].id, kind, r.key) && QueuesOk(s.alts, chans) && ChansOk(chans)
    ensures ChoiceInv(AddReady(Accept(s.(chans := chans), r, kind), r.pid))
  {
    var s1 := s.(chans := chans);
    AcceptQueues(s.alts, r, chans);
    AcceptIds(s1, r, kind);
    AcceptTook(s, r, kind, chans);
    AcceptOthers(s1, r, kind);
    AcceptAwake(s.procs, s.alts, r);
  }

  lemma {:induction false} AcceptAwake(procs: map<Pid, State>, alts: map<Pid, Alt>, r: GuardRef)
    requires AwakeOk(procs, alts) && r.pid in alts
    ensures AwakeOk(procs[r.pid := Ready], alts[r.pid := alts[r.pid].(winner := Some(r.key))])
  {
    var alts' := alts[r.pid := alts[r.pid].(winner := Some(r.key))];
    forall p | p in alts' && alts'[p].winner.Some? ensures In(procs[r.pid := Ready], p, Ready) || In(procs[r.pid := Ready], p, Running) {
      assert p != r.pid ==> In(procs, p, Ready) || In(procs, p, Running);
    }
  }

  /** Who has been given what, on all channels, after that. */
  lemma {:induction false} AcceptTook(s: Sys, r: GuardRef, kind: Kind, chans: map<Cid, Chan>)
    requires TookOk(s.chans, s.outcomes) && r.pid in s.alts && s.alts[r.pid].id !in s.outcomes
    requires Gives(s.chans, chans, s.alts[r.pid].id, kind, r.key)
    ensures TookOk(chans, Accept(s, r, kind).outcomes)
  {
    var outcomes := Accept(s, r, kind).outcomes;
    forall c, id | c in chans
      ensures AltKeys(chans[c].deliveries, id)
           == if id in outcomes && outcomes[id].kind == OnChan(c) then [outcomes[id].key] else []
    {
      assert AltKeys(s.chans[c].deliveries, id)
          == if id in s.outcomes && s.outcomes[id].kind == OnChan(c) then [s.outcomes[id].key] else [];
    }
  }

  lemma {:induction false} AcceptOthers(s: Sys, r: GuardRef, kind: Kind)
    requires ArgsOk(s.alts) && ProperOk(s.alts) && TimersOk(s.alts, s.altsleep) && OutcomesOk(s.outcomes)
    requires GuardOn(s.alts, r, kind) && s.alts[r.pid].winner.None?
    ensures var s' := Accept(s, r, kind);
      ArgsOk(s'.alts) && ProperOk(s'.alts) && TimersOk(s'.alts, s.altsleep) && OutcomesOk(s'.outcomes)
  {
    var s' := Accept(s, r, kind);
    assert Answers(s.alts[r.pid].args, r.key, kind);
    forall p | p in s'.alts ensures Proper(s'.alts[p].guards) { assert Proper(s.alts[p].guards); }
    forall d | d in s.altsleep ensures GuardOn(s'.alts, s.altsleep[d], Time(d)) {
      assert GuardOn(s.alts, s.altsleep[d], Time(d));
    }
    forall id | id in s'.outcomes ensures Answers(s'.outcomes[id].args, s'.outcomes[id].key, s'.outcomes[id].kind) {
    }
  }

  lemma {:induction false} AcceptQueues(alts: map<Pid, Alt>, r: GuardRef, chans: map<Cid, Chan>)
    requires QueuesOk(alts, chans) && r.pid in alts
    ensures QueuesOk(alts[r.pid := alts[r.pid].(winner := Some(r.key))], chans)
  {
    var alts' := alts[r.pid := alts[r.pid].(winner := Some(r.key))];
    forall c, q | c in chans ensures Cnt(chans[c].altQ, q) == Bit(GuardOn(alts', q, OnChan(c))) {
      assert GuardOn(alts', q, OnChan(c)) <==> GuardOn(alts, q, OnChan(c));
    }
  }

  lemma {:induction false} AcceptIds(s: Sys, r: GuardRef, kind: Kind)
    requires IdsOk(s.alts, s.outcomes, s.altCount) && r.pid in s.alts && s.alts[r.pid].winner.None?
    ensures var s' := Accept(s, r, kind); IdsOk(s'.alts, s'.outcomes, s'.altCount)
  {
    var s' := Accept(s, r, kind);
    forall p | p in s'.alts
      ensures var a := s'.alts[p];
        && a.id.pid == p && a.id.number < s.altCount
        && a.winner == (if a.id in s'.outcomes then Some(s'.outcomes[a.id].key) else None)
        && (a.id in s'.outcomes ==> s'.outcomes[a.id].args == a.args)
    {
      assert s.alts[p].id.pid == p && s.alts[r.pid].id.pid == r.pid;
    }
  }

  // ---------------------------------------------------------------- write and read

  lemma {:induction false} HeadOfQueue(q: seq<GuardRef>)
    requires q != []
    ensures Cnt(q, q[0]) > 0
  {
  }

  lemma {:induction false} WriteChoices(s: Sys, p: Pid, c: Cid, v: Value)
    requires ChoiceInv(s) && c in s.chans && p !in s.alts
    ensures ChoiceInv(DoWrite(s, p, c, v))
  {
    var ch := s.chans[c];
    assert ChanInv(ch);
    if HeadAccepts(s, c) {
      WriteAccepted(s, c, v);
    } else if ReaderFirst(ch) {
      var d := Delivery(|ch.writes|, v, ByRead(ch.endQ[0].call));
      GiveReaderKeeps(ch, v);
      ReadDelivered(ch.deliveries, d);
      PartnerKeeps(s, c, GiveReader(ch, v), ch.endQ[0].pid);
    } else {
      QueueWriterKeeps(ch, p, v);
      WaiterKeeps(s, p, c, QueueWriter(ch, p, v));
    }
  }

  lemma {:induction false} WriteAccepted(s: Sys, c: Cid, v: Value)
    requires ChoiceInv(s) && c in s.chans && HeadAccepts(s, c)
    ensures GuardOn(s.alts, s.chans[c].altQ[0], OnChan(c))
    ensures var ch, r := s.chans[c], s.chans[c].altQ[0];
      ChoiceInv(AddReady(Accept(s.(chans := s.chans[c := GiveAlt(ch, v, s.alts[r.pid].id, r.key)]), r, OnChan(c)), r.pid))
  {
    var ch, r := s.chans[c], s.chans[c].altQ[0];
    var id := s.alts[r.pid].id;
    var chans := s.chans[c := GiveAlt(ch, v, id, r.key)];
    assert ChanInv(ch);
    GiveAltKeeps(ch, v, id, r.key);
    HeadOfQueue(ch.altQ);
    assert Cnt(s.chans[c].altQ, r) == Bit(GuardOn(s.alts, r, OnChan(c)));
    GivenTo(s.chans, c, GiveAlt(ch, v, id, r.key), Delivery(|ch.writes|, v, ByAlt(id, r.key)), id, r.key);
    SameQueues(s.alts, s.chans, c, GiveAlt(ch, v, id, r.key));
    AcceptKeeps(s, r, OnChan(c), chans);
  }

  /** One channel delivers to one ALT. */
  lemma {:induction false} GivenTo(chans: map<Cid, Chan>, c: Cid, ch: Chan, d: Delivery, alt: AltId, key: nat)
    requires c in chans && ch.deliveries == chans[c].deliveries + [d] && d.to == ByAlt(alt, key)
    ensures Gives(chans, chans[c := ch], alt, OnChan(c), key)
  {
    forall e, id | e in chans
      ensures AltKeys(chans[c := ch][e].deliveries, id)
           == AltKeys(chans[e].deliveries, id) + if id == alt && c == e then [key] else []
    {
      if e == c { DeliveredTo(chans[c].deliveries, d, id); }
      assert AltKeys(chans[e].deliveries, id) + [] == AltKeys(chans[e].deliveries, id);
    }
  }

  lemma {:induction false} ReadChoices(s: Sys, p: Pid, c: Cid)
    requires ChoiceInv(s) && c in s.chans && p !in s.alts
    ensures ChoiceInv(DoRead(s, p, c))
  {
    var ch := s.chans[c];
    assert ChanInv(ch);
    if WriterFirst(ch) {
      TakeWriterKeeps(ch);
      ReadDelivered(ch.deliveries, Delivery(ch.endQ[0].call, ch.endQ[0].data, ByRead(ch.readCalls)));
      PartnerKeeps(s, c, TakeWriter(ch), ch.endQ[0].pid);
    } else {
      QueueReaderKeeps(ch, p);
      WaiterKeeps(s, p, c, QueueReader(ch, p));
    }
  }

  lemma {:induction false} ChopenChoices(s: Sys, c: Cid)
    requires ChoiceInv(s) && c !in s.chans
    ensures ChoiceInv(s.(chans := s.chans[c := NewChan]))
  {
    var chans := s.chans[c := NewChan];
    forall d, r | d in chans ensures Cnt(chans[d].altQ, r) == Bit(GuardOn(s.alts, r, OnChan(d))) {
      if d != c { assert Cnt(s.chans[d].altQ, r) == Bit(GuardOn(s.alts, r, OnChan(d))); }
    }
    forall d, id | d in chans
      ensures AltKeys(chans[d].deliveries, id)
           == if id in s.outcomes && s.outcomes[id].kind == OnChan(d) then [s.outcomes[id].key] else []
    {
      if d != c {
        assert AltKeys(s.chans[d].deliveries, id)
            == if id in s.outcomes && s.outcomes[id].kind == OnChan(d) then [s.outcomes[id].key] else [];
      }
    }
    forall d | d in chans ensures ChanInv(chans[d]) { if d != c { assert ChanInv(s.chans[d]); } else { NewChanInv(); } }
  }

  lemma NewChanInv()
    ensures ChanInv(NewChan) && Fifo(BooksOf(NewChan))
  {
    assert Iota(0) == [];
  }

  // ---------------------------------------------------------------- an ALT with a ready guard

  lemma {:induction false} ReadyHas(chans: map<Cid, Chan>, gs: seq<Guard>, i: nat)
    requires i < |ReadyOf(chans, gs)|
    ensures var w := ReadyOf(chans, gs)[i]; IsReady(chans, w) && Has(gs, w.key, w.kind)
  {
    var n := |gs| - 1;
    var w := ReadyOf(chans, gs)[i];
    assert gs == gs[..n] + [gs[n]];
    HasAppend(gs[..n], gs[n], w.key, w.kind);
    if i < |ReadyOf(chans, gs[..n])| { ReadyHas(chans, gs[..n], i); }
  }

  lemma {:induction false} ChosenIds(s: Sys, p: Pid, args: Args, w: Guard)
    requires IdsOk(s.alts, s.outcomes, s.altCount)
    ensures var s' := Chosen(s, p, args, w); IdsOk(s'.alts, s'.outcomes, s'.altCount)
    ensures AltId(p, s.altCount) !in s.outcomes
  {
    var s' := Chosen(s, p, args, w);
    forall q | q in s'.alts
      ensures var a := s'.alts[q];
        && a.id.pid == q && a.id.number < s'.altCount
        && a.winner == (if a.id in s'.outcomes then Some(s'.outcomes[a.id].key) else None)
        && (a.id in s'.outcomes ==> s'.outcomes[a.id].args == a.args)
    {
      assert s.alts[q].id.number < s.altCount;
    }
  }

  /** The new ALT is decided at once; the channel that decides it, if any, has delivered to it. */
  lemma {:induction false} ChosenKeeps(s: Sys, p: Pid, args: Args, w: Guard, chans: map<Cid, Chan>)
    requires ChoiceInv(s) && Answers(args, w.key, w.kind) && (w.kind.OnChan? ==> w.kind.c in chans)
    requires Gives(s.chans, chans, AltId(p, s.altCount), w.kind, w.key) && QueuesOk(s.alts, chans) && ChansOk(chans)
    ensures ChoiceInv(Chosen(s, p, args, w).(chans := chans))
  {
    ChosenIds(s, p, args, w);
    ChosenTook(s, p, args, w, chans);
    ChosenOutcomes(s, p, args, w);
  }

  lemma {:induction false} ChosenOutcomes(s: Sys, p: Pid, args: Args, w: Guard)
    requires OutcomesOk(s.outcomes) && KnownOk(s.alts, s.outcomes, s.chans.Keys)
    requires Answers(args, w.key, w.kind) && (w.kind.OnChan? ==> w.kind.c in s.chans)
    ensures var s' := Chosen(s, p, args, w); OutcomesOk(s'.outcomes) && KnownOk(s'.alts, s'.outcomes, s.chans.Keys)
  {
  }

  lemma {:induction false} ChosenTook(s: Sys, p: Pid, args: Args, w: Guard, chans: map<Cid, Chan>)
    requires TookOk(s.chans, s.outcomes) && AltId(p, s.altCount) !in s.outcomes
    requires Gives(s.chans, chans, AltId(p, s.altCount), w.kind, w.key)
    ensures TookOk(chans, Chosen(s, p, args, w).outcomes)
  {
    var outcomes := Chosen(s, p, args, w).outcomes;
    forall c, id | c in chans
      ensures AltKeys(chans[c].deliveries, id)
           == if id in outcomes && outcomes[id].kind == OnChan(c) then [outcomes[id].key] else []
    {
      assert AltKeys(s.chans[c].deliveries, id)
          == if id in s.outcomes && s.outcomes[id].kind == OnChan(c) then [s.outcomes[id].key] else [];
    }
  }

  lemma {:induction false} SelectReadyChoices(s: Sys, p: Pid, args: Args, i: nat)
    requires ChoiceInv(s) && i < |ReadyOf(s.chans, AddGuards(args))|
    ensures ChoiceInv(SelectReady(s, p, args, ReadyOf(s.chans, AddGuards(args))[i]))
  {
    var w := ReadyOf(s.chans, AddGuards(args))[i];
    ReadyHas(s.chans, AddGuards(args), i);
    AddGuardsMeans(args, w.key, w.kind);
    ReadyGuardChoices(s, p, args, w);
  }

  lemma {:induction false} ReadyGuardChoices(s: Sys, p: Pid, args: Args, w: Guard)
    requires ChoiceInv(s) && IsReady(s.chans, w) && Answers(args, w.key, w.kind)
    ensures ChoiceInv(SelectReady(s, p, args, w))
  {
    if w.kind.OnChan? {
      TakenChoices(s, p, args, w);
      YieldChoices(AltRead(Chosen(s, p, args, w), w.kind.c, AltId(p, s.altCount), w.key), p);
    } else {
      GivesNothing(s.chans, AltId(p, s.altCount), w.kind, w.key);
      ChosenKeeps(s, p, args, w, s.chans);
      YieldChoices(Chosen(s, p, args, w), p);
    }
  }

  lemma {:induction false} GivesNothing(chans: map<Cid, Chan>, alt: AltId, kind: Kind, key: nat)
    requires !kind.OnChan?
    ensures Gives(chans, chans, alt, kind, key)
  {
    forall c, id | c in chans ensures AltKeys(chans[c].deliveries, id) == AltKeys(chans[c].deliveries, id) + [] {
    }
  }

  lemma {:induction false} YieldChoices(s: Sys, p: Pid)
    requires ChoiceInv(s)
    ensures ChoiceInv(YieldReady(s, p))
  {
    ReadyKeeps(s, p);
  }

  lemma {:induction false} TakenChoices(s: Sys, p: Pid, args: Args, w: Guard)
    requires ChoiceInv(s) && w.kind.OnChan? && w.kind.c in s.chans && WriterFirst(s.chans[w.kind.c])
    requires Answers(args, w.key, w.kind)
    ensures ChoiceInv(AltRead(Chosen(s, p, args, w), w.kind.c, AltId(p, s.altCount), w.key))
  {
    var c, id := w.kind.c, AltId(p, s.altCount);
    var ch := s.chans[c];
    var chans := s.chans[c := AltTake(ch, id, w.key)];
    assert ChanInv(ch);
    AltTakeKeeps(ch, id, w.key);
    GivenTo(s.chans, c, AltTake(ch, id, w.key), Delivery(ch.endQ[0].call, ch.endQ[0].data, ByAlt(id, w.key)), id, w.key);
    SameQueues(s.alts, s.chans, c, AltTake(ch, id, w.key));
    ChosenKeeps(s, p, args, w, chans);
    ReadyKeeps(Chosen(s, p, args, w).(chans := chans), ch.endQ[0].pid);
  }

  // ---------------------------------------------------------------- an ALT that has to wait

  lemma {:induction false} EnableOneQueue(e: Enabling, p: Pid, g: Guard, c: Cid)
    requires c in e.chans && !IsReady(e.chans, g)
    ensures var chans, ch := EnableOne(e, p, g).chans, e.chans[c];
      && chans.Keys == e.chans.Keys
      && chans[c] == if g.kind == OnChan(c) then ch.(altQ := ch.altQ + [GuardRef(p, g.key)]) else ch
  {
  }

  /** A guard on one of the channels enters its altQ. */
  lemma {:induction false} QueuedOne(q: seq<GuardRef>, p: Pid, gs: seq<Guard>, g: Guard, c: Cid, r: GuardRef)
    requires Proper(gs + [g])
    ensures var q' := if g.kind == OnChan(c) then q + [GuardRef(p, g.key)] else q;
      Cnt(q', r) - Bit(r.pid == p && Has(gs + [g], r.key, OnChan(c))) == Cnt(q, r) - Bit(r.pid == p && Has(gs, r.key, OnChan(c)))
  {
    HasAppend(gs, g, r.key, OnChan(c));
    HasTime(gs, r.key, OnChan(c));
    CntAppend(q, GuardRef(p, g.key), r);
  }

  /** Enabling puts each channel guard into its altQ once, behind what is there, and keeps the rest of the channel. */
  lemma {:induction false} EnableQueues(chans: map<Cid, Chan>, altsleep: map<nat, GuardRef>, p: Pid, gs: seq<Guard>, c: Cid, r: GuardRef)
    requires Proper(gs) && ReadyOf(chans, gs) == [] && c in chans
    ensures var ch := EnableAll(chans, altsleep, p, gs).chans;
      && ch.Keys == chans.Keys && ch[c] == chans[c].(altQ := ch[c].altQ) && chans[c].altQ <= ch[c].altQ
      && Cnt(ch[c].altQ, r) == Cnt(chans[c].altQ, r) + Bit(r.pid == p && Has(gs, r.key, OnChan(c)))
  {
    if gs != [] {
      var n := |gs| - 1;
      var e := EnableAll(chans, altsleep, p, gs[..n]);
      assert gs == gs[..n] + [gs[n]];
      assert Proper(gs[..n]) by { HasAppend(gs[..n], gs[n], r.key, OnChan(c)); }
      EnableQueues(chans, altsleep, p, gs[..n], c, r);
      assert !IsReady(e.chans, gs[n]) by { EnableEnds(chans, altsleep, p, gs[..n]); }
      EnableOneQueue(e, p, gs[n], c);
      QueuedOne(e.chans[c].altQ, p, gs[..n], gs[n], c, r);
    }
  }

  /** The time guard, if there is one, gets the first free deadline from its own on. */
  ghost function TimeSlot(altsleep: map<nat, GuardRef>, g: Guard): nat
    requires g.kind.Time?
  {
    LeastFree(altsleep.Keys, g.kind.at)
  }

  /** What the guards are after enabling gs, and what is in the tree of time guards. */
  ghost predicate Enables(e: Enabling, altsleep: map<nat, GuardRef>, p: Pid, gs: seq<Guard>, k: nat, kind: Kind) {
    var t := TimeOf(gs);
    && (!kind.Time? ==> (Has(e.guards, k, kind) <==> Has(gs, k, kind)))
    && (kind.Time? ==> (Has(e.guards, k, kind) <==> t.Some? && k == t.value.key && kind.at == TimeSlot(altsleep, t.value)))
    && Proper(e.guards) && (HasKey(e.guards, k) <==> HasKey(gs, k))
    && TimeOf(e.guards).Some? == t.Some?
    && e.altsleep == if t.Some? then altsleep[TimeSlot(altsleep, t.value) := GuardRef(p, t.value.key)] else altsleep
  }

  lemma {:induction false} EnableOneGuard(e: Enabling, altsleep: map<nat, GuardRef>, p: Pid, gs: seq<Guard>, g: Guard, k: nat, kind: Kind)
    requires Proper(gs + [g]) && Enables(e, altsleep, p, gs, k, kind) && Enables(e, altsleep, p, gs, g.key, kind)
    ensures Enables(EnableOne(e, p, g), altsleep, p, gs + [g], k, kind)
  {
    var g' := if g.kind.Time? then Guard(g.key, Time(LeastFree(e.altsleep.Keys, g.kind.at))) else g;
    assert EnableOne(e, p, g).guards == e.guards + [g'];
    HasAppend(gs, g, k, kind);
    HasAppend(e.guards, g', k, kind);
  }

  lemma {:induction false} EnableGuards(chans: map<Cid, Chan>, altsleep: map<nat, GuardRef>, p: Pid, gs: seq<Guard>, k: nat, kind: Kind)
    requires Proper(gs)
    ensures Enables(EnableAll(chans, altsleep, p, gs), altsleep, p, gs, k, kind)
  {
    if gs != [] {
      var n := |gs| - 1;
      assert gs == gs[..n] + [gs[n]];
      assert Proper(gs[..n]) by { HasAppend(gs[..n], gs[n], k, kind); }
      EnableGuards(chans, altsleep, p, gs[..n], k, kind);
      EnableGuards(chans, altsleep, p, gs[..n], gs[n].key, kind);
      EnableOneGuard(EnableAll(chans, altsleep, p, gs[..n]), altsleep, p, gs[..n], gs[n], k, kind);
    }
  }

  lemma {:induction false} WaitingQueues(s: Sys, p: Pid, gs: seq<Guard>, a: Alt)
    requires QueuesOk(s.alts, s.chans) && ChansOk(s.chans) && p !in s.alts && Proper(gs) && ReadyOf(s.chans, gs) == []
    requires a.guards == EnableAll(s.chans, s.altsleep, p, gs).guards
    ensures var chans := EnableAll(s.chans, s.altsleep, p, gs).chans;
      QueuesOk(s.alts[p := a], chans) && ChansOk(chans) && SameButQueues(s.chans, chans)
  {
    var chans := EnableAll(s.chans, s.altsleep, p, gs).chans;
    EnableEnds(s.chans, s.altsleep, p, gs);
    forall c, r | c in chans ensures Cnt(chans[c].altQ, r) == Bit(GuardOn(s.alts[p := a], r, OnChan(c))) {
      WaitingQueue(s, p, gs, a, c, r);
    }
    forall c | c in chans ensures chans[c] == s.chans[c].(altQ := chans[c].altQ) {
      EnableQueues(s.chans, s.altsleep, p, gs, c, GuardRef(0, 0));
    }
    QueueFree(s.chans, chans);
  }

  lemma {:induction false} WaitingQueue(s: Sys, p: Pid, gs: seq<Guard>, a: Alt, c: Cid, r: GuardRef)
    requires QueuesOk(s.alts, s.chans) && p !in s.alts && Proper(gs) && ReadyOf(s.chans, gs) == [] && c in s.chans
    requires a.guards == EnableAll(s.chans, s.altsleep, p, gs).guards
    ensures var chans := EnableAll(s.chans, s.altsleep, p, gs).chans;
      c in chans && Cnt(chans[c].altQ, r) == Bit(GuardOn(s.alts[p := a], r, OnChan(c)))
  {
    EnableQueues(s.chans, s.altsleep, p, gs, c, r);
    EnableGuards(s.chans, s.altsleep, p, gs, r.key, OnChan(c));
    assert Cnt(s.chans[c].altQ, r) == Bit(GuardOn(s.alts, r, OnChan(c)));
  }

  /** The same channels but for their altQs. */
  ghost predicate SameButQueues(a: map<Cid, Chan>, b: map<Cid, Chan>) {
    a.Keys == b.Keys && forall c {:trigger b[c]} :: c in a && c in b ==> b[c] == a[c].(altQ := b[c].altQ)
  }

  lemma {:induction false} QueueFree(a: map<Cid, Chan>, b: map<Cid, Chan>)
    requires ChansOk(a) && SameButQueues(a, b)
    ensures ChansOk(b)
  {
    forall c | c in b ensures ChanInv(b[c]) {
      assert ChanInv(a[c]);
      assert BooksOf(b[c]) == BooksOf(a[c]);
    }
  }

  lemma {:induction false} SameTook(a: map<Cid, Chan>, b: map<Cid, Chan>, outcomes: map<AltId, Outcome>)
    requires TookOk(a, outcomes) && SameButQueues(a, b)
    ensures TookOk(b, outcomes)
  {
    forall c, id | c in b
      ensures AltKeys(b[c].deliveries, id) == if id in outcomes && outcomes[id].kind == OnChan(c) then [outcomes[id].key] else []
    {
      assert AltKeys(b[c].deliveries, id) == AltKeys(a[c].deliveries, id);
    }
  }

  lemma {:induction false} WaitingTimers(s: Sys, p: Pid, gs: seq<Guard>, a: Alt)
    requires TimersOk(s.alts, s.altsleep) && p !in s.alts && Proper(gs)
    requires a.guards == EnableAll(s.chans, s.altsleep, p, gs).guards
    ensures TimersOk(s.alts[p := a], EnableAll(s.chans, s.altsleep, p, gs).altsleep)
  {
    var alts, altsleep := s.alts[p := a], EnableAll(s.chans, s.altsleep, p, gs).altsleep;
    forall d: nat | d in altsleep ensures GuardOn(alts, altsleep[d], Time(d)) {
      EnableGuards(s.chans, s.altsleep, p, gs, altsleep[d].key, Time(d));
      assert d in s.altsleep ==> GuardOn(s.alts, s.altsleep[d], Time(d));
    }
    forall q: Pid, k: nat, d: nat {:trigger Has(alts[q].guards, k, Time(d))}
      | q in alts && alts[q].winner.None? && Has(alts[q].guards, k, Time(d))
      ensures d in altsleep && altsleep[d] == GuardRef(q, k)
    {
      WaitingTimer(s, p, gs, a, q, k, d);
    }
  }

  lemma {:induction false} WaitingTimer(s: Sys, p: Pid, gs: seq<Guard>, a: Alt, q: Pid, k: nat, d: nat)
    requires TimersOk(s.alts, s.altsleep) && p !in s.alts && Proper(gs)
    requires a.guards == EnableAll(s.chans, s.altsleep, p, gs).guards
    requires var alts := s.alts[p := a]; q in alts && alts[q].winner.None? && Has(alts[q].guards, k, Time(d))
    ensures var altsleep := EnableAll(s.chans, s.altsleep, p, gs).altsleep; d in altsleep && altsleep[d] == GuardRef(q, k)
  {
    EnableGuards(s.chans, s.altsleep, p, gs, k, Time(d));
    if q != p { assert Has(s.alts[q].guards, k, Time(d)); }
  }

  lemma {:induction false} WaitingAnswers(s: Sys, p: Pid, args: Args, k: nat, kind: Kind)
    requires SelectEnabled(s, args, 0) || ReadyOf(s.chans, AddGuards(args)) == []
    requires TimeOf(AddGuards(args)).Some? ==> Fits(s.altsleep.Keys, TimeOf(AddGuards(args)).value.kind.at)
    requires Has(EnableAll(s.chans, s.altsleep, p, AddGuards(args)).guards, k, kind)
    ensures Answers(args, k, kind)
    ensures kind.OnChan? ==> args[k].value == kind
  {
    var gs := AddGuards(args);
    AddGuardsMeans(args, k, kind);
    EnableGuards(s.chans, s.altsleep, p, gs, k, kind);
    if kind.Time? {
      var g := TimeOf(gs).value;
      HasTime(gs, g.key, g.kind);
      AddGuardsMeans(args, g.key, g.kind);
    }
  }

  lemma {:induction false} WaitingChoices(s: Sys, p: Pid, args: Args)
    requires ChoiceInv(s) && p !in s.alts && ReadyOf(s.chans, AddGuards(args)) == []
    requires SelectEnabled(s, args, 0)
    ensures ChoiceInv(SelectBlock(s, p, args))
  {
    var gs := AddGuards(args);
    var e := EnableAll(s.chans, s.altsleep, p, gs);
    var a := Alt(AltId(p, s.altCount), args, e.guards, None);
    AddGuardsMeans(args, 0, Skip);
    WaitingQueues(s, p, gs, a);
    WaitingTimers(s, p, gs, a);
    SameTook(s.chans, e.chans, s.outcomes);
    EnableGuards(s.chans, s.altsleep, p, gs, 0, Skip);
    WaitingAlts(s, p, a);
    forall k, kind | Has(a.guards, k, kind) ensures Answers(args, k, kind) && (kind.OnChan? ==> kind.c in s.chans) {
      WaitingAnswers(s, p, args, k, kind);
    }
    WaitingArgs(s, p, a);
    var s1 := s.(altCount := s.altCount + 1, chans := e.chans, altsleep := e.altsleep, alts := s.alts[p := a]);
    assert SelectBlock(s, p, args) == Block(s1, p, AltWait);
  }

  lemma {:induction false} WaitingAlts(s: Sys, p: Pid, a: Alt)
    requires ProperOk(s.alts) && AwakeOk(s.procs, s.alts) && IdsOk(s.alts, s.outcomes, s.altCount)
    requires a.id == AltId(p, s.altCount) && a.winner.None? && Proper(a.guards) && p !in s.alts
    ensures var alts := s.alts[p := a];
      ProperOk(alts) && AwakeOk(s.procs[p := AltWait], alts) && IdsOk(alts, s.outcomes, s.altCount + 1)
  {
    var alts, procs := s.alts[p := a], s.procs[p := AltWait];
    forall q | q in alts && alts[q].winner.Some? ensures In(procs, q, Ready) || In(procs, q, Running) {
      assert In(s.procs, q, Ready) || In(s.procs, q, Running);
    }
    forall q | q in alts ensures Proper(alts[q].guards) { assert q != p ==> Proper(s.alts[q].guards); }
    forall q | q in alts
      ensures var b := alts[q];
        && b.id.pid == q && b.id.number < s.altCount + 1
        && b.winner == (if b.id in s.outcomes then Some(s.outcomes[b.id].key) else None)
        && (b.id in s.outcomes ==> s.outcomes[b.id].args == b.args)
    {
      assert q != p ==> s.alts[q].id.number < s.altCount;
    }
  }

  lemma {:induction false} WaitingArgs(s: Sys, p: Pid, a: Alt)
    requires ArgsOk(s.alts) && KnownOk(s.alts, s.outcomes, s.chans.Keys)
    requires forall k, kind {:trigger Has(a.guards, k, kind)} :: Has(a.guards, k, kind) ==>
      Answers(a.args, k, kind) && (kind.OnChan? ==> kind.c in s.chans)
    ensures ArgsOk(s.alts[p := a]) && KnownOk(s.alts[p := a], s.outcomes, s.chans.Keys)
  {
    var alts := s.alts[p := a];
    forall q: Pid, k: nat, kind: Kind | q in alts && Has(alts[q].guards, k, kind) ensures Answers(alts[q].args, k, kind) {
      assert q != p ==> Has(s.alts[q].guards, k, kind);
    }
    forall q: Pid, k: nat, c: Cid | q in alts && Has(alts[q].guards, k, OnChan(c)) ensures c in s.chans {
      assert q != p ==> Has(s.alts[q].guards, k, OnChan(c));
    }
  }

  // ---------------------------------------------------------------- an accepted ALT continues

  lemma {:induction false} WithoutCnt(q: seq<GuardRef>, p: Pid, r: GuardRef)
    ensures Cnt(Without(q, p), r) == if r.pid == p then 0 else Cnt(q, r)
  {
    if q != [] {
      WithoutCnt(q[1..], p, r);
      var rest := Without(q[1..], p);
      assert ([q[0]] + rest)[1..] == rest && [] + rest == rest;
    }
  }

  lemma {:induction false} ResumeQueue(alts: map<Pid, Alt>, chans: map<Cid, Chan>, p: Pid, c: Cid, r: GuardRef)
    requires QueuesOk(alts, chans) && c in chans
    ensures Cnt(Without(chans[c].altQ, p), r) == Bit(GuardOn(alts - {p}, r, OnChan(c)))
  {
    WithoutCnt(chans[c].altQ, p, r);
    assert Cnt(chans[c].altQ, r) == Bit(GuardOn(alts, r, OnChan(c)));
  }

  lemma {:induction false} ResumeQueues(s: Sys, p: Pid)
    requires QueuesOk(s.alts, s.chans) && ChansOk(s.chans)
    ensures var s' := DoResume(s, p); QueuesOk(s'.alts, s'.chans) && ChansOk(s'.chans) && SameButQueues(s.chans, s'.chans)
  {
    var s' := DoResume(s, p);
    forall c, r | c in s'.chans ensures Cnt(s'.chans[c].altQ, r) == Bit(GuardOn(s'.alts, r, OnChan(c))) {
      ResumeQueue(s.alts, s.chans, p, c, r);
    }
    QueueFree(s.chans, s'.chans);
  }

  lemma {:induction false} ResumeChoices(s: Sys, p: Pid)
    requires ChoiceInv(s) && p in s.alts
    ensures ChoiceInv(DoResume(s, p))
  {
    ResumeQueues(s, p);
    SameTook(s.chans, DoResume(s, p).chans, s.outcomes);
    ResumeTimers(s.alts, s.altsleep, p);
    FewerAlts(s, p);
  }

  lemma {:induction false} ResumeTimers(alts: map<Pid, Alt>, altsleep: map<nat, GuardRef>, p: Pid)
    requires TimersOk(alts, altsleep)
    ensures TimersOk(alts - {p}, map d | d in altsleep && altsleep[d].pid != p :: altsleep[d])
  {
    var alts', altsleep' := alts - {p}, map d | d in altsleep && altsleep[d].pid != p :: altsleep[d];
    forall d | d in altsleep' ensures GuardOn(alts', altsleep'[d], Time(d)) {
      assert GuardOn(alts, altsleep[d], Time(d));
    }
    forall q: Pid, k: nat, d: nat | q in alts' && alts'[q].winner.None? && Has(alts'[q].guards, k, Time(d))
      ensures d in altsleep' && altsleep'[d] == GuardRef(q, k)
    {
      assert Has(alts[q].guards, k, Time(d));
    }
  }

  lemma {:induction false} FewerAlts(s: Sys, p: Pid)
    requires ChoiceInv(s)
    ensures var alts := s.alts - {p};
      && KnownOk(alts, s.outcomes, s.chans.Keys) && ArgsOk(alts) && ProperOk(alts)
      && AwakeOk(s.procs, alts) && IdsOk(alts, s.outcomes, s.altCount)
  {
    var alts := s.alts - {p};
    forall q | q in alts ensures q in s.alts && alts[q] == s.alts[q] {
    }
  }

  // ---------------------------------------------------------------- a time guard fires

  lemma {:induction false} DropTimer(s: Sys, d: nat)
    requires ChoiceInv(s) && d in s.altsleep && s.altsleep[d].pid in s.alts && s.alts[s.altsleep[d].pid].winner.Some?
    ensures ChoiceInv(s.(altsleep := s.altsleep - {d}))
  {
    var altsleep := s.altsleep - {d};
    forall e | e in altsleep ensures GuardOn(s.alts, altsleep[e], Time(e)) {
      assert GuardOn(s.alts, s.altsleep[e], Time(e));
    }
  }

  lemma {:induction false} FireAccepted(s: Sys, d: nat, r: GuardRef)
    requires ChoiceInv(s) && d in s.altsleep && s.altsleep[d] == r && r.pid in s.alts && s.alts[r.pid].winner.None?
    ensures ChoiceInv(AddReady(Accept(s.(altsleep := s.altsleep - {d}), r, Time(d)), r.pid))
  {
    assert GuardOn(s.alts, r, Time(d));
    GivesNothing(s.chans, s.alts[r.pid].id, Time(d), r.key);
    AcceptKeeps(s, r, Time(d), s.chans);
    DropTimer(AddReady(Accept(s.(chans := s.chans), r, Time(d)), r.pid), d);
  }

  /** The state of the process need not be looked at: it waits in its ALT exactly if that is undecided. */
  lemma {:induction false} FireGuardIs(s: Sys, d: nat)
    requires TimersOk(s.alts, s.altsleep) && Placed(s) && d in s.altsleep
    ensures var r, s1 := s.altsleep[d], s.(altsleep := s.altsleep - {d});
      && r.pid in s.alts
      && FireGuard(s, d) == if s.alts[r.pid].winner.None? then AddReady(Accept(s1, r, Time(d)), r.pid) else s1
  {
    var r := s.altsleep[d];
    assert GuardOn(s.alts, r, Time(d));
    assert Slots(s, r.pid, AltWait) == Bit(In(s.procs, r.pid, AltWait));
  }

  /** A time guard that is due decides the ALT it belongs to, with itself as the winner, exactly if nothing has decided
      that before; otherwise no ALT changes. */
  lemma {:induction false} FireGuardChoices(s: Sys, d: nat)
    requires ChoiceInv(s) && Placed(s) && d in s.altsleep
    ensures ChoiceInv(FireGuard(s, d)) && s.altsleep[d].pid in s.alts
    ensures var s', r := FireGuard(s, d), s.altsleep[d];
      var a := s.alts[r.pid];
      if a.winner.None? then
        && s'.alts == s.alts[r.pid := a.(winner := Some(r.key))]
        && s'.outcomes == s.outcomes[a.id := Outcome(r.key, Time(d), a.args)]
      else s'.alts == s.alts && s'.outcomes == s.outcomes
  {
    FireGuardIs(s, d);
    var r := s.altsleep[d];
    if s.alts[r.pid].winner.None? { FireAccepted(s, d, r); } else { DropTimer(s, d); }
  }
}
