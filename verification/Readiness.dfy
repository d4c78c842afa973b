/**
 Which ALTs find a guard ready and which have to wait, said of their arguments and of the channels' endQs; and what an
 ALT that waits leaves in the altQs and among the time guards.
 */
module Readiness {
  import opened Channels
  import opened Alts
  import opened Timers
  import opened Runtime
  import opened Placement
  import opened Choices
  import opened Ordering
  import opened Wrappers

  /** endQ starts with a writer. */
  predicate WriterWaits(chans: map<Cid, Chan>, c: Cid) { c in chans && chans[c].endQ != [] && chans[c].endQ[0].Writer? }

  /** The argument k takes part in the choice and can happen at once. */
  ghost predicate CanFire(chans: map<Cid, Chan>, args: Args, k: nat) {
    && Active(args, k)
    && match args[k].value
       case Skip => true
       case Time(_) => false
       case OnChan(c) => WriterWaits(chans, c)
  }

  /** Every argument that takes part waits for the time, or for a channel without a waiting writer. */
  ghost predicate NoneCanFire(chans: map<Cid, Chan>, args: Args) {
    forall k: nat {:trigger Active(args, k)} :: Active(args, k) ==>
      args[k].value.Time? || (args[k].value.OnChan? && !WriterWaits(chans, args[k].value.c))
  }

  // ---------------------------------------------------------------- the ready guards

  lemma {:induction false} InReadyOf(chans: map<Cid, Chan>, gs: seq<Guard>, g: Guard) returns (i: nat)
    requires Has(gs, g.key, g.kind) && IsReady(chans, g)
    ensures i < |ReadyOf(chans, gs)| && ReadyOf(chans, gs)[i] == g
  {
    var n := |gs| - 1;
    assert gs == gs[..n] + [gs[n]];
    HasAppend(gs[..n], gs[n], g.key, g.kind);
    if gs[n] == g { i := |ReadyOf(chans, gs[..n])|; } else { i := InReadyOf(chans, gs[..n], g); }
  }

  lemma {:induction false} ReadyCanFire(chans: map<Cid, Chan>, args: Args, i: nat)
    requires i < |ReadyOf(chans, AddGuards(args))|
    ensures var w := ReadyOf(chans, AddGuards(args))[i]; CanFire(chans, args, w.key) && args[w.key].value == w.kind
  {
    var w := ReadyOf(chans, AddGuards(args))[i];
    ReadyHas(chans, AddGuards(args), i);
    AddGuardsMeans(args, w.key, w.kind);
  }

  lemma {:induction false} CanFireReady(chans: map<Cid, Chan>, args: Args, k: nat) returns (i: nat)
    requires CanFire(chans, args, k)
    ensures i < |ReadyOf(chans, AddGuards(args))| && ReadyOf(chans, AddGuards(args))[i] == Guard(k, args[k].value)
  {
    AddGuardsMeans(args, k, args[k].value);
    i := InReadyOf(chans, AddGuards(args), Guard(k, args[k].value));
  }

  lemma {:induction false} NoneReady(chans: map<Cid, Chan>, args: Args)
    ensures ReadyOf(chans, AddGuards(args)) == [] <==> NoneCanFire(chans, args)
  {
    if ReadyOf(chans, AddGuards(args)) != [] {
      ReadyCanFire(chans, args, 0);
    } else {
      forall k: nat | Active(args, k)
        ensures args[k].value.Time? || (args[k].value.OnChan? && !WriterWaits(chans, args[k].value.c))
      {
        if CanFire(chans, args, k) { var i := CanFireReady(chans, args, k); }
      }
    }
  }

  // ---------------------------------------------------------------- the choice

  /** An ALT waits exactly if none of its arguments can happen at once; an active SKIP never lets it wait. */
  lemma {:induction false} WaitsExactly(s: Sys, args: Args, choice: nat)
    requires Enabled(s, Select(args, choice))
    ensures In(Next(s, Select(args, choice)).procs, s.curr.value, AltWait) <==> NoneCanFire(s.chans, args)
  {
    NoneReady(s.chans, args);
    var ready, p := ReadyOf(s.chans, AddGuards(args)), s.curr.value;
    if ready == [] {
      assert Next(s, Select(args, choice)) == SelectBlock(s, p, args);
    } else {
      assert Next(s, Select(args, choice)) == SelectReady(s, p, args, ready[choice]);
    }
  }

  /** Whatever can happen at once can be chosen. */
  lemma {:induction false} AnyCanWin(s: Sys, args: Args, choice: nat, k: nat) returns (other: nat)
    requires Enabled(s, Select(args, choice)) && CanFire(s.chans, args, k)
    ensures Enabled(s, Select(args, other))
    ensures var s', id := Next(s, Select(args, other)), AltId(s.curr.value, s.altCount);
      id in s'.outcomes && s'.outcomes[id] == Outcome(k, args[k].value, args)
  {
    other := CanFireReady(s.chans, args, k);
    var w, p := Guard(k, args[k].value), s.curr.value;
    assert Next(s, Select(args, other)) == SelectReady(s, p, args, w);
    SelectedFields(s, p, args, w);
  }

  /** The writer whose value a chosen guard takes. */
  function Partner(chans: map<Cid, Chan>, kind: Kind): seq<Pid> {
    if kind.OnChan? && WriterWaits(chans, kind.c) then [chans[kind.c].endQ[0].pid] else []
  }

  lemma {:induction false} CompletedFields(s: Sys, id: AltId, w: Guard)
    ensures Completed(s, id, w).outcomes == s.outcomes
    ensures Completed(s, id, w).readyQ == s.readyQ + Partner(s.chans, w.kind)
  {
    if w.kind.OnChan? && WriterWaits(s.chans, w.kind.c) {
      assert Completed(s, id, w) == AltRead(s, w.kind.c, id, w.key);
    } else {
      assert s.readyQ + [] == s.readyQ;
    }
  }

  lemma {:induction false} SelectedFields(s: Sys, p: Pid, args: Args, w: Guard)
    ensures var s' := SelectReady(s, p, args, w);
      && s'.outcomes == s.outcomes[AltId(p, s.altCount) := Outcome(w.key, w.kind, args)]
      && s'.readyQ == s.readyQ + Partner(s.chans, w.kind) + [p]
      && s'.curr.None? && In(s'.procs, p, Ready)
  {
    CompletedFields(Chosen(s, p, args, w), AltId(p, s.altCount), w);
  }

  /** What is chosen could happen at once.  If it is a channel, its first writer is made ready; then comes the process
      itself. */
  lemma {:induction false} WinnerCanFire(s: Sys, args: Args, choice: nat)
    requires Enabled(s, Select(args, choice)) && !NoneCanFire(s.chans, args)
    ensures var s', p := Next(s, Select(args, choice)), s.curr.value;
      var id := AltId(p, s.altCount);
      && id in s'.outcomes && s'.outcomes[id].args == args
      && CanFire(s.chans, args, s'.outcomes[id].key)
      && var kind := args[s'.outcomes[id].key].value;
      && s'.outcomes[id].kind == kind
      && s'.readyQ == s.readyQ + Partner(s.chans, kind) + [p]
      && (kind.OnChan? ==> kind.c in s'.chans && s'.chans[kind.c].endQ == s.chans[kind.c].endQ[1..])
      && s'.curr.None? && In(s'.procs, p, Ready)
  {
    NoneReady(s.chans, args);
    var w, p := ReadyOf(s.chans, AddGuards(args))[choice], s.curr.value;
    ReadyCanFire(s.chans, args, choice);
    assert Next(s, Select(args, choice)) == SelectReady(s, p, args, w);
    SelectedFields(s, p, args, w);
    SelectReadyChannel(s, p, args, w);
  }

  // ---------------------------------------------------------------- what an ALT that waits leaves behind

  /** The channel arguments on c, in the order of the arguments. */
  function GuardsOn(p: Pid, args: Args, c: Cid): seq<GuardRef> {
    if args == [] then []
    else GuardsOn(p, args[..|args| - 1], c) + if args[|args| - 1] == Some(OnChan(c)) then [GuardRef(p, |args| - 1)] else []
  }

  /** The same for a list of guards. */
  function ListedOn(p: Pid, gs: seq<Guard>, c: Cid): seq<GuardRef> {
    if gs == [] then [] else (if gs[0].kind == OnChan(c) then [GuardRef(p, gs[0].key)] else []) + ListedOn(p, gs[1..], c)
  }

  lemma {:induction false} ListedAppend(p: Pid, gs: seq<Guard>, g: Guard, c: Cid)
    ensures ListedOn(p, gs + [g], c) == ListedOn(p, gs, c) + if g.kind == OnChan(c) then [GuardRef(p, g.key)] else []
  {
    if gs == [] {
      assert gs + [g] == [g] && [g][1..] == [];
    } else {
      var first := if gs[0].kind == OnChan(c) then [GuardRef(p, gs[0].key)] else [];
      var last := if g.kind == OnChan(c) then [GuardRef(p, g.key)] else [];
      ListedAppend(p, gs[1..], g, c);
      assert (gs + [g])[0] == gs[0] && (gs + [g])[1..] == gs[1..] + [g];
      assert ListedOn(p, gs + [g], c) == first + (ListedOn(p, gs[1..], c) + last);
      assert first + (ListedOn(p, gs[1..], c) + last) == (first + ListedOn(p, gs[1..], c)) + last;
    }
  }

  lemma {:induction false} ListedTime(p: Pid, gs: seq<Guard>, c: Cid)
    ensures ListedOn(p, WithoutTime(gs), c) == ListedOn(p, gs, c)
  {
    if gs != [] {
      ListedTime(p, gs[1..], c);
      var rest := WithoutTime(gs[1..]);
      assert ([gs[0]] + rest)[1..] == rest && [] + rest == rest;
      assert [] + ListedOn(p, gs[1..], c) == ListedOn(p, gs[1..], c);
    }
  }

  lemma {:induction false} ListedGuards(p: Pid, args: Args, c: Cid)
    ensures ListedOn(p, AddGuards(args), c) == GuardsOn(p, args, c)
  {
    if args != [] {
      var n := |args| - 1;
      var gs := AddGuards(args[..n]);
      ListedGuards(p, args[..n], c);
      ListedTime(p, gs, c);
      if args[n].Some? {
        ListedAppend(p, gs, Guard(n, args[n].value), c);
        ListedAppend(p, WithoutTime(gs), Guard(n, args[n].value), c);
      }
    }
  }

  lemma {:induction false} EnableListed(chans: map<Cid, Chan>, altsleep: map<nat, GuardRef>, p: Pid, gs: seq<Guard>, c: Cid)
    requires ReadyOf(chans, gs) == [] && c in chans
    ensures var e := EnableAll(chans, altsleep, p, gs);
      c in e.chans && e.chans[c] == chans[c].(altQ := chans[c].altQ + ListedOn(p, gs, c))
  {
    if gs == [] {
      assert chans[c].altQ + [] == chans[c].altQ;
    } else {
      var n := |gs| - 1;
      var e := EnableAll(chans, altsleep, p, gs[..n]);
      assert gs == gs[..n] + [gs[n]];
      EnableListed(chans, altsleep, p, gs[..n], c);
      assert !IsReady(e.chans, gs[n]) by { EnableEnds(chans, altsleep, p, gs[..n]); }
      EnableOneQueue(e, p, gs[n], c);
      ListedAppend(p, gs[..n], gs[n], c);
    }
  }

  /** Of the time arguments the earliest has the first free deadline from its own on, and no other time is waited for. */
  ghost predicate TimerSet(before: map<nat, GuardRef>, after: map<nat, GuardRef>, p: Pid, args: Args) {
    && (forall k: nat {:trigger IsTime(args, k)} :: IsTime(args, k) && Alts.Earliest(args, k) ==>
          after == before[LeastFree(before.Keys, args[k].value.at) := GuardRef(p, k)])
    && ((forall k: nat {:trigger IsTime(args, k)} :: !IsTime(args, k)) ==> after == before)
  }

  lemma {:induction false} EnableTimer(chans: map<Cid, Chan>, altsleep: map<nat, GuardRef>, p: Pid, args: Args)
    ensures TimerSet(altsleep, EnableAll(chans, altsleep, p, AddGuards(args)).altsleep, p, args)
  {
    var gs := AddGuards(args);
    AddGuardsMeans(args, 0, Skip);
    EnableGuards(chans, altsleep, p, gs, 0, Skip);
    forall k: nat | IsTime(args, k) && Alts.Earliest(args, k)
      ensures TimeOf(gs).Some? && TimeOf(gs).value.key == k && TimeOf(gs).value.kind == args[k].value
    {
      assert IsTime(args, TimeOf(gs).value.key);
    }
  }

  /** Each guard of an ALT that waits is an active argument, a time guard with the deadline that it got. */
  ghost predicate GuardsSet(a: Alt, args: Args, taken: set<nat>) {
    forall k: nat, kind: Kind {:trigger Has(a.guards, k, kind)} :: Has(a.guards, k, kind) <==>
      Active(args, k) && if args[k].value.Time? then kind == Time(LeastFree(taken, args[k].value.at)) else kind == args[k].value
  }

  lemma {:induction false} EnableSets(chans: map<Cid, Chan>, altsleep: map<nat, GuardRef>, p: Pid, args: Args, a: Alt)
    requires a.guards == EnableAll(chans, altsleep, p, AddGuards(args)).guards
    ensures GuardsSet(a, args, altsleep.Keys)
  {
    forall k: nat, kind: Kind ensures Has(a.guards, k, kind) <==>
      Active(args, k) && if args[k].value.Time? then kind == Time(LeastFree(altsleep.Keys, args[k].value.at)) else kind == args[k].value
    {
      EnableSet(chans, altsleep, p, args, k, kind);
    }
  }

  lemma {:induction false} EnableSet(chans: map<Cid, Chan>, altsleep: map<nat, GuardRef>, p: Pid, args: Args, k: nat, kind: Kind)
    ensures Has(EnableAll(chans, altsleep, p, AddGuards(args)).guards, k, kind) <==>
      Active(args, k) && if args[k].value.Time? then kind == Time(LeastFree(altsleep.Keys, args[k].value.at)) else kind == args[k].value
  {
    var gs := AddGuards(args);
    AddGuardsMeans(args, k, kind);
    EnableGuards(chans, altsleep, p, gs, k, kind);
    if k < |args| && args[k].Some? && args[k].value.Time? {
      AddGuardsMeans(args, k, args[k].value);
      HasTime(gs, k, args[k].value);
    }
    if TimeOf(gs).Some? {
      var t := TimeOf(gs).value;
      HasTime(gs, t.key, t.kind);
      AddGuardsMeans(args, t.key, t.kind);
    }
  }

  /** An ALT that waits is behind all others in the altQ of each of its channels, its guards there being in the order of
      the arguments, with its earliest time argument among the time guards; nothing has been decided for it. */
  lemma {:induction false} EnabledExactly(s: Sys, args: Args, choice: nat)
    requires Enabled(s, Select(args, choice)) && NoneCanFire(s.chans, args)
    ensures var s', p := Next(s, Select(args, choice)), s.curr.value;
      && (forall c {:trigger s'.chans[c]} :: c in s.chans ==>
            c in s'.chans && s'.chans[c] == s.chans[c].(altQ := s.chans[c].altQ + GuardsOn(p, args, c)))
      && TimerSet(s.altsleep, s'.altsleep, p, args)
      && p in s'.alts && s'.alts == s.alts[p := s'.alts[p]]
      && s'.alts[p].id == AltId(p, s.altCount) && s'.alts[p].args == args && s'.alts[p].winner.None?
      && GuardsSet(s'.alts[p], args, s.altsleep.Keys)
      && s'.outcomes == s.outcomes && s'.readyQ == s.readyQ
  {
    var s', p, gs := Next(s, Select(args, choice)), s.curr.value, AddGuards(args);
    NoneReady(s.chans, args);
    var e := EnableAll(s.chans, s.altsleep, p, gs);
    assert s' == Waiting(s, p, args, e);
    forall c | c in s.chans ensures c in e.chans && e.chans[c] == s.chans[c].(altQ := s.chans[c].altQ + GuardsOn(p, args, c)) {
      EnableListed(s.chans, s.altsleep, p, gs, c);
      ListedGuards(p, args, c);
    }
    EnableTimer(s.chans, s.altsleep, p, args);
    EnableSets(s.chans, s.altsleep, p, args, s'.alts[p]);
  }
}
