/**
 The guards of one ALT (src/alt.c): how the arguments become the list of active guards, and which are ready.
 */
module Alts {
  import opened Wrappers

  type Cid = nat

  datatype Kind = Skip | Time(at: nat) | OnChan(c: Cid)

  /** An argument of proxc_alt: None is a guard whose condition was false. */
  type Args = seq<Option<Kind>>

  /** An element of guards.Q. */
  datatype Guard = Guard(key: nat, kind: Kind)

  // ---------------------------------------------------------------- alt_addguard

  function TimeOf(gs: seq<Guard>): (t: Option<Guard>)
    ensures t.Some? ==> t.value.kind.Time?
  {
    if gs == [] then None else if gs[0].kind.Time? then Some(gs[0]) else TimeOf(gs[1..])
  }

  function WithoutTime(gs: seq<Guard>): seq<Guard> {
    if gs == [] then [] else (if gs[0].kind.Time? then [] else [gs[0]]) + WithoutTime(gs[1..])
  }

  /** alt_addguard for the argument with that key (src/alt.c:90-119); a superseded time guard leaves the list. */
  function AddGuard(gs: seq<Guard>, key: nat, arg: Option<Kind>): seq<Guard> {
    if arg.None? then gs
    else if arg.value.Time? then
      var t := TimeOf(gs);
      if t.Some? && t.value.kind.at <= arg.value.at then gs else WithoutTime(gs) + [Guard(key, arg.value)]
    else gs + [Guard(key, arg.value)]
  }

  /** The loop of proxc_alt (src/proxc.c:245-249). */
  function AddGuards(args: Args): seq<Guard> {
    if args == [] then [] else AddGuard(AddGuards(args[..|args| - 1]), |args| - 1, args[|args| - 1])
  }

  // ---------------------------------------------------------------- what the list contains

  ghost predicate Has(gs: seq<Guard>, key: nat, kind: Kind) {
    gs != [] && (gs[0] == Guard(key, kind) || Has(gs[1..], key, kind))
  }

  ghost predicate HasKey(gs: seq<Guard>, key: nat) { gs != [] && (gs[0].key == key || HasKey(gs[1..], key)) }

  /** No key twice, and at most one time guard. */
  ghost predicate Proper(gs: seq<Guard>) {
    gs != [] ==> !HasKey(gs[1..], gs[0].key) && (gs[0].kind.Time? ==> TimeOf(gs[1..]).None?) && Proper(gs[1..])
  }

  predicate IsTime(args: Args, k: nat) { k < |args| && args[k].Some? && args[k].value.Time? }

  /** Of the time guards, only the one with the lowest deadline counts, and the first of these. */
  ghost predicate Earliest(args: Args, k: nat)
    requires IsTime(args, k)
  {
    forall j: nat {:trigger IsTime(args, j)} :: IsTime(args, j) ==>
      args[k].value.at < args[j].value.at || (args[k].value.at == args[j].value.at && k <= j)
  }

  /** The argument k takes part in the choice. */
  ghost predicate Active(args: Args, k: nat) {
    k < |args| && args[k].Some? && (args[k].value.Time? ==> Earliest(args, k))
  }

  lemma {:induction false} HasAppend(gs: seq<Guard>, g: Guard, key: nat, kind: Kind)
    ensures Has(gs + [g], key, kind) <==> Has(gs, key, kind) || g == Guard(key, kind)
    ensures HasKey(gs + [g], key) <==> HasKey(gs, key) || g.key == key
    ensures TimeOf(gs + [g]) == if TimeOf(gs).Some? then TimeOf(gs) else if g.kind.Time? then Some(g) else None
    ensures Proper(gs + [g]) <==> Proper(gs) && !HasKey(gs, g.key) && (g.kind.Time? ==> TimeOf(gs).None?)
  {
    if gs == [] {
      assert gs + [g] == [g] && [g][1..] == [];
    } else {
      assert (gs + [g])[1..] == gs[1..] + [g];
      HasAppend(gs[1..], g, key, kind);
      HasAppend(gs[1..], g, gs[0].key, kind);
    }
  }

  lemma {:induction false} HasWithoutTime(gs: seq<Guard>, key: nat, kind: Kind)
    ensures Has(WithoutTime(gs), key, kind) <==> Has(gs, key, kind) && !kind.Time?
    ensures HasKey(WithoutTime(gs), key) ==> HasKey(gs, key)
    ensures TimeOf(WithoutTime(gs)).None?
    ensures Proper(gs) ==> Proper(WithoutTime(gs))
  {
    if gs != [] {
      HasWithoutTime(gs[1..], key, kind);
      HasWithoutTime(gs[1..], gs[0].key, kind);
      var rest := WithoutTime(gs[1..]);
      assert ([gs[0]] + rest)[1..] == rest && [] + rest == rest;
    }
  }

  lemma {:induction false} HasTime(gs: seq<Guard>, key: nat, kind: Kind)
    requires Proper(gs)
    ensures Has(gs, key, kind) ==> HasKey(gs, key)
    ensures Has(gs, key, kind) && kind.Time? ==> TimeOf(gs) == Some(Guard(key, kind))
    ensures TimeOf(gs) == Some(Guard(key, kind)) ==> Has(gs, key, kind) && kind.Time?
  {
    if gs != [] { HasTime(gs[1..], key, kind); }
  }

  ghost predicate IsEarliest(args: Args, g: Guard) {
    g.kind.Time? && IsTime(args, g.key) && args[g.key].value == g.kind && Earliest(args, g.key)
  }

  lemma EarliestNext(args: Args, arg: Option<Kind>, k: nat)
    requires IsTime(args + [arg], k)
    ensures k < |args| ==> (Earliest(args + [arg], k) <==>
      Earliest(args, k) && (IsTime([arg], 0) ==> args[k].value.at <= arg.value.at))
    ensures k == |args| ==> (Earliest(args + [arg], k) <==>
      forall j: nat :: IsTime(args, j) ==> arg.value.at < args[j].value.at)
  {
    assert forall j: nat {:trigger IsTime(args + [arg], j)} :: j != |args| ==> (IsTime(args + [arg], j) <==> IsTime(args, j));
    assert forall j: nat {:trigger IsTime(args, j)} :: IsTime(args, j) ==> IsTime(args + [arg], j);
    assert IsTime(args + [arg], |args|) <==> IsTime([arg], 0);
  }

  /** The list holds exactly the active arguments, each under its argument position, inactive ones counted. */
  lemma {:induction false} AddGuardsMeans(args: Args, k: nat, kind: Kind)
    ensures Has(AddGuards(args), k, kind) <==> Active(args, k) && args[k].value == kind
    ensures Proper(AddGuards(args)) && (HasKey(AddGuards(args), k) ==> k < |args|)
    ensures TimeOf(AddGuards(args)).Some? ==> IsEarliest(args, TimeOf(AddGuards(args)).value)
    ensures TimeOf(AddGuards(args)).None? ==> forall j: nat :: !IsTime(args, j)
    decreases |args|
  {
    if args != [] {
      var n := |args| - 1;
      var q, arg := args[..n], args[n];
      var gs := AddGuards(q);
      assert args == q + [arg];
      AddGuardsMeans(q, k, kind);
      AddGuardsMeans(q, n, kind);
      HasTime(gs, k, kind);
      if IsTime(args, k) { EarliestNext(q, arg, k); }
      if IsTime(args, n) { EarliestNext(q, arg, n); }
      if TimeOf(gs).Some? { EarliestNext(q, arg, TimeOf(gs).value.key); }
      assert forall j: nat {:trigger IsTime(args, j)} :: j != n ==> (IsTime(args, j) <==> IsTime(q, j));
      if arg.Some? {
        HasWithoutTime(gs, k, kind);
        HasWithoutTime(gs, n, kind);
        HasAppend(WithoutTime(gs), Guard(n, arg.value), k, kind);
        HasAppend(gs, Guard(n, arg.value), k, kind);
      }
    }
  }
}
