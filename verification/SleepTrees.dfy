/**
 The sleepers in their red-black tree: adding one, waking those that are due, and how long to idle
 (src/scheduler.c:132-259).
 */
module SleepTrees {
  import opened RbZipper
  import opened RbTrees
  import opened Timers

  ghost function Keys(s: seq<Item>): set<nat> { if s == [] then {} else {s[0].key} + Keys(s[1..]) }

  lemma KeysHas(s: seq<Item>, k: nat)
    ensures k in Keys(s) <==> HasKey(s, k)
  {
  }

  /** By pigeonhole a free time is near when few are taken. */
  lemma {:induction false} FreeIsNear(s: seq<Item>, d: nat)
    ensures LeastFree(Keys(s), d) <= d + |s|
  {
    KeysSize(s);
  }

  lemma {:induction false} KeysSize(s: seq<Item>)
    ensures |Keys(s)| <= |s|
  {
    if s != [] { KeysSize(s[1..]); }
  }

  /** scheduler_addsleep for a deadline other than 0 (src/scheduler.c:132-150); ok is the closing assertion. */
  method AddSleep(t: RbTree, n: Node) returns (ok: bool)
    requires t.Valid() && n !in t.nodes
    modifies t, n, t.nodes`left, t.nodes`right, t.nodes`parent, t.nodes`red
    ensures t.Valid()
    ensures var d, f := old(n.key), LeastFree(Keys(old(t.Contents())), old(n.key));
      && (ok <==> f < d + MAX_TRIES)
      && (f <= d + MAX_TRIES ==>
            n.key == f && t.nodes == old(t.nodes) + {n} && t.Contents() == Inserted(old(t.Contents()), Item(n, f)))
      && (f > d + MAX_TRIES ==> t.nodes == old(t.nodes) && t.Contents() == old(t.Contents()))
  {
    ghost var d, s := n.key, t.Contents();
    ghost var f := LeastFree(Keys(s), d);
    var num_tries := 0;
    KeysHas(s, n.key);
    var found := t.Insert(n);
    while found != null && num_tries < MAX_TRIES
      invariant t.Valid() && num_tries <= MAX_TRIES && n.key == d + num_tries
      invariant forall k :: d <= k < n.key ==> k in Keys(s)
      invariant found != null ==> n.key in Keys(s) && n !in t.nodes && t.nodes == old(t.nodes) && t.Contents() == s
      invariant found == null ==> n.key == f && t.nodes == old(t.nodes) + {n} && t.Contents() == Inserted(s, Item(n, f))
      decreases MAX_TRIES - num_tries
    {
      num_tries := num_tries + 1;
      n.key := n.key + 1;
      KeysHas(s, n.key);
      found := t.Insert(n);
    }
    ok := num_tries < MAX_TRIES;
  }

  /** scheduler_addaltsleep: the same with one increment less (src/scheduler.c:161-180). */
  method AddAltSleep(t: RbTree, n: Node) returns (ok: bool)
    requires t.Valid() && n !in t.nodes
    modifies t, n, t.nodes`left, t.nodes`right, t.nodes`parent, t.nodes`red
    ensures t.Valid()
    ensures var d, f := old(n.key), LeastFree(Keys(old(t.Contents())), old(n.key));
      && (ok <==> f < d + MAX_TRIES)
      && (ok ==> n.key == f && t.nodes == old(t.nodes) + {n} && t.Contents() == Inserted(old(t.Contents()), Item(n, f)))
      && (!ok ==> t.nodes == old(t.nodes) && t.Contents() == old(t.Contents()))
  {
    ghost var d, s := n.key, t.Contents();
    ghost var f := LeastFree(Keys(s), d);
    var num_tries := 0;
    KeysHas(s, n.key);
    var found := t.Insert(n);
    if found != null { num_tries := num_tries + 1; }
    while found != null && num_tries < MAX_TRIES
      invariant t.Valid() && num_tries <= MAX_TRIES
      invariant n.key == d + num_tries - (if found != null then 1 else 0)
      invariant forall k :: d <= k < n.key ==> k in Keys(s)
      invariant found != null ==> num_tries > 0 && n.key in Keys(s) && n !in t.nodes && t.nodes == old(t.nodes) && t.Contents() == s
      invariant found == null ==> num_tries < MAX_TRIES && n.key == f && t.nodes == old(t.nodes) + {n} && t.Contents() == Inserted(s, Item(n, f))
      decreases MAX_TRIES - num_tries, if found != null then 1 else 0
    {
      n.key := n.key + 1;
      KeysHas(s, n.key);
      found := t.Insert(n);
      if found != null { num_tries := num_tries + 1; }
    }
    ok := num_tries < MAX_TRIES;
  }

  // ---------------------------------------------------------------- waking up

  ghost function Due(s: seq<Item>, now: nat): seq<Item> {
    if s == [] || s[0].key > now then [] else [s[0]] + Due(s[1..], now)
  }

  ghost function Later(s: seq<Item>, now: nat): seq<Item> {
    if s == [] || s[0].key > now then s else Later(s[1..], now)
  }

  /** In a sorted sequence these are exactly the items that are due, and those that are not. */
  lemma {:induction false} DueSplits(s: seq<Item>, now: nat)
    requires Sorted(s)
    ensures s == Due(s, now) + Later(s, now)
    ensures forall i :: 0 <= i < |Due(s, now)| ==> Due(s, now)[i].key <= now
    ensures Above(Later(s, now), now) && Sorted(Due(s, now))
  {
    if s != [] && s[0].key <= now {
      DueSplits(s[1..], now);
      DueAbove(s[1..], s[0].key, now);
    } else if s != [] {
      AboveTrans(s[1..], now, s[0].key);
    }
  }

  lemma {:induction false} DueAbove(s: seq<Item>, k: nat, now: nat)
    requires Above(s, k)
    ensures Above(Due(s, now), k)
  {
    if s != [] && s[0].key <= now { DueAbove(s[1..], k, now); }
  }

  ghost function Items(s: seq<Node>): seq<Item>
    reads (set n | n in s)`key
  {
    if s == [] then [] else Items(s[..|s| - 1]) + [Item(s[|s| - 1], s[|s| - 1].key)]
  }

  /** Of the items s, those in w have been served and those in u have not. */
  ghost predicate Serving(s: seq<Item>, w: seq<Item>, u: seq<Item>, now: nat) {
    Due(s, now) == w + Due(u, now) && Later(s, now) == Later(u, now)
  }

  lemma {:induction false} ServeNext(s: seq<Item>, w: seq<Item>, u: seq<Item>, now: nat)
    requires Serving(s, w, u, now) && u != [] && u[0].key <= now
    ensures Serving(s, w + [u[0]], u[1..], now) && Removed(u, u[0].n) == u[1..]
  {
    assert (w + [u[0]]) + Due(u[1..], now) == w + ([u[0]] + Due(u[1..], now));
  }

  lemma ItemsNext(s: seq<Node>, n: Node)
    ensures Items(s + [n]) == Items(s) + [Item(n, n.key)]
  {
    assert (s + [n])[..|s|] == s;
  }

  /** The first loop of _scheduler_wakeup: sleepers leave the tree in the order of their deadlines, up to now
      (src/scheduler.c:202-209). */
  method WakeSleepers(t: RbTree, now: nat) returns (woken: seq<Node>)
    requires t.Valid()
    modifies t, t.nodes`left, t.nodes`right, t.nodes`parent, t.nodes`red
    ensures t.Valid()
    ensures Items(woken) == Due(old(t.Contents()), now) && t.Contents() == Later(old(t.Contents()), now)
  {
    woken := [];
    ghost var s := t.Contents();
    var proc := t.Min();
    while proc != null && proc.key <= now
      invariant t.Valid() && t.nodes <= old(t.nodes)
      invariant proc == null <==> t.Contents() == []
      invariant proc != null ==> proc in t.nodes && t.Contents()[0] == Item(proc, proc.key)
      invariant Serving(s, Items(woken), t.Contents(), now)
      decreases |t.Contents()|
    {
      ServeNext(s, Items(woken), t.Contents(), now);
      ItemsNext(woken, proc);
      t.Remove(proc);
      woken := woken + [proc];
      proc := t.Min();
    }
  }

  /** The time up to which _scheduler_checkQs may sleep when nothing is ready, 0 for not at all
      (src/scheduler.c:236-251). */
  method IdleUntil(sleep: RbTree, altsleep: RbTree) returns (min_us: nat)
    requires sleep.Valid() && altsleep.Valid()
    requires Above(sleep.Contents(), 0) && Above(altsleep.Contents(), 0)
    ensures min_us == 0 <==> sleep.Contents() == [] && altsleep.Contents() == []
    ensures sleep.Contents() != [] ==> min_us <= sleep.Contents()[0].key
    ensures altsleep.Contents() != [] ==> min_us <= altsleep.Contents()[0].key
    ensures min_us > 0 ==> HasKey(sleep.Contents(), min_us) || HasKey(altsleep.Contents(), min_us)
  {
    min_us := 0;
    var proc := sleep.Min();
    if proc != null {
      min_us := proc.key;
    }
    var guard := altsleep.Min();
    if guard != null && (min_us == 0 || guard.key < min_us) {
      min_us := guard.key;
    }
  }

  // ---------------------------------------------------------------- the tree as a map

  /** Who is due at which time; the machine of the module Runtime keeps its sleepers as such a map. */
  ghost function AsMap(s: seq<Item>): map<nat, Node> { if s == [] then map[] else AsMap(s[1..])[s[0].key := s[0].n] }

  lemma {:induction false} AsMapKeys(s: seq<Item>, k: nat)
    ensures k in AsMap(s) <==> HasKey(s, k)
    ensures AsMap(s).Keys == Keys(s)
  {
    if s != [] { AsMapKeys(s[1..], k); }
  }

  lemma {:induction false} AsMapInserted(s: seq<Item>, x: Item)
    requires Sorted(s) && !HasKey(s, x.key)
    ensures AsMap(Inserted(s, x)) == AsMap(s)[x.key := x.n]
  {
    if s == [] || x.key < s[0].key {
      assert ([x] + s)[1..] == s;
    } else {
      var rest := Inserted(s[1..], x);
      AsMapInserted(s[1..], x);
      assert ([s[0]] + rest)[1..] == rest;
    }
  }

  /** The node n occurs in s, under the key k only. */
  ghost predicate OnlyUnder(s: seq<Item>, n: Node, k: nat) {
    s != [] && if s[0].n == n then s[0].key == k else s[0].key != k && OnlyUnder(s[1..], n, k)
  }

  lemma {:induction false} AsMapRemoved(s: seq<Item>, n: Node, k: nat)
    requires Sorted(s) && OnlyUnder(s, n, k)
    ensures AsMap(Removed(s, n)) == AsMap(s) - {k}
  {
    if s[0].n == n {
      AboveKeys(s[1..], k);
      AsMapKeys(s[1..], k);
    } else {
      var rest := Removed(s[1..], n);
      AsMapRemoved(s[1..], n, k);
      assert ([s[0]] + rest)[1..] == rest;
    }
  }

  lemma {:induction false} AboveKeys(s: seq<Item>, k: nat)
    requires Above(s, k)
    ensures !HasKey(s, k)
  {
    if s != [] { AboveKeys(s[1..], k); }
  }

  /** The first item of a sorted sequence is at the least key. */
  lemma {:induction false} AsMapMin(s: seq<Item>, d: nat)
    requires Sorted(s) && s != [] && d in AsMap(s)
    ensures s[0].key <= d && s[0].key in AsMap(s) && AsMap(s)[s[0].key] == s[0].n
  {
    AsMapKeys(s, d);
    if d != s[0].key { AboveLess(s[1..], s[0].key, d); }
  }

  lemma {:induction false} AboveLess(s: seq<Item>, k: nat, d: nat)
    requires Above(s, k) && HasKey(s, d)
    ensures k < d
  {
    if s[0].key != d { AboveLess(s[1..], k, d); }
  }
}
