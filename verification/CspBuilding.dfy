/**
 How the trees of builder nodes come about: proxc_par and proxc_seq link their arguments below a new node
 (src/proxc.c:104-165, src/csp.c:47-70).
 */
module CspBuilding {
  import opened SeriesParallel
  import opened CspNodes

  ghost function FieldsOf(ns: set<Builder>): Fields
    reads ns
  {
    map x | x in ns :: LinkOf(x)
  }

  /** The nodes of b are linked as they must be, and its root is not part of anything yet. */
  ghost predicate Loose(m: Fields, b: Tree) {
    b.n in m && m[b.n] == Own(b, null, null).(is_root := false) && (b.Node? ==> RepL(m, b.kids, b.n))
  }

  ghost predicate LooseL(m: Fields, l: Trees) { l.Cons? ==> Loose(m, l.head) && LooseL(m, l.tail) }

  ghost function Roots(l: Trees): seq<Builder> { if l.Nil? then [] else [l.head.n] + Roots(l.tail) }

  ghost function LastOf(l: Trees): Builder
    requires l.Cons?
  {
    if l.tail.Nil? then l.head.n else LastOf(l.tail)
  }

  ghost function Cat(l: Trees, r: Trees): Trees { if l.Nil? then r else Cons(l.head, Cat(l.tail, r)) }

  lemma {:induction false} CatSnoc(l: Trees, b: Tree, r: Trees)
    ensures Cat(Snoc(l, b), r) == Cat(l, Cons(b, r))
    ensures LastOf(Snoc(l, b)) == b.n
  {
    if l.Cons? { CatSnoc(l.tail, b, r); }
  }

  lemma {:induction false} CatCnt(l: Trees, r: Trees, x: Builder)
    ensures CntL(Cat(l, r), x) == CntL(l, x) + CntL(r, x)
  {
    if l.Cons? { CatCnt(l.tail, r, x); }
  }

  lemma {:induction false} CatNil(l: Trees)
    ensures Cat(l, Nil) == l
  {
    if l.Cons? { CatNil(l.tail); }
  }

  lemma {:induction false} SnocLen(l: Trees, b: Tree)
    ensures Len(Snoc(l, b)) == Len(l) + 1 && HeadOf(Snoc(l, b)) == if l.Cons? then HeadOf(l) else b.n
  {
    if l.Cons? { SnocLen(l.tail, b); }
  }

  lemma {:induction false} LastCnt(l: Trees)
    requires l.Cons?
    ensures CntL(l, LastOf(l)) > 0
  {
    if l.tail.Cons? { LastCnt(l.tail); }
  }

  lemma {:induction false} LastIn(m: Fields, l: Trees, p: Builder?)
    requires l.Cons? && RepL(m, l, p)
    ensures LastOf(l) in m
  {
    if l.tail.Cons? { LastIn(m, l.tail, p); }
  }

  /** The fields that linking the node b as the last child of p behind l changes. */
  ghost predicate Linked(m: Fields, m': Fields, l: Trees, b: Builder, p: Builder) {
    && b in m && b in m' && m'[b] == m[b].(parent := p)
    && (l.Cons? && LastOf(l) in m ==> LastOf(l) in m' && m'[LastOf(l)] == m[LastOf(l)].(next := b))
    && forall x {:trigger x in m} | x in m && x != b && (l.Cons? ==> x != LastOf(l)) :: x in m' && m'[x] == m[x]
  }

  ghost predicate Apart(m: Fields, l: Trees, b: Tree) {
    forall x {:trigger CntL(l, x)} {:trigger Cnt(b, x)} | x in m :: CntL(l, x) + Cnt(b, x) <= 1
  }

  lemma {:induction false} RepSnoc(m: Fields, m': Fields, l: Trees, b: Tree, p: Builder)
    requires RepL(m, l, p) && Loose(m, b) && Linked(m, m', l, b.n, p) && Apart(m, l, b)
    ensures RepL(m', Snoc(l, b), p)
  {
    assert Cnt(b, b.n) > 0;
    if l.Nil? {
      RepNew(m, m', l, b, p);
    } else {
      LastCnt(l);
      assert Cnt(l.head, l.head.n) > 0;
      SnocLen(l.tail, b);
      LastIn(m, l, p);
      if l.tail.Nil? {
        assert RepL(m', Cons(b, Nil), p) by { RepNew(m, m', l, b, p); }
        if l.head.Node? {
          forall x | x in m && CntL(l.head.kids, x) > 0 ensures x in m' && m'[x] == m[x] {
            assert CntL(l, x) == Cnt(l.head, x) == (if l.head.n == x then 1 else 0) + CntL(l.head.kids, x);
            assert CntL(l, x) + Cnt(b, x) <= 1;
          }
          KeptRepL(m, m', l.head.kids, l.head.n);
        }
      } else {
        LastCnt(l.tail);
        forall x | x in m ensures CntL(l.tail, x) + Cnt(b, x) <= 1 { assert CntL(l, x) + Cnt(b, x) <= 1; }
        RepSnoc(m, m', l.tail, b, p);
        forall x | x in m && Cnt(l.head, x) > 0 ensures x in m' && m'[x] == m[x] { assert CntL(l, x) + Cnt(b, x) <= 1; }
        KeptRep(m, m', l.head, p, HeadOf(l.tail));
      }
    }
  }

  lemma {:induction false} RepNew(m: Fields, m': Fields, l: Trees, b: Tree, p: Builder)
    requires Loose(m, b) && Linked(m, m', l, b.n, p) && Apart(m, l, b) && (l.Cons? ==> CntL(l, LastOf(l)) > 0 && LastOf(l) in m)
    ensures Rep(m', b, p, null)
  {
    assert Cnt(b, b.n) > 0;
    if b.Node? {
      forall x | x in m && CntL(b.kids, x) > 0 ensures x in m' && m'[x] == m[x] { assert CntL(l, x) + Cnt(b, x) <= 1; }
      KeptRepL(m, m', b.kids, b.n);
    }
  }

  /** The trees that are not linked yet stay as they are. */
  lemma {:induction false} LooseKept(m: Fields, m': Fields, r: Trees)
    requires LooseL(m, r) && forall x {:trigger CntL(r, x)} | x in m && CntL(r, x) > 0 :: x in m' && m'[x] == m[x]
    ensures LooseL(m', r)
  {
    if r.Cons? {
      forall x | x in m && Cnt(r.head, x) > 0 ensures x in m' && m'[x] == m[x] { assert CntL(r, x) > 0; }
      assert Cnt(r.head, r.head.n) > 0;
      if r.head.Node? {
        forall x | x in m && CntL(r.head.kids, x) > 0 ensures x in m' && m'[x] == m[x] { assert Cnt(r.head, x) > 0; }
        KeptRepL(m, m', r.head.kids, r.head.n);
      }
      forall x | x in m && CntL(r.tail, x) > 0 ensures x in m' && m'[x] == m[x] { assert CntL(r, x) > 0; }
      LooseKept(m, m', r.tail);
    }
  }

  /** No node occurs twice in l. */
  ghost predicate OnceL(ns: set<Builder>, l: Trees) { forall x {:trigger CntL(l, x)} | x in ns :: CntL(l, x) <= 1 }

  lemma {:induction false} RestApart(ns: set<Builder>, l: Trees, r: Trees)
    requires r.Cons? && OnceL(ns, Cat(l, r))
    ensures forall x {:trigger CntL(l, x)} {:trigger Cnt(r.head, x)} {:trigger CntL(r.tail, x)} | x in ns ::
      CntL(l, x) + Cnt(r.head, x) + CntL(r.tail, x) <= 1
  {
    forall x | x in ns ensures CntL(l, x) + Cnt(r.head, x) + CntL(r.tail, x) <= 1 {
      CatCnt(l, r, x);
      assert CntL(Cat(l, r), x) <= 1;
    }
  }

  lemma {:induction false} RootsIn(m: Fields, l: Trees, i: nat)
    requires LooseL(m, l) && i < |Roots(l)|
    ensures Roots(l)[i] in m
  {
    if i > 0 { RootsIn(m, l.tail, i - 1); }
  }

  /** The children linked so far and those to come. */
  ghost predicate Linking(m: Fields, kids: Trees, done: Trees, rest: Trees, p: Builder) {
    kids == Cat(done, rest) && RepL(m, done, p) && LooseL(m, rest)
  }

  lemma {:induction false} LinkNext(m: Fields, m': Fields, kids: Trees, done: Trees, rest: Trees, p: Builder)
    requires Linking(m, kids, done, rest, p) && rest.Cons? && OnceL(m.Keys, kids) && Linked(m, m', done, rest.head.n, p)
    ensures Linking(m', kids, Snoc(done, rest.head), rest.tail, p)
  {
    RestApart(m.Keys, done, rest);
    RepSnoc(m, m', done, rest.head, p);
    CatSnoc(done, rest.head, rest.tail);
    assert Cnt(rest.head, rest.head.n) > 0;
    if done.Cons? {
      LastCnt(done);
      LastIn(m, done, p);
    }
    forall x | x in m && CntL(rest.tail, x) > 0 ensures x in m' && m'[x] == m[x] {
      assert CntL(done, x) + Cnt(rest.head, x) + CntL(rest.tail, x) <= 1;
    }
    LooseKept(m, m', rest.tail);
  }

  lemma {:induction false} NextApart(m: Fields, kids: Trees, done: Trees, rest: Trees, p: Builder)
    requires Linking(m, kids, done, rest, p) && rest.Cons? && OnceL(m.Keys, kids)
    ensures rest.head.n in m && m[rest.head.n].next == null
    ensures done.Cons? ==> LastOf(done) in m && LastOf(done) != rest.head.n
  {
    RestApart(m.Keys, done, rest);
    assert Cnt(rest.head, rest.head.n) > 0;
    if done.Cons? {
      LastCnt(done);
      LastIn(m, done, p);
    }
  }

  /** One round of csp_insertchilds: the child is told its parent and joins the queue of children at its tail. */
  method InsertChild(builder: Builder, last: Builder?, child: Builder)
    requires builder != child && builder != last && child != last && child.next == null
    modifies child`parent, child`next, builder`first, builder`num_childs, (if last != null then {last} else {})`next
    ensures LinkOf(child) == old(LinkOf(child)).(parent := builder)
    ensures last != null ==> LinkOf(last) == old(LinkOf(last)).(next := child)
    ensures builder.first == (if last == null then child else old(builder.first))
    ensures builder.num_childs == old(builder.num_childs) + 1
  {
    child.parent := builder;
    builder.num_childs := builder.num_childs + 1;
    child.next := null;
    if last == null { builder.first := child; } else { last.next := child; }
  }

  method LinkChild(builder: Builder, last: Builder?, child: Builder, ghost ns: set<Builder>, ghost kids: Trees, ghost done: Trees, ghost rest: Trees)
    requires rest.Cons? && child == rest.head.n && builder !in ns && OnceL(ns, kids)
    requires Linking(FieldsOf(ns), kids, done, rest, builder)
    requires last == if done.Nil? then null else LastOf(done)
    modifies builder`first, builder`num_childs, ns`parent, ns`next
    ensures Linking(FieldsOf(ns), kids, Snoc(done, rest.head), rest.tail, builder)
    ensures builder.first == (if last == null then child else old(builder.first))
    ensures builder.num_childs == old(builder.num_childs) + 1
    ensures builder.next == old(builder.next) && builder.parent == old(builder.parent)
  {
    ghost var m := FieldsOf(ns);
    NextApart(m, kids, done, rest, builder);
    assert m[child] == LinkOf(child);
    InsertChild(builder, last, child);
    ghost var m' := FieldsOf(ns);
    forall x | x in m && x != child && x != last ensures x in m' && m'[x] == m[x] { assert LinkOf(x) == old(LinkOf(x)); }
    LinkNext(m, m', kids, done, rest, builder);
  }

  /** The loop of csp_insertchilds. */
  method InsertChilds(builder: Builder, childs: seq<Builder>, ghost kids: Trees, ghost ns: set<Builder>)
    requires Roots(kids) == childs && LooseL(FieldsOf(ns), kids) && OnceL(ns, kids)
    requires builder !in ns && builder.first == null && builder.num_childs == 0
    modifies builder`first, builder`num_childs, ns`parent, ns`next
    ensures RepL(FieldsOf(ns), kids, builder)
    ensures builder.first == HeadOf(kids) && builder.num_childs == |childs|
    ensures builder.next == old(builder.next) && builder.parent == old(builder.parent)
  {
    var i := 0;
    var last: Builder? := null;
    ghost var done, rest := Nil, kids;
    while i < |childs|
      invariant i <= |childs| && childs[i..] == Roots(rest)
      invariant Linking(FieldsOf(ns), kids, done, rest, builder)
      invariant last == if done.Nil? then null else LastOf(done)
      invariant builder.first == HeadOf(done) && builder.num_childs == i
      invariant builder.next == old(builder.next) && builder.parent == old(builder.parent)
    {
      var child := childs[i];
      LinkChild(builder, last, child, ns, kids, done, rest);
      last := child;
      SnocLen(done, rest.head);
      CatSnoc(done, rest.head, rest.tail);
      done, rest := Snoc(done, rest.head), rest.tail;
      i := i + 1;
    }
    CatNil(done);
  }

  lemma {:induction false} ComposeLoose(builder: Builder, kind: Kind, num: nat, kids: Trees, ns: set<Builder>)
    requires RepL(FieldsOf(ns), kids, builder) && builder !in ns
    requires LinkOf(builder) == Own(Node(builder, kind, num, 0, kids), null, null).(is_root := false)
    ensures Loose(FieldsOf(ns + {builder}), Node(builder, kind, num, 0, kids))
  {
    var m, m' := FieldsOf(ns), FieldsOf(ns + {builder});
    forall x | x in m && CntL(kids, x) > 0 ensures x in m' && m'[x] == m[x] {
    }
    KeptRepL(m, m', kids, builder);
  }

  lemma {:induction false} RootsLen(l: Trees)
    ensures |Roots(l)| == Len(l)
  {
    if l.Cons? { RootsLen(l.tail); }
  }

  /** proxc_par and proxc_seq: the new node has the arguments as its children, in their order, a counter of all of
      them, and for SEQ its cursor on the first. */
  method Compose(kind: Kind, childs: seq<Builder>, ghost kids: Trees, ghost ns: set<Builder>) returns (builder: Builder)
    requires Roots(kids) == childs && LooseL(FieldsOf(ns), kids) && OnceL(ns, kids)
    requires kids.Cons? && FreshL(kids) && DistinctL(kids)
    modifies ns`parent, ns`next
    ensures fresh(builder) && Loose(FieldsOf(ns + {builder}), Node(builder, kind, |childs|, 0, kids))
    ensures Fresh(Node(builder, kind, |childs|, 0, kids)) && Distinct(Node(builder, kind, |childs|, 0, kids))
  {
    builder := new Builder.Composite(kind);
    InsertChilds(builder, childs, kids, ns);
    builder.curr_build := builder.first;
    RootsLen(kids);
    ComposeLoose(builder, kind, |childs|, kids, ns);
  }

  // ---------------------------------------------------------------- what is built can be started

  lemma {:induction false} RepView(m: Fields, b: Tree, p: Builder?, next: Builder?, x: Builder)
    requires Rep(m, b, p, next) && Cnt(b, x) > 0
    ensures x in m && m[x] == View(b, p, next, x)
    decreases b
  {
    if b.n != x { RepViewL(m, b.kids, b.n, x); }
  }

  lemma {:induction false} RepViewL(m: Fields, l: Trees, p: Builder?, x: Builder)
    requires RepL(m, l, p) && CntL(l, x) > 0
    ensures x in m && m[x] == ViewL(l, p, x)
    decreases l
  {
    if Cnt(l.head, x) > 0 { RepView(m, l.head, p, HeadOf(l.tail), x); } else { RepViewL(m, l.tail, p, x); }
  }

  lemma {:induction false} RepWithin(e: Execution, m: Fields, l: Trees, p: Builder?)
    requires RepL(m, l, p) && m.Keys <= e.nodes
    ensures e.WithinL(l)
  {
    if l.Cons? {
      if l.head.Node? { RepWithin(e, m, l.head.kids, l.head.n); }
      RepWithin(e, m, l.tail, p);
    }
  }

  /** A tree that Compose has built, or a single leaf, is what RUN and GO expect. */
  lemma {:induction false} BuiltStarts(e: Execution)
    requires Loose(FieldsOf(e.nodes), e.tree) && forall x {:trigger Cnt(e.tree, x)} | x in e.nodes :: Cnt(e.tree, x) == 1
    ensures e.Within(e.tree)
    ensures LinkOf(e.tree.n).(is_root := true) == View(e.tree, null, null, e.tree.n)
    ensures forall x {:trigger e.Sees(e.tree, x)} | x in e.nodes && x != e.tree.n :: e.Sees(e.tree, x)
  {
    var m, t := FieldsOf(e.nodes), e.tree;
    if t.Node? {
      RepWithin(e, m, t.kids, t.n);
      forall x | x in e.nodes && x != t.n ensures e.Sees(t, x) {
        assert Cnt(t, x) == 1;
        RepViewL(m, t.kids, t.n, x);
      }
    }
  }
}
