/**
 The shape of a red-black tree and of a position inside it.

 A `Tree` is what the pointers of src/util/tree.h form; a `Ctx` is the path from one place in it up to the
 root, with the subtrees that hang off that path.  `Plug(c, t)` is the whole tree again.  Everything here is
 about values; module `RbTree` ties the pointers to them.
 */
module RbZipper {

  datatype Side = Left | Right {
    function Other(): Side { if Left? then Right else Left }
  }

  /** An element of the tree: the embedded RB_ENTRY (src/util/tree.h:304-310) beside the key it is ordered by. */
  class Node {
    var key: nat
    var left: Node?
    var right: Node?
    var parent: Node?
    var red: bool

    constructor (k: nat)
      ensures key == k
    {
      key, left, right, parent, red := k, null, null, null, false;
    }
  }

  datatype Elem = Elem(n: Node, key: nat, red: bool)
  datatype Item = Item(n: Node, key: nat)

  datatype Tree = Leaf | Nd(l: Tree, e: Elem, r: Tree)
  datatype Ctx = Top | Up(d: Side, e: Elem, sib: Tree, up: Ctx)

  /** The tree whose root is e, with t on side d and sib on the other side. */
  ghost function Mk(d: Side, t: Tree, e: Elem, sib: Tree): Tree {
    if d.Left? then Nd(t, e, sib) else Nd(sib, e, t)
  }

  ghost function Plug(c: Ctx, t: Tree): Tree {
    match c
    case Top => t
    case Up(d, e, sib, up) => Plug(up, Mk(d, t, e, sib))
  }

  ghost function RootOf(t: Tree): Node? { if t.Leaf? then null else t.e.n }

  ghost function Par(c: Ctx): Node? { if c.Top? then null else c.e.n }

  ghost function Kid(t: Tree, d: Side): Tree
    requires t.Nd?
  {
    if d.Left? then t.l else t.r
  }

  lemma {:induction false} PlugRoot(c: Ctx, t: Tree, t': Tree)
    ensures c.Up? || RootOf(t) == RootOf(t') ==> RootOf(Plug(c, t)) == RootOf(Plug(c, t'))
  {
    if c.Up? { PlugRoot(c.up, Mk(c.d, t, c.e, c.sib), Mk(c.d, t', c.e, c.sib)); }
  }

  // ---------------------------------------------------------------- in-order contents

  ghost function InOrder(t: Tree): seq<Item> {
    match t
    case Leaf => []
    case Nd(l, e, r) => InOrder(l) + [Item(e.n, e.key)] + InOrder(r)
  }

  ghost function Before(c: Ctx): seq<Item> {
    match c
    case Top => []
    case Up(d, e, sib, up) => if d.Left? then Before(up) else Before(up) + InOrder(sib) + [Item(e.n, e.key)]
  }

  ghost function After(c: Ctx): seq<Item> {
    match c
    case Top => []
    case Up(d, e, sib, up) => if d.Left? then [Item(e.n, e.key)] + InOrder(sib) + After(up) else After(up)
  }

  lemma {:induction false} PlugOrder(c: Ctx, t: Tree)
    ensures InOrder(Plug(c, t)) == Before(c) + InOrder(t) + After(c)
  {
    match c
    case Top =>
    case Up(d, e, sib, up) =>
      PlugOrder(up, Mk(d, t, e, sib));
  }

  ghost predicate Below(s: seq<Item>, k: nat) { s == [] || (s[0].key < k && Below(s[1..], k)) }

  ghost predicate Above(s: seq<Item>, k: nat) { s == [] || (k < s[0].key && Above(s[1..], k)) }

  /** Strictly ascending keys. */
  ghost predicate Sorted(s: seq<Item>) { s == [] || (Above(s[1..], s[0].key) && Sorted(s[1..])) }

  ghost predicate HasKey(s: seq<Item>, k: nat) { s != [] && (s[0].key == k || HasKey(s[1..], k)) }

  ghost predicate HasNode(s: seq<Item>, x: Node) { s != [] && (s[0].n == x || HasNode(s[1..], x)) }

  /** The ordered map, as the sorted sequence of its items: adding one, and taking one out. */
  ghost function Inserted(s: seq<Item>, x: Item): seq<Item> {
    if s == [] || x.key < s[0].key then [x] + s else [s[0]] + Inserted(s[1..], x)
  }

  ghost function Removed(s: seq<Item>, x: Node): seq<Item> {
    if s == [] then [] else if s[0].n == x then s[1..] else [s[0]] + Removed(s[1..], x)
  }

  lemma {:induction false} Cat(a: seq<Item>, b: seq<Item>, k: nat)
    ensures Below(a + b, k) <==> Below(a, k) && Below(b, k)
    ensures Above(a + b, k) <==> Above(a, k) && Above(b, k)
    ensures HasKey(a + b, k) <==> HasKey(a, k) || HasKey(b, k)
  {
    if a == [] {
      assert a + b == b;
    } else {
      assert (a + b)[1..] == a[1..] + b;
      Cat(a[1..], b, k);
    }
  }

  lemma AboveTrans(s: seq<Item>, j: nat, k: nat)
    requires j < k && Above(s, k)
    ensures Above(s, j)
  {
  }

  lemma NoKey(s: seq<Item>, k: nat)
    ensures Below(s, k) || Above(s, k) ==> !HasKey(s, k)
  {
  }

  lemma {:induction false} SortedMid(a: seq<Item>, x: Item, b: seq<Item>)
    ensures Sorted(a + [x] + b) <==> Sorted(a) && Below(a, x.key) && Above(b, x.key) && Sorted(b)
  {
    if a == [] {
      assert a + [x] + b == [x] + b;
    } else {
      var s := a[1..] + [x] + b;
      assert (a + [x] + b)[1..] == s;
      SortedMid(a[1..], x, b);
      Cat(a[1..] + [x], b, a[0].key);
      Cat(a[1..], [x], a[0].key);
      if a[0].key < x.key && Above(b, x.key) { AboveTrans(b, a[0].key, x.key); }
    }
  }

  lemma {:induction false} SortedJoin(a: seq<Item>, b: seq<Item>, k: nat)
    requires Sorted(a) && Below(a, k) && Above(b, k) && Sorted(b)
    ensures Sorted(a + b)
  {
    if a == [] {
      assert a + b == b;
    } else {
      assert (a + b)[1..] == a[1..] + b;
      SortedJoin(a[1..], b, k);
      Cat(a[1..], b, a[0].key);
      AboveTrans(b, a[0].key, k);
    }
  }

  lemma {:induction false} InsertedAt(a: seq<Item>, x: Item, b: seq<Item>)
    requires Below(a, x.key) && Above(b, x.key)
    ensures Inserted(a + b, x) == a + [x] + b
  {
    if a == [] {
      assert a + b == b && a + [x] + b == [x] + b;
    } else {
      var rest := a[1..] + b;
      InsertedAt(a[1..], x, b);
      assert (a + b)[1..] == rest && (a + b)[0] == a[0];
      assert Inserted(a + b, x) == [a[0]] + Inserted(rest, x);
      assert a + [x] + b == [a[0]] + (a[1..] + [x] + b);
    }
  }

  lemma {:induction false} RemovedAt(a: seq<Item>, x: Item, b: seq<Item>)
    requires !HasNode(a, x.n)
    ensures Removed(a + [x] + b, x.n) == a + b
  {
    if a == [] {
      assert a + [x] + b == [x] + b && a + b == b;
    } else {
      assert (a + [x] + b)[1..] == a[1..] + [x] + b;
      assert a + b == [a[0]] + (a[1..] + b);
      RemovedAt(a[1..], x, b);
    }
  }

  // ---------------------------------------------------------------- the colour rules (src/util/tree.h:47-56)

  ghost predicate IsRed(t: Tree) { t.Nd? && t.e.red }

  /** No red node has a red child. */
  ghost predicate RedOk(t: Tree) {
    match t
    case Leaf => true
    case Nd(l, e, r) => (e.red ==> !IsRed(l) && !IsRed(r)) && RedOk(l) && RedOk(r)
  }

  ghost predicate RedC(c: Ctx, hole: bool) {
    match c
    case Top => true
    case Up(_, e, sib, up) => (e.red ==> !IsRed(sib) && !hole) && RedOk(sib) && RedC(up, e.red)
  }

  /** Every path from the root of t down to a leaf has h black nodes. */
  ghost predicate BhIs(t: Tree, h: nat) {
    match t
    case Leaf => h == 0
    case Nd(l, e, r) => if e.red then BhIs(l, h) && BhIs(r, h) else h > 0 && BhIs(l, h - 1) && BhIs(r, h - 1)
  }

  /** A subtree of black height h fits into the hole of c. */
  ghost predicate BhC(c: Ctx, h: nat) {
    match c
    case Top => true
    case Up(_, e, sib, up) => BhIs(sib, h) && BhC(up, if e.red then h else h + 1)
  }

  /** The root of the whole tree is black, whatever is plugged in below it. */
  ghost predicate RootBlack(c: Ctx) {
    c.Up? ==> if c.up.Top? then !c.e.red else RootBlack(c.up)
  }

  lemma {:induction false} PlugRed(c: Ctx, t: Tree)
    ensures RedOk(Plug(c, t)) <==> RedOk(t) && RedC(c, IsRed(t))
    ensures c.Up? ==> (!IsRed(Plug(c, t)) <==> RootBlack(c))
  {
    match c
    case Top =>
    case Up(d, e, sib, up) =>
      PlugRed(up, Mk(d, t, e, sib));
  }

  lemma {:induction false} PlugBh(c: Ctx, t: Tree, h: nat) returns (hh: nat)
    requires BhIs(t, h) && BhC(c, h)
    ensures BhIs(Plug(c, t), hh)
  {
    match c
    case Top => hh := h;
    case Up(d, e, sib, up) =>
      hh := PlugBh(up, Mk(d, t, e, sib), if e.red then h else h + 1);
  }

  lemma {:induction false} SplitBh(c: Ctx, t: Tree, hh: nat) returns (h: nat)
    requires BhIs(Plug(c, t), hh)
    ensures BhIs(t, h) && BhC(c, h)
  {
    match c
    case Top => h := hh;
    case Up(d, e, sib, up) =>
      h := SplitBh(up, Mk(d, t, e, sib), hh);
      h := if e.red then h else h - 1;
  }

  /** The rules of a red-black tree, with the black root the insertion loop relies on. */
  ghost predicate RedBlack(t: Tree) {
    !IsRed(t) && RedOk(t) && exists h: nat :: BhIs(t, h)
  }

  // ---------------------------------------------------------------- where a node sits

  /** How often the pointer x occurs. */
  ghost function Cnt(t: Tree, x: Node): nat {
    match t
    case Leaf => 0
    case Nd(l, e, r) => Cnt(l, x) + (if e.n == x then 1 else 0) + Cnt(r, x)
  }

  ghost function CntC(c: Ctx, x: Node): nat {
    match c
    case Top => 0
    case Up(_, e, sib, up) => (if e.n == x then 1 else 0) + Cnt(sib, x) + CntC(up, x)
  }

  /** The fields of one node. */
  datatype Link = Link(key: nat, red: bool, left: Node?, right: Node?, parent: Node?) {
    ghost function Kid(d: Side): Node? { if d.Left? then left else right }
    ghost function Set(d: Side, k: Node?): Link { if d.Left? then this.(left := k) else this.(right := k) }
  }

  /** The fields that the shape t, hanging below p, prescribes for its node x. */
  ghost function View(t: Tree, p: Node?, x: Node): Link
    requires Cnt(t, x) > 0
  {
    var Nd(l, e, r) := t;
    if e.n == x then Link(e.key, e.red, RootOf(l), RootOf(r), p)
    else if Cnt(l, x) > 0 then View(l, e.n, x) else View(r, e.n, x)
  }

  ghost function ViewC(c: Ctx, k: Node?, x: Node): Link
    requires CntC(c, x) > 0
  {
    var Up(d, e, sib, up) := c;
    if e.n == x then Link(e.key, e.red, null, null, Par(up)).Set(d, k).Set(d.Other(), RootOf(sib))
    else if Cnt(sib, x) > 0 then View(sib, e.n, x) else ViewC(up, e.n, x)
  }

  lemma MkView(d: Side, t: Tree, e: Elem, sib: Tree, p: Node?, x: Node)
    ensures Cnt(Mk(d, t, e, sib), x) == Cnt(t, x) + (if e.n == x then 1 else 0) + Cnt(sib, x)
    ensures Cnt(Mk(d, t, e, sib), x) == 1 ==>
      View(Mk(d, t, e, sib), p, x) ==
        if e.n == x then Link(e.key, e.red, null, null, p).Set(d, RootOf(t)).Set(d.Other(), RootOf(sib))
        else if Cnt(t, x) > 0 then View(t, e.n, x) else View(sib, e.n, x)
  {
  }

  lemma {:induction false} PlugView(c: Ctx, t: Tree, x: Node)
    ensures Cnt(Plug(c, t), x) == CntC(c, x) + Cnt(t, x)
    ensures Cnt(Plug(c, t), x) == 1 ==>
      View(Plug(c, t), null, x) == if Cnt(t, x) > 0 then View(t, Par(c), x) else ViewC(c, RootOf(t), x)
  {
    match c
    case Top =>
    case Up(d, e, sib, up) =>
      PlugView(up, Mk(d, t, e, sib), x);
      MkView(d, t, e, sib, Par(up), x);
  }

  /** Filling the hole of c with another tree changes the view of a node of the path only at its end. */
  lemma ViewCHole(c: Ctx, k: Node?, k': Node?, x: Node)
    requires CntC(c, x) > 0
    ensures ViewC(c, k', x) == if x == Par(c) then ViewC(c, k, x).Set(c.d, k') else ViewC(c, k, x)
    ensures x == Par(c) ==> ViewC(c, k, x).Kid(c.d) == k && ViewC(c, k, x).Kid(c.d.Other()) == RootOf(c.sib)
  {
  }

  /** Hanging t below another node changes the view of its root only. */
  lemma ViewParent(t: Tree, p: Node?, p': Node?, x: Node)
    requires Cnt(t, x) > 0
    ensures View(t, p', x) == if x == RootOf(t) then View(t, p, x).(parent := p') else View(t, p, x)
  {
  }

  lemma RootCnt(t: Tree)
    ensures t.Nd? ==> Cnt(t, t.e.n) > 0
  {
  }

  // ---------------------------------------------------------------- what each pointer operation does to the links

  /** What replacing the child `was` of p by `now` does to the link v of p (src/util/tree.h:342-348). */
  ghost function Relink(v: Link, was: Node, now: Node?): Link {
    if v.left == was then v.(left := now) else v.(right := now)
  }

  /** The assignments of a rotation towards d, on the link v of node n: x goes below its child y, whose child b it
      takes over, and y takes the place of x under p (src/util/tree.h:336-374). */
  ghost function RotateLink(d: Side, x: Node, y: Node, b: Node?, p: Node?, v: Link, n: Node): Link {
    if n == x then v.Set(d.Other(), b).(parent := y)
    else if n == y then v.Set(d, x).(parent := p)
    else if n == b then v.(parent := x)
    else if n == p then Relink(v, x, y)
    else v
  }

  /** The nodes a rotation writes to are different ones. */
  lemma {:induction false} RotateApart(c: Ctx, d: Side, a: Tree, x: Elem, b: Tree, y: Elem, z: Tree, n: Node)
    requires Cnt(Plug(c, Mk(d, a, x, Mk(d, b, y, z))), n) == 1
    ensures n == x.n ==> n != y.n && n != RootOf(b) && n != Par(c) && (c.Up? ==> n != RootOf(c.sib))
    ensures n == y.n ==> n != RootOf(b) && n != Par(c)
    ensures n == Par(c) ==> n != RootOf(b)
  {
    PlugView(c, Mk(d, a, x, Mk(d, b, y, z)), n);
    MkView(d, a, x, Mk(d, b, y, z), null, n);
    RootCnt(b);
    if c.Up? { RootCnt(c.sib); }
  }

  lemma {:induction false} RotateViewBelow(p: Node?, d: Side, a: Tree, x: Elem, b: Tree, y: Elem, z: Tree, n: Node)
    requires Cnt(Mk(d, a, x, Mk(d, b, y, z)), n) == 1
    requires n == x.n ==> n != y.n
    requires n != p
    ensures Cnt(Mk(d, Mk(d, a, x, b), y, z), n) == 1
    ensures View(Mk(d, Mk(d, a, x, b), y, z), p, n)
         == RotateLink(d, x.n, y.n, RootOf(b), p, View(Mk(d, a, x, Mk(d, b, y, z)), p, n), n)
  {
    MkView(d, a, x, Mk(d, b, y, z), p, n);
    MkView(d, b, y, z, x.n, n);
    MkView(d, Mk(d, a, x, b), y, z, p, n);
    MkView(d, a, x, b, y.n, n);
    RootCnt(b);
    if Cnt(b, n) > 0 { ViewParent(b, y.n, x.n, n); }
  }

  lemma {:induction false} RotateView(c: Ctx, d: Side, a: Tree, x: Elem, b: Tree, y: Elem, z: Tree, n: Node)
    requires Cnt(Plug(c, Mk(d, a, x, Mk(d, b, y, z))), n) == 1
    requires Cnt(Plug(c, Mk(d, a, x, Mk(d, b, y, z))), x.n) == 1
    ensures Cnt(Plug(c, Mk(d, Mk(d, a, x, b), y, z)), n) == 1
    ensures View(Plug(c, Mk(d, Mk(d, a, x, b), y, z)), null, n)
         == RotateLink(d, x.n, y.n, RootOf(b), Par(c), View(Plug(c, Mk(d, a, x, Mk(d, b, y, z))), null, n), n)
  {
    var t, t' := Mk(d, a, x, Mk(d, b, y, z)), Mk(d, Mk(d, a, x, b), y, z);
    RotateApart(c, d, a, x, b, y, z, n);
    RotateApart(c, d, a, x, b, y, z, x.n);
    PlugView(c, t, n);
    PlugView(c, t', n);
    MkView(d, a, x, Mk(d, b, y, z), Par(c), n);
    MkView(d, Mk(d, a, x, b), y, z, Par(c), n);
    if CntC(c, n) > 0 {
      ViewCHole(c, x.n, y.n, n);
      RootCnt(b);
    } else {
      RotateViewBelow(Par(c), d, a, x, b, y, z, n);
    }
  }

  lemma {:induction false} PaintView(c: Ctx, t: Tree, red: bool, n: Node)
    requires t.Nd? && Cnt(Plug(c, t), n) == 1
    ensures Cnt(Plug(c, t.(e := t.e.(red := red))), n) == 1
    ensures View(Plug(c, t.(e := t.e.(red := red))), null, n)
         == if n == t.e.n then View(Plug(c, t), null, n).(red := red) else View(Plug(c, t), null, n)
  {
    PlugView(c, t, n);
    PlugView(c, t.(e := t.e.(red := red)), n);
  }

  /** A new leaf node x under p: RB_SET and the parent's link (src/util/tree.h:608-616). */
  lemma {:induction false} AttachView(c: Ctx, x: Elem, n: Node)
    requires Cnt(Plug(c, Leaf), x.n) == 0
    requires n == x.n || Cnt(Plug(c, Leaf), n) == 1
    ensures Cnt(Plug(c, Nd(Leaf, x, Leaf)), n) == 1
    ensures View(Plug(c, Nd(Leaf, x, Leaf)), null, n)
         == if n == x.n then Link(x.key, x.red, null, null, Par(c))
            else if n == Par(c) then View(Plug(c, Leaf), null, n).Set(c.d, x.n)
            else View(Plug(c, Leaf), null, n)
  {
    PlugView(c, Leaf, n);
    PlugView(c, Leaf, x.n);
    PlugView(c, Nd(Leaf, x, Leaf), n);
    if CntC(c, n) > 0 { ViewCHole(c, null, x.n, n); }
  }

  /** Unlinking a node x whose only child is k (src/util/tree.h:569-578). */
  ghost function SpliceLink(x: Node, k: Node?, p: Node?, v: Link, n: Node): Link {
    if n == k then v.(parent := p)
    else if n == p then Relink(v, x, k)
    else v
  }

  lemma {:induction false} SpliceView(c: Ctx, d: Side, t: Tree, x: Elem, n: Node)
    requires Cnt(Plug(c, Mk(d, t, x, Leaf)), n) == Cnt(Plug(c, Mk(d, t, x, Leaf)), x.n) == 1
    requires n != x.n
    ensures Cnt(Plug(c, t), n) == 1
    ensures View(Plug(c, t), null, n) == SpliceLink(x.n, RootOf(t), Par(c), View(Plug(c, Mk(d, t, x, Leaf)), null, n), n)
  {
    PlugView(c, Mk(d, t, x, Leaf), n);
    PlugView(c, Mk(d, t, x, Leaf), x.n);
    PlugView(c, t, n);
    MkView(d, t, x, Leaf, Par(c), n);
    MkView(d, t, x, Leaf, Par(c), x.n);
    RootCnt(t);
    if CntC(c, n) > 0 {
      ViewCHole(c, x.n, RootOf(t), n);
      RootCnt(c.sib);
    } else {
      ViewParent(t, x.n, Par(c), n);
    }
  }

  /** Putting s, which is not in the tree, in the place of x (src/util/tree.h:546-557). */
  ghost function ReplaceLink(x: Node, s: Node, l: Node?, r: Node?, p: Node?, v: Link, n: Node): Link {
    if n == l || n == r then v.(parent := s)
    else if n == p then Relink(v, x, s)
    else v
  }

  lemma {:induction false} ReplaceView(c: Ctx, l: Tree, x: Elem, r: Tree, s: Elem, n: Node)
    requires Cnt(Plug(c, Nd(l, x, r)), x.n) == 1 && Cnt(Plug(c, Nd(l, x, r)), s.n) == 0
    requires s.red == x.red
    requires n != x.n && (n == s.n || Cnt(Plug(c, Nd(l, x, r)), n) == 1)
    ensures Cnt(Plug(c, Nd(l, s, r)), n) == 1
    ensures View(Plug(c, Nd(l, s, r)), null, n)
         == if n == s.n then View(Plug(c, Nd(l, x, r)), null, x.n).(key := s.key)
            else ReplaceLink(x.n, s.n, RootOf(l), RootOf(r), Par(c), View(Plug(c, Nd(l, x, r)), null, n), n)
  {
    PlugView(c, Nd(l, x, r), n);
    PlugView(c, Nd(l, x, r), x.n);
    PlugView(c, Nd(l, x, r), s.n);
    PlugView(c, Nd(l, s, r), n);
    RootCnt(l);
    RootCnt(r);
    if CntC(c, n) > 0 {
      ViewCHole(c, x.n, s.n, n);
      RootCnt(c.sib);
    } else if n != s.n {
      if Cnt(l, n) > 0 { ViewParent(l, x.n, s.n, n); } else { ViewParent(r, x.n, s.n, n); }
    }
  }

  // ---------------------------------------------------------------- the nodes of a tree are among S

  ghost predicate Within(t: Tree, S: set<Node>) {
    match t
    case Leaf => true
    case Nd(l, e, r) => e.n in S && Within(l, S) && Within(r, S)
  }

  ghost predicate WithinC(c: Ctx, S: set<Node>) {
    match c
    case Top => true
    case Up(_, e, sib, up) => e.n in S && Within(sib, S) && WithinC(up, S)
  }

  lemma {:induction false} PlugWithin(c: Ctx, t: Tree, S: set<Node>)
    ensures Within(Plug(c, t), S) <==> Within(t, S) && WithinC(c, S)
  {
    match c
    case Top =>
    case Up(d, e, sib, up) =>
      PlugWithin(up, Mk(d, t, e, sib), S);
  }

  lemma WithinLess(t: Tree, S: set<Node>, x: Node)
    requires Within(t, S) && Cnt(t, x) == 0
    ensures Within(t, S - {x})
  {
  }

  lemma WithinMore(t: Tree, S: set<Node>, x: Node)
    requires Within(t, S)
    ensures Within(t, S + {x})
  {
  }

  // ---------------------------------------------------------------- rotations and colours

  lemma {:induction false} RotateOrder(c: Ctx, d: Side, a: Tree, x: Elem, b: Tree, y: Elem, z: Tree)
    ensures InOrder(Plug(c, Mk(d, Mk(d, a, x, b), y, z))) == InOrder(Plug(c, Mk(d, a, x, Mk(d, b, y, z))))
  {
    RotateOrderHere(d, a, x, b, y, z);
    PlugOrder(c, Mk(d, Mk(d, a, x, b), y, z));
    PlugOrder(c, Mk(d, a, x, Mk(d, b, y, z)));
  }

  lemma {:induction false} RotateOrderHere(d: Side, a: Tree, x: Elem, b: Tree, y: Elem, z: Tree)
    ensures InOrder(Mk(d, Mk(d, a, x, b), y, z)) == InOrder(Mk(d, a, x, Mk(d, b, y, z)))
  {
    var p, q, r, i, j := InOrder(a), InOrder(b), InOrder(z), [Item(x.n, x.key)], [Item(y.n, y.key)];
    if d.Left? {
      assert (p + i + q) + j + r == p + i + (q + j + r);
    } else {
      assert r + j + (q + i + p) == (r + j + q) + i + p;
    }
  }

  lemma {:induction false} PaintOrder(c: Ctx, t: Tree, red: bool)
    requires t.Nd?
    ensures InOrder(Plug(c, t.(e := t.e.(red := red)))) == InOrder(Plug(c, t))
  {
    PlugOrder(c, t);
    PlugOrder(c, t.(e := t.e.(red := red)));
  }

  /** During insertion: the rules hold but for the red root of t, which may sit under a red parent. */
  ghost predicate InsertInv(c: Ctx, t: Tree, h: nat) {
    t.Nd? && t.e.red && RedOk(t) && RedC(c, false) && RootBlack(c) && BhIs(t, h) && BhC(c, h)
  }

  lemma {:induction false} InsertDone(c: Ctx, t: Tree, h: nat)
    requires InsertInv(c, t, h) && (c.Up? ==> !c.e.red)
    ensures var T := Plug(c, t); T.Nd? && RedBlack(T.(e := T.e.(red := false)))
  {
    PlugRoot(c, t, t);
    PlugNd(c, t);
    PlugRed(c, t);
    RedHole(c);
    var hh := PlugBh(c, t, h);
    var T := Plug(c, t);
    assert BhIs(T.(e := T.e.(red := false)), if T.e.red then hh + 1 else hh);
  }

  lemma RedHole(c: Ctx)
    requires c.Up? ==> !c.e.red
    ensures RedC(c, false) ==> RedC(c, true)
  {
  }

  lemma {:induction false} PlugNd(c: Ctx, t: Tree)
    ensures t.Nd? || c.Up? ==> Plug(c, t).Nd?
  {
    if c.Up? { PlugNd(c.up, Mk(c.d, t, c.e, c.sib)); }
  }

  /** What the insertion invariant says around a red parent: there is a black grandparent. */
  lemma {:induction false} InsertAbove(c: Ctx, t: Tree, h: nat)
    requires InsertInv(c, t, h) && c.Up? && c.e.red
    ensures c.up.Up? && !c.up.e.red
    ensures !IsRed(c.sib) && RedOk(c.sib) && BhIs(c.sib, h)
    ensures RedOk(c.up.sib) && BhIs(c.up.sib, h)
    ensures RedC(c.up.up, false) && RootBlack(c.up.up) && BhC(c.up.up, h + 1)
    ensures !c.up.up.Top? ==> RootBlack(c.up)
  {
    assert RedC(c.up, true) && RootBlack(c.up) && BhC(c.up, h);
  }

  /** Recolouring parent, uncle and grandparent moves the exception up to the grandparent. */
  lemma {:induction false} InsertRecolor(c: Ctx, t: Tree, h: nat)
    requires InsertInv(c, t, h) && c.Up? && c.e.red && c.up.Up? && IsRed(c.up.sib)
    ensures var p, u := Mk(c.d, t, c.e.(red := false), c.sib), c.up.sib.(e := c.up.sib.e.(red := false));
      InsertInv(c.up.up, Mk(c.up.d, p, c.up.e.(red := true), u), h + 1)
  {
    InsertAbove(c, t, h);
    var p, u := Mk(c.d, t, c.e.(red := false), c.sib), c.up.sib.(e := c.up.sib.e.(red := false));
    assert RedOk(p) && BhIs(p, h + 1);
    assert RedOk(u) && BhIs(u, h + 1);
  }

  /** An inner child is first rotated to the outside. */
  lemma {:induction false} InsertInner(c: Ctx, t: Tree, h: nat)
    requires InsertInv(c, t, h) && c.Up? && c.e.red && c.up.Up?
    ensures var d := c.d.Other(); InsertInv(Up(d, t.e, Kid(t, d.Other()), c.up), Mk(d, c.sib, c.e, Kid(t, d)), h)
  {
    InsertAbove(c, t, h);
    assert RedC(c.up, true) && RootBlack(c.up) && BhC(c.up, h);
  }

  /** The rotation at the grandparent ends the repair. */
  lemma {:induction false} InsertOuter(c: Ctx, t: Tree, h: nat)
    requires InsertInv(c, t, h) && c.Up? && c.e.red && c.up.Up? && !IsRed(c.up.sib)
    ensures InsertInv(Up(c.d, c.e.(red := false), Mk(c.d.Other(), c.up.sib, c.up.e.(red := true), c.sib), c.up.up), t, h)
  {
    InsertAbove(c, t, h);
    var g := Mk(c.d.Other(), c.up.sib, c.up.e.(red := true), c.sib);
    assert RedOk(g) && BhIs(g, h);
  }

  // ---------------------------------------------------------------- searching

  /** The search for k has come to c: what it left behind on either side is smaller and larger. */
  ghost predicate Seeking(c: Ctx, k: nat) {
    Below(Before(c), k) && Above(After(c), k)
  }

  lemma {:induction false} SortedHere(c: Ctx, t: Tree)
    requires t.Nd? && Sorted(InOrder(Plug(c, t)))
    ensures Below(Before(c) + InOrder(t.l), t.e.key) && Above(InOrder(t.r) + After(c), t.e.key)
    ensures Sorted(Before(c) + InOrder(t.l)) && Sorted(InOrder(t.r) + After(c))
  {
    PlugOrder(c, t);
    var a, b := Before(c) + InOrder(t.l), InOrder(t.r) + After(c);
    assert InOrder(Plug(c, t)) == a + [Item(t.e.n, t.e.key)] + b;
    SortedMid(a, Item(t.e.n, t.e.key), b);
  }

  lemma {:induction false} SeekLeft(c: Ctx, t: Tree, k: nat)
    requires t.Nd? && Sorted(InOrder(Plug(c, t))) && Seeking(c, k) && k < t.e.key
    ensures Seeking(Up(Left, t.e, t.r, c), k)
  {
    SortedHere(c, t);
    var b := InOrder(t.r) + After(c);
    AboveTrans(b, k, t.e.key);
    var s := [Item(t.e.n, t.e.key)] + InOrder(t.r) + After(c);
    assert s[1..] == b;
    assert Above(s, k);
  }

  lemma {:induction false} SeekRight(c: Ctx, t: Tree, k: nat)
    requires t.Nd? && Sorted(InOrder(Plug(c, t))) && Seeking(c, k) && k > t.e.key
    ensures Seeking(Up(Right, t.e, t.l, c), k)
  {
    SortedHere(c, t);
    var a := Before(c) + InOrder(t.l);
    BelowTrans(a, t.e.key, k);
    Cat(a, [Item(t.e.n, t.e.key)], k);
  }

  lemma BelowTrans(s: seq<Item>, j: nat, k: nat)
    requires j < k && Below(s, j)
    ensures Below(s, k)
  {
  }

  lemma {:induction false} SeekEnd(c: Ctx, x: Item, red: bool)
    requires Sorted(InOrder(Plug(c, Leaf))) && Seeking(c, x.key)
    ensures !HasKey(InOrder(Plug(c, Leaf)), x.key)
    ensures InOrder(Plug(c, Nd(Leaf, Elem(x.n, x.key, red), Leaf))) == Inserted(InOrder(Plug(c, Leaf)), x)
    ensures Sorted(Inserted(InOrder(Plug(c, Leaf)), x))
  {
    PlugOrder(c, Leaf);
    PlugOrder(c, Nd(Leaf, Elem(x.n, x.key, red), Leaf));
    GapInsert(Before(c), x, After(c));
    assert Before(c) + [] + After(c) == Before(c) + After(c);
    assert [] + [x] + [] == [x];
  }

  lemma {:induction false} GapInsert(a: seq<Item>, x: Item, b: seq<Item>)
    requires Sorted(a + b) && Below(a, x.key) && Above(b, x.key)
    ensures !HasKey(a + b, x.key) && Inserted(a + b, x) == a + [x] + b && Sorted(Inserted(a + b, x))
  {
    InsertedAt(a, x, b);
    Cat(a, b, x.key);
    NoKey(a, x.key);
    NoKey(b, x.key);
    SortedParts(a, b);
    SortedMid(a, x, b);
  }

  lemma {:induction false} SortedParts(a: seq<Item>, b: seq<Item>)
    requires Sorted(a + b)
    ensures Sorted(a) && Sorted(b)
  {
    if a == [] {
      assert a + b == b;
    } else {
      assert (a + b)[1..] == a[1..] + b;
      Cat(a[1..], b, a[0].key);
      SortedParts(a[1..], b);
    }
  }

  lemma {:induction false} FoundKey(c: Ctx, t: Tree)
    requires t.Nd?
    ensures HasKey(InOrder(Plug(c, t)), t.e.key)
  {
    PlugOrder(c, t);
    var k := t.e.key;
    Cat(InOrder(t.l) + [Item(t.e.n, k)], InOrder(t.r), k);
    Cat(InOrder(t.l), [Item(t.e.n, k)], k);
    Cat(Before(c) + InOrder(t), After(c), k);
    Cat(Before(c), InOrder(t), k);
  }

  /** At the end of an insertion's search, the new red node keeps all rules but the one about red parents. */
  lemma {:induction false} InsertStart(c: Ctx, x: Elem) returns (h: nat)
    requires RedBlack(Plug(c, Leaf)) && x.red
    ensures InsertInv(c, Nd(Leaf, x, Leaf), h)
  {
    PlugRed(c, Leaf);
    var hh: nat :| BhIs(Plug(c, Leaf), hh);
    h := SplitBh(c, Leaf, hh);
  }

  // ---------------------------------------------------------------- removal

  /** The rules hold below the root of t; the root itself may be red above a red child. */
  ghost predicate RedUnder(t: Tree) { t.Leaf? || (RedOk(t.l) && RedOk(t.r)) }

  /** During removal: the rules hold but that t is one black node short, and its root may be red next to another red. */
  ghost predicate RemoveInv(c: Ctx, t: Tree, h: nat) {
    h > 0 && BhIs(t, h - 1) && BhC(c, h) && RedUnder(t) && RedC(c, false) && RootBlack(c)
  }

  ghost function Black(t: Tree): Tree { if t.Leaf? then t else t.(e := t.e.(red := false)) }

  lemma {:induction false} RemoveDone(c: Ctx, t: Tree, h: nat)
    requires RemoveInv(c, t, h) && (IsRed(t) || c.Top?)
    ensures RedBlack(Plug(c, Black(t)))
  {
    PlugRed(c, Black(t));
    if IsRed(t) {
      var hh := PlugBh(c, Black(t), h);
    } else {
      assert BhIs(Black(t), h - 1);
    }
  }

  /** What the removal invariant says around the hole: there is a sibling, and it is tall enough. */
  lemma {:induction false} RemoveAside(c: Ctx, t: Tree, h: nat)
    requires RemoveInv(c, t, h) && c.Up? && !IsRed(t)
    ensures c.sib.Nd? && RedOk(t) && RedOk(c.sib) && RedOk(c.sib.l) && RedOk(c.sib.r)
    ensures IsRed(c.sib) ==> !c.e.red && !IsRed(c.sib.l) && !IsRed(c.sib.r) && BhIs(c.sib.l, h) && BhIs(c.sib.r, h) && c.sib.l.Nd? && c.sib.r.Nd?
    ensures !IsRed(c.sib) ==> BhIs(c.sib.l, h - 1) && BhIs(c.sib.r, h - 1)
    ensures RedC(c.up, c.e.red) && RedC(c.up, false) && BhC(c.up, if c.e.red then h else h + 1)
    ensures RootBlack(c.up) && (c.up.Top? ==> !c.e.red)
  {
    assert BhIs(c.sib, h);
  }

  /** A red sibling is rotated above the parent, which leaves a black one. */
  lemma {:induction false} RemoveRedSibling(c: Ctx, t: Tree, h: nat)
    requires RemoveInv(c, t, h) && c.Up? && !IsRed(t) && IsRed(c.sib)
    ensures var d := c.d;
      var c' := Up(d, c.e.(red := true), Kid(c.sib, d), Up(d, c.sib.e.(red := false), Kid(c.sib, d.Other()), c.up));
      RemoveInv(c', t, h) && !IsRed(c'.sib)
  {
    RemoveAside(c, t, h);
    var up := Up(c.d, c.sib.e.(red := false), Kid(c.sib, c.d.Other()), c.up);
    assert RedC(up, true) && BhC(up, h) && RootBlack(up);
  }

  /** A black sibling with black children turns red, and the shortage moves up. */
  lemma {:induction false} RemoveMoveUp(c: Ctx, t: Tree, h: nat)
    requires RemoveInv(c, t, h) && c.Up? && !IsRed(t) && !IsRed(c.sib) && !IsRed(c.sib.l) && !IsRed(c.sib.r)
    ensures RemoveInv(c.up, Mk(c.d, t, c.e, c.sib.(e := c.sib.e.(red := true))), if c.e.red then h else h + 1)
  {
    RemoveAside(c, t, h);
    var s := c.sib.(e := c.sib.e.(red := true));
    assert RedOk(s) && BhIs(s, h - 1);
  }

  /** A red inner nephew is first rotated to the outside. */
  lemma {:induction false} RemoveInner(c: Ctx, t: Tree, h: nat)
    requires RemoveInv(c, t, h) && c.Up? && !IsRed(t) && !IsRed(c.sib) && c.sib.Nd?
    requires IsRed(Kid(c.sib, c.d)) && !IsRed(Kid(c.sib, c.d.Other()))
    ensures var o, near, far := c.d.Other(), Kid(c.sib, c.d), Kid(c.sib, c.d.Other());
      RemoveInv(c.(sib := Mk(o, Mk(o, far, c.sib.e.(red := true), Kid(near, o)), near.e.(red := false), Kid(near, c.d))), t, h)
  {
    RemoveAside(c, t, h);
    var o, near, far := c.d.Other(), Kid(c.sib, c.d), Kid(c.sib, c.d.Other());
    var f := Mk(o, far, c.sib.e.(red := true), Kid(near, o));
    assert RedOk(f) && BhIs(f, h - 1);
  }

  /** With a red outer nephew one rotation at the parent ends the repair. */
  lemma {:induction false} RemoveOuter(c: Ctx, t: Tree, h: nat)
    requires RemoveInv(c, t, h) && c.Up? && !IsRed(t) && !IsRed(c.sib) && c.sib.Nd? && IsRed(Kid(c.sib, c.d.Other()))
    ensures var d := c.d;
      RedBlack(Plug(c.up, Mk(d, Mk(d, t, c.e.(red := false), Kid(c.sib, d)), c.sib.e.(red := c.e.red), Black(Kid(c.sib, d.Other())))))
  {
    RemoveAside(c, t, h);
    var d := c.d;
    var p, far := Mk(d, t, c.e.(red := false), Kid(c.sib, d)), Black(Kid(c.sib, d.Other()));
    assert RedOk(p) && BhIs(p, h) && RedOk(far) && BhIs(far, h);
    var q := Mk(d, p, c.sib.e.(red := c.e.red), far);
    PlugRed(c.up, q);
    var hh := PlugBh(c.up, q, if c.e.red then h else h + 1);
  }

  lemma {:induction false} RemoveWhole(t: Tree) returns (h: nat)
    requires RedBlack(t)
    ensures RemoveInv(Top, t, h)
  {
    var hh: nat :| BhIs(t, hh);
    h := hh + 1;
  }

  lemma {:induction false} FindNode(c: Ctx, t: Tree, x: Node) returns (c': Ctx, t': Tree)
    requires Cnt(t, x) > 0
    ensures Plug(c', t') == Plug(c, t) && t'.Nd? && t'.e.n == x
    decreases t
  {
    if t.e.n == x {
      c', t' := c, t;
    } else if Cnt(t.l, x) > 0 {
      c', t' := FindNode(Up(Left, t.e, t.r, c), t.l, x);
    } else {
      c', t' := FindNode(Up(Right, t.e, t.l, c), t.r, x);
    }
  }

  lemma {:induction false} CatNode(a: seq<Item>, b: seq<Item>, x: Node)
    ensures HasNode(a + b, x) <==> HasNode(a, x) || HasNode(b, x)
  {
    if a == [] {
      assert a + b == b;
    } else {
      assert (a + b)[1..] == a[1..] + b;
      CatNode(a[1..], b, x);
    }
  }

  lemma {:induction false} OrderNode(t: Tree, x: Node)
    ensures HasNode(InOrder(t), x) <==> Cnt(t, x) > 0
  {
    if t.Nd? {
      OrderNode(t.l, x);
      OrderNode(t.r, x);
      CatNode(InOrder(t.l) + [Item(t.e.n, t.e.key)], InOrder(t.r), x);
      CatNode(InOrder(t.l), [Item(t.e.n, t.e.key)], x);
    }
  }

  /** Taking out the node at (c, t), in terms of the contents. */
  lemma {:induction false} RemovedHere(c: Ctx, t: Tree, s: seq<Item>)
    requires t.Nd? && Sorted(InOrder(Plug(c, t))) && Cnt(Plug(c, t), t.e.n) == 1
    requires s == Before(c) + InOrder(t.l) + InOrder(t.r) + After(c)
    ensures s == Removed(InOrder(Plug(c, t)), t.e.n) && Sorted(s)
  {
    var x := Item(t.e.n, t.e.key);
    var a, b := Before(c) + InOrder(t.l), InOrder(t.r) + After(c);
    PlugOrder(c, t);
    assert InOrder(Plug(c, t)) == a + [x] + b;
    assert s == a + b;
    PlugView(Up(Right, t.e, t.r, c), t.l, x.n);
    PlugOrder(c, Nd(t.l, t.e, Leaf));
    NotBefore(c, t);
    RemovedAt(a, x, b);
    SortedMid(a, x, b);
    SortedJoin(a, b, x.key);
  }

  lemma {:induction false} NotBefore(c: Ctx, t: Tree)
    requires t.Nd? && Cnt(Plug(c, t), t.e.n) == 1
    ensures !HasNode(Before(c) + InOrder(t.l), t.e.n)
  {
    PlugView(c, t, t.e.n);
    CatNode(Before(c), InOrder(t.l), t.e.n);
    OrderNode(t.l, t.e.n);
    BeforeNode(c, t.e.n);
  }

  lemma {:induction false} BeforeNode(c: Ctx, x: Node)
    ensures HasNode(Before(c), x) ==> CntC(c, x) > 0
  {
    if c.Up? {
      BeforeNode(c.up, x);
      OrderNode(c.sib, x);
      CatNode(Before(c.up) + InOrder(c.sib), [Item(c.e.n, c.e.key)], x);
      CatNode(Before(c.up), InOrder(c.sib), x);
    }
  }

  // ---------------------------------------------------------------- the successor of a node with two children

  /** The path c continued upwards by c'. */
  ghost function CatC(c: Ctx, c': Ctx): Ctx {
    if c.Top? then c' else c.(up := CatC(c.up, c'))
  }

  /** A path that goes left all the way. */
  ghost predicate Spine(c: Ctx) { c.Up? ==> c.d.Left? && Spine(c.up) }

  lemma {:induction false} CatPlug(c: Ctx, c': Ctx, t: Tree)
    ensures Plug(CatC(c, c'), t) == Plug(c', Plug(c, t))
    ensures Spine(c) ==> Before(c) == [] && Before(CatC(c, c')) == Before(c')
    ensures Spine(c) ==> After(CatC(c, c')) == After(c) + After(c')
  {
    if c.Up? {
      CatPlug(c.up, c', Mk(c.d, t, c.e, c.sib));
      if Spine(c) {
        var a := [Item(c.e.n, c.e.key)] + InOrder(c.sib);
        assert a + (After(c.up) + After(c')) == a + After(c.up) + After(c');
      }
    }
  }

  /** Another element of the same colour at one place of the path. */
  lemma {:induction false} CatSwap(c: Ctx, d: Side, x: Elem, y: Elem, sib: Tree, up: Ctx, hole: bool, h: nat)
    requires x.red == y.red
    ensures RedC(CatC(c, Up(d, x, sib, up)), hole) <==> RedC(CatC(c, Up(d, y, sib, up)), hole)
    ensures BhC(CatC(c, Up(d, x, sib, up)), h) <==> BhC(CatC(c, Up(d, y, sib, up)), h)
    ensures RootBlack(CatC(c, Up(d, x, sib, up))) <==> RootBlack(CatC(c, Up(d, y, sib, up)))
  {
    if c.Up? { CatSwap(c.up, d, x, y, sib, up, c.e.red, if c.e.red then h else h + 1); }
  }

  /** The rules once the one-child node at the hole of c is gone: a black one leaves a shortage. */
  lemma {:induction false} SpliceRules(c: Ctx, d: Side, t: Tree, x: Elem) returns (h: nat)
    requires RedBlack(Plug(c, Mk(d, t, x, Leaf)))
    ensures !x.red ==> RemoveInv(c, t, h)
    ensures x.red ==> c.Up? && RedOk(t) && RedC(c, IsRed(t)) && RootBlack(c) && BhIs(t, h) && BhC(c, h)
  {
    var s := Mk(d, t, x, Leaf);
    PlugRed(c, s);
    var hh: nat :| BhIs(Plug(c, s), hh);
    h := SplitBh(c, s, hh);
    if x.red { RedMono(c, t); }
  }

  lemma RedMono(c: Ctx, t: Tree)
    ensures RedC(c, true) ==> RedC(c, IsRed(t))
  {
  }

  lemma {:induction false} RedGone(c: Ctx, t: Tree, h: nat)
    requires c.Up? && RedOk(t) && RedC(c, IsRed(t)) && RootBlack(c) && BhIs(t, h) && BhC(c, h)
    ensures RedBlack(Plug(c, t))
  {
    PlugRed(c, t);
    var hh := PlugBh(c, t, h);
  }

  /** The successor s of a node with two children moves up into its place: the contents lose that node only. */
  lemma {:induction false} SuccessorOrder(c: Ctx, t: Tree, below: Ctx, s: Tree, e: Elem)
    requires t.Nd? && t.r == Plug(below, s) && s.Nd? && s.l.Leaf? && Spine(below) && e.n == s.e.n && e.key == s.e.key
    ensures InOrder(Plug(CatC(below, Up(Right, e, t.l, c)), s.r)) == Before(c) + InOrder(t.l) + InOrder(t.r) + After(c)
  {
    var base := Up(Right, e, t.l, c);
    CatPlug(below, base, s.r);
    PlugOrder(CatC(below, base), s.r);
    PlugOrder(below, s);
    Regroup(Before(c) + InOrder(t.l), [Item(e.n, e.key)], InOrder(s.r), After(below), After(c));
    assert InOrder(s) == [Item(e.n, e.key)] + InOrder(s.r);
  }

  lemma Regroup(a: seq<Item>, x: seq<Item>, b: seq<Item>, d: seq<Item>, f: seq<Item>)
    ensures a + x + b + (d + f) == a + ([] + (x + b) + d) + f
  {
  }

  // ---------------------------------------------------------------- height (src/util/tree.h:54-56)

  ghost function Height(t: Tree): nat {
    if t.Leaf? then 0 else 1 + if Height(t.l) < Height(t.r) then Height(t.r) else Height(t.l)
  }

  ghost function Pow2(n: nat): nat { if n == 0 then 1 else 2 * Pow2(n - 1) }

  /** At most every second node of a path is red. */
  lemma {:induction false} HeightByBlack(t: Tree, h: nat)
    requires RedOk(t) && BhIs(t, h)
    ensures Height(t) <= 2 * h + (if IsRed(t) then 1 else 0)
  {
    if t.Nd? {
      HeightByBlack(t.l, if t.e.red then h else h - 1);
      HeightByBlack(t.r, if t.e.red then h else h - 1);
    }
  }

  lemma {:induction false} SizeByBlack(t: Tree, h: nat)
    requires BhIs(t, h)
    ensures Pow2(h) <= |InOrder(t)| + 1
  {
    if t.Nd? {
      SizeByBlack(t.l, if t.e.red then h else h - 1);
      SizeByBlack(t.r, if t.e.red then h else h - 1);
    }
  }

  lemma {:induction false} Pow2Mono(a: nat, b: nat)
    requires a <= b
    ensures Pow2(a) <= Pow2(b)
    decreases b
  {
    if a < b { Pow2Mono(a, b - 1); }
  }

  lemma {:induction false} Pow2Double(n: nat)
    ensures Pow2(2 * n) == Pow2(n) * Pow2(n)
  {
    if n > 0 {
      Pow2Double(n - 1);
      var p := Pow2(n - 1);
      assert Pow2(2 * n) == 2 * Pow2(2 * n - 1) == 4 * (p * p);
      assert Pow2(n) * Pow2(n) == (2 * p) * (2 * p);
    }
  }

  /** The height is at most 2 lg (n + 1). */
  lemma {:induction false} HeightBound(t: Tree)
    requires RedBlack(t)
    ensures Pow2(Height(t)) <= (|InOrder(t)| + 1) * (|InOrder(t)| + 1)
  {
    var h: nat :| BhIs(t, h);
    HeightByBlack(t, h);
    SizeByBlack(t, h);
    Pow2Mono(Height(t), 2 * h);
    Pow2Double(h);
    SquareMono(Pow2(h), |InOrder(t)| + 1);
  }

  lemma SquareMono(a: nat, b: nat)
    requires a <= b
    ensures a * a <= b * b
  {
    assert b * b == a * b + (b - a) * b;
    assert a * b == a * a + a * (b - a);
  }
}
