/**
 The red-black tree of src/util/tree.h, pointer by pointer.

 `tree` is a ghost picture of what the pointers form.  The rotations and link updates below are proved to
 turn the picture into the picture they mean; the colour loops then work on pictures.
 */
module RbTrees {
  import opened RbZipper

  ghost function LinkOf(n: Node): Link
    reads n
  {
    Link(n.key, n.red, n.left, n.right, n.parent)
  }

  class RbTree {
    var root: Node?
    ghost var nodes: set<Node>
    ghost var tree: Tree

    /** The fields of n are those that the shape t prescribes. */
    ghost predicate Sees(t: Tree, n: Node)
      reads n
    {
      Cnt(t, n) == 1 && View(t, null, n) == LinkOf(n)
    }

    /** The pointers, parent links included, form exactly `tree`. */
    ghost predicate Represents()
      reads this, nodes
    {
      && root == RootOf(tree)
      && Within(tree, nodes)
      && (forall n {:trigger Sees(tree, n)} | n in nodes :: Sees(tree, n))
    }

    ghost function Contents(): seq<Item>
      reads this
    {
      InOrder(tree)
    }

    ghost predicate Valid()
      reads this, nodes
    {
      Represents() && RedBlack(tree) && Sorted(Contents())
    }

    constructor ()
      ensures Valid() && Contents() == [] && nodes == {}
    {
      root, nodes, tree := null, {}, Leaf;
      new;
      assert BhIs(Leaf, 0);
    }

    /** What the pointers say at a place of the tree, and that its neighbours are different nodes. */
    lemma {:induction false} Look(c: Ctx, t: Tree)
      requires Represents() && tree == Plug(c, t) && t.Nd?
      ensures t.e.n in nodes && LinkOf(t.e.n) == Link(t.e.key, t.e.red, RootOf(t.l), RootOf(t.r), Par(c))
      ensures RootOf(t.l) != null ==> RootOf(t.l) != RootOf(t.r)
      ensures t.e.n == root <==> c.Top?
    {
      PlugWithin(c, t, nodes);
      PlugView(c, t, t.e.n);
      assert Sees(tree, t.e.n);
      if t.l.Nd? {
        assert t.l.e.n in nodes && Sees(tree, t.l.e.n);
        PlugView(c, t, t.l.e.n);
        RootCnt(t.r);
      }
      if c.Up? { RootAbove(c, t, t.e.n); }
    }

    lemma {:induction false} RootAbove(c: Ctx, t: Tree, n: Node)
      requires Represents() && tree == Plug(c, t) && c.Up? && Cnt(t, n) > 0 && n in nodes
      ensures root != null && root != n
    {
      assert Sees(tree, n);
      PlugView(c, t, n);
      if c.up.Up? {
        MkView(c.d, t, c.e, c.sib, null, n);
        RootAbove(c.up, Mk(c.d, t, c.e, c.sib), n);
      }
    }

    // -------------------------------------------------------------- rotations (src/util/tree.h:336-374)

    method RotateLeftLinks(elm: Node) returns (tmp: Node)
      requires elm.right != null && {elm, elm.right} <= nodes
      requires elm.parent != null ==> elm.parent in nodes
      requires elm.right.left != null ==> elm.right.left in nodes
      requires elm.right != elm && elm.parent != elm && elm.parent != elm.right
      requires elm.right.left != elm && elm.right.left != elm.right
      requires elm.right.left != null ==> elm.right.left != elm.parent
      modifies this`root, nodes`left, nodes`right, nodes`parent
      ensures tmp == old(elm.right)
      ensures root == if old(elm.parent) == null then tmp else old(root)
      ensures forall n {:trigger LinkOf(n)} | n in nodes ::
        LinkOf(n) == RotateLink(Left, elm, tmp, old(elm.right.left), old(elm.parent), old(LinkOf(n)), n)
    {
      tmp := elm.right;
      elm.right := tmp.left;
      if elm.right != null {
        tmp.left.parent := elm;
      }
      tmp.parent := elm.parent;
      if tmp.parent != null {
        if elm == elm.parent.left {
          elm.parent.left := tmp;
        } else {
          elm.parent.right := tmp;
        }
      } else {
        root := tmp;
      }
      tmp.left := elm;
      elm.parent := tmp;
    }

    method RotateRightLinks(elm: Node) returns (tmp: Node)
      requires elm.left != null && {elm, elm.left} <= nodes
      requires elm.parent != null ==> elm.parent in nodes
      requires elm.left.right != null ==> elm.left.right in nodes
      requires elm.left != elm && elm.parent != elm && elm.parent != elm.left
      requires elm.left.right != elm && elm.left.right != elm.left
      requires elm.left.right != null ==> elm.left.right != elm.parent
      modifies this`root, nodes`left, nodes`right, nodes`parent
      ensures tmp == old(elm.left)
      ensures root == if old(elm.parent) == null then tmp else old(root)
      ensures forall n {:trigger LinkOf(n)} | n in nodes ::
        LinkOf(n) == RotateLink(Right, elm, tmp, old(elm.left.right), old(elm.parent), old(LinkOf(n)), n)
    {
      tmp := elm.left;
      elm.left := tmp.right;
      if elm.left != null {
        tmp.right.parent := elm;
      }
      tmp.parent := elm.parent;
      if tmp.parent != null {
        if elm == elm.parent.left {
          elm.parent.left := tmp;
        } else {
          elm.parent.right := tmp;
        }
      } else {
        root := tmp;
      }
      tmp.right := elm;
      elm.parent := tmp;
    }

    /** Rotating towards d at x, whose child on the other side is y: the in-order contents stay. */
    method Rotate(d: Side, elm: Node, ghost c: Ctx, ghost a: Tree, ghost x: Elem, ghost b: Tree, ghost y: Elem, ghost z: Tree)
      requires Represents() && tree == Plug(c, Mk(d, a, x, Mk(d, b, y, z))) && elm == x.n
      modifies this`root, this`tree, nodes`left, nodes`right, nodes`parent
      ensures Represents() && tree == Plug(c, Mk(d, Mk(d, a, x, b), y, z))
      ensures Contents() == old(Contents())
    {
      RotateReady(c, d, a, x, b, y, z);
      ghost var before := tree;
      if d.Left? {
        var _ := RotateLeftLinks(elm);
      } else {
        var _ := RotateRightLinks(elm);
      }
      tree := Plug(c, Mk(d, Mk(d, a, x, b), y, z));
      assert old(Sees(before, x.n));
      forall n | n in nodes ensures Sees(tree, n) {
        assert old(Sees(before, n));
        RotateView(c, d, a, x, b, y, z, n);
      }
    }

    lemma {:induction false} RotateReady(c: Ctx, d: Side, a: Tree, x: Elem, b: Tree, y: Elem, z: Tree)
      requires Represents() && tree == Plug(c, Mk(d, a, x, Mk(d, b, y, z)))
      ensures {x.n, y.n} <= nodes && Par(c) != x.n && Par(c) != y.n && x.n != y.n
      ensures RootOf(b) != x.n && RootOf(b) != y.n && (RootOf(b) != null ==> RootOf(b) != Par(c) && RootOf(b) in nodes)
      ensures c.Up? ==> Par(c) in nodes
      ensures LinkOf(x.n).Kid(d.Other()) == y.n && x.n.parent == Par(c) && LinkOf(y.n).Kid(d) == RootOf(b)
      ensures var t' := Plug(c, Mk(d, Mk(d, a, x, b), y, z));
        Within(t', nodes) && InOrder(t') == Contents() && RootOf(t') == if c.Top? then y.n else root
    {
      RotateOrder(c, d, a, x, b, y, z);
      PlugRoot(c, Mk(d, a, x, Mk(d, b, y, z)), Mk(d, Mk(d, a, x, b), y, z));
      PlugWithin(c, Mk(d, Mk(d, a, x, b), y, z), nodes);
      var s := Mk(d, b, y, z);
      var t := Mk(d, a, x, s);
      Look(c, t);
      assert tree == Plug(Up(d.Other(), x, a, c), s);
      Look(Up(d.Other(), x, a, c), s);
      PlugWithin(c, t, nodes);
      PlugWithin(Up(d.Other(), x, a, c), s, nodes);
      assert Within(b, nodes);
      assert Sees(tree, x.n) && Sees(tree, y.n);
      RotateApart(c, d, a, x, b, y, z, x.n);
      RotateApart(c, d, a, x, b, y, z, y.n);
      if c.Up? {
        assert Sees(tree, c.e.n);
        RotateApart(c, d, a, x, b, y, z, c.e.n);
      }
    }

    method Paint(elm: Node, red: bool, ghost c: Ctx, ghost t: Tree)
      requires Represents() && tree == Plug(c, t) && t.Nd? && t.e.n == elm
      modifies this`tree, nodes`red
      ensures Represents() && tree == Plug(c, t.(e := t.e.(red := red)))
      ensures Contents() == old(Contents())
    {
      PaintOrder(c, t, red);
      Look(c, t);
      ghost var before := tree;
      elm.red := red;
      tree := Plug(c, t.(e := t.e.(red := red)));
      PlugRoot(c, t, t.(e := t.e.(red := red)));
      PlugWithin(c, t, nodes);
      PlugWithin(c, t.(e := t.e.(red := red)), nodes);
      forall n | n in nodes ensures Sees(tree, n) {
        assert old(Sees(before, n));
        PaintView(c, t, red, n);
      }
    }

    // -------------------------------------------------------------- linking nodes in and out

    /** Hangs the fresh node elm below the hole of c: RB_SET and src/util/tree.h:609-616. */
    method Attach(elm: Node, parent: Node?, comp: int, ghost c: Ctx)
      requires Represents() && tree == Plug(c, Leaf) && elm !in nodes
      requires parent == Par(c) && (c.Up? ==> (comp < 0 <==> c.d.Left?))
      modifies this, nodes`left, nodes`right, elm`left, elm`right, elm`parent, elm`red
      ensures Represents() && tree == Plug(c, Nd(Leaf, Elem(elm, elm.key, true), Leaf))
      ensures nodes == old(nodes) + {elm}
    {
      ghost var before, x := tree, Elem(elm, elm.key, true);
      PlugWithin(c, Leaf, nodes);
      NotWithin(tree, nodes, elm);
      elm.parent := parent;
      elm.left, elm.right := null, null;
      elm.red := true;
      if parent != null {
        if comp < 0 {
          parent.left := elm;
        } else {
          parent.right := elm;
        }
      } else {
        root := elm;
      }
      PlugRoot(c, Leaf, Nd(Leaf, x, Leaf));
      WithinMore(tree, nodes, elm);
      nodes := nodes + {elm};
      PlugWithin(c, Leaf, nodes);
      tree := Plug(c, Nd(Leaf, x, Leaf));
      PlugWithin(c, Nd(Leaf, x, Leaf), nodes);
      forall n | n in nodes ensures Sees(tree, n) {
        assert n != elm ==> old(Sees(before, n));
        AttachView(c, x, n);
      }
    }

    static lemma NotWithin(t: Tree, S: set<Node>, x: Node)
      requires Within(t, S) && x !in S
      ensures Cnt(t, x) == 0
    {
    }

    /** Unlinks elm, which has at most the child k (src/util/tree.h:534-542 and 567-578). */
    method Splice(elm: Node, child: Node?, ghost c: Ctx, ghost d: Side, ghost t: Tree, ghost x: Elem)
      requires Represents() && tree == Plug(c, Mk(d, t, x, Leaf)) && elm == x.n && child == RootOf(t)
      modifies this, nodes`left, nodes`right, nodes`parent
      ensures Represents() && tree == Plug(c, t)
      ensures nodes == old(nodes) - {elm}
      ensures LinkOf(elm) == old(LinkOf(elm))
    {
      ghost var before := tree;
      SpliceReady(c, d, t, x);
      var parent := elm.parent;
      if child != null {
        child.parent := parent;
      }
      if parent != null {
        if parent.left == elm {
          parent.left := child;
        } else {
          parent.right := child;
        }
      } else {
        root := child;
      }
      PlugRoot(c, Mk(d, t, x, Leaf), t);
      PlugWithin(c, Mk(d, t, x, Leaf), nodes);
      PlugWithin(c, t, nodes);
      tree := Plug(c, t);
      WithinLess(tree, nodes, elm);
      nodes := nodes - {elm};
      assert old(Sees(before, elm));
      forall n | n in nodes ensures Sees(tree, n) {
        assert old(Sees(before, n));
        SpliceView(c, d, t, x, n);
      }
    }

    lemma {:induction false} SpliceReady(c: Ctx, d: Side, t: Tree, x: Elem)
      requires Represents() && tree == Plug(c, Mk(d, t, x, Leaf))
      ensures x.n in nodes && x.n.parent == Par(c) && Par(c) != x.n && RootOf(t) != x.n
      ensures RootOf(t) != null ==> RootOf(t) in nodes && RootOf(t) != Par(c)
      ensures c.Up? ==> Par(c) in nodes
      ensures Cnt(Plug(c, t), x.n) == 0
    {
      Look(c, Mk(d, t, x, Leaf));
      PlugWithin(c, Mk(d, t, x, Leaf), nodes);
      assert Sees(tree, x.n);
      PlugView(c, Mk(d, t, x, Leaf), x.n);
      PlugView(c, t, x.n);
      MkView(d, t, x, Leaf, null, x.n);
      RootCnt(t);
      if c.Up? {
        assert Sees(tree, c.e.n);
        PlugView(c, Mk(d, t, x, Leaf), c.e.n);
        MkView(d, t, x, Leaf, null, c.e.n);
      }
    }

    /** Puts elm, which is not in the tree, in the place of was (src/util/tree.h:546-557). */
    method Replace(was: Node, elm: Node, ghost c: Ctx, ghost l: Tree, ghost x: Elem, ghost r: Tree)
      requires Represents() && tree == Plug(c, Nd(l, x, r)) && was == x.n && elm !in nodes && l.Nd?
      modifies this, nodes`left, nodes`right, nodes`parent, elm`left, elm`right, elm`parent, elm`red
      ensures Represents() && tree == Plug(c, Nd(l, Elem(elm, elm.key, x.red), r))
      ensures nodes == old(nodes) - {was} + {elm}
    {
      ghost var before, s := tree, Elem(elm, elm.key, x.red);
      ReplaceReady(c, l, x, r);
      NotWithin(tree, nodes, elm);
      ReplaceLinks(was, elm);
      PlugRoot(c, Nd(l, x, r), Nd(l, s, r));
      tree := Plug(c, Nd(l, s, r));
      nodes := nodes - {was} + {elm};
      assert old(Sees(before, was));
      forall n | n in nodes ensures Sees(tree, n) {
        assert n != elm ==> old(Sees(before, n));
        ReplaceView(c, l, x, r, s, n);
      }
      ReplaceWithin(c, l, x, s, r, old(nodes));
    }

    method ReplaceLinks(was: Node, elm: Node)
      requires elm !in nodes && was in nodes && was.left != null && was.left in nodes
      requires was.right != null ==> was.right in nodes
      requires was.parent != null ==> was.parent in nodes
      requires was.parent != was && was.left != was && was.right != was && was.left != was.parent
      requires was.right != null ==> was.right != was.parent
      modifies this`root, nodes`left, nodes`right, nodes`parent, elm`left, elm`right, elm`parent, elm`red
      ensures root == if old(was.parent) == null then elm else old(root)
      ensures LinkOf(elm) == old(LinkOf(was)).(key := elm.key)
      ensures forall n {:trigger LinkOf(n)} | n in nodes && n != was ::
        LinkOf(n) == ReplaceLink(was, elm, old(was.left), old(was.right), old(was.parent), old(LinkOf(n)), n)
    {
      elm.left, elm.right, elm.parent, elm.red := was.left, was.right, was.parent, was.red;
      if was.parent != null {
        if was.parent.left == was {
          was.parent.left := elm;
        } else {
          was.parent.right := elm;
        }
      } else {
        root := elm;
      }
      was.left.parent := elm;
      if was.right != null {
        was.right.parent := elm;
      }
    }

    static lemma {:induction false} ReplaceWithin(c: Ctx, l: Tree, x: Elem, s: Elem, r: Tree, S: set<Node>)
      requires Within(Plug(c, Nd(l, x, r)), S) && Cnt(Plug(c, Nd(l, x, r)), x.n) == 1
      ensures Within(Plug(c, Nd(l, s, r)), S - {x.n} + {s.n})
    {
      PlugWithin(c, Nd(l, x, r), S);
      PlugView(c, Nd(l, x, r), x.n);
      PlugView(c, Leaf, x.n);
      PlugWithin(c, Leaf, S);
      WithinLess(Plug(c, Leaf), S, x.n);
      WithinMore(Plug(c, Leaf), S - {x.n}, s.n);
      WithinLess(l, S, x.n);
      WithinMore(l, S - {x.n}, s.n);
      WithinLess(r, S, x.n);
      WithinMore(r, S - {x.n}, s.n);
      PlugWithin(c, Leaf, S - {x.n} + {s.n});
      PlugWithin(c, Nd(l, s, r), S - {x.n} + {s.n});
    }

    lemma {:induction false} ReplaceReady(c: Ctx, l: Tree, x: Elem, r: Tree)
      requires Represents() && tree == Plug(c, Nd(l, x, r))
      ensures x.n in nodes && LinkOf(x.n) == Link(x.key, x.red, RootOf(l), RootOf(r), Par(c))
      ensures Par(c) != x.n && RootOf(l) != x.n && RootOf(r) != x.n
      ensures RootOf(l) != null ==> RootOf(l) in nodes && RootOf(l) != Par(c)
      ensures RootOf(r) != null ==> RootOf(r) in nodes && RootOf(r) != Par(c)
      ensures c.Up? ==> Par(c) in nodes
    {
      var t := Nd(l, x, r);
      Look(c, t);
      PlugWithin(c, t, nodes);
      assert Sees(tree, x.n);
      PlugView(c, t, x.n);
      RootCnt(l);
      RootCnt(r);
      if c.Up? {
        assert Sees(tree, c.e.n);
        PlugView(c, t, c.e.n);
      }
    }

    // -------------------------------------------------------------- insertion (src/util/tree.h:401-443, 590-619)

    /** The loop invariant of RB_INSERT_COLOR at elm. */
    ghost predicate Inserting(elm: Node, parent: Node?, c: Ctx, t: Tree, h: nat)
      reads this, nodes, parent
    {
      && Represents() && tree == Plug(c, t) && InsertInv(c, t, h)
      && t.e.n == elm && parent == Par(c) && (parent != null ==> parent.red == c.e.red)
    }

    method InsertColor(elm0: Node, ghost c0: Ctx, ghost t0: Tree, ghost h0: nat)
      requires Represents() && tree == Plug(c0, t0) && InsertInv(c0, t0, h0) && t0.e.n == elm0
      modifies this`root, this`tree, nodes`left, nodes`right, nodes`parent, nodes`red
      ensures Represents() && RedBlack(tree) && Contents() == old(Contents())
    {
      var elm: Node := elm0;
      ghost var c, t, h := c0, t0, h0;
      var parent := ParentOf(elm, c, t);
      while parent != null && parent.red
        invariant Inserting(elm, parent, c, t, h)
        invariant Contents() == old(Contents())
        decreases if c.Up? && c.e.red then 1 else 0, c
      {
        LookUp(c, t);
        InsertAbove(c, t, h);
        var gparent := parent.parent;
        if parent == gparent.left {
          var tmp := gparent.right;
          if tmp != null && tmp.red {
            c, t, h := RedUncle(parent, gparent, tmp, c, t, h);
            elm := gparent;
          } else {
            elm, c, t := BlackUncle(Left, elm, parent, gparent, c, t, h);
          }
        } else {
          var tmp := gparent.left;
          if tmp != null && tmp.red {
            c, t, h := RedUncle(parent, gparent, tmp, c, t, h);
            elm := gparent;
          } else {
            elm, c, t := BlackUncle(Right, elm, parent, gparent, c, t, h);
          }
        }
        parent := ParentOf(elm, c, t);
      }
      InsertDone(c, t, h);
      Paint(root, false, Top, tree);
    }

    /** Parent, grandparent and uncle, as their pointers show them. */
    lemma {:induction false} LookUp(c: Ctx, t: Tree)
      requires Represents() && tree == Plug(c, t) && t.Nd? && c.Up? && c.e.red && RootBlack(c)
      ensures c.up.Up? && c.e.n.parent == c.up.e.n && c.up.e.n in nodes
      ensures LinkOf(c.up.e.n).Kid(c.up.d) == c.e.n && LinkOf(c.up.e.n).Kid(c.up.d.Other()) == RootOf(c.up.sib)
      ensures c.e.n != RootOf(c.up.sib)
      ensures c.up.sib.Nd? ==> c.up.sib.e.n.red == c.up.sib.e.red
    {
      var p := Mk(c.d, t, c.e, c.sib);
      Look(c.up, p);
      Look(c.up.up, Mk(c.up.d, p, c.up.e, c.up.sib));
      if c.up.sib.Nd? {
        assert tree == Plug(Up(c.up.d.Other(), c.up.e, p, c.up.up), c.up.sib);
        Look(Up(c.up.d.Other(), c.up.e, p, c.up.up), c.up.sib);
      }
    }

    method ParentOf(elm: Node, ghost c: Ctx, ghost t: Tree) returns (parent: Node?)
      requires Represents() && tree == Plug(c, t) && t.Nd? && t.e.n == elm
      ensures parent == Par(c) && (parent != null ==> parent.red == c.e.red)
    {
      Look(c, t);
      parent := elm.parent;
      if c.Up? { Look(c.up, Mk(c.d, t, c.e, c.sib)); }
    }

    /** Parent and uncle turn black, the grandparent red, and the loop goes on from there. */
    method RedUncle(parent: Node, gparent: Node, tmp: Node, ghost c: Ctx, ghost t: Tree, ghost h: nat)
      returns (ghost c': Ctx, ghost t': Tree, ghost h': nat)
      requires Represents() && tree == Plug(c, t) && InsertInv(c, t, h)
      requires c.Up? && c.e.red && c.up.Up? && c.e.n == parent && c.up.e.n == gparent
      requires IsRed(c.up.sib) && c.up.sib.e.n == tmp
      modifies this`tree, nodes`red
      ensures Represents() && tree == Plug(c', t') && InsertInv(c', t', h') && t'.e.n == gparent && c' == c.up.up
      ensures Contents() == old(Contents())
    {
      ghost var p, g, u := Mk(c.d, t, c.e, c.sib), c.up.e, c.up.sib;
      c' := c.up.up;
      InsertRecolor(c, t, h);
      Paint(tmp, false, Up(c.up.d.Other(), g, p, c'), u);
      u := u.(e := u.e.(red := false));
      Paint(parent, false, Up(c.up.d, g, u, c'), p);
      p := p.(e := p.e.(red := false));
      Paint(gparent, true, c', Mk(c.up.d, p, g, u));
      t', h' := Mk(c.up.d, p, g.(red := true), u), h + 1;
    }

    /** With a black uncle: at most two rotations, after which the parent of the node under repair is black.
        d is the side of the grandparent on which the parent hangs. */
    method BlackUncle(d: Side, elm: Node, parent0: Node, gparent: Node, ghost c0: Ctx, ghost t0: Tree, ghost h: nat)
      returns (elm': Node, ghost c': Ctx, ghost t': Tree)
      requires Represents() && tree == Plug(c0, t0) && InsertInv(c0, t0, h)
      requires c0.Up? && c0.e.red && c0.up.Up? && c0.up.d == d && t0.e.n == elm && c0.e.n == parent0 && c0.up.e.n == gparent
      requires !IsRed(c0.up.sib)
      modifies this`root, this`tree, nodes`left, nodes`right, nodes`parent, nodes`red
      ensures Represents() && tree == Plug(c', t') && InsertInv(c', t', h) && t'.e.n == elm'
      ensures c'.Up? && !c'.e.red
      ensures Contents() == old(Contents())
    {
      elm', c', t' := elm, c0, t0;
      var parent := parent0;
      Look(c0.up, Mk(c0.d, t0, c0.e, c0.sib));
      var inner := if d.Left? then parent.right else parent.left;
      if inner == elm {
        Rotate(d, parent, c0.up, c0.sib, c0.e, Kid(t0, d), t0.e, Kid(t0, d.Other()));
        c', t' := Up(d, t0.e, Kid(t0, d.Other()), c0.up), Mk(d, c0.sib, c0.e, Kid(t0, d));
        elm', parent := parent, elm;
        InsertInner(c0, t0, h);
      }
      InsertOuter(c', t', h);
      ghost var g, u, up := c'.up.e, c'.up.sib, c'.up.up;
      Paint(parent, false, c'.up, Mk(d, t', c'.e, c'.sib));
      ghost var pe := c'.e.(red := false);
      Paint(gparent, true, up, Mk(d, Mk(d, t', pe, c'.sib), g, u));
      Rotate(d.Other(), gparent, up, u, g.(red := true), c'.sib, pe, t');
      c' := Up(d, pe, Mk(d.Other(), u, g.(red := true), c'.sib), up);
    }

    /** RB_INSERT: a node with the same key is returned and nothing changes; otherwise elm is added. */
    method Insert(elm: Node) returns (found: Node?)
      requires Valid() && elm !in nodes
      modifies this, nodes`left, nodes`right, nodes`parent, nodes`red, elm`left, elm`right, elm`parent, elm`red
      ensures Valid()
      ensures found == null <==> !HasKey(old(Contents()), elm.key)
      ensures found == null ==> Contents() == Inserted(old(Contents()), Item(elm, elm.key)) && nodes == old(nodes) + {elm}
      ensures found != null ==> found in nodes && found.key == elm.key && nodes == old(nodes) && tree == old(tree) && root == old(root)
      ensures found != null ==> forall n | n in nodes + {elm} :: LinkOf(n) == old(LinkOf(n))
    {
      var tmp := root;
      var parent: Node? := null;
      var comp := 0;
      ghost var c, t := Top, tree;
      while tmp != null
        invariant unchanged(this) && unchanged(nodes) && unchanged(elm)
        invariant tree == Plug(c, t) && tmp == RootOf(t) && parent == Par(c) && Seeking(c, elm.key)
        invariant c.Up? ==> (comp < 0 <==> c.d.Left?)
        decreases t
      {
        parent := tmp;
        Look(c, t);
        comp := if elm.key < parent.key then -1 else if elm.key == parent.key then 0 else 1;
        if comp < 0 {
          SeekLeft(c, t, elm.key);
          tmp := tmp.left;
          c, t := Up(Left, t.e, t.r, c), t.l;
        } else if comp > 0 {
          SeekRight(c, t, elm.key);
          tmp := tmp.right;
          c, t := Up(Right, t.e, t.l, c), t.r;
        } else {
          FoundKey(c, t);
          return tmp;
        }
      }
      SeekEnd(c, Item(elm, elm.key), true);
      ghost var x := Elem(elm, elm.key, true);
      ghost var h := InsertStart(c, x);
      Attach(elm, parent, comp, c);
      InsertColor(elm, c, Nd(Leaf, x, Leaf), h);
      return null;
    }

    /** RB_MINMAX with a negative argument: the first element in order. */
    method Min() returns (first: Node?)
      requires Valid()
      ensures first == null <==> Contents() == []
      ensures first != null ==> first in nodes && Contents()[0] == Item(first, first.key)
    {
      var tmp := root;
      first := null;
      ghost var c, t := Top, tree;
      while tmp != null
        invariant tree == Plug(c, t) && tmp == RootOf(t) && first == Par(c) && Before(c) == []
        invariant c.Up? ==> c.d.Left? && c.e.n in nodes && c.e.key == c.e.n.key
        decreases t
      {
        Look(c, t);
        first := tmp;
        tmp := tmp.left;
        c, t := Up(Left, t.e, t.r, c), t.l;
      }
      PlugOrder(c, Leaf);
    }

    // -------------------------------------------------------------- removal (src/util/tree.h:445-588)

    /** RB_REMOVE_COLOR: parent and elm delimit the place that is one black node short. */
    method RemoveColor(parent0: Node?, elm0: Node?, ghost c0: Ctx, ghost t0: Tree, ghost h0: nat)
      requires Represents() && tree == Plug(c0, t0) && RemoveInv(c0, t0, h0)
      requires parent0 == Par(c0) && elm0 == RootOf(t0)
      modifies this`root, this`tree, nodes`left, nodes`right, nodes`parent, nodes`red
      ensures Represents() && RedBlack(tree) && Contents() == old(Contents())
    {
      var parent, elm := parent0, elm0;
      ghost var c, t, h := c0, t0, h0;
      LookHole(c, t);
      while (elm == null || !elm.red) && elm != root
        invariant Represents() && tree == Plug(c, t) && RemoveInv(c, t, h)
        invariant parent == Par(c) && elm == RootOf(t)
        invariant elm != null ==> elm.red == t.e.red
        invariant elm == root <==> c.Top?
        invariant Contents() == old(Contents())
        decreases if IsRed(t) || c.Top? then 0 else 1, c
      {
        LookSibling(c, t, h);
        if parent.left == elm {
          var tmp := parent.right;
          parent, elm, c, t, h := RemoveStep(Left, parent, tmp, c, t, h);
        } else {
          var tmp := parent.left;
          parent, elm, c, t, h := RemoveStep(Right, parent, tmp, c, t, h);
        }
        LookHole(c, t);
      }
      RemoveDone(c, t, h);
      if elm != null {
        Paint(elm, false, c, t);
      }
    }

    lemma {:induction false} LookHole(c: Ctx, t: Tree)
      requires Represents() && tree == Plug(c, t)
      ensures t.Nd? ==> t.e.n.red == t.e.red
      ensures RootOf(t) == root <==> c.Top?
    {
      if t.Nd? {
        Look(c, t);
      } else if c.Up? {
        PlugNd(c, t);
      }
    }

    lemma {:induction false} LookSibling(c: Ctx, t: Tree, h: nat)
      requires Represents() && tree == Plug(c, t) && RemoveInv(c, t, h) && c.Up? && !IsRed(t)
      ensures LinkOf(c.e.n).Kid(c.d) == RootOf(t) && LinkOf(c.e.n).Kid(c.d.Other()) == RootOf(c.sib)
      ensures c.sib.Nd? && RootOf(c.sib) != RootOf(t)
      ensures c.sib.e.n.red == c.sib.e.red && c.e.n.red == c.e.red && c.e.n.parent == Par(c.up)
      ensures c.sib.e.n.left == RootOf(c.sib.l) && c.sib.e.n.right == RootOf(c.sib.r)
      ensures c.sib.l.Nd? ==> c.sib.l.e.n.red == c.sib.l.e.red
      ensures c.sib.r.Nd? ==> c.sib.r.e.n.red == c.sib.r.e.red
    {
      RemoveAside(c, t, h);
      Look(c.up, Mk(c.d, t, c.e, c.sib));
      var cs := Up(c.d.Other(), c.e, t, c.up);
      Look(cs, c.sib);
      LookHole(Up(Left, c.sib.e, c.sib.r, cs), c.sib.l);
      LookHole(Up(Right, c.sib.e, c.sib.l, cs), c.sib.r);
    }

    /** One round of the loop, for a hole on side d of parent with the sibling tmp. */
    method RemoveStep(d: Side, parent0: Node, tmp0: Node, ghost c0: Ctx, ghost t0: Tree, ghost h0: nat)
      returns (parent: Node?, elm: Node?, ghost c: Ctx, ghost t: Tree, ghost h: nat)
      requires Represents() && tree == Plug(c0, t0) && RemoveInv(c0, t0, h0) && c0.Up? && !IsRed(t0)
      requires c0.d == d && parent0 == c0.e.n && tmp0 == RootOf(c0.sib)
      modifies this`root, this`tree, nodes`left, nodes`right, nodes`parent, nodes`red
      ensures Represents() && tree == Plug(c, t) && RemoveInv(c, t, h) && parent == Par(c) && elm == RootOf(t)
      ensures IsRed(t) || c.Top? || c == c0.up
      ensures Contents() == old(Contents())
    {
      var tmp := tmp0;
      c, t, h := c0, t0, h0;
      LookSibling(c, t, h);
      if tmp.red {
        tmp, c := RedSibling(d, parent0, tmp, c, t, h);
      }
      LookSibling(c, t, h);
      if (tmp.left == null || !tmp.left.red) && (tmp.right == null || !tmp.right.red) {
        RemoveMoveUp(c, t, h);
        Paint(tmp, true, Up(d.Other(), c.e, t, c.up), c.sib);
        c, t, h := c.up, Mk(d, t, c.e, c.sib.(e := c.sib.e.(red := true))), if c.e.red then h else h + 1;
        elm := parent0;
        Look(c, t);
        parent := elm.parent;
      } else {
        RedNephew(d, parent0, tmp, c, t, h);
        parent, elm := null, root;
        c, t := Top, tree;
        h := RemoveWhole(t);
      }
    }

    method RedSibling(d: Side, parent: Node, tmp: Node, ghost c: Ctx, ghost t: Tree, ghost h: nat)
      returns (tmp': Node, ghost c': Ctx)
      requires Represents() && tree == Plug(c, t) && RemoveInv(c, t, h) && c.Up? && !IsRed(t)
      requires c.d == d && parent == c.e.n && tmp == RootOf(c.sib) && IsRed(c.sib)
      modifies this`root, this`tree, nodes`left, nodes`right, nodes`parent, nodes`red
      ensures Represents() && tree == Plug(c', t) && RemoveInv(c', t, h) && c'.Up? && c'.e.red && c'.e.n == parent
      ensures c'.d == d && tmp' == RootOf(c'.sib) && !IsRed(c'.sib)
      ensures Contents() == old(Contents())
    {
      RemoveAside(c, t, h);
      RemoveRedSibling(c, t, h);
      ghost var near, far := Kid(c.sib, d), Kid(c.sib, d.Other());
      ghost var pe, se := c.e.(red := true), c.sib.e.(red := false);
      Paint(tmp, false, Up(d.Other(), c.e, t, c.up), c.sib);
      Paint(parent, true, c.up, Mk(d, t, c.e, Mk(d, near, se, far)));
      Rotate(d, parent, c.up, t, pe, near, se, far);
      c' := Up(d, pe, near, Up(d, se, far, c.up));
      Look(c'.up, Mk(d, t, pe, near));
      tmp' := if d.Left? then parent.right else parent.left;
    }

    /** The inner nephew, which is red, is rotated above the sibling. */
    method TurnNephew(d: Side, parent: Node, tmp: Node, ghost c: Ctx, ghost t: Tree, ghost h: nat)
      returns (tmp': Node, ghost c': Ctx)
      requires Represents() && tree == Plug(c, t) && RemoveInv(c, t, h) && c.Up? && !IsRed(t)
      requires c.d == d && parent == c.e.n && tmp == RootOf(c.sib) && c.sib.Nd? && !IsRed(c.sib)
      requires IsRed(Kid(c.sib, d)) && !IsRed(Kid(c.sib, d.Other()))
      modifies this`root, this`tree, nodes`left, nodes`right, nodes`parent, nodes`red
      ensures Represents() && tree == Plug(c', t) && RemoveInv(c', t, h) && c'.Up? && c'.e == c.e && c'.up == c.up && c'.d == d
      ensures tmp' == RootOf(c'.sib) && c'.sib.Nd? && !IsRed(c'.sib) && IsRed(Kid(c'.sib, d.Other()))
      ensures Contents() == old(Contents())
    {
      LookSibling(c, t, h);
      RemoveInner(c, t, h);
      var inner := if d.Left? then tmp.left else tmp.right;
      var o := d.Other();
      ghost var near, far := Kid(c.sib, d), Kid(c.sib, o);
      ghost var cs, ne, se := Up(o, c.e, t, c.up), near.e.(red := false), c.sib.e.(red := true);
      if inner != null {
        Paint(inner, false, Up(d, c.sib.e, far, cs), near);
      }
      Paint(tmp, true, cs, Mk(o, far, c.sib.e, Mk(d, Kid(near, d), ne, Kid(near, o))));
      Rotate(o, tmp, cs, far, se, Kid(near, o), ne, Kid(near, d));
      c' := c.(sib := Mk(o, Mk(o, far, se, Kid(near, o)), ne, Kid(near, d)));
      Look(c.up, Mk(d, t, c.e, c'.sib));
      tmp' := if d.Left? then parent.right else parent.left;
    }

    /** With a red nephew the shortage is repaired at the parent. */
    method RedNephew(d: Side, parent: Node, tmp0: Node, ghost c0: Ctx, ghost t: Tree, ghost h: nat)
      requires Represents() && tree == Plug(c0, t) && RemoveInv(c0, t, h) && c0.Up? && !IsRed(t)
      requires c0.d == d && parent == c0.e.n && tmp0 == RootOf(c0.sib) && c0.sib.Nd? && !IsRed(c0.sib)
      requires IsRed(c0.sib.l) || IsRed(c0.sib.r)
      modifies this`root, this`tree, nodes`left, nodes`right, nodes`parent, nodes`red
      ensures Represents() && RedBlack(tree) && Contents() == old(Contents())
    {
      var tmp, o := tmp0, d.Other();
      ghost var c := c0;
      LookSibling(c, t, h);
      var outer := if d.Left? then tmp.right else tmp.left;
      if outer == null || !outer.red {
        tmp, c := TurnNephew(d, parent, tmp, c, t, h);
      }
      LookSibling(c, t, h);
      RemoveOuter(c, t, h);
      ghost var near, far := Kid(c.sib, d), Kid(c.sib, o);
      Paint(tmp, parent.red, Up(o, c.e, t, c.up), c.sib);
      ghost var se, pe := c.sib.e.(red := c.e.red), c.e.(red := false);
      Paint(parent, false, c.up, Mk(d, t, c.e, Mk(d, near, se, far)));
      Look(Up(o, pe, t, c.up), Mk(d, near, se, far));
      outer := if d.Left? then tmp.right else tmp.left;
      if outer != null {
        Paint(outer, false, Up(o, se, near, Up(o, pe, t, c.up)), far);
      }
      Rotate(d, parent, c.up, t, pe, near, se, Black(far));
    }

    /** RB_REMOVE: takes elm out, whatever children it has. */
    method Remove(elm: Node)
      requires Valid() && elm in nodes
      modifies this, nodes`left, nodes`right, nodes`parent, nodes`red
      ensures Valid() && nodes == old(nodes) - {elm}
      ensures Contents() == Removed(old(Contents()), elm)
    {
      assert Sees(tree, elm);
      ghost var c, t := FindNode(Top, tree, elm);
      Look(c, t);
      if elm.left == null {
        RemoveSingle(elm, elm.right, c, Right, t.r, t.e);
      } else if elm.right == null {
        RemoveSingle(elm, elm.left, c, Left, t.l, t.e);
      } else {
        RemoveDouble(elm, c, t);
      }
    }

    method RemoveSingle(elm: Node, child: Node?, ghost c: Ctx, ghost d: Side, ghost t: Tree, ghost x: Elem)
      requires Valid() && elm in nodes && tree == Plug(c, Mk(d, t, x, Leaf)) && x.n == elm && child == RootOf(t)
      modifies this, nodes`left, nodes`right, nodes`parent, nodes`red
      ensures Valid() && nodes == old(nodes) - {elm}
      ensures Contents() == Removed(old(Contents()), elm)
    {
      Look(c, Mk(d, t, x, Leaf));
      assert Sees(tree, elm);
      var parent, red := elm.parent, elm.red;
      ghost var h := SpliceRules(c, d, t, x);
      ghost var s := Before(c) + InOrder(t) + After(c);
      assert s == Before(c) + InOrder(Mk(d, t, x, Leaf).l) + InOrder(Mk(d, t, x, Leaf).r) + After(c);
      RemovedHere(c, Mk(d, t, x, Leaf), s);
      PlugOrder(c, t);
      Splice(elm, child, c, d, t, x);
      if !red {
        RemoveColor(parent, child, c, t, h);
      } else {
        RedGone(c, t, h);
      }
    }

    /** The leftmost node below the right child of was. */
    method Successor(was: Node, ghost c: Ctx, ghost t: Tree) returns (elm: Node, ghost below: Ctx, ghost s: Tree)
      requires Valid() && tree == Plug(c, t) && t.Nd? && t.e.n == was && t.r.Nd?
      ensures s.Nd? && s.e.n == elm && s.l.Leaf? && Spine(below) && t.r == Plug(below, s)
      ensures tree == Plug(CatC(below, Up(Right, t.e, t.l, c)), s)
    {
      Look(c, t);
      elm := was.right;
      ghost var base := Up(Right, t.e, t.l, c);
      below, s := Top, t.r;
      Look(base, s);
      var left := elm.left;
      while left != null
        invariant s.Nd? && elm == s.e.n && left == RootOf(s.l) && Spine(below)
        invariant t.r == Plug(below, s) && tree == Plug(CatC(below, base), s)
        decreases s
      {
        below, s := Up(Left, s.e, s.r, below), s.l;
        elm := left;
        Look(CatC(below, base), s);
        left := elm.left;
      }
    }

    /** With two children, the successor is unlinked and put in the place of was. */
    method RemoveDouble(was: Node, ghost c: Ctx, ghost t: Tree)
      requires Valid() && was in nodes && tree == Plug(c, t) && t.Nd? && t.e.n == was && t.l.Nd? && t.r.Nd?
      modifies this, nodes`left, nodes`right, nodes`parent, nodes`red
      ensures Valid() && nodes == old(nodes) - {was}
      ensures Contents() == Removed(old(Contents()), was)
    {
      var elm, below, s := Successor(was, c, t);
      ghost var at := CatC(below, Up(Right, t.e, t.l, c));
      Look(at, s);
      var child, parent, red := elm.right, elm.parent, elm.red;
      ghost var h := SpliceRules(at, Right, s.r, s.e);
      ghost var e := Elem(elm, elm.key, t.e.red);
      ghost var at' := CatC(below, Up(Right, e, t.l, c));
      SuccessorRules(c, t, below, s, e, h);
      Splice(elm, child, at, Right, s.r, s.e);
      if parent == was {
        parent := elm;
      }
      Replace(was, elm, c, t.l, t.e, Plug(below, s.r));
      if !red {
        RemoveColor(parent, child, at', s.r, h);
      } else {
        RedGone(at', s.r, h);
      }
    }

    /** What the three steps of a removal with two children lead to. */
    lemma {:induction false} SuccessorRules(c: Ctx, t: Tree, below: Ctx, s: Tree, e: Elem, h: nat)
      requires Valid() && tree == Plug(c, t) && t.Nd? && t.r == Plug(below, s) && s.Nd? && s.l.Leaf? && Spine(below)
      requires e == Elem(s.e.n, s.e.key, t.e.red)
      ensures s.e.n != t.e.n && (below.Up? ==> below.e.n != t.e.n)
      ensures var at, at' := CatC(below, Up(Right, t.e, t.l, c)), CatC(below, Up(Right, e, t.l, c));
        && Plug(at, s.r) == Plug(c, Nd(t.l, t.e, Plug(below, s.r)))
        && Plug(at', s.r) == Plug(c, Nd(t.l, e, Plug(below, s.r)))
        && (RemoveInv(at, s.r, h) ==> RemoveInv(at', s.r, h))
        && (RedC(at, IsRed(s.r)) && RootBlack(at) && BhC(at, h) ==> RedC(at', IsRed(s.r)) && RootBlack(at') && BhC(at', h))
        && Par(at') == (if Par(at) == t.e.n then s.e.n else Par(at))
        && InOrder(Plug(at', s.r)) == Removed(Contents(), t.e.n) && Sorted(Removed(Contents(), t.e.n))
    {
      SuccessorApart(c, t, below, s);
      CatPlug(below, Up(Right, t.e, t.l, c), s.r);
      CatPlug(below, Up(Right, e, t.l, c), s.r);
      CatSwap(below, Right, t.e, e, t.l, c, false, h);
      CatSwap(below, Right, t.e, e, t.l, c, IsRed(s.r), h);
      SuccessorOrder(c, t, below, s, e);
      Look(c, t);
      assert Sees(tree, t.e.n);
      RemovedHere(c, t, Before(c) + InOrder(t.l) + InOrder(t.r) + After(c));
    }

    lemma {:induction false} SuccessorApart(c: Ctx, t: Tree, below: Ctx, s: Tree)
      requires Represents() && tree == Plug(c, t) && t.Nd? && t.r == Plug(below, s) && s.Nd?
      ensures s.e.n != t.e.n && (below.Up? ==> below.e.n != t.e.n)
    {
      Look(c, t);
      assert Sees(tree, t.e.n);
      PlugView(c, t, t.e.n);
      PlugView(below, s, t.e.n);
    }
  }
}
