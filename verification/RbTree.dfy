/** The red-black tree of include/uv/tree.h: parent-linked nodes, rewritten in
    place. */
module RbTree {
  import opened Sides
  import opened Order
  import Sequences
  import opened RbShape
  import opened RbMemory
  import opened RbInsertColor
  import opened RbRemoveColor
  import opened RbRemove
  import opened RbSearch

  class RbTree {
    const cmp: Cmp
    var root: Node?
    ghost var nodes: set<Node>
    ghost var shape: Tree

    // The heap holds the tree Plug(p, t), seen from the position of t.
    ghost predicate At(p: Path, t: Tree)
      reads this, nodes
    {
      Holds(Snap(nodes), root, p, t)
    }

    ghost predicate Valid()
      reads this, nodes
    {
      && TotalOrder(cmp) && Sorted(cmp, Keys(Inorder(shape)))
      && At(Top, shape) && RedBlack(shape) && nodes == Nodes(shape)
    }

    // The elements in ascending order.
    ghost function Contents(): seq<Node>
      reads this
    {
      Inorder(shape)
    }

    // Moving the point of view
    // ------------------------

    lemma GoUp(p: Path, t: Tree)
      requires At(p, t) && p.Step?
      ensures At(p.up, Out(p, t))
    {
      ZoomOut(Snap(nodes), root, p, t);
    }

    lemma GoDown(p: Path, t: Tree, s: Side)
      requires At(p, t) && t.Bin?
      ensures At(In(p, t, s), Near(s, t))
    {
      ZoomIn(Snap(nodes), root, p, t, s);
    }

    lemma Look(p: Path, t: Tree)
      requires At(p, t)
      ensures t.Bin? ==>
        && t.n in nodes && t.n.left == Ptr(t.left) && t.n.right == Ptr(t.right)
        && t.n.parent == Up(p) && t.n.red == t.red
      ensures p.Step? ==>
        && p.n in nodes && p.n.red == p.red && p.n.parent == Up(p.up)
        && p.n.left == (if p.side.L? then Ptr(t) else Ptr(p.sib))
        && p.n.right == (if p.side.L? then Ptr(p.sib) else Ptr(t))
        && (t.Bin? ==> Ptr(p.sib) != t.n)
      ensures p.Top? ==> root == Ptr(t)
    {
      Links(Snap(nodes), root, p, t);
    }

    lemma LookUp2(p: Path, t: Tree)
      requires At(p, t) && p.Step? && p.up.Step?
      ensures p.n in nodes && p.n.left == (if p.side.L? then Ptr(t) else Ptr(p.sib))
      ensures p.n.right == (if p.side.L? then Ptr(p.sib) else Ptr(t))
      ensures t.Bin? ==> Ptr(p.sib) != t.n
      ensures p.up.n in nodes && p.up.n.left == (if p.up.side.L? then p.n else Ptr(p.up.sib))
      ensures p.up.n.right == (if p.up.side.L? then Ptr(p.up.sib) else p.n)
      ensures p.up.sib.Bin? ==> p.up.sib.n in nodes && p.up.sib.n.red == p.up.sib.red
    {
      Look(p, t);
      GoUp(p, t);
      Look(p.up, Out(p, t));
      GoUp(p.up, Out(p, t));
      GoDown(p.up.up, Out(p.up, Out(p, t)), Other(p.up.side));
      Look(In(p.up.up, Out(p.up, Out(p, t)), Other(p.up.side)), p.up.sib);
    }

    lemma LookSib(p: Path, t: Tree)
      requires At(p, t) && p.Step? && p.sib.Bin?
      ensures p.n in nodes && p.n.left == (if p.side.L? then Ptr(t) else p.sib.n)
      ensures p.n.right == (if p.side.L? then p.sib.n else Ptr(t)) && p.n.parent == Up(p.up)
      ensures p.sib.n in nodes && p.sib.n.red == p.sib.red
      ensures p.sib.n.left == Ptr(p.sib.left) && p.sib.n.right == Ptr(p.sib.right)
      ensures p.sib.left.Bin? ==> p.sib.left.n in nodes && p.sib.left.n.red == p.sib.left.red
      ensures p.sib.right.Bin? ==> p.sib.right.n in nodes && p.sib.right.n.red == p.sib.right.red
    {
      Look(p, t);
      GoUp(p, t);
      var q := In(p.up, Out(p, t), Other(p.side));
      GoDown(p.up, Out(p, t), Other(p.side));
      Look(q, p.sib);
      GoDown(q, p.sib, L);
      Look(In(q, p.sib, L), p.sib.left);
      GoDown(q, p.sib, R);
      Look(In(q, p.sib, R), p.sib.right);
    }

    // Links and colours
    // -----------------

    // Whoever points down at elm, its parent or the head, points at child now.
    method ReplaceChild(parent: Node?, elm: Node, child: Node?)
      requires parent == null || parent in nodes
      modifies `root, nodes
      ensures forall n :: n in nodes && n != parent ==> unchanged(n)
      ensures parent == null ==> root == child
      ensures parent != null ==>
        && root == old(root)
        && parent.left == (if old(parent.left) == elm then child else old(parent.left))
        && parent.right == (if old(parent.left) == elm then old(parent.right) else child)
        && parent.parent == old(parent.parent) && parent.red == old(parent.red)
    {
      if parent != null {
        if parent.left == elm {
          parent.left := child;
        } else {
          parent.right := child;
        }
      } else {
        root := child;
      }
    }

    method RotateLeft(elm: Node, ghost p: Path, ghost t: Tree) returns (tmp: Node?)
      requires At(p, t) && t.Bin? && t.n == elm && t.right.Bin?
      modifies `root, nodes
      ensures At(p, Rot(L, t)) && tmp == t.right.n
    {
      hide Holds;
      ghost var m := Snap(nodes);
      CanTurn(m, root, p, t, L);
      tmp := elm.right;
      elm.right := tmp.left;
      if elm.right != null {
        tmp.left.parent := elm;
      }
      tmp.parent := elm.parent;
      ReplaceChild(elm.parent, elm, tmp);
      tmp.left := elm;
      elm.parent := tmp;
      TurnedHolds(m, Snap(nodes), old(root), root, p, t, L);
    }

    method RotateRight(elm: Node, ghost p: Path, ghost t: Tree) returns (tmp: Node?)
      requires At(p, t) && t.Bin? && t.n == elm && t.left.Bin?
      modifies `root, nodes
      ensures At(p, Rot(R, t)) && tmp == t.left.n
    {
      hide Holds;
      ghost var m := Snap(nodes);
      CanTurn(m, root, p, t, R);
      tmp := elm.left;
      elm.left := tmp.right;
      if elm.left != null {
        tmp.right.parent := elm;
      }
      tmp.parent := elm.parent;
      ReplaceChild(elm.parent, elm, tmp);
      tmp.right := elm;
      elm.parent := tmp;
      TurnedHolds(m, Snap(nodes), old(root), root, p, t, R);
    }

    method SetColor(elm: Node, red: bool, ghost p: Path, ghost t: Tree)
      requires At(p, t) && t.Bin? && t.n == elm
      modifies nodes
      ensures At(p, t.(red := red))
    {
      hide Holds;
      ghost var m := Snap(nodes);
      Links(m, root, p, t);
      elm.red := red;
      assert Snap(nodes) == m[elm := m[elm].(red := red)];
      Painted(m, root, p, t, red);
    }

    method SetBlackRed(black: Node, red: Node, ghost p: Path, ghost t: Tree, ghost s: Side)
      requires At(p, t) && t.Bin? && t.n == red && Near(s, t).Bin? && Near(s, t).n == black
      modifies nodes
      ensures At(p, Mk(s, Near(s, t).(red := false), red, true, Far(s, t)))
    {
      GoDown(p, t, s);
      SetColor(black, false, In(p, t, s), Near(s, t));
      GoUp(In(p, t, s), Near(s, t).(red := false));
      SetColor(red, true, p, Out(In(p, t, s), Near(s, t).(red := false)));
    }

    // Rebalancing after an insertion
    // ------------------------------

    method PushColor(parent: Node, gparent: Node, uncle: Node, ghost p: Path, ghost t: Tree)
      requires At(p, t) && p.Step? && p.n == parent && p.up.Step? && p.up.n == gparent
      requires IsRed(p.up.sib) && p.up.sib.n == uncle
      modifies nodes
      ensures At(p.up.up, Pushed(p, t))
    {
      ghost var q, s, g := p.up.up, p.up.side, Out(p.up, Out(p, t));
      GoUp(p, t);
      GoUp(p.up, Out(p, t));
      GoDown(q, g, Other(s));
      SetColor(uncle, false, In(q, g, Other(s)), p.up.sib);
      ghost var g' := Out(In(q, g, Other(s)), p.up.sib.(red := false));
      GoUp(In(q, g, Other(s)), p.up.sib.(red := false));
      SetBlackRed(parent, gparent, q, g', s);
    }

    // The two steps for a parent that is a left child of the grandparent.
    method InsertColorLeft(elm: Node, parent: Node, gparent: Node, ghost p: Path, ghost t: Tree, ghost h: int)
      returns (next: Node, ghost q: Path, ghost u: Tree, ghost k: int)
      requires At(p, t) && Raised(p, t, h) && t.n == elm && p.Step? && p.red && p.n == parent
      requires p.up.Step? && p.up.n == gparent && p.up.side == L
      modifies `root, nodes
      ensures At(q, u) && Raised(q, u, k) && u.n == next && Depth(q) < Depth(p)
      ensures Inorder(Plug(q, u)) == Inorder(Plug(p, t))
    {
      LookUp2(p, t);
      var tmp := gparent.right;
      if tmp != null && tmp.red {
        PushedOk(p, t, h);
        PushColor(parent, gparent, tmp, p, t);
        return gparent, p.up.up, Pushed(p, t), h + 1;
      }
      q, u, next := p, t, elm;
      var mid := parent;
      if parent.right == elm {
        StraightOk(p, t, h);
        GoUp(p, t);
        tmp := RotateLeft(parent, p.up, Out(p, t));
        q, u := Straight(p, t), Near(L, Rot(L, Out(p, t)));
        GoDown(p.up, Rot(L, Out(p, t)), L);
        mid, next := elm, parent;
      }
      SettledOk(q, u, h);
      GoUp(q, u);
      GoUp(q.up, Out(q, u));
      SetBlackRed(mid, gparent, q.up.up, Out(q.up, Out(q, u)), L);
      ghost var g := Mk(L, Mk(L, u, q.n, false, q.sib), gparent, true, q.up.sib);
      tmp := RotateRight(gparent, q.up.up, g);
      GoDown(q.up.up, Rot(R, g), L);
      q := Settled(q);
      k := h;
    }

    // The two steps for a parent that is a right child of the grandparent.
    method InsertColorRight(elm: Node, parent: Node, gparent: Node, ghost p: Path, ghost t: Tree, ghost h: int)
      returns (next: Node, ghost q: Path, ghost u: Tree, ghost k: int)
      requires At(p, t) && Raised(p, t, h) && t.n == elm && p.Step? && p.red && p.n == parent
      requires p.up.Step? && p.up.n == gparent && p.up.side == R
      modifies `root, nodes
      ensures At(q, u) && Raised(q, u, k) && u.n == next && Depth(q) < Depth(p)
      ensures Inorder(Plug(q, u)) == Inorder(Plug(p, t))
    {
      LookUp2(p, t);
      var tmp := gparent.left;
      if tmp != null && tmp.red {
        PushedOk(p, t, h);
        PushColor(parent, gparent, tmp, p, t);
        return gparent, p.up.up, Pushed(p, t), h + 1;
      }
      q, u, next := p, t, elm;
      var mid := parent;
      if parent.left == elm {
        StraightOk(p, t, h);
        GoUp(p, t);
        tmp := RotateRight(parent, p.up, Out(p, t));
        q, u := Straight(p, t), Near(R, Rot(R, Out(p, t)));
        GoDown(p.up, Rot(R, Out(p, t)), R);
        mid, next := elm, parent;
      }
      SettledOk(q, u, h);
      GoUp(q, u);
      GoUp(q.up, Out(q, u));
      SetBlackRed(mid, gparent, q.up.up, Out(q.up, Out(q, u)), R);
      ghost var g := Mk(R, Mk(R, u, q.n, false, q.sib), gparent, true, q.up.sib);
      tmp := RotateLeft(gparent, q.up.up, g);
      GoDown(q.up.up, Rot(L, g), R);
      q := Settled(q);
      k := h;
    }

    // Rebalancing after a removal
    // ---------------------------

    method LowerLeft(parent: Node, tmp: Node, ghost p: Path, ghost t: Tree, ghost h: int)
      requires At(p, t) && Short(p, t, h) && p.Step? && p.side == L && p.n == parent
      requires IsRed(p.sib) && p.sib.n == tmp
      modifies `root, nodes
      ensures At(Lowered(p), t)
    {
      LoweredOk(p, t, h);
      GoUp(p, t);
      SetBlackRed(tmp, parent, p.up, Out(p, t), R);
      ghost var g := Mk(L, t, parent, true, p.sib.(red := false));
      var up := RotateLeft(parent, p.up, g);
      GoDown(p.up, Rot(L, g), L);
      GoDown(In(p.up, Rot(L, g), L), Near(L, Rot(L, g)), L);
    }

    method LeanLeft(parent: Node, tmp: Node, oleft: Node, ghost p: Path, ghost t: Tree)
      requires At(p, t) && p.Step? && p.side == L && p.n == parent
      requires p.sib.Bin? && p.sib.n == tmp && p.sib.left.Bin? && p.sib.left.n == oleft
      modifies `root, nodes
      ensures At(Leaned(p), t)
    {
      ghost var q := In(p.up, Out(p, t), R);
      GoUp(p, t);
      GoDown(p.up, Out(p, t), R);
      SetBlackRed(oleft, tmp, q, p.sib, L);
      var up := RotateRight(tmp, q, Mk(L, p.sib.left.(red := false), tmp, true, p.sib.right));
      GoUp(q, Leaned(p).sib);
      GoDown(p.up, Out(q, Leaned(p).sib), L);
    }

    method RestoreLeft(parent: Node, tmp: Node, ghost p: Path, ghost t: Tree)
      requires At(p, t) && p.Step? && p.side == L && p.n == parent
      requires p.sib.Bin? && p.sib.n == tmp && IsRed(p.sib.right)
      modifies `root, nodes
      ensures At(p.up, Restored(p, t))
    {
      LookSib(p, t);
      Look(p, t);
      ghost var q := In(p.up, Out(p, t), R);
      GoUp(p, t);
      GoDown(p.up, Out(p, t), R);
      SetColor(tmp, parent.red, q, p.sib);
      ghost var y := p.sib.(red := p.red);
      GoUp(q, y);
      SetColor(parent, false, p.up, Out(q, y));
      q := In(p.up, Mk(L, t, parent, false, y), R);
      GoDown(p.up, Mk(L, t, parent, false, y), R);
      GoDown(q, y, R);
      Look(q, y);
      SetColor(tmp.right, false, In(q, y, R), y.right);
      y := y.(right := y.right.(red := false));
      GoUp(In(q, y, R), y.right);
      GoUp(q, y);
      var up := RotateLeft(parent, p.up, Mk(L, t, parent, false, y));
    }

    // One round for a position that is a left child; done: the loop is left.
    method RemoveColorLeft(parent: Node, elm: Node?, ghost p: Path, ghost t: Tree, ghost h: int)
      returns (next: Node?, above: Node?, done: bool, ghost q: Path, ghost u: Tree, ghost k: int)
      requires At(p, t) && Short(p, t, h) && !IsRed(t) && elm == Ptr(t)
      requires p.Step? && p.side == L && p.n == parent
      modifies `root, nodes
      ensures At(q, u) && Inorder(Plug(q, u)) == Inorder(Plug(p, t))
      ensures done ==> Fits(q, u, k) && next == root
      ensures !done ==>
        && Short(q, u, k) && next == Ptr(u) && above == Up(q)
        && (Depth(q) < Depth(p) || (Depth(q) == Depth(p) && IsRed(u)))
    {
      SiblingExists(p, t, h);
      LookSib(p, t);
      q := p;
      var tmp := parent.right;
      if tmp.red {
        LoweredOk(p, t, h);
        LowerLeft(parent, tmp, p, t, h);
        q := Lowered(p);
        SiblingExists(q, t, h);
        LookSib(q, t);
        tmp := parent.right;
      }
      if (tmp.left == null || !tmp.left.red) && (tmp.right == null || !tmp.right.red) {
        DrainedOk(q, t, h);
        GoUp(q, t);
        GoDown(q.up, Out(q, t), R);
        SetColor(tmp, true, In(q.up, Out(q, t), R), q.sib);
        GoUp(In(q.up, Out(q, t), R), q.sib.(red := true));
        k := if q.red then h else h + 1;
        q, u := q.up, Drained(q, t);
        Look(q, u);
        next, above, done := parent, parent.parent, false;
      } else {
        if tmp.right == null || !tmp.right.red {
          // tmp.left is a red node here
          LeanedOk(q, t, h);
          LeanLeft(parent, tmp, tmp.left, q, t);
          q := Leaned(q);
          LookSib(q, t);
          tmp := parent.right;
        }
        RestoredOk(q, t, h);
        RestoreLeft(parent, tmp, q, t);
        k := if q.red then h + 1 else h + 2;
        q, u := q.up, Restored(q, t);
        next, above, done := root, parent, true;
      }
    }

    method LowerRight(parent: Node, tmp: Node, ghost p: Path, ghost t: Tree, ghost h: int)
      requires At(p, t) && Short(p, t, h) && p.Step? && p.side == R && p.n == parent
      requires IsRed(p.sib) && p.sib.n == tmp
      modifies `root, nodes
      ensures At(Lowered(p), t)
    {
      LoweredOk(p, t, h);
      GoUp(p, t);
      SetBlackRed(tmp, parent, p.up, Out(p, t), L);
      ghost var g := Mk(R, t, parent, true, p.sib.(red := false));
      var up := RotateRight(parent, p.up, g);
      GoDown(p.up, Rot(R, g), R);
      GoDown(In(p.up, Rot(R, g), R), Near(R, Rot(R, g)), R);
    }

    method LeanRight(parent: Node, tmp: Node, oright: Node, ghost p: Path, ghost t: Tree)
      requires At(p, t) && p.Step? && p.side == R && p.n == parent
      requires p.sib.Bin? && p.sib.n == tmp && p.sib.right.Bin? && p.sib.right.n == oright
      modifies `root, nodes
      ensures At(Leaned(p), t)
    {
      ghost var q := In(p.up, Out(p, t), L);
      GoUp(p, t);
      GoDown(p.up, Out(p, t), L);
      SetBlackRed(oright, tmp, q, p.sib, R);
      var up := RotateLeft(tmp, q, Mk(R, p.sib.right.(red := false), tmp, true, p.sib.left));
      GoUp(q, Leaned(p).sib);
      GoDown(p.up, Out(q, Leaned(p).sib), R);
    }

    method RestoreRight(parent: Node, tmp: Node, ghost p: Path, ghost t: Tree)
      requires At(p, t) && p.Step? && p.side == R && p.n == parent
      requires p.sib.Bin? && p.sib.n == tmp && IsRed(p.sib.left)
      modifies `root, nodes
      ensures At(p.up, Restored(p, t))
    {
      LookSib(p, t);
      Look(p, t);
      ghost var q := In(p.up, Out(p, t), L);
      GoUp(p, t);
      GoDown(p.up, Out(p, t), L);
      SetColor(tmp, parent.red, q, p.sib);
      ghost var y := p.sib.(red := p.red);
      GoUp(q, y);
      SetColor(parent, false, p.up, Out(q, y));
      q := In(p.up, Mk(R, t, parent, false, y), L);
      GoDown(p.up, Mk(R, t, parent, false, y), L);
      GoDown(q, y, L);
      Look(q, y);
      SetColor(tmp.left, false, In(q, y, L), y.left);
      y := y.(left := y.left.(red := false));
      GoUp(In(q, y, L), y.left);
      GoUp(q, y);
      var up := RotateRight(parent, p.up, Mk(R, t, parent, false, y));
    }

    // One round for a position that is a right child; done: the loop is left.
    method RemoveColorRight(parent: Node, elm: Node?, ghost p: Path, ghost t: Tree, ghost h: int)
      returns (next: Node?, above: Node?, done: bool, ghost q: Path, ghost u: Tree, ghost k: int)
      requires At(p, t) && Short(p, t, h) && !IsRed(t) && elm == Ptr(t)
      requires p.Step? && p.side == R && p.n == parent
      modifies `root, nodes
      ensures At(q, u) && Inorder(Plug(q, u)) == Inorder(Plug(p, t))
      ensures done ==> Fits(q, u, k) && next == root
      ensures !done ==>
        && Short(q, u, k) && next == Ptr(u) && above == Up(q)
        && (Depth(q) < Depth(p) || (Depth(q) == Depth(p) && IsRed(u)))
    {
      SiblingExists(p, t, h);
      LookSib(p, t);
      q := p;
      var tmp := parent.left;
      if tmp.red {
        LoweredOk(p, t, h);
        LowerRight(parent, tmp, p, t, h);
        q := Lowered(p);
        SiblingExists(q, t, h);
        LookSib(q, t);
        tmp := parent.left;
      }
      if (tmp.right == null || !tmp.right.red) && (tmp.left == null || !tmp.left.red) {
        DrainedOk(q, t, h);
        GoUp(q, t);
        GoDown(q.up, Out(q, t), L);
        SetColor(tmp, true, In(q.up, Out(q, t), L), q.sib);
        GoUp(In(q.up, Out(q, t), L), q.sib.(red := true));
        k := if q.red then h else h + 1;
        q, u := q.up, Drained(q, t);
        Look(q, u);
        next, above, done := parent, parent.parent, false;
      } else {
        if tmp.left == null || !tmp.left.red {
          // tmp.right is a red node here
          LeanedOk(q, t, h);
          LeanRight(parent, tmp, tmp.right, q, t);
          q := Leaned(q);
          LookSib(q, t);
          tmp := parent.left;
        }
        RestoredOk(q, t, h);
        RestoreRight(parent, tmp, q, t);
        k := if q.red then h + 1 else h + 2;
        q, u := q.up, Restored(q, t);
        next, above, done := root, parent, true;
      }
    }

    // The loops around those rounds
    // -----------------------------

    // Above a position that is not the root, the root is another node.
    lemma RootAbove(p: Path, t: Tree)
      requires At(p, t) && p.Step?
      ensures root != null && root in nodes && root != Ptr(t)
      ensures RootBlack(p) ==> !root.red
    {
      RootIs(Snap(nodes), root, p, Ptr(t));
    }

    // The node at a position, or a root that is black already, becomes black.
    method Blacken(elm: Node?, ghost p: Path, ghost t: Tree)
      requires At(p, t)
      requires elm == Ptr(t) || (p.Step? && elm == root && RootBlack(p))
      modifies nodes
      ensures At(p, if elm == Ptr(t) then Blackened(t) else t)
    {
      hide Holds;
      ghost var m := Snap(nodes);
      Links(m, root, p, t);
      if p.Step? {
        RootAbove(p, t);
      }
      if elm != null {
        elm.red := false;
        assert Snap(nodes) == m[elm := m[elm].(red := false)];
        if elm == Ptr(t) {
          Painted(m, root, p, t, false);
        } else {
          assert Snap(nodes) == m;
        }
      }
    }

    // In all, at most as many rounds as the position is deep.
    method InsertColor(elm: Node, ghost p: Path, ghost t: Tree, ghost h: int)
      returns (ghost all: Tree, ghost rounds: nat)
      requires At(p, t) && Raised(p, t, h) && t.n == elm
      modifies `root, nodes
      ensures At(Top, all) && RedBlack(all) && Inorder(all) == Inorder(Plug(p, t))
      ensures rounds <= Depth(p)
    {
      var e := elm;
      rounds := 0;
      ghost var q, u, k := p, t, h;
      Look(q, u);
      while e.parent != null && e.parent.red
        invariant At(q, u) && Raised(q, u, k) && u.n == e
        invariant e in nodes && e.parent == Up(q) && (q.Step? ==> q.n in nodes && q.n.red == q.red)
        invariant Inorder(Plug(q, u)) == Inorder(Plug(p, t)) && rounds + Depth(q) <= Depth(p)
        decreases Depth(q)
      {
        rounds := rounds + 1;
        HasGrandparent(q, u, k);
        Look(q, u);
        LookUp2(q, u);
        var parent := e.parent;
        var gparent := parent.parent;
        if parent == gparent.left {
          e, q, u, k := InsertColorLeft(e, parent, gparent, q, u, k);
        } else {
          e, q, u, k := InsertColorRight(e, parent, gparent, q, u, k);
        }
        Look(q, u);
      }
      BlackenedOk(q, u, k);
      if q.Step? {
        RootAbove(q, u);
      } else {
        Look(q, u);
      }
      Blacken(root, q, u);
      ghost var u' := if q.Top? then Blackened(u) else u;
      all := Plug(q, u');
      Unzip(Snap(nodes), root, q, u');
      SameInorder(q, u, u');
    }

    method RemoveColor(parent: Node?, elm: Node?, ghost p: Path, ghost t: Tree, ghost h: int)
      returns (ghost all: Tree, ghost rounds: nat)
      requires At(p, t) && Short(p, t, h) && elm == Ptr(t) && parent == Up(p)
      modifies `root, nodes
      ensures At(Top, all) && RedBlack(all) && Inorder(all) == Inorder(Plug(p, t))
      ensures rounds <= Depth(p) + 1
    {
      hide Holds, Fits, Bal, PathBal, PathNoRR, NoRR, RootBlack, Inorder, Plug;
      var e, above, done := elm, parent, false;
      ghost var q, u, k := p, t, h;
      rounds := 0;
      LookAround(q, u);
      while (e == null || !e.red) && e != root
        invariant At(q, u) && Inorder(Plug(q, u)) == Inorder(Plug(p, t)) && !done
        invariant Short(q, u, k) && e == Ptr(u) && above == Up(q)
        invariant (e != null ==> e in nodes && e.red == u.red) && (e == root <==> q.Top?)
        invariant rounds + Depth(q) + (if IsRed(u) then 0 else 1) <= Depth(p) + 1
        decreases Depth(q), !IsRed(u)
      {
        rounds := rounds + 1;
        Look(q, u);
        SiblingExists(q, u, k);
        if above.left == e {
          e, above, done, q, u, k := RemoveColorLeft(above, e, q, u, k);
        } else {
          e, above, done, q, u, k := RemoveColorRight(above, e, q, u, k);
        }
        if done {
          break;
        }
        LookAround(q, u);
      }
      all := Finish(e, done, q, u, k);
    }

    // The root, or the red node that the loop stopped at, is coloured black.
    method Finish(e: Node?, done: bool, ghost q: Path, ghost u: Tree, ghost k: int) returns (ghost all: Tree)
      requires At(q, u)
      requires if done then Fits(q, u, k) && e == root else Short(q, u, k) && e == Ptr(u) && (IsRed(u) || q.Top?)
      modifies nodes
      ensures At(Top, all) && RedBlack(all) && Inorder(all) == Inorder(Plug(q, u))
    {
      ghost var u' := if e == Ptr(u) then Blackened(u) else u;
      if done {
        Replug(q, u, k);
        LookAround(q, u);
      } else {
        EndOk(q, u, k);
      }
      Blacken(e, q, u);
      all := Plug(q, u');
      Unzip(Snap(nodes), root, q, u');
    }

    lemma LookAround(p: Path, t: Tree)
      requires At(p, t)
      ensures t.Bin? ==> t.n in nodes && t.n.red == t.red
      ensures Ptr(t) == root <==> p.Top?
    {
      Look(p, t);
      if p.Step? {
        RootAbove(p, t);
      }
    }

    // The operations
    // --------------

    constructor (cmp: Cmp)
      requires TotalOrder(cmp)
      ensures Valid() && Contents() == [] && this.cmp == cmp
    {
      this.cmp := cmp;
      root, nodes, shape := null, {}, Leaf;
    }

    lemma Start(k: Key)
      requires Valid()
      ensures Between(cmp, Contents(), Top, shape, k)
      ensures root == Ptr(shape) && (root != null ==> root in nodes)
    {
      Look(Top, shape);
      assert Contents() == [] + Contents() + [];
    }

    // One step of a search towards k.
    lemma Descend(q: Path, u: Tree, k: Key, s: Side)
      requires Valid() && At(q, u) && Plug(q, u) == shape && Between(cmp, Contents(), q, u, k)
      requires u.Bin? && if s.L? then cmp(k, u.n.key) < 0 else cmp(k, u.n.key) > 0
      ensures At(In(q, u, s), Near(s, u)) && Plug(In(q, u, s), Near(s, u)) == shape
      ensures Between(cmp, Contents(), In(q, u, s), Near(s, u), k)
      ensures u.n.left == Ptr(u.left) && u.n.right == Ptr(u.right)
      ensures Near(s, u).Bin? ==> Near(s, u).n in nodes
      ensures Height(Near(s, u)) < Height(u)
    {
      Look(q, u);
      Narrow(cmp, Contents(), q, u, k, s);
      GoDown(q, u, s);
      assert Out(In(q, u, s), Near(s, u)) == u;
      Look(In(q, u, s), Near(s, u));
    }

    method Find(elm: Node) returns (r: Node?, ghost steps: nat)
      requires Valid()
      ensures r != null ==> r in Contents() && cmp(elm.key, r.key) == 0
      ensures r == null ==> forall n :: n in Contents() ==> cmp(elm.key, n.key) != 0
      ensures WithinBound(steps, |Contents()|)
    {
      hide TotalOrder, Sorted, Holds, RedBlack, Between;
      var tmp := root;
      ghost var q, u := Top, shape;
      r, steps := null, 0;
      Start(elm.key);
      while tmp != null
        invariant At(q, u) && Plug(q, u) == shape && tmp == Ptr(u) && (tmp != null ==> tmp in nodes)
        invariant Between(cmp, Contents(), q, u, elm.key) && r == null
        invariant steps + Height(u) <= Height(shape)
        decreases u
      {
        var comp := cmp(elm.key, tmp.key);
        steps := steps + 1;
        if comp < 0 {
          Descend(q, u, elm.key, L);
          tmp, q, u := tmp.left, In(q, u, L), u.left;
        } else if comp > 0 {
          Descend(q, u, elm.key, R);
          tmp, q, u := tmp.right, In(q, u, R), u.right;
        } else {
          r := tmp;
          break;
        }
      }
      Found(cmp, Contents(), q, u, elm.key);
      StepsBound(shape, steps);
      forall n | n in Contents() && cmp(elm.key, n.key) == 0 ensures r != null {
        AtBound(cmp, Contents(), elm.key, n);
      }
    }

    // The least element that is not below the key of elm.
    method NFind(elm: Node) returns (res: Node?, ghost steps: nat)
      requires Valid()
      ensures res == null ==> forall n :: n in Contents() ==> cmp(elm.key, n.key) > 0
      ensures res != null ==>
        && res in Contents() && cmp(elm.key, res.key) <= 0
        && forall n :: n in Contents() && cmp(elm.key, n.key) <= 0 ==> cmp(res.key, n.key) <= 0
      ensures WithinBound(steps, |Contents()|)
    {
      hide TotalOrder, Sorted, Holds, RedBlack, Between;
      var tmp := root;
      ghost var q, u := Top, shape;
      res, steps := null, 0;
      Start(elm.key);
      while tmp != null
        invariant At(q, u) && Plug(q, u) == shape && tmp == Ptr(u) && (tmp != null ==> tmp in nodes)
        invariant Between(cmp, Contents(), q, u, elm.key)
        invariant res == if After(q) == [] then null else After(q)[0]
        invariant steps + Height(u) <= Height(shape)
        decreases u
      {
        var comp := cmp(elm.key, tmp.key);
        steps := steps + 1;
        if comp < 0 {
          Descend(q, u, elm.key, L);
          res := tmp;
          tmp, q, u := tmp.left, In(q, u, L), u.left;
        } else if comp > 0 {
          Descend(q, u, elm.key, R);
          tmp, q, u := tmp.right, In(q, u, R), u.right;
        } else {
          res := tmp;
          break;
        }
      }
      Found(cmp, Contents(), q, u, elm.key);
      StepsBound(shape, steps);
      NFound(elm.key, q, u, res);
    }

    lemma NFound(k: Key, q: Path, u: Tree, res: Node?)
      requires TotalOrder(cmp) && Sorted(cmp, Keys(Contents()))
      requires var s, i := Contents(), LowerBound(cmp, Keys(Contents()), k);
               res == (if i < |s| then s[i] else null)
      ensures res == null ==> forall n :: n in Contents() ==> cmp(k, n.key) > 0
      ensures res != null ==>
        && res in Contents() && cmp(k, res.key) <= 0
        && forall n :: n in Contents() && cmp(k, n.key) <= 0 ==> cmp(res.key, n.key) <= 0
    {
      hide TotalOrder;
      forall n | n in Contents() && cmp(k, n.key) <= 0
        ensures res != null && cmp(res.key, n.key) <= 0
      {
        AtBound(cmp, Contents(), k, n);
        Opposite(cmp, n.key, n.key);
      }
      if res != null {
        Opposite(cmp, k, res.key);
      }
    }

    // RB_SET and the link from the parent; the new node is red.
    method Attach(elm: Node, parent: Node?, comp: int, ghost q: Path)
      requires At(q, Leaf) && elm !in nodes && parent == Up(q) && PathNodes(q) <= nodes
      requires q.Step? ==> q.side == if comp < 0 then L else R
      modifies `root, `nodes, nodes, elm
      ensures nodes == old(nodes) + {elm}
      ensures At(q, Bin(Leaf, elm, true, Leaf))
    {
      hide Holds;
      ghost var m := Snap(nodes);
      Links(m, root, q, Leaf);
      elm.parent := parent;
      elm.left, elm.right := null, null;
      elm.red := true;
      if parent != null {
        if comp < 0 {
          parent.left := elm;
        } else {
          parent.right := elm;
        }
      } else {
        root := elm;
      }
      nodes := nodes + {elm};
      Attached(m, Snap(nodes), old(root), root, q, elm);
    }

    // A red-black tree over all the nodes, in ascending order, is valid.
    lemma Accept(all: Tree)
      requires TotalOrder(cmp) && At(Top, all) && RedBlack(all) && Sorted(cmp, Keys(Inorder(all)))
      requires shape == all && forall n :: n in nodes ==> n in Inorder(all)
      ensures Valid()
    {
      hide TotalOrder, Sorted;
      RepNodes(Snap(nodes), all, null);
      forall n | n in nodes ensures n in Nodes(all) {
        InorderNodes(all, n);
      }
    }

    lemma Insertable(q: Path, elm: Node)
      requires Valid() && At(q, Leaf) && Plug(q, Leaf) == shape && Between(cmp, Contents(), q, Leaf, elm.key)
      ensures var s, i := Contents(), LowerBound(cmp, Keys(Contents()), elm.key);
              && s[..i] == Before(q) && s[i..] == After(q)
              && Sorted(cmp, Keys(s[..i] + [elm] + s[i..]))
      ensures elm !in nodes && PathNodes(q) <= nodes
      ensures forall n :: n in Contents() ==> cmp(elm.key, n.key) != 0
      ensures Raised(q, Bin(Leaf, elm, true, Leaf), 0)
    {
      hide TotalOrder, Sorted, Holds, AllBelow, AllAbove, LowerBound, Keys;
      var s, i := Contents(), LowerBound(cmp, Keys(Contents()), elm.key);
      Found(cmp, s, q, Leaf, elm.key);
      Splits(s, i, elm);
      SortedInsert(cmp, Keys(s), i, elm.key);
      NotThere(cmp, s, i, elm);
      InorderNodes(shape, elm);
      PlugNodes(q, Leaf);
      Unplug(q, Leaf);
      forall n | n in s ensures cmp(elm.key, n.key) != 0 {
        AtBound(cmp, s, elm.key, n);
      }
    }

    // The search loop of an insertion.
    method Search(elm: Node)
      returns (tmp: Node?, parent: Node?, comp: int, ghost q: Path, ghost u: Tree, ghost steps: nat)
      requires Valid()
      ensures At(q, u) && Plug(q, u) == shape && tmp == Ptr(u) && parent == Up(q)
      ensures Between(cmp, Contents(), q, u, elm.key)
      ensures tmp != null ==> tmp in Contents() && cmp(elm.key, tmp.key) == 0
      ensures q.Step? ==> q.side == if comp < 0 then L else R
      ensures WithinBound(steps, |Contents()|)
    {
      hide TotalOrder, Sorted, Holds, Between, RedBlack, LowerBound, Keys;
      tmp, parent, comp := root, null, 0;
      q, u, steps := Top, shape, 0;
      Start(elm.key);
      while tmp != null
        invariant At(q, u) && Plug(q, u) == shape && tmp == Ptr(u) && (tmp != null ==> tmp in nodes)
        invariant Between(cmp, Contents(), q, u, elm.key)
        invariant parent == Up(q) && (q.Step? ==> q.side == if comp < 0 then L else R)
        invariant steps + Height(u) <= Height(shape)
        decreases u
      {
        var c := cmp(elm.key, tmp.key);
        steps := steps + 1;
        if c == 0 {
          Found(cmp, Contents(), q, u, elm.key);
          break;
        }
        parent, comp := tmp, c;
        if comp < 0 {
          Descend(q, u, elm.key, L);
          tmp, q, u := tmp.left, In(q, u, L), u.left;
        } else {
          Descend(q, u, elm.key, R);
          tmp, q, u := tmp.right, In(q, u, R), u.right;
        }
      }
      StepsBound(shape, steps);
    }

    // Comparisons on the way down, and rounds of rebalancing.
    method Insert(elm: Node) returns (r: Node?, ghost steps: nat, ghost rounds: nat)
      requires Valid()
      modifies this, nodes, elm
      ensures Valid() && WithinBound(steps, |old(Contents())|) && WithinBound(rounds, |old(Contents())|)
      ensures r != null ==>
        && r in Contents() && cmp(elm.key, r.key) == 0
        && unchanged(this) && unchanged(elm) && forall n :: n in nodes ==> unchanged(n)
      ensures r == null ==>
        && (forall n :: n in old(Contents()) ==> cmp(elm.key, n.key) != 0)
        && nodes == old(nodes) + {elm}
        && var s := old(Contents()); var i := LowerBound(cmp, Keys(s), elm.key);
           Contents() == s[..i] + [elm] + s[i..]
    {
      hide TotalOrder, Sorted, Holds, Between, RedBlack, LowerBound, Keys, Raised, Plug, PathNodes, Nodes, WithinBound,
           Height;
      var tmp, parent, comp;
      ghost var q, u;
      tmp, parent, comp, q, u, steps := Search(elm);
      rounds := 0;
      StepsBound(shape, rounds);
      if tmp != null {
        return tmp, steps, rounds;
      }
      ghost var leaf := Bin(Leaf, elm, true, Leaf);
      Insertable(q, elm);
      forall n | n in nodes ensures n in Contents() {
        InorderNodes(shape, n);
      }
      InorderPlug(q, leaf);
      ghost var s, i := Contents(), LowerBound(cmp, Keys(Contents()), elm.key);
      assert Inorder(Plug(q, leaf)) == s[..i] + [elm] + s[i..];
      Attach(elm, parent, comp, q);
      DepthHeight(q, Leaf);
      ghost var all;
      all, rounds := InsertColor(elm, q, leaf, 0);
      StepsBound(shape, rounds);
      shape := all;
      Accept(all);
      r := null;
    }

    // A node with at most one child is bypassed.
    method Splice(elm: Node, parent: Node?, child: Node?, ghost p: Path, ghost t: Tree, ghost c: Tree)
      requires At(p, t) && t.Bin? && t.n == elm && parent == Up(p) && child == Ptr(c)
      requires (t.left.Leaf? && c == t.right) || (t.right.Leaf? && c == t.left)
      modifies `root, nodes
      ensures At(p, c)
      ensures elm.parent == old(elm.parent)
    {
      hide Holds;
      ghost var m := Snap(nodes);
      Spliceable(p, t, c);
      if child != null {
        child.parent := parent;
      }
      ReplaceChild(parent, elm, child);
      Spliced(m, Snap(nodes), old(root), root, p, t, c);
    }

    lemma Spliceable(p: Path, t: Tree, c: Tree)
      requires At(p, t) && t.Bin? && (c == t.right || c == t.left)
      ensures t.n in nodes && t.n.parent == Up(p) && t.n != Up(p) && t.n != Ptr(c)
      ensures c.Bin? ==> c.n in nodes && c.n != Up(p)
      ensures p.Step? ==>
        && p.n in nodes
        && p.n.left == (if p.side.L? then t.n else Ptr(p.sib))
        && p.n.right == (if p.side.L? then Ptr(p.sib) else t.n)
        && Ptr(p.sib) != t.n
      ensures p.Top? ==> root == t.n
    {
      Look(p, t);
      GoDown(p, t, L);
      Look(In(p, t, L), t.left);
      GoDown(p, t, R);
      Look(In(p, t, R), t.right);
      assert c.Bin? ==> c.n in Nodes(c) && c.n in Nodes(t);
    }

    // The first half of Transplant: elm gets the fields of gone, and whoever
    // points down at gone points at elm.
    method TakePlace(elm: Node, gone: Node, ghost p: Path)
      requires elm in nodes && gone in nodes && elm != gone && gone.parent == Up(p) && gone != Up(p) && elm != Up(p)
      requires p.Top? ==> root == gone
      requires p.Step? ==>
        && p.n in nodes
        && (if p.side.L? then p.n.left else p.n.right) == gone
        && (if p.side.L? then p.n.right else p.n.left) != gone
      modifies `root, nodes
      ensures Hung(old(Snap(nodes)), Snap(nodes), old(root), root, p, elm)
      ensures Snap(nodes)[elm] == old(Snap(nodes)[gone])
      ensures forall n :: n in nodes && n != elm && n != Up(p) ==> unchanged(n)
    {
      elm.left, elm.right, elm.parent, elm.red := gone.left, gone.right, gone.parent, gone.red;
      ReplaceChild(gone.parent, gone, elm);
    }

    // elm takes over the links and the colour of gone, and its place.
    method Transplant(elm: Node, gone: Node, ghost p: Path, ghost t: Tree)
      requires At(p, t) && t.Bin? && t.n == gone && t.left.Bin?
      requires elm in nodes && elm !in Nodes(t) && elm !in PathNodes(p)
      modifies `root, nodes
      ensures At(p, t.(n := elm))
    {
      hide Holds;
      ghost var m := Snap(nodes);
      Spliceable(p, t, t.left);
      Spliceable(p, t, t.right);
      Elsewhere(p, t, elm);
      TakePlace(elm, gone, p);
      assert gone in nodes && gone.left == t.left.n && gone.right == Ptr(t.right);
      gone.left.parent := elm;
      if gone.right != null {
        gone.right.parent := elm;
      }
      Transplanted(m, Snap(nodes), old(root), root, p, t, elm);
    }

    lemma Elsewhere(p: Path, t: Tree, elm: Node)
      requires At(p, t) && t.Bin? && elm !in Nodes(t) && elm !in PathNodes(p)
      ensures t.n.left == Ptr(t.left) && t.n.right == Ptr(t.right)
      ensures elm != t.n && elm != Ptr(t.left) && elm != Ptr(t.right) && elm != Up(p)
      ensures t.left.Bin? ==> Ptr(t.right) != t.left.n
    {
      Look(p, t);
      assert t.left.Bin? ==> t.left.n in Nodes(t.left);
      assert t.right.Bin? ==> t.right.n in Nodes(t.right);
    }

    // The last step of a removal: rebalancing if a black node went.
    method Settle(black: bool, parent: Node?, child: Node?, ghost p: Path, ghost c: Tree, ghost h: int)
      returns (ghost all: Tree, ghost rounds: nat)
      requires At(p, c) && child == Ptr(c) && parent == Up(p)
      requires if black then Short(p, c, h) else RedBlack(Plug(p, c))
      modifies `root, nodes
      ensures At(Top, all) && RedBlack(all) && Inorder(all) == Inorder(Plug(p, c))
      ensures rounds <= Depth(p) + 1
    {
      all, rounds := Plug(p, c), 0;
      if black {
        all, rounds := RemoveColor(parent, child, p, c, h);
      } else {
        Unzip(Snap(nodes), root, p, c);
      }
    }

    // Removal of a node with at most one child.
    method RemoveOuter(elm: Node, child: Node?, ghost p: Path, ghost t: Tree, ghost c: Tree)
      returns (ghost all: Tree, ghost rounds: nat)
      requires At(p, t) && t.Bin? && t.n == elm && child == Ptr(c) && RedBlack(Plug(p, t))
      requires (t.left.Leaf? && c == t.right) || (t.right.Leaf? && c == t.left)
      modifies `root, nodes
      ensures At(Top, all) && RedBlack(all)
      ensures Inorder(all) == Before(p) + (Inorder(t.left) + Inorder(t.right)) + After(p)
      ensures rounds <= Height(Plug(p, t))
    {
      hide Holds, RedBlack, Short, Height;
      Look(p, t);
      Deep(p, t);
      var parent, color := elm.parent, elm.red;
      SplicedOk(p, t, c);
      Splice(elm, parent, child, p, t, c);
      InorderPlug(p, c);
      assert Inorder(t.left) + Inorder(t.right) == Inorder(c);
      all, rounds := Settle(!color, parent, child, p, c, BlackHeight(t) - 1);
    }

    // Removal of a node with two children: its successor takes its place.
    method RemoveInner(gone: Node, ghost p: Path, ghost t: Tree)
      returns (ghost all: Tree, ghost steps: nat, ghost rounds: nat)
      requires At(p, t) && t.Bin? && t.n == gone && t.left.Bin? && t.right.Bin? && RedBlack(Plug(p, t))
      modifies `root, nodes
      ensures At(Top, all) && RedBlack(all)
      ensures Inorder(all) == Before(p) + (Inorder(t.left) + Inorder(t.right)) + After(p)
      ensures steps <= Height(Plug(p, t)) && rounds <= Height(Plug(p, t))
    {
      hide Holds, RedBlack, Short, Inorder, Nodes, PathNodes, Plug;
      Look(p, t);
      DeepSuccessor(p, t);
      steps := 0;
      GoDown(p, t, R);
      var elm := gone.right;
      ghost var q, u := In(p, t, R), t.right;
      Look(q, u);
      while elm.left != null
        invariant At(q, u) && u.Bin? && u.n == elm && elm in nodes && elm.left == Ptr(u.left)
        invariant MinPath(q, u) == SuccPath(p, t) && MinTree(u) == MinTree(t.right)
        invariant steps + Height(u) <= Height(t.right)
        modifies {}
        decreases u
      {
        steps := steps + 1;
        GoDown(q, u, L);
        elm := elm.left;
        q, u := In(q, u, L), u.left;
        Look(q, u);
      }
      Look(q, u);
      var child, parent, color := elm.right, elm.parent, elm.red;
      ghost var t' := t.(n := elm);
      SuccessorOut(p, t);
      SuccessorUp'(p, t);
      Splice(elm, parent, child, q, u, u.right);
      Swing(q, u.right, p, t.(right := PopMin(t.right)));
      if elm.parent == gone {
        parent := elm;
      }
      Transplant(elm, gone, p, t.(right := PopMin(t.right)));
      Swing(p, t'.(right := PopMin(t.right)), SuccPath(p, t'), u.right);
      all, rounds := Settle(!color, parent, child, SuccPath(p, t'), u.right, BlackHeight(u) - 1);
    }

    lemma Deep(p: Path, t: Tree)
      requires t.Bin?
      ensures Depth(p) + 1 <= Height(Plug(p, t)) && Height(t) <= Height(Plug(p, t))
    {
      DepthHeight(p, t);
    }

    lemma DeepSuccessor(p: Path, t: Tree)
      requires t.Bin? && t.right.Bin?
      ensures Depth(SuccPath(p, t.(n := Succ(t)))) + 1 <= Height(Plug(p, t)) && Height(t.right) <= Height(Plug(p, t))
    {
      var t' := t.(n := Succ(t));
      SuccessorPlug(p, t);
      Deep(SuccPath(p, t), MinTree(t.right));
      MinDepth(In(p, t, R), In(p, t', R), t.right);
      Deep(p, t);
    }

    // Two views of one tree.
    lemma Swing(p: Path, t: Tree, q: Path, u: Tree)
      requires At(p, t) && Plug(p, t) == Plug(q, u)
      ensures At(q, u)
    {
      Unzip(Snap(nodes), root, p, t);
      Unzip(Snap(nodes), root, q, u);
    }

    lemma SuccessorUp'(p: Path, t: Tree)
      requires At(p, t) && t.Bin? && t.right.Bin?
      ensures Succ(t) !in Nodes(t.(right := PopMin(t.right))) && Succ(t) !in PathNodes(p)
      ensures Up(SuccPath(p, t.(n := Succ(t)))) == if Up(SuccPath(p, t)) == t.n then Succ(t) else Up(SuccPath(p, t))
      ensures Plug(SuccPath(p, t), MinTree(t.right).right) == Plug(p, t.(right := PopMin(t.right)))
      ensures Plug(SuccPath(p, t.(n := Succ(t))), MinTree(t.right).right)
           == Plug(p, t.(n := Succ(t), right := PopMin(t.right)))
    {
      SuccessorApart(p, t);
      SuccessorUp(p, t);
      SuccessorPlug(p, t);
      SuccessorPlug(p, t.(n := Succ(t)));
    }

    // Steps down to the successor, and rounds of rebalancing.
    method Remove(elm: Node) returns (r: Node, ghost steps: nat, ghost rounds: nat)
      requires Valid() && elm in nodes
      modifies this, nodes
      ensures Valid() && r == elm && nodes == old(nodes) - {elm}
      ensures Contents() == Sequences.Without(old(Contents()), elm)
      ensures WithinBound(steps, |old(Contents())|) && WithinBound(rounds, |old(Contents())|)
    {
      hide TotalOrder, Sorted, Holds, RedBlack, Inorder, Sequences.Without, Height, WithinBound;
      steps := 0;
      ghost var s := Contents();
      ghost var p, t := Locate(Top, shape, elm).0, Locate(Top, shape, elm).1;
      Swing(Top, shape, p, t);
      Removable(p, t);
      Look(p, t);
      ghost var all;
      if elm.left == null {
        all, rounds := RemoveOuter(elm, elm.right, p, t, t.right);
      } else if elm.right == null {
        all, rounds := RemoveOuter(elm, elm.left, p, t, t.left);
      } else {
        all, steps, rounds := RemoveInner(elm, p, t);
      }
      StepsBound(shape, steps);
      StepsBound(shape, rounds);
      Discard(elm, all);
      r := elm;
    }

    lemma Removable(p: Path, t: Tree)
      requires Valid() && At(p, t) && t.Bin? && Plug(p, t) == shape
      ensures Sequences.Without(Contents(), t.n) == Before(p) + (Inorder(t.left) + Inorder(t.right)) + After(p)
      ensures Sorted(cmp, Keys(Sequences.Without(Contents(), t.n)))
      ensures forall n :: n in nodes && n != t.n ==> n in Sequences.Without(Contents(), t.n)
      ensures t.n !in Sequences.Without(Contents(), t.n)
    {
      hide TotalOrder, Holds;
      var b, a := Before(p) + Inorder(t.left), Inorder(t.right) + After(p);
      var s := b + [t.n] + a;
      InorderPlug(p, t);
      Around(p, t);
      assert Contents() == s;
      assert s[|b|] == t.n;
      Once(cmp, b, t.n, a);
      Sequences.WithoutIs(b, t.n, a);
      Sequences.Between(Before(p), Inorder(t.left), Inorder(t.right), After(p));
      forall n | n in nodes && n != t.n ensures n in b + a {
        InorderNodes(shape, n);
      }
    }

    // The removed node leaves the footprint.
    ghost method Discard(elm: Node, all: Tree)
      requires TotalOrder(cmp) && At(Top, all) && RedBlack(all) && Sorted(cmp, Keys(Inorder(all)))
      requires elm !in Inorder(all) && forall n :: n in nodes && n != elm ==> n in Inorder(all)
      modifies `nodes, `shape
      ensures Valid() && shape == all && nodes == old(nodes) - {elm}
    {
      hide TotalOrder, Sorted;
      InorderNodes(all, elm);
      ghost var m := Snap(nodes);
      nodes, shape := nodes - {elm}, all;
      HoldsFrame(m, Snap(nodes), root, Top, all);
      Accept(all);
    }

    // Walking in order
    // ----------------

    // The elements before and after a position's node, and the node only once.
    lemma Place(q: Path, u: Tree)
      requires Valid() && At(q, u) && u.Bin? && Plug(q, u) == shape
      ensures var a := Inorder(u.right) + After(q); IsNext(Contents(), u.n, if a == [] then null else a[0])
      ensures var b := Before(q) + Inorder(u.left); IsPrev(Contents(), u.n, if b == [] then null else b[|b| - 1])
    {
      var b, a := Before(q) + Inorder(u.left), Inorder(u.right) + After(q);
      InorderPlug(q, u);
      Around(q, u);
      Once(cmp, b, u.n, a);
      Neighbours(b, u.n, a);
    }

    // Down to the first node of a subtree.
    method DownLeft(elm: Node, ghost p: Path, ghost t: Tree) returns (e: Node, ghost steps: nat)
      requires At(p, t) && t.Bin? && t.n == elm
      ensures e == (Inorder(t) + After(p))[0] && steps < Height(t)
    {
      hide Holds, Nodes, PathNodes;
      ghost var q, u := p, t;
      e, steps := elm, 0;
      Look(q, u);
      while e.left != null
        invariant At(q, u) && u.Bin? && u.n == e && e in nodes && e.left == Ptr(u.left)
        invariant Inorder(u) + After(q) == Inorder(t) + After(p) && steps + Height(u) <= Height(t)
        decreases u
      {
        steps := steps + 1;
        GoDown(q, u, L);
        StepLeft(q, u);
        e, q, u := e.left, In(q, u, L), u.left;
        Look(q, u);
      }
    }

    // Up to the node that follows a subtree.
    method UpRight(elm: Node, ghost p: Path, ghost t: Tree) returns (r: Node?, ghost steps: nat)
      requires At(p, t) && t.Bin? && t.n == elm
      ensures r == (if After(p) == [] then null else After(p)[0]) && steps <= Depth(p)
    {
      hide Holds, Nodes, PathNodes;
      var e := elm;
      ghost var q, u := p, t;
      steps := 0;
      Look(q, u);
      if e.parent != null && e == e.parent.left {
        r := e.parent;
      } else {
        while e.parent != null && e == e.parent.right
          invariant At(q, u) && u.Bin? && u.n == e && e in nodes && e.parent == Up(q)
          invariant q.Step? ==> q.n in nodes && (e == q.n.right <==> q.side.R?)
          invariant After(q) == After(p) && steps + Depth(q) <= Depth(p)
          decreases Depth(q)
        {
          steps := steps + 1;
          GoUp(q, u);
          e, q, u := e.parent, q.up, Out(q, u);
          Look(q, u);
        }
        r := e.parent;
      }
    }

    method Next(elm: Node) returns (r: Node?, ghost steps: nat)
      requires Valid() && elm in nodes
      ensures IsNext(Contents(), elm, r) && WithinBound(steps, |Contents()|)
    {
      hide TotalOrder, Sorted, Holds, RedBlack, IsNext, IsPrev, Nodes, PathNodes, WithinBound;
      ghost var q, u := Locate(Top, shape, elm).0, Locate(Top, shape, elm).1;
      Swing(Top, shape, q, u);
      Place(q, u);
      Look(q, u);
      DepthHeight(q, u);
      if elm.right != null {
        GoDown(q, u, R);
        r, steps := DownLeft(elm.right, In(q, u, R), u.right);
      } else {
        r, steps := UpRight(elm, q, u);
      }
      StepsBound(shape, steps);
    }

    // Down to the last node of a subtree.
    method DownRight(elm: Node, ghost p: Path, ghost t: Tree) returns (e: Node, ghost steps: nat)
      requires At(p, t) && t.Bin? && t.n == elm
      ensures var b := Before(p) + Inorder(t); e == b[|b| - 1] && steps < Height(t)
    {
      hide Holds, Nodes, PathNodes;
      ghost var q, u := p, t;
      e, steps := elm, 0;
      Look(q, u);
      while e.right != null
        invariant At(q, u) && u.Bin? && u.n == e && e in nodes && e.right == Ptr(u.right)
        invariant Before(q) + Inorder(u) == Before(p) + Inorder(t) && steps + Height(u) <= Height(t)
        decreases u
      {
        steps := steps + 1;
        GoDown(q, u, R);
        StepRight(q, u);
        e, q, u := e.right, In(q, u, R), u.right;
        Look(q, u);
      }
    }

    // Up to the node that precedes a subtree.
    method UpLeft(elm: Node, ghost p: Path, ghost t: Tree) returns (r: Node?, ghost steps: nat)
      requires At(p, t) && t.Bin? && t.n == elm
      ensures var b := Before(p); r == (if b == [] then null else b[|b| - 1]) && steps <= Depth(p)
    {
      hide Holds, Nodes, PathNodes;
      var e := elm;
      ghost var q, u := p, t;
      steps := 0;
      Look(q, u);
      if e.parent != null && e == e.parent.right {
        r := e.parent;
      } else {
        while e.parent != null && e == e.parent.left
          invariant At(q, u) && u.Bin? && u.n == e && e in nodes && e.parent == Up(q)
          invariant q.Step? ==> q.n in nodes && (e == q.n.left <==> q.side.L?)
          invariant Before(q) == Before(p) && steps + Depth(q) <= Depth(p)
          decreases Depth(q)
        {
          steps := steps + 1;
          GoUp(q, u);
          e, q, u := e.parent, q.up, Out(q, u);
          Look(q, u);
        }
        r := e.parent;
      }
    }

    method Prev(elm: Node) returns (r: Node?, ghost steps: nat)
      requires Valid() && elm in nodes
      ensures IsPrev(Contents(), elm, r) && WithinBound(steps, |Contents()|)
    {
      hide TotalOrder, Sorted, Holds, RedBlack, IsNext, IsPrev, Nodes, PathNodes, WithinBound;
      ghost var q, u := Locate(Top, shape, elm).0, Locate(Top, shape, elm).1;
      Swing(Top, shape, q, u);
      Place(q, u);
      Look(q, u);
      DepthHeight(q, u);
      if elm.left != null {
        GoDown(q, u, L);
        r, steps := DownRight(elm.left, In(q, u, L), u.left);
      } else {
        r, steps := UpLeft(elm, q, u);
      }
      StepsBound(shape, steps);
    }

    // On the way down one edge of the tree: the elements from the position on, or
    // up to it, are all there are on that side, and r is the one just passed.
    ghost predicate Edge(s: Side, q: Path, u: Tree, all: seq<Node>, r: Node?) {
      if s.L? then Inorder(u) + After(q) == all && r == if After(q) == [] then null else After(q)[0]
      else Before(q) + Inorder(u) == all && r == if Before(q) == [] then null else Before(q)[|Before(q)| - 1]
    }

    lemma EdgeDown(s: Side, q: Path, u: Tree, all: seq<Node>, r: Node?)
      requires Edge(s, q, u, all, r) && u.Bin?
      ensures Edge(s, In(q, u, s), Near(s, u), all, u.n)
    {
      if s.L? {
        StepLeft(q, u);
      } else {
        StepRight(q, u);
      }
    }

    lemma EdgeEnds(s: Side, q: Path, all: seq<Node>, r: Node?)
      requires Edge(s, q, Leaf, all, r)
      ensures r == if all == [] then null else if s.L? then all[0] else all[|all| - 1]
    {
      if s.L? {
        assert all == After(q);
      } else {
        assert all == Before(q);
      }
    }

    lemma EdgeStarts(s: Side, t: Tree)
      ensures Edge(s, Top, t, Inorder(t), null)
    {
      assert Inorder(t) + [] == Inorder(t) == [] + Inorder(t);
    }

    // The first element for a negative val, else the last.
    method MinMax(val: int) returns (parent: Node?, ghost steps: nat)
      requires Valid()
      ensures parent == var s := Contents();
        if s == [] then null else if val < 0 then s[0] else s[|s| - 1]
      ensures WithinBound(steps, |Contents()|)
    {
      hide TotalOrder, Sorted, Holds, RedBlack, Nodes, PathNodes, Keys, WithinBound, Edge, Inorder;
      steps := 0;
      var tmp := root;
      ghost var q, u, s := Top, shape, if val < 0 then L else R;
      parent := null;
      Look(q, u);
      EdgeStarts(s, shape);
      while tmp != null
        invariant At(q, u) && tmp == Ptr(u) && Edge(s, q, u, Contents(), parent)
        invariant tmp != null ==> tmp in nodes && tmp.left == Ptr(u.left) && tmp.right == Ptr(u.right)
        invariant steps + Height(u) <= Height(shape)
        decreases u
      {
        steps := steps + 1;
        EdgeDown(s, q, u, Contents(), parent);
        parent := tmp;
        if val < 0 {
          GoDown(q, u, L);
          tmp, q, u := tmp.left, In(q, u, L), u.left;
        } else {
          GoDown(q, u, R);
          tmp, q, u := tmp.right, In(q, u, R), u.right;
        }
        Look(q, u);
      }
      EdgeEnds(s, q, Contents(), parent);
      StepsBound(shape, steps);
    }

    // RB_FOREACH: the elements in the order visited.
    method Foreach() returns (visited: seq<Node>)
      requires Valid()
      ensures visited == Contents()
    {
      hide TotalOrder, Sorted, Holds, RedBlack, Nodes, At;
      ghost var s := Contents();
      visited := [];
      var x;
      ghost var steps;
      x, steps := MinMax(-1);
      while x != null
        invariant |visited| <= |s| && visited == s[..|visited|]
        invariant x == if |visited| == |s| then null else s[|visited|]
        decreases |s| - |visited|
      {
        InorderNodes(shape, x);
        var y;
        y, steps := Next(x);
        NextAt(s, |visited|, y);
        visited := visited + [x];
        x := y;
      }
    }

    // RB_FOREACH_SAFE whose body removes the visited element.
    method ForeachSafeRemove() returns (visited: seq<Node>)
      requires Valid()
      modifies this, nodes
      ensures Valid() && Contents() == [] && visited == old(Contents())
    {
      hide TotalOrder, Sorted, Holds, RedBlack, Nodes, At, Sequences.Without, Keys, Inorder, IsNext;
      visited := [];
      var x;
      ghost var steps, rounds;
      x, steps := MinMax(-1);
      ghost var rest := Contents();
      while x != null
        invariant Valid() && nodes <= old(nodes) && Contents() == rest
        invariant visited + rest == old(Contents())
        invariant x == if rest == [] then null else rest[0]
        decreases |rest|
      {
        InorderNodes(shape, x);
        Sequences.WithoutFirst(rest);
        var y;
        y, steps := Next(x);
        NextAt(rest, 0, y);
        Sequences.Push(visited, x, rest[1..]);
        visited := visited + [x];
        var gone;
        gone, steps, rounds := Remove(x);
        x, rest := y, rest[1..];
      }
    }
  }
}
