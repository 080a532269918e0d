/** Splay trees as values, and the two partial trees that the top-down splay
    takes apart and puts together again, laid out in memory. */
module SplayShape {
  import opened Sides
  import opened Order
  import Sequences

  /** A tree element: the embedded links (SPLAY_ENTRY) beside the key. */
  class Node {
    const key: Key
    var left: Node?
    var right: Node?

    constructor (key: Key)
      ensures this.key == key && left == null && right == null
    {
      this.key := key;
      left, right := null, null;
    }
  }

  datatype Tree = Leaf | Bin(left: Tree, n: Node, right: Tree)

  /** A tree without the subtree at the end of its spine: the left tree is a
      spine of side L, whose nodes keep their left subtrees and are linked
      through their right pointers; the right tree is a spine of side R. */
  datatype Spine = End | Link(up: Spine, n: Node, sib: Tree)

  ghost function Mk(s: Side, near: Tree, n: Node, far: Tree): Tree {
    if s.L? then Bin(near, n, far) else Bin(far, n, near)
  }

  ghost function Near(s: Side, t: Tree): Tree
    requires t.Bin?
  {
    if s.L? then t.left else t.right
  }

  ghost function Far(s: Side, t: Tree): Tree
    requires t.Bin?
  {
    if s.L? then t.right else t.left
  }

  ghost function Ptr(t: Tree): Node? {
    if t.Leaf? then null else t.n
  }

  ghost function Nodes(t: Tree): set<Node> {
    if t.Leaf? then {} else Nodes(t.left) + {t.n} + Nodes(t.right)
  }

  ghost function SpineNodes(p: Spine): set<Node> {
    if p.End? then {} else SpineNodes(p.up) + {p.n} + Nodes(p.sib)
  }

  ghost predicate Distinct(t: Tree) {
    t.Bin? ==>
      && t.n !in Nodes(t.left) && t.n !in Nodes(t.right)
      && Nodes(t.left) !! Nodes(t.right)
      && Distinct(t.left) && Distinct(t.right)
  }

  ghost predicate SpineDistinct(p: Spine) {
    p.Link? ==>
      && p.n !in SpineNodes(p.up) && p.n !in Nodes(p.sib)
      && Nodes(p.sib) !! SpineNodes(p.up)
      && Distinct(p.sib) && SpineDistinct(p.up)
  }

  ghost function Inorder(t: Tree): seq<Node> {
    if t.Leaf? then [] else Inorder(t.left) + [t.n] + Inorder(t.right)
  }

  // What a spine holds, in order: before its end if of side L, after it if of side R.
  ghost function SpineSeq(p: Spine, s: Side): seq<Node> {
    if p.End? then [] else
      match s
      case L => SpineSeq(p.up, s) + Inorder(p.sib) + [p.n]
      case R => [p.n] + Inorder(p.sib) + SpineSeq(p.up, s)
  }

  // The tree that comes of putting t at the end.
  ghost function Fill(p: Spine, s: Side, t: Tree): Tree {
    if p.End? then t else Fill(p.up, s, Mk(s, p.sib, p.n, t))
  }

  ghost function Keys(s: seq<Node>): (ks: seq<Key>)
    ensures |ks| == |s| && forall i :: 0 <= i < |s| ==> ks[i] == s[i].key
  {
    seq(|s|, i requires 0 <= i < |s| => s[i].key)
  }

  lemma {:induction false} InorderFill(p: Spine, s: Side, t: Tree)
    ensures Inorder(Fill(p, s, t)) == if s.L? then SpineSeq(p, s) + Inorder(t) else Inorder(t) + SpineSeq(p, s)
  {
    if p.Link? {
      InorderFill(p.up, s, Mk(s, p.sib, p.n, t));
      if s.L? {
        Sequences.UpTo(SpineSeq(p.up, s), Inorder(p.sib), p.n, Inorder(t));
      } else {
        Sequences.From(Inorder(t), p.n, Inorder(p.sib), SpineSeq(p.up, s));
      }
    }
  }

  lemma {:induction false} FillNodes(p: Spine, s: Side, t: Tree)
    ensures Nodes(Fill(p, s, t)) == SpineNodes(p) + Nodes(t)
    ensures SpineDistinct(p) && Distinct(t) && Nodes(t) !! SpineNodes(p) ==> Distinct(Fill(p, s, t))
  {
    if p.Link? {
      FillNodes(p.up, s, Mk(s, p.sib, p.n, t));
    }
  }

  lemma {:induction false} InorderNodes(t: Tree, n: Node)
    ensures n in Inorder(t) <==> n in Nodes(t)
  {
    if t.Bin? {
      InorderNodes(t.left, n);
      InorderNodes(t.right, n);
    }
  }

  // The rotation that brings up the child on side s.
  ghost function Lift(s: Side, t: Tree): Tree
    requires t.Bin? && Near(s, t).Bin?
  {
    var y := Near(s, t);
    Mk(s, Near(s, y), y.n, Mk(s, Far(s, y), t.n, Far(s, t)))
  }

  lemma LiftKeeps(s: Side, t: Tree)
    requires t.Bin? && Near(s, t).Bin?
    ensures Inorder(Lift(s, t)) == Inorder(t) && Nodes(Lift(s, t)) == Nodes(t)
    ensures Distinct(t) ==> Distinct(Lift(s, t))
  {
    var y := Near(s, t);
    assert Inorder(y) == Inorder(y.left) + [y.n] + Inorder(y.right);
    assert Nodes(y) == Nodes(y.left) + {y.n} + Nodes(y.right);
    assert Distinct(t) ==> Distinct(y);
    if s.L? {
      assert Inorder(t) == Inorder(Lift(s, t));
    } else {
      assert Inorder(t) == Inorder(Lift(s, t));
    }
  }

  ghost function Size(t: Tree): nat {
    if t.Leaf? then 0 else Size(t.left) + 1 + Size(t.right)
  }

  // Memory
  // ------

  datatype Cell = Cell(left: Node?, right: Node?)

  type Memory = map<Node, Cell>

  ghost function Snap(s: set<Node>): (m: Memory)
    reads s
  {
    map n | n in s :: Cell(n.left, n.right)
  }

  ghost function Child(c: Cell, s: Side): Node? {
    if s.L? then c.left else c.right
  }

  ghost function WithChild(c: Cell, s: Side, x: Node?): Cell {
    if s.L? then c.(left := x) else c.(right := x)
  }

  ghost predicate Rep(m: Memory, t: Tree) {
    t.Bin? ==>
      && t.n in m && m[t.n] == Cell(Ptr(t.left), Ptr(t.right))
      && Rep(m, t.left) && Rep(m, t.right)
  }

  // The node that the next piece is hung on: the last of the spine, or the
  // scratch node for an empty one.
  ghost function Last(p: Spine, scratch: Node): Node {
    if p.End? then scratch else p.n
  }

  // The spine is in memory; the pointer at its end is not looked at.
  ghost predicate Open(m: Memory, p: Spine, s: Side, scratch: Node) {
    p.Link? ==>
      && p.n in m && Child(m[p.n], s) == Ptr(p.sib) && Rep(m, p.sib)
      && Last(p.up, scratch) in m && Child(m[Last(p.up, scratch)], Other(s)) == p.n
      && Open(m, p.up, s, scratch)
  }

  lemma {:induction false} Frame(m: Memory, m': Memory, t: Tree)
    requires Rep(m, t) && Agree(m, m', Nodes(t))
    ensures Rep(m', t)
  {
    if t.Bin? {
      Frame(m, m', t.left);
      Frame(m, m', t.right);
    }
  }

  lemma {:induction false} RepNodes(m: Memory, t: Tree)
    requires Rep(m, t)
    ensures Nodes(t) <= m.Keys
  {
    if t.Bin? {
      RepNodes(m, t.left);
      RepNodes(m, t.right);
    }
  }

  // Writing to the end of a spine, or to the other side of the scratch node,
  // leaves it as it is.
  lemma {:induction false} FrameSpine(m: Memory, m': Memory, p: Spine, s: Side, scratch: Node)
    requires Open(m, p, s, scratch) && SpineDistinct(p) && scratch !in SpineNodes(p) && scratch in m && scratch in m'
    requires forall n :: n in SpineNodes(p) && n in m && n != Last(p, scratch) ==> n in m' && m'[n] == m[n]
    requires p.Link? ==> p.n in m' && Child(m'[p.n], s) == Child(m[p.n], s)
    requires p.Link? ==> Child(m'[scratch], Other(s)) == Child(m[scratch], Other(s))
    ensures Open(m', p, s, scratch)
  {
    if p.Link? {
      Frame(m, m', p.sib);
      if p.up.Link? {
        assert p.up.n in SpineNodes(p);
      }
      FrameSpine(m, m', p.up, s, scratch);
    }
  }

  // The state of the splay loop: the working tree t at the root pointer, the
  // left and the right tree, and the scratch node both hang from.
  ghost predicate Parted(m: Memory, scratch: Node, l: Spine, r: Spine, t: Tree) {
    && scratch in m && scratch !in Nodes(t) && scratch !in SpineNodes(l) && scratch !in SpineNodes(r)
    && Distinct(t) && SpineDistinct(l) && SpineDistinct(r)
    && Nodes(t) !! SpineNodes(l) && Nodes(t) !! SpineNodes(r) && SpineNodes(l) !! SpineNodes(r)
    && Rep(m, t) && Open(m, l, L, scratch) && Open(m, r, R, scratch)
  }

  // What a rotation that brings up the child on side s writes.
  ghost predicate Turned(m: Memory, m': Memory, t: Tree, s: Side) {
    t.Bin? && Near(s, t).Bin? && t.n in m && Near(s, t).n in m
    && m'.Keys == m.Keys
    && m'[t.n] == WithChild(m[t.n], s, Ptr(Far(s, Near(s, t))))
    && m'[Near(s, t).n] == WithChild(m[Near(s, t).n], Other(s), t.n)
    && forall n :: n in m && n != t.n && n != Near(s, t).n ==> m'[n] == m[n]
  }

  lemma TurnedTree(m: Memory, m': Memory, t: Tree, s: Side)
    requires Rep(m, t) && Distinct(t) && Turned(m, m', t, s)
    ensures Rep(m', Lift(s, t))
  {
    var y := Near(s, t);
    assert Distinct(y) && Rep(m, y);
    Frame(m, m', Near(s, y));
    Frame(m, m', Far(s, y));
    Frame(m, m', Far(s, t));
  }

  // ROTATE: the child on side s comes up.
  lemma Rotated(m: Memory, m': Memory, scratch: Node, l: Spine, r: Spine, t: Tree, s: Side)
    requires Parted(m, scratch, l, r, t) && Turned(m, m', t, s)
    ensures Parted(m', scratch, l, r, Lift(s, t))
  {
    hide Rep, Distinct;
    LiftKeeps(s, t);
    TurnedTree(m, m', t, s);
    assert t.n in Nodes(t) && Near(s, t).n in Nodes(Near(s, t)) && Nodes(Near(s, t)) <= Nodes(t);
    FrameSpine(m, m', l, L, scratch);
    FrameSpine(m, m', r, R, scratch);
  }

  // LINK: the root joins the spine of the other side, and the child on side s
  // becomes the working tree.
  lemma Linked(m: Memory, m': Memory, scratch: Node, l: Spine, r: Spine, t: Tree, s: Side)
    requires Parted(m, scratch, l, r, t) && t.Bin?
    requires var x := Last(if s.L? then r else l, scratch);
             x in m && m'.Keys == m.Keys && m'[x] == WithChild(m[x], s, t.n)
             && forall n :: n in m && n != x ==> m'[n] == m[n]
    ensures if s.L? then Parted(m', scratch, l, Link(r, t.n, t.right), t.left)
            else Parted(m', scratch, Link(l, t.n, t.left), r, t.right)
  {
    Frame(m, m', t.left);
    Frame(m, m', t.right);
    FrameSpine(m, m', l, L, scratch);
    FrameSpine(m, m', r, R, scratch);
  }

  lemma {:induction false} Filled(m: Memory, p: Spine, s: Side, scratch: Node, t: Tree)
    requires Open(m, p, s, scratch) && Rep(m, t) && scratch in m
    requires Last(p, scratch) in m && Child(m[Last(p, scratch)], Other(s)) == Ptr(t)
    ensures Rep(m, Fill(p, s, t)) && Child(m[scratch], Other(s)) == Ptr(Fill(p, s, t))
  {
    if p.Link? {
      Filled(m, p.up, s, scratch, Mk(s, p.sib, p.n, t));
    }
  }

  // The tree that ASSEMBLE builds.
  ghost function Whole(l: Spine, r: Spine, t: Tree): Tree
    requires t.Bin?
  {
    Bin(Fill(l, L, t.left), t.n, Fill(r, R, t.right))
  }

  // Its first two writes close both spines.
  lemma Closed(m: Memory, m': Memory, scratch: Node, l: Spine, r: Spine, t: Tree)
    requires Parted(m, scratch, l, r, t) && t.Bin? && m'.Keys == m.Keys
    requires var x, y := Last(l, scratch), Last(r, scratch);
             && x in m && m'[x].right == Ptr(t.left) && (x != y ==> m'[x].left == m[x].left)
             && y in m && m'[y].left == Ptr(t.right) && (x != y ==> m'[y].right == m[y].right)
             && forall n :: n in m && n != x && n != y ==> m'[n] == m[n]
    ensures Rep(m', Fill(l, L, t.left)) && m'[scratch].right == Ptr(Fill(l, L, t.left))
    ensures Rep(m', Fill(r, R, t.right)) && m'[scratch].left == Ptr(Fill(r, R, t.right))
    ensures t.n in m'
  {
    Frame(m, m', t.left);
    Frame(m, m', t.right);
    FrameSpine(m, m', l, L, scratch);
    FrameSpine(m, m', r, R, scratch);
    Filled(m', l, L, scratch, t.left);
    Filled(m', r, R, scratch, t.right);
  }

  lemma WholeKeeps(scratch: Node, l: Spine, r: Spine, t: Tree)
    requires t.Bin? && Distinct(t) && SpineDistinct(l) && SpineDistinct(r)
    requires Nodes(t) !! SpineNodes(l) && Nodes(t) !! SpineNodes(r) && SpineNodes(l) !! SpineNodes(r)
    ensures Distinct(Whole(l, r, t)) && Nodes(Whole(l, r, t)) == SpineNodes(l) + Nodes(t) + SpineNodes(r)
    ensures t.n !in Nodes(Fill(l, L, t.left)) && t.n !in Nodes(Fill(r, R, t.right))
    ensures Inorder(Whole(l, r, t)) == SpineSeq(l, L) + Inorder(t) + SpineSeq(r, R)
  {
    FillNodes(l, L, t.left);
    FillNodes(r, R, t.right);
    InorderFill(l, L, t.left);
    InorderFill(r, R, t.right);
    Sequences.Around(SpineSeq(l, L), Inorder(t.left), t.n, Inorder(t.right), SpineSeq(r, R));
  }

  // Searching
  // ---------

  // The three parts together are s, and the partial trees lie on either side
  // of k.
  ghost predicate Split(cmp: Cmp, s: seq<Node>, l: Spine, r: Spine, t: Tree, k: Key) {
    && s == SpineSeq(l, L) + Inorder(t) + SpineSeq(r, R)
    && AllBelow(cmp, Keys(SpineSeq(l, L)), k) && AllAbove(cmp, k, Keys(SpineSeq(r, R)))
  }

  lemma SplitIs(cmp: Cmp, s: seq<Node>, l: Spine, r: Spine, t: Tree, k: Key)
    requires Split(cmp, s, l, r, t, k)
    ensures s == SpineSeq(l, L) + Inorder(t) + SpineSeq(r, R)
  {
  }

  lemma KeysJoin(b: seq<Node>, n: Node, a: seq<Node>)
    ensures Keys(b + [n] + a) == Keys(b) + [n.key] + Keys(a)
    ensures Keys(b + [n]) == Keys(b) + [n.key] && Keys([n] + a) == [n.key] + Keys(a)
    ensures Keys(b + a) == Keys(b) + Keys(a)
  {
  }

  // The element after another one; NULL at the end.
  ghost predicate IsNext(s: seq<Node>, n: Node, r: Node?) {
    forall i :: 0 <= i < |s| && s[i] == n ==> r == if i + 1 < |s| then s[i + 1] else null
  }

  lemma NextAt(s: seq<Node>, i: nat, r: Node?)
    requires i < |s| && IsNext(s, s[i], r)
    ensures r == if i + 1 < |s| then s[i + 1] else null
  {
  }

  lemma NextIs(b: seq<Node>, n: Node, a: seq<Node>)
    requires n !in b && n !in a
    ensures IsNext(b + [n] + a, n, if a == [] then null else a[0])
  {
    var s := b + [n] + a;
    assert forall i :: 0 <= i < |b| ==> s[i] == b[i];
    assert forall i :: |b| < i < |s| ==> s[i] == a[i - |b| - 1];
  }

  lemma SplitLink(cmp: Cmp, s: seq<Node>, l: Spine, r: Spine, t: Tree, k: Key, side: Side)
    requires TotalOrder(cmp) && Sorted(cmp, Keys(s)) && Split(cmp, s, l, r, t, k) && t.Bin?
    requires if side.L? then cmp(k, t.n.key) < 0 else cmp(k, t.n.key) > 0
    ensures if side.L? then Split(cmp, s, l, Link(r, t.n, t.right), t.left, k)
            else Split(cmp, s, Link(l, t.n, t.left), r, t.right, k)
  {
    hide TotalOrder, Sorted, AllBelow, AllAbove, LowerBound, Keys;
    var b, a := SpineSeq(l, L) + Inorder(t.left), Inorder(t.right) + SpineSeq(r, R);
    Sequences.Around(SpineSeq(l, L), Inorder(t.left), t.n, Inorder(t.right), SpineSeq(r, R));
    KeysJoin(b, t.n, a);
    SplitAt(cmp, Keys(b), t.n.key, Keys(a), k);
    if side.L? {
      assert [t.n] + a == SpineSeq(Link(r, t.n, t.right), R);
    } else {
      assert b + [t.n] == SpineSeq(Link(l, t.n, t.left), L);
    }
  }

  // Both subtrees of the root are on the right side of k: the root has the key
  // k, or is one of the two elements next to where k belongs.
  ghost predicate Splayed(cmp: Cmp, t: Tree, k: Key) {
    t.Bin? && AllBelow(cmp, Keys(Inorder(t.left)), k) && AllAbove(cmp, k, Keys(Inorder(t.right)))
  }

  lemma SplitEnd(cmp: Cmp, s: seq<Node>, l: Spine, r: Spine, t: Tree, k: Key)
    requires TotalOrder(cmp) && Sorted(cmp, Keys(s)) && Split(cmp, s, l, r, t, k) && t.Bin?
    requires cmp(k, t.n.key) < 0 ==> t.left.Leaf?
    requires cmp(k, t.n.key) > 0 ==> t.right.Leaf?
    ensures Splayed(cmp, Whole(l, r, t), k)
  {
    hide TotalOrder, Sorted, AllBelow, AllAbove, LowerBound, Keys;
    InorderFill(l, L, t.left);
    InorderFill(r, R, t.right);
    var b, a := SpineSeq(l, L) + Inorder(t.left), Inorder(t.right) + SpineSeq(r, R);
    Sequences.Around(SpineSeq(l, L), Inorder(t.left), t.n, Inorder(t.right), SpineSeq(r, R));
    KeysJoin(b, t.n, a);
    SplitSides(cmp, Keys(b), t.n.key, Keys(a), k);
    assert cmp(k, t.n.key) < 0 ==> b == SpineSeq(l, L);
    assert cmp(k, t.n.key) > 0 ==> a == SpineSeq(r, R);
  }
}
