/** Trees laid out in memory: which links and colours hold a tree, and what
    single writes do to it. */
module RbMemory {
  import opened Sides
  import opened Order
  import opened RbShape

  datatype Cell = Cell(left: Node?, right: Node?, parent: Node?, red: bool)

  type Memory = map<Node, Cell>

  ghost function Snap(s: set<Node>): (m: Memory)
    reads s
  {
    map n | n in s :: Cell(n.left, n.right, n.parent, n.red)
  }

  ghost function Child(c: Cell, s: Side): Node? {
    if s.L? then c.left else c.right
  }

  ghost function WithChild(c: Cell, s: Side, x: Node?): Cell {
    if s.L? then c.(left := x) else c.(right := x)
  }

  ghost predicate Rep(m: Memory, t: Tree, parent: Node?) {
    t.Bin? ==>
      && t.n in m && m[t.n] == Cell(Ptr(t.left), Ptr(t.right), parent, t.red)
      && Rep(m, t.left, t.n) && Rep(m, t.right, t.n)
  }

  // The path to a position where the pointer `hole` stands.
  ghost predicate RepPath(m: Memory, p: Path, root: Node?, hole: Node?) {
    if p.Top? then root == hole else
      && p.n in m && Child(m[p.n], p.side) == hole && Child(m[p.n], Other(p.side)) == Ptr(p.sib)
      && m[p.n].parent == Up(p.up) && m[p.n].red == p.red
      && Rep(m, p.sib, p.n) && RepPath(m, p.up, root, p.n)
  }

  // Memory and root pointer hold the tree Plug(p, t), seen from where t is.
  ghost predicate Holds(m: Memory, root: Node?, p: Path, t: Tree) {
    Apart(p, t) && Rep(m, t, Up(p)) && RepPath(m, p, root, Ptr(t))
  }

  lemma {:induction false} Frame(m: Memory, m': Memory, t: Tree, parent: Node?)
    requires Rep(m, t, parent) && Agree(m, m', Nodes(t))
    ensures Rep(m', t, parent)
  {
    if t.Bin? {
      Frame(m, m', t.left, t.n);
      Frame(m, m', t.right, t.n);
    }
  }

  lemma {:induction false} RepNodes(m: Memory, t: Tree, parent: Node?)
    requires Rep(m, t, parent)
    ensures Nodes(t) <= m.Keys
  {
    if t.Bin? {
      RepNodes(m, t.left, t.n);
      RepNodes(m, t.right, t.n);
    }
  }

  lemma {:induction false} FramePath(m: Memory, m': Memory, p: Path, root: Node?, hole: Node?)
    requires RepPath(m, p, root, hole) && Agree(m, m', PathNodes(p))
    ensures RepPath(m', p, root, hole)
  {
    if p.Step? {
      Frame(m, m', p.sib, p.n);
      FramePath(m, m', p.up, root, p.n);
    }
  }

  // The subtree t hangs under another parent now.
  lemma Adopted(m: Memory, m': Memory, t: Tree, was: Node?, parent: Node?)
    requires Rep(m, t, was) && Distinct(t)
    requires t.Bin? ==> t.n in m && t.n in m' && m'[t.n] == m[t.n].(parent := parent)
    requires forall n :: n in Nodes(t) && n != Ptr(t) && n in m ==> n in m' && m'[n] == m[n]
    ensures Rep(m', t, parent)
  {
    if t.Bin? {
      Frame(m, m', t.left, t.n);
      Frame(m, m', t.right, t.n);
    }
  }

  // The pointer at the end of the path p, in its last node or in the head, is
  // `hole` now.
  ghost predicate Hung(m: Memory, m': Memory, root: Node?, root': Node?, p: Path, hole: Node?) {
    if p.Top? then root' == hole else
      root' == root && p.n in m && p.n in m' && m'[p.n] == WithChild(m[p.n], p.side, hole)
  }

  lemma Rehung(m: Memory, m': Memory, root: Node?, root': Node?, p: Path, was: Node?, hole: Node?)
    requires RepPath(m, p, root, was) && PathDistinct(p) && Hung(m, m', root, root', p, hole)
    requires forall n :: n in PathNodes(p) && n != Up(p) && n in m ==> n in m' && m'[n] == m[n]
    ensures RepPath(m', p, root', hole)
  {
    if p.Step? {
      Frame(m, m', p.sib, p.n);
      FramePath(m, m', p.up, root, p.n);
    }
  }

  // Moving the point of view
  // ------------------------

  lemma ZoomIn(m: Memory, root: Node?, p: Path, t: Tree, s: Side)
    requires Holds(m, root, p, t) && t.Bin?
    ensures Holds(m, root, In(p, t, s), Near(s, t))
    ensures Out(In(p, t, s), Near(s, t)) == t
  {
  }

  lemma ZoomOut(m: Memory, root: Node?, p: Path, t: Tree)
    requires Holds(m, root, p, t) && p.Step?
    ensures Holds(m, root, p.up, Out(p, t))
    ensures In(p.up, Out(p, t), p.side) == p && Near(p.side, Out(p, t)) == t
  {
  }

  lemma {:induction false} Unzip(m: Memory, root: Node?, p: Path, t: Tree)
    ensures Holds(m, root, p, t) <==> Holds(m, root, Top, Plug(p, t))
  {
    if p.Step? {
      Unzip(m, root, p.up, Out(p, t));
      if Holds(m, root, p, t) {
        ZoomOut(m, root, p, t);
      } else if Holds(m, root, p.up, Out(p, t)) {
        ZoomIn(m, root, p.up, Out(p, t), p.side);
      }
    }
  }

  // What one reads at a position and just above it.
  lemma Links(m: Memory, root: Node?, p: Path, t: Tree)
    requires Holds(m, root, p, t)
    ensures t.Bin? ==> t.n in m && m[t.n] == Cell(Ptr(t.left), Ptr(t.right), Up(p), t.red)
    ensures p.Step? ==>
      && p.n in m && m[p.n].red == p.red && m[p.n].parent == Up(p.up)
      && Child(m[p.n], p.side) == Ptr(t) && Child(m[p.n], Other(p.side)) == Ptr(p.sib)
      && p.n != Ptr(t) && (t.Bin? ==> Ptr(p.sib) != t.n)
    ensures p.Top? ==> root == Ptr(t)
  {
  }

  // Changing the colour of the node at a position.
  lemma Painted(m: Memory, root: Node?, p: Path, t: Tree, red: bool)
    requires Holds(m, root, p, t) && t.Bin? && t.n in m
    ensures Holds(m[t.n := m[t.n].(red := red)], root, p, t.(red := red))
  {
    var m' := m[t.n := m[t.n].(red := red)];
    Frame(m, m', t.left, t.n);
    Frame(m, m', t.right, t.n);
    FramePath(m, m', p, root, t.n);
  }

  // Rotation
  // --------

  // The pointers a rotation meets, all different.
  ghost predicate Turnable(m: Memory, root: Node?, p: Path, t: Tree, s: Side) {
    t.Bin? && Far(s, t).Bin? &&
    var x, y, b := t.n, Far(s, t).n, Ptr(Near(s, Far(s, t)));
    && x in m && y in m && x != y
    && Child(m[x], Other(s)) == y && m[x].parent == Up(p) && Child(m[y], s) == b
    && (b != null ==> b in m && b != x && b != y)
    && (p.Top? ==> root == x)
    && (p.Step? ==>
          && p.n in m && p.n != x && p.n != y && p.n != b
          && Child(m[p.n], p.side) == x && Child(m[p.n], Other(p.side)) != x)
  }

  lemma CanTurn(m: Memory, root: Node?, p: Path, t: Tree, s: Side)
    requires Holds(m, root, p, t) && t.Bin? && Far(s, t).Bin?
    ensures Turnable(m, root, p, t, s)
  {
    ZoomIn(m, root, p, t, Other(s));
    ZoomIn(m, root, In(p, t, Other(s)), Far(s, t), s);
  }

  // What the rotation makes of those cells; all others keep their contents.
  ghost predicate Turned(m: Memory, m': Memory, root: Node?, root': Node?, p: Path, t: Tree, s: Side)
    requires Turnable(m, root, p, t, s)
  {
    var x, y, b := t.n, Far(s, t).n, Ptr(Near(s, Far(s, t)));
    && m'.Keys == m.Keys
    && m'[x] == WithChild(m[x].(parent := y), Other(s), b)
    && m'[y] == WithChild(m[y].(parent := Up(p)), s, x)
    && (b != null ==> m'[b] == m[b].(parent := x))
    && Hung(m, m', root, root', p, y)
    && forall n :: n in m && n != x && n != y && n != b && n != Up(p) ==> m'[n] == m[n]
  }

  lemma TurnedTree(m: Memory, m': Memory, root: Node?, root': Node?, p: Path, t: Tree, s: Side)
    requires Holds(m, root, p, t) && Turnable(m, root, p, t, s)
    requires Turned(m, m', root, root', p, t, s)
    ensures Rep(m', Rot(s, t), Up(p))
  {
    var a, y := Near(s, t), Far(s, t);
    var b, c := Near(s, y), Far(s, y);
    assert Distinct(y) && Distinct(b) && Rep(m, y, t.n) && Rep(m, b, y.n);
    Frame(m, m', a, t.n);
    Frame(m, m', c, y.n);
    Adopted(m, m', b, y.n, t.n);
  }

  lemma TurnedPath(m: Memory, m': Memory, root: Node?, root': Node?, p: Path, t: Tree, s: Side)
    requires Holds(m, root, p, t) && Turnable(m, root, p, t, s)
    requires Turned(m, m', root, root', p, t, s)
    ensures RepPath(m', p, root', Far(s, t).n)
  {
    var y := Far(s, t);
    var b := Near(s, y);
    assert b.Bin? ==> b.n in Nodes(b);
    assert Nodes(b) <= Nodes(y) && Nodes(y) <= Nodes(t);
    Rehung(m, m', root, root', p, t.n, y.n);
  }

  lemma TurnedHolds(m: Memory, m': Memory, root: Node?, root': Node?, p: Path, t: Tree, s: Side)
    requires Holds(m, root, p, t) && Turnable(m, root, p, t, s)
    requires Turned(m, m', root, root', p, t, s)
    ensures Holds(m', root', p, Rot(s, t))
  {
    TurnedTree(m, m', root, root', p, t, s);
    TurnedPath(m, m', root, root', p, t, s);
    RotKeeps(s, t);
  }

  // A fresh red leaf at an empty position.
  lemma Attached(m: Memory, m': Memory, root: Node?, root': Node?, p: Path, elm: Node)
    requires Holds(m, root, p, Leaf) && elm !in PathNodes(p)
    requires elm in m' && m'[elm] == Cell(null, null, Up(p), true)
    requires Hung(m, m', root, root', p, elm)
    requires forall n :: n in m && n != Up(p) && n != elm ==> n in m' && m'[n] == m[n]
    ensures Holds(m', root', p, Bin(Leaf, elm, true, Leaf))
  {
    Rehung(m, m', root, root', p, null, elm);
  }

  // The root pointer, seen from below.
  lemma {:induction false} RootIs(m: Memory, root: Node?, p: Path, hole: Node?)
    requires RepPath(m, p, root, hole) && p.Step?
    ensures root != null && root in PathNodes(p) && root in m
    ensures RootBlack(p) ==> !m[root].red
  {
    if p.up.Step? {
      RootIs(m, root, p.up, p.n);
    }
  }
}
