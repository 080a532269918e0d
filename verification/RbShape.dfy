/** Red-black trees, and positions in them, as values labelled with nodes. */
module RbShape {
  import opened Sides
  import opened Order
  import Sequences

  /** A tree element: the embedded links (RB_ENTRY) beside the key. */
  class Node {
    const key: Key
    var left: Node?
    var right: Node?
    var parent: Node?
    var red: bool

    constructor (key: Key)
      ensures this.key == key
    {
      this.key := key;
      left, right, parent, red := null, null, null, false;
    }
  }

  datatype Tree = Leaf | Bin(left: Tree, n: Node, red: bool, right: Tree)

  /** The way from a position up to the root: the position is the child of n on
      the given side, and sib is the other subtree of n. */
  datatype Path = Top | Step(up: Path, side: Side, n: Node, red: bool, sib: Tree)

  // A tree with a given subtree on side s, and the subtrees by side.
  ghost function Mk(s: Side, near: Tree, n: Node, red: bool, far: Tree): Tree {
    if s.L? then Bin(near, n, red, far) else Bin(far, n, red, near)
  }

  ghost function Near(s: Side, t: Tree): Tree
    requires t.Bin?
  {
    if s.L? then t.left else t.right
  }

  ghost function Far(s: Side, t: Tree): Tree
    requires t.Bin?
  {
    if s.L? then t.right else t.left
  }

  ghost function Nodes(t: Tree): set<Node> {
    if t.Leaf? then {} else Nodes(t.left) + {t.n} + Nodes(t.right)
  }

  ghost function PathNodes(p: Path): set<Node> {
    if p.Top? then {} else PathNodes(p.up) + {p.n} + Nodes(p.sib)
  }

  ghost function Ptr(t: Tree): Node? {
    if t.Leaf? then null else t.n
  }

  ghost function Up(p: Path): Node? {
    if p.Top? then null else p.n
  }

  ghost function Out(p: Path, t: Tree): Tree
    requires p.Step?
  {
    Mk(p.side, t, p.n, p.red, p.sib)
  }

  ghost function In(p: Path, t: Tree, s: Side): Path
    requires t.Bin?
  {
    Step(p, s, t.n, t.red, Far(s, t))
  }

  ghost function Plug(p: Path, t: Tree): Tree {
    if p.Top? then t else Plug(p.up, Out(p, t))
  }

  ghost function Depth(p: Path): nat {
    if p.Top? then 0 else 1 + Depth(p.up)
  }

  // No node occurs twice.
  ghost predicate Distinct(t: Tree) {
    t.Bin? ==>
      && t.n !in Nodes(t.left) && t.n !in Nodes(t.right)
      && Nodes(t.left) !! Nodes(t.right)
      && Distinct(t.left) && Distinct(t.right)
  }

  ghost predicate PathDistinct(p: Path) {
    p.Step? ==>
      && p.n !in PathNodes(p.up) && p.n !in Nodes(p.sib)
      && Nodes(p.sib) !! PathNodes(p.up)
      && Distinct(p.sib) && PathDistinct(p.up)
  }

  ghost predicate Apart(p: Path, t: Tree) {
    Distinct(t) && PathDistinct(p) && Nodes(t) !! PathNodes(p)
  }

  // In-order sequences
  // ------------------

  ghost function Inorder(t: Tree): seq<Node> {
    if t.Leaf? then [] else Inorder(t.left) + [t.n] + Inorder(t.right)
  }

  ghost function Before(p: Path): seq<Node> {
    if p.Top? then [] else
      match p.side
      case L => Before(p.up)
      case R => Before(p.up) + Inorder(p.sib) + [p.n]
  }

  ghost function After(p: Path): seq<Node> {
    if p.Top? then [] else
      match p.side
      case L => [p.n] + Inorder(p.sib) + After(p.up)
      case R => After(p.up)
  }

  ghost function Keys(s: seq<Node>): (ks: seq<Key>)
    ensures |ks| == |s| && forall i :: 0 <= i < |s| ==> ks[i] == s[i].key
  {
    seq(|s|, i requires 0 <= i < |s| => s[i].key)
  }

  lemma {:induction false} InorderPlug(p: Path, t: Tree)
    ensures Inorder(Plug(p, t)) == Before(p) + Inorder(t) + After(p)
  {
    if p.Step? {
      var b, a, sib := Before(p.up), After(p.up), Inorder(p.sib);
      InorderPlug(p.up, Out(p, t));
      if p.side.L? {
        Sequences.Hoist(b, Inorder(t), p.n, sib, a);
      } else {
        Sequences.Hoist(b, sib, p.n, Inorder(t), a);
      }
    }
  }

  // Going down leaves what is in order from the position onwards, or up to it.
  lemma StepLeft(p: Path, t: Tree)
    requires t.Bin?
    ensures Inorder(t.left) + After(In(p, t, L)) == Inorder(t) + After(p)
    ensures After(In(p, t, L)) != [] && After(In(p, t, L))[0] == t.n
  {
    Sequences.From(Inorder(t.left), t.n, Inorder(t.right), After(p));
  }

  lemma StepRight(p: Path, t: Tree)
    requires t.Bin?
    ensures Before(In(p, t, R)) + Inorder(t.right) == Before(p) + Inorder(t)
    ensures Before(In(p, t, R)) != [] && Before(In(p, t, R))[|Before(In(p, t, R))| - 1] == t.n
  {
    Sequences.UpTo(Before(p), Inorder(t.left), t.n, Inorder(t.right));
  }

  // Reshaping a subtree keeps the order of the whole tree if it keeps its own.
  lemma SameInorder(p: Path, t: Tree, t': Tree)
    requires Inorder(t) == Inorder(t')
    ensures Inorder(Plug(p, t)) == Inorder(Plug(p, t'))
  {
    InorderPlug(p, t);
    InorderPlug(p, t');
  }

  lemma {:induction false} PlugNodes(p: Path, t: Tree)
    ensures Nodes(Plug(p, t)) == PathNodes(p) + Nodes(t)
  {
    if p.Step? {
      PlugNodes(p.up, Out(p, t));
    }
  }

  lemma {:induction false} InorderNodes(t: Tree, n: Node)
    ensures n in Inorder(t) <==> n in Nodes(t)
  {
    if t.Bin? {
      InorderNodes(t.left, n);
      InorderNodes(t.right, n);
    }
  }

  // Rotation towards side s: the child on the other side comes up.
  // --------------------------------------------------------------

  ghost function Rot(s: Side, t: Tree): Tree
    requires t.Bin? && Far(s, t).Bin?
  {
    var y := Far(s, t);
    Mk(s, Mk(s, Near(s, t), t.n, t.red, Near(s, y)), y.n, y.red, Far(s, y))
  }

  lemma RotInorder(s: Side, t: Tree)
    requires t.Bin? && Far(s, t).Bin?
    ensures Inorder(Rot(s, t)) == Inorder(t)
  {
    var y := Far(s, t);
    if s.L? {
      assert Inorder(y) == Inorder(y.left) + [y.n] + Inorder(y.right);
    } else {
      assert Inorder(y) == Inorder(y.left) + [y.n] + Inorder(y.right);
    }
  }

  lemma RotKeeps(s: Side, t: Tree)
    requires t.Bin? && Far(s, t).Bin? && Distinct(t)
    ensures Nodes(Rot(s, t)) == Nodes(t) && Distinct(Rot(s, t))
  {
    var y := Far(s, t);
    assert Distinct(y) && Nodes(y) == Nodes(y.left) + {y.n} + Nodes(y.right);
  }

  // Red-black rules
  // ---------------

  ghost predicate IsRed(t: Tree) { t.Bin? && t.red }

  // Every way down from t to a leaf meets h black nodes.
  ghost predicate Bal(t: Tree, h: int) {
    if t.Leaf? then h == 0 else
      var k := if t.red then h else h - 1;
      Bal(t.left, k) && Bal(t.right, k)
  }

  ghost predicate NoRR(t: Tree) {
    t.Bin? ==> NoRR(t.left) && NoRR(t.right) && (t.red ==> !IsRed(t.left) && !IsRed(t.right))
  }

  // p makes a balanced tree of a subtree with black-height h ...
  ghost predicate PathBal(p: Path, h: int) {
    p.Step? ==> Bal(p.sib, h) && PathBal(p.up, if p.red then h else h + 1)
  }

  // ... and has no red-red edge, also not to a subtree of the given colour.
  ghost predicate PathNoRR(p: Path, red: bool) {
    p.Step? ==> NoRR(p.sib) && (p.red ==> !red && !IsRed(p.sib)) && PathNoRR(p.up, p.red)
  }

  // The root, if it lies on the path, is black.
  ghost predicate RootBlack(p: Path) {
    p.Step? ==> if p.up.Top? then !p.red else RootBlack(p.up)
  }

  ghost function BlackHeight(t: Tree): (h: nat) {
    if t.Leaf? then 0 else BlackHeight(t.left) + if t.red then 0 else 1
  }

  lemma {:induction false} BalHeight(t: Tree, h: int)
    requires Bal(t, h)
    ensures h == BlackHeight(t)
  {
    if t.Bin? {
      BalHeight(t.left, if t.red then h else h - 1);
    }
  }

  ghost predicate RedBlack(t: Tree) {
    !IsRed(t) && NoRR(t) && Bal(t, BlackHeight(t))
  }

  ghost predicate Fits(p: Path, t: Tree, h: int) {
    && Bal(t, h) && PathBal(p, h) && NoRR(t) && PathNoRR(p, IsRed(t))
    && RootBlack(p) && (p.Top? ==> !IsRed(t))
  }

  lemma {:induction false} Unplug(p: Path, t: Tree)
    requires RedBlack(Plug(p, t))
    ensures Fits(p, t, BlackHeight(t))
  {
    if p.Step? {
      var q := Out(p, t);
      Unplug(p.up, q);
      BalHeight(t, if p.red then BlackHeight(q) else BlackHeight(q) - 1);
    }
  }

  lemma {:induction false} Replug(p: Path, t: Tree, h: int)
    requires Fits(p, t, h)
    ensures RedBlack(Plug(p, t))
  {
    if p.Top? {
      BalHeight(t, h);
    } else {
      Replug(p.up, Out(p, t), if p.red then h else h + 1);
    }
  }
}
