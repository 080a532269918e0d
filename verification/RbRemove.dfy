/** What taking a node out makes of a tree (RB_REMOVE), as values. */
module RbRemove {
  import opened Sides
  import Sequences
  import opened RbShape
  import opened RbMemory
  import opened RbRemoveColor

  // The position of a node of the tree.
  ghost function Locate(p: Path, t: Tree, n: Node): (r: (Path, Tree))
    requires n in Nodes(t)
    ensures r.1.Bin? && r.1.n == n && Plug(r.0, r.1) == Plug(p, t)
    decreases t
  {
    if t.n == n then (p, t)
    else if n in Nodes(t.left) then
      assert Out(In(p, t, L), t.left) == t;
      Locate(In(p, t, L), t.left, n)
    else
      assert Out(In(p, t, R), t.right) == t;
      Locate(In(p, t, R), t.right, n)
  }

  // The leftmost node of t, its position, and t without it.
  ghost function MinTree(t: Tree): (r: Tree)
    requires t.Bin?
    ensures r.Bin? && r.left.Leaf?
  {
    if t.left.Leaf? then t else MinTree(t.left)
  }

  ghost function MinPath(p: Path, t: Tree): Path
    requires t.Bin?
    decreases t
  {
    if t.left.Leaf? then p else MinPath(In(p, t, L), t.left)
  }

  ghost function PopMin(t: Tree): Tree
    requires t.Bin?
  {
    if t.left.Leaf? then t.right else t.(left := PopMin(t.left))
  }

  lemma {:induction false} MinPlug(p: Path, t: Tree)
    requires t.Bin?
    ensures Plug(MinPath(p, t), MinTree(t)) == Plug(p, t)
    ensures Plug(MinPath(p, t), MinTree(t).right) == Plug(p, PopMin(t))
    decreases t
  {
    if t.left.Bin? {
      MinPlug(In(p, t, L), t.left);
      assert Out(In(p, t, L), t.left) == t;
      assert Out(In(p, t, L), PopMin(t.left)) == PopMin(t);
    }
  }

  lemma {:induction false} MinInorder(t: Tree)
    requires t.Bin?
    ensures Inorder(t) == [MinTree(t).n] + Inorder(PopMin(t))
    ensures MinTree(t).n in Nodes(t) && Nodes(PopMin(t)) <= Nodes(t)
    ensures Distinct(t) ==> MinTree(t).n !in Nodes(PopMin(t))
  {
    if t.left.Bin? {
      MinInorder(t.left);
    }
  }

  lemma {:induction false} MinUp(b: Path, b': Path, t: Tree)
    requires t.Bin?
    ensures t.left.Leaf? ==> MinPath(b, t) == b
    ensures t.left.Bin? ==> Up(MinPath(b, t)) == Up(MinPath(b', t)) && Up(MinPath(b, t)) in Nodes(t)
    decreases t
  {
    if t.left.Bin? {
      MinUp(In(b, t, L), In(b', t, L), t.left);
    }
  }

  lemma {:induction false} MinDepth(b: Path, b': Path, t: Tree)
    requires t.Bin? && Depth(b) == Depth(b')
    ensures Depth(MinPath(b, t)) == Depth(MinPath(b', t))
    decreases t
  {
    if t.left.Bin? {
      MinDepth(In(b, t, L), In(b', t, L), t.left);
    }
  }

  // Taking out a node with one child: a red one leaves the rules intact, a
  // black one leaves its place one short.
  lemma SplicedOk(p: Path, t: Tree, c: Tree)
    requires RedBlack(Plug(p, t)) && t.Bin?
    requires (t.left.Leaf? && c == t.right) || (t.right.Leaf? && c == t.left)
    ensures if t.red then RedBlack(Plug(p, c)) else Short(p, c, BlackHeight(t) - 1)
  {
    var h := BlackHeight(t);
    Unplug(p, t);
    assert NoRR(c) && Bal(c, if t.red then h else h - 1) && PathNoRR(p, t.red);
    assert Loose(c) && PathNoRR(p, false);
    if t.red {
      Replug(p, c, h);
    }
  }

  // The rules do not look at which node stands where.
  lemma Relabelled(p: Path, t: Tree, n: Node)
    requires RedBlack(Plug(p, t)) && t.Bin?
    ensures RedBlack(Plug(p, t.(n := n)))
  {
    Unplug(p, t);
    Replug(p, t.(n := n), BlackHeight(t));
  }

  // A node with two subtrees: its successor is taken out and takes its place.
  ghost function Succ(t: Tree): Node
    requires t.Bin? && t.right.Bin?
  {
    MinTree(t.right).n
  }

  // Where the successor was, seen before and after the exchange.
  ghost function SuccPath(p: Path, t: Tree): Path
    requires t.Bin? && t.right.Bin?
  {
    MinPath(In(p, t, R), t.right)
  }

  lemma SuccessorPlug(p: Path, t: Tree)
    requires t.Bin? && t.right.Bin?
    ensures Plug(SuccPath(p, t), MinTree(t.right)) == Plug(p, t)
    ensures Plug(SuccPath(p, t), MinTree(t.right).right) == Plug(p, t.(right := PopMin(t.right)))
  {
    MinPlug(In(p, t, R), t.right);
    assert Out(In(p, t, R), t.right) == t;
    assert Out(In(p, t, R), PopMin(t.right)) == t.(right := PopMin(t.right));
  }

  lemma SuccessorUp(p: Path, t: Tree)
    requires t.Bin? && t.right.Bin? && Distinct(t)
    ensures Up(SuccPath(p, t.(n := Succ(t)))) == if Up(SuccPath(p, t)) == t.n then Succ(t) else Up(SuccPath(p, t))
  {
    var t' := t.(n := Succ(t));
    MinUp(In(p, t, R), In(p, t', R), t.right);
    MinUp(In(p, t', R), In(p, t, R), t.right);
  }

  lemma SuccessorApart(p: Path, t: Tree)
    requires t.Bin? && t.right.Bin? && Apart(p, t)
    ensures Succ(t) !in Nodes(t.(right := PopMin(t.right))) && Succ(t) !in PathNodes(p)
  {
    MinInorder(t.right);
  }

  lemma SuccessorOut(p: Path, t: Tree)
    requires t.Bin? && t.right.Bin? && RedBlack(Plug(p, t))
    ensures var t', u := t.(n := Succ(t)), MinTree(t.right);
            && Inorder(Plug(SuccPath(p, t'), u.right)) == Before(p) + (Inorder(t.left) + Inorder(t.right)) + After(p)
            && if u.red then RedBlack(Plug(SuccPath(p, t'), u.right))
               else Short(SuccPath(p, t'), u.right, BlackHeight(u) - 1)
  {
    var x, u := Succ(t), MinTree(t.right);
    var t' := t.(n := x);
    Relabelled(p, t, x);
    SuccessorPlug(p, t');
    SplicedOk(SuccPath(p, t'), u, u.right);
    InorderPlug(p, t'.(right := PopMin(t.right)));
    MinInorder(t.right);
    Sequences.Push(Inorder(t.left), x, Inorder(PopMin(t.right)));
  }

  // Memory
  // ------

  lemma HoldsFrame(m: Memory, m': Memory, root: Node?, p: Path, t: Tree)
    requires Holds(m, root, p, t)
    requires Agree(m, m', Nodes(t)) && Agree(m, m', PathNodes(p))
    ensures Holds(m', root, p, t)
  {
    Frame(m, m', t, Up(p));
    FramePath(m, m', p, root, Ptr(t));
  }

  // The node of t is bypassed: its only subtree c hangs in its place.
  lemma Spliced(m: Memory, m': Memory, root: Node?, root': Node?, p: Path, t: Tree, c: Tree)
    requires Holds(m, root, p, t) && t.Bin?
    requires (t.left.Leaf? && c == t.right) || (t.right.Leaf? && c == t.left)
    requires m'.Keys == m.Keys && Hung(m, m', root, root', p, Ptr(c))
    requires c.Bin? ==> c.n in m && m'[c.n] == m[c.n].(parent := Up(p))
    requires forall n :: n in m && n != Ptr(c) && n != Up(p) ==> m'[n] == m[n]
    ensures Holds(m', root', p, c)
  {
    assert Distinct(c) && Rep(m, c, t.n) && Nodes(c) <= Nodes(t);
    Adopted(m, m', c, t.n, Up(p));
    Rehung(m, m', root, root', p, t.n, Ptr(c));
  }

  // The node x takes the place of the node of t.
  lemma Transplanted(m: Memory, m': Memory, root: Node?, root': Node?, p: Path, t: Tree, x: Node)
    requires Holds(m, root, p, t) && t.Bin? && x !in Nodes(t) && x !in PathNodes(p)
    requires m'.Keys == m.Keys && Hung(m, m', root, root', p, x)
    requires x in m && t.n in m && m'[x] == m[t.n]
    requires t.left.Bin? ==> t.left.n in m && m'[t.left.n] == m[t.left.n].(parent := x)
    requires t.right.Bin? ==> t.right.n in m && m'[t.right.n] == m[t.right.n].(parent := x)
    requires forall n :: n in m && n != x && n != Ptr(t.left) && n != Ptr(t.right) && n != Up(p) ==> m'[n] == m[n]
    ensures Holds(m', root', p, t.(n := x))
  {
    var l, r := t.left, t.right;
    assert Distinct(l) && Distinct(r) && Nodes(l) + Nodes(r) <= Nodes(t);
    assert (l.Bin? ==> l.n in Nodes(l)) && (r.Bin? ==> r.n in Nodes(r));
    Adopted(m, m', l, t.n, x);
    Adopted(m, m', r, t.n, x);
    Rehung(m, m', root, root', p, t.n, x);
  }
}
