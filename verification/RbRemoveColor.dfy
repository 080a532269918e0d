/** What the rebalancing steps after a removal make of a tree and a position in
    it (RB_REMOVE_COLOR), as values. */
module RbRemoveColor {
  import opened Sides
  import opened RbShape

  // Everything below the root of t is free of red-red edges.
  ghost predicate Loose(t: Tree) {
    t.Bin? ==> NoRR(t.left) && NoRR(t.right)
  }

  // The subtree at the position is one black node short of what the rest of the
  // tree expects; apart from that, and from a red root of the subtree, all is well.
  ghost predicate Short(p: Path, t: Tree, h: int) {
    Bal(t, h) && PathBal(p, h + 1) && Loose(t) && PathNoRR(p, false) && RootBlack(p)
  }

  // The sibling is a node, never NULL.
  lemma SiblingExists(p: Path, t: Tree, h: int)
    requires Short(p, t, h) && p.Step?
    ensures p.sib.Bin?
  {
    BalHeight(t, h);
  }

  // Red sibling: it is turned up over the parent, whose new sibling is black.
  ghost function Lowered(p: Path): Path
    requires p.Step? && p.sib.Bin?
  {
    var s, y := p.side, p.sib;
    Step(Step(p.up, s, y.n, false, Far(s, y)), s, p.n, true, Near(s, y))
  }

  lemma LoweredOk(p: Path, t: Tree, h: int)
    requires Short(p, t, h) && p.Step? && IsRed(p.sib)
    ensures !p.red && Short(Lowered(p), t, h) && !IsRed(Lowered(p).sib)
    ensures var s := p.side; var g := Mk(s, t, p.n, true, p.sib.(red := false));
            && g == Mk(Other(s), p.sib.(red := false), p.n, true, t)
            && In(In(p.up, Rot(s, g), s), Near(s, Rot(s, g)), s) == Lowered(p)
            && Near(s, Near(s, Rot(s, g))) == t
            && Inorder(Plug(Lowered(p), t)) == Inorder(Plug(p, t))
  {
    var s, y := p.side, p.sib;
    assert PathNoRR(p.up, p.red) && PathBal(p.up, h + 2);
    assert Bal(y, h + 1) && NoRR(y);
    BalHeight(Near(s, y), h + 1);
    BalHeight(t, h);
    var g := Mk(s, t, p.n, true, y.(red := false));
    var u := Out(Lowered(p), t);
    assert Rot(s, g) == Out(Lowered(p).up, u);
    RotInorder(s, g);
    SameInorder(p.up, Out(p, t), Rot(s, g));
    assert Plug(Lowered(p), t) == Plug(p.up, Rot(s, g)) by {
      assert Plug(Lowered(p).up, u) == Plug(p.up, Rot(s, g));
    }
  }

  // Black sibling with black children: it turns red and the parent is short.
  ghost function Drained(p: Path, t: Tree): Tree
    requires p.Step? && p.sib.Bin?
  {
    Mk(p.side, t, p.n, p.red, p.sib.(red := true))
  }

  lemma DrainedOk(p: Path, t: Tree, h: int)
    requires Short(p, t, h) && !IsRed(t) && p.Step? && p.sib.Bin?
    requires !IsRed(p.sib) && !IsRed(p.sib.left) && !IsRed(p.sib.right)
    ensures Short(p.up, Drained(p, t), if p.red then h else h + 1)
    ensures Inorder(Plug(p.up, Drained(p, t))) == Inorder(Plug(p, t))
  {
    SameInorder(p.up, Out(p, t), Drained(p, t));
    assert PathNoRR(p.up, p.red) && PathBal(p.up, if p.red then h + 1 else h + 2);
  }

  // Black sibling whose outer child is black: its red inner child is turned up.
  ghost function Leaned(p: Path): Path
    requires p.Step? && p.sib.Bin? && Near(p.side, p.sib).Bin?
  {
    var s, y := p.side, p.sib;
    p.(sib := Rot(Other(s), Mk(s, Near(s, y).(red := false), y.n, true, Far(s, y))))
  }

  lemma LeanedOk(p: Path, t: Tree, h: int)
    requires Short(p, t, h) && p.Step? && p.sib.Bin?
    requires !IsRed(p.sib) && IsRed(Near(p.side, p.sib)) && !IsRed(Far(p.side, p.sib))
    ensures Short(Leaned(p), t, h)
    ensures Leaned(p).sib.Bin? && !IsRed(Leaned(p).sib) && IsRed(Far(p.side, Leaned(p).sib))
    ensures Inorder(Plug(Leaned(p), t)) == Inorder(Plug(p, t))
  {
    var s, y := p.side, p.sib;
    var x := Near(s, y);
    assert NoRR(y) && NoRR(x) && Bal(y, h + 1) && Bal(x, h);
    RotInorder(Other(s), Mk(s, x.(red := false), y.n, true, Far(s, y)));
    var y' := Leaned(p).sib;
    assert Inorder(y') == Inorder(y);
    assert Bal(Near(s, x), h) && Bal(Far(s, x), h);
    assert Bal(Far(s, y'), h) && Bal(y', h + 1) && NoRR(Far(s, y')) && NoRR(y');
    SameInorder(p.up, Out(p, t), Out(Leaned(p), t));
  }

  // Black sibling whose outer child is red: it is turned up and takes the
  // parent's colour, and both its children become black.
  ghost function Restored(p: Path, t: Tree): Tree
    requires p.Step? && p.sib.Bin? && Far(p.side, p.sib).Bin?
  {
    var s, y := p.side, p.sib;
    Mk(s, Mk(s, t, p.n, false, Near(s, y)), y.n, p.red, Far(s, y).(red := false))
  }

  lemma RestoredOk(p: Path, t: Tree, h: int)
    requires Short(p, t, h) && !IsRed(t) && p.Step? && p.sib.Bin?
    requires !IsRed(p.sib) && IsRed(Far(p.side, p.sib))
    ensures Fits(p.up, Restored(p, t), if p.red then h + 1 else h + 2)
    ensures Inorder(Plug(p.up, Restored(p, t))) == Inorder(Plug(p, t))
  {
    var y := p.sib;
    assert NoRR(Far(p.side, y)) && Bal(y, h + 1) && Bal(Far(p.side, y), h);
    RotInorder(p.side, Out(p, t));
    SameInorder(p.up, Out(p, t), Restored(p, t));
    assert PathNoRR(p.up, p.red) && PathBal(p.up, if p.red then h + 1 else h + 2);
  }

  // The loop ends at a red node or at the root, which turns black.
  ghost function Blackened(t: Tree): Tree {
    if t.Leaf? then t else t.(red := false)
  }

  lemma EndOk(p: Path, t: Tree, h: int)
    requires Short(p, t, h) && (IsRed(t) || p.Top?)
    ensures RedBlack(Plug(p, Blackened(t)))
    ensures Inorder(Plug(p, Blackened(t))) == Inorder(Plug(p, t))
  {
    Replug(p, Blackened(t), if IsRed(t) then h + 1 else h);
    SameInorder(p, t, Blackened(t));
  }
}
