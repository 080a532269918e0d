/** What the rebalancing steps after an insertion make of a tree and a position
    in it (RB_INSERT_COLOR), as values. */
module RbInsertColor {
  import opened Sides
  import opened RbShape

  // Everything is a red-black tree but for the red node at the position, whose
  // parent may be red as well.
  ghost predicate Raised(p: Path, t: Tree, h: int) {
    IsRed(t) && Bal(t, h) && PathBal(p, h) && NoRR(t) && PathNoRR(p, false) && RootBlack(p)
  }

  // A red parent is not the root, and the grandparent is black.
  lemma HasGrandparent(p: Path, t: Tree, h: int)
    requires Raised(p, t, h) && p.Step? && p.red
    ensures p.up.Step? && !p.up.red
  {
    assert PathNoRR(p.up, true);
  }

  // Uncle red: both children of the grandparent become black, it becomes red.
  ghost function Pushed(p: Path, t: Tree): Tree
    requires p.Step? && p.up.Step? && IsRed(p.up.sib)
  {
    Mk(p.up.side, Mk(p.side, t, p.n, false, p.sib), p.up.n, true, p.up.sib.(red := false))
  }

  lemma PushedOk(p: Path, t: Tree, h: int)
    requires Raised(p, t, h) && p.Step? && p.red && p.up.Step? && IsRed(p.up.sib)
    ensures Raised(p.up.up, Pushed(p, t), h + 1)
    ensures Inorder(Plug(p.up.up, Pushed(p, t))) == Inorder(Plug(p, t))
  {
    var q, g := p.up.up, Out(p.up, Out(p, t));
    assert PathNoRR(p.up, true) && PathBal(p.up, h) && PathBal(q, h + 1) && RootBlack(p.up);
    assert Plug(p.up, Out(p, t)) == Plug(q, g);
    InorderPlug(q, g);
    InorderPlug(q, Pushed(p, t));
  }

  // An inner grandchild is turned over its parent.
  ghost function Straight(p: Path, t: Tree): Path
    requires p.Step? && p.up.Step? && t.Bin?
  {
    Step(p.up, p.up.side, t.n, true, Far(p.up.side, t))
  }

  lemma StraightOk(p: Path, t: Tree, h: int)
    requires Raised(p, t, h) && p.Step? && p.red && p.up.Step? && p.side != p.up.side
    ensures var s := p.up.side; var t' := Near(s, Rot(s, Out(p, t)));
            && In(p.up, Rot(s, Out(p, t)), s) == Straight(p, t)
            && Raised(Straight(p, t), t', h)
            && Inorder(Plug(Straight(p, t), t')) == Inorder(Plug(p, t))
  {
    var s := p.up.side;
    var g := Rot(s, Out(p, t));
    assert Plug(p, t) == Plug(p.up, Out(p, t));
    InorderPlug(p.up, Out(p, t));
    InorderPlug(p.up, g);
    assert Inorder(g) == Inorder(Out(p, t));
    assert Out(Straight(p, t), Near(s, g)) == g;
  }

  // Uncle black, outer grandchild: parent black, grandparent red, and the
  // grandparent turned away over the parent.
  ghost function Settled(p: Path): Path
    requires p.Step? && p.up.Step?
  {
    Step(p.up.up, p.side, p.n, false, Mk(p.side, p.sib, p.up.n, true, p.up.sib))
  }

  lemma SettledOk(p: Path, t: Tree, h: int)
    requires Raised(p, t, h) && p.Step? && p.red && p.up.Step? && p.side == p.up.side && !IsRed(p.up.sib)
    ensures Raised(Settled(p), t, h)
    ensures var s := p.side; var g := Mk(s, Mk(s, t, p.n, false, p.sib), p.up.n, true, p.up.sib);
            && In(p.up.up, Rot(Other(s), g), s) == Settled(p)
            && Near(s, Rot(Other(s), g)) == t
            && Inorder(Plug(Settled(p), t)) == Inorder(Plug(p, t))
  {
    SettledRules(p, t, h);
    var q, s := p.up.up, p.side;
    var g := Mk(s, Mk(s, t, p.n, false, p.sib), p.up.n, true, p.up.sib);
    RotInorder(Other(s), g);
    assert Out(Settled(p), t) == Rot(Other(s), g);
    assert Plug(p, t) == Plug(p.up, Out(p, t)) == Plug(q, Out(p.up, Out(p, t)));
    SameInorder(q, Out(p.up, Out(p, t)), Out(Settled(p), t));
  }

  lemma SettledRules(p: Path, t: Tree, h: int)
    requires Raised(p, t, h) && p.Step? && p.red && p.up.Step? && p.side == p.up.side && !IsRed(p.up.sib)
    ensures Raised(Settled(p), t, h)
  {
    var q := p.up.up;
    assert PathNoRR(p.up, true) && PathBal(p.up, h) && PathBal(q, h + 1) && RootBlack(p.up);
  }

  // The last step: the root turns black.
  lemma BlackenedOk(p: Path, t: Tree, h: int)
    requires Raised(p, t, h) && (p.Step? ==> !p.red)
    ensures RedBlack(Plug(p, if p.Top? then t.(red := false) else t))
  {
    if p.Top? {
      Replug(p, t.(red := false), h + 1);
    } else {
      Replug(p, t, h);
    }
  }
}
