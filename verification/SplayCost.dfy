/** What a splay makes of a tree, in how many rounds, and what that costs over
    many splays. */
module SplayCost {
  import opened Sides
  import opened Logs
  import opened Order
  import opened SplayShape

  // Which way to go from a node: down its left for a negative number, down its
  // right for a positive one, and no further for zero.
  type Way = Node -> int

  ghost function Towards(cmp: Cmp, k: Key): Way {
    (n: Node) => cmp(k, n.key)
  }

  ghost function Always(c: int): Way {
    (n: Node) => c
  }

  ghost function SideOf(c: int): Side {
    if c < 0 then L else R
  }

  // The child on the way is on the way to the same side again.
  ghost predicate Straight(way: Way, t: Tree)
    requires t.Bin? && way(t.n) != 0
  {
    var y := Near(SideOf(way(t.n)), t);
    y.Bin? && way(y.n) != 0 && SideOf(way(y.n)) == SideOf(way(t.n))
  }

  // The working tree in a round, after the rotation if there is one.
  ghost function Bent(way: Way, t: Tree): (u: Tree)
    requires t.Bin? && way(t.n) != 0
    ensures u.Bin? && Size(u) == Size(t)
  {
    if Straight(way, t) then Lift(SideOf(way(t.n)), t) else t
  }

  // Where it goes on after the round.
  ghost function Rest(way: Way, t: Tree): (r: Tree)
    requires t.Bin? && way(t.n) != 0
    ensures Size(r) < Size(t)
  {
    Near(SideOf(way(t.n)), Bent(way, t))
  }

  ghost function Rounds(way: Way, t: Tree): nat
    requires t.Bin?
    decreases Size(t)
  {
    if way(t.n) == 0 then 0
    else if Rest(way, t).Leaf? then 1
    else 1 + Rounds(way, Rest(way, t))
  }

  // The tree at the end: what is left over of the round goes below what comes
  // up from the rest.
  ghost function Result(way: Way, t: Tree): (r: Tree)
    requires t.Bin?
    ensures r.Bin? && Size(r) == Size(t)
    decreases Size(t)
  {
    if way(t.n) == 0 then t
    else if Rest(way, t).Leaf? then Bent(way, t)
    else
      var s, u := SideOf(way(t.n)), Bent(way, t);
      Lift(s, Mk(s, Result(way, Rest(way, t)), u.n, Far(s, u)))
  }

  // The loop keeps the result in view: linking what a round leaves over leads to
  // the same tree, with one round less to go.
  lemma RoundLinks(way: Way, l: Spine, r: Spine, t: Tree)
    requires t.Bin? && way(t.n) != 0 && Rest(way, t).Bin?
    ensures var u, v := Bent(way, t), Rest(way, t);
            && Rounds(way, t) == 1 + Rounds(way, v)
            && Whole(l, r, Result(way, t))
            == if way(t.n) < 0 then Whole(l, Link(r, u.n, u.right), Result(way, v))
               else Whole(Link(l, u.n, u.left), r, Result(way, v))
  {
  }

  lemma RoundStops(way: Way, t: Tree)
    requires t.Bin? && (way(t.n) != 0 ==> Rest(way, t).Leaf?)
    ensures Result(way, t) == if way(t.n) == 0 then t else Bent(way, t)
    ensures Rounds(way, t) == if way(t.n) == 0 then 0 else 1
  {
  }

  ghost function Potential(t: Tree): nat {
    if t.Leaf? then 0 else Potential(t.left) + Potential(t.right) + Rank(Size(t))
  }

  // Rounds and twice the growth of the potential.
  ghost function Cost(way: Way, t: Tree): int
    requires t.Bin?
  {
    Rounds(way, t) + 2 * Potential(Result(way, t)) - 2 * Potential(t)
  }

  lemma SizeBySide(s: Side, t: Tree)
    requires t.Bin?
    ensures Size(t) == Size(Near(s, t)) + 1 + Size(Far(s, t))
    ensures Potential(t) == Potential(Near(s, t)) + Potential(Far(s, t)) + Rank(Size(t))
  {
  }

  // What a round without a rotation leaves over, with what comes back to it.
  ghost function Leftover(way: Way, t: Tree): (r: Tree)
    requires t.Bin? && way(t.n) != 0 && Rest(way, t).Bin?
  {
    var s := SideOf(way(t.n));
    Mk(s, Far(s, Result(way, Rest(way, t))), t.n, Far(s, t))
  }

  // A round without a rotation.
  lemma Single(way: Way, t: Tree)
    requires t.Bin? && way(t.n) != 0 && !Straight(way, t) && Rest(way, t).Bin?
    ensures var s, y := SideOf(way(t.n)), Rest(way, t);
            && y == Near(s, t) && Size(t) == Size(y) + 1 + Size(Far(s, t))
            && Size(Leftover(way, t)) == Size(Far(s, Result(way, y))) + 1 + Size(Far(s, t))
    ensures Cost(way, t)
         == 1 + Cost(way, Rest(way, t)) + 2 * Rank(Size(Leftover(way, t))) - 2 * Rank(Size(Rest(way, t)))
  {
    hide Rank, Size, Potential;
    var s, y := SideOf(way(t.n)), Rest(way, t);
    var v, x, r := Result(way, y), Leftover(way, t), Result(way, t);
    assert r == Mk(s, Near(s, v), v.n, x) && Rounds(way, t) == 1 + Rounds(way, y);
    hide Result, Rounds, Bent, Rest, Straight;
    SizeBySide(s, t);
    SizeBySide(s, v);
    SizeBySide(s, r);
    SizeBySide(s, x);
    assert Potential(r) == Potential(v) - Rank(Size(y)) + Potential(Far(s, t)) + Rank(Size(x)) + Rank(Size(t));
    assert Potential(t) == Potential(y) + Potential(Far(s, t)) + Rank(Size(t));
  }

  // A round with one.
  lemma Double(way: Way, t: Tree)
    requires t.Bin? && way(t.n) != 0 && Straight(way, t) && Rest(way, t).Bin?
    ensures Cost(way, t) + 1 <= Cost(way, Rest(way, t)) + 6 * Rank(Size(t)) - 6 * Rank(Size(Rest(way, t)))
  {
    var s, w := SideOf(way(t.n)), Rest(way, t);
    var y, v := Near(s, t), Result(way, w);
    var x := Mk(s, Far(s, y), t.n, Far(s, t));
    var z := Mk(s, Far(s, v), y.n, x);
    assert Bent(way, t) == Mk(s, w, y.n, x) && Result(way, t) == Mk(s, Near(s, v), v.n, z);
    SizeBySide(s, t);
    SizeBySide(s, y);
    SizeBySide(s, x);
    SizeBySide(s, v);
    SizeBySide(s, z);
    SizeBySide(s, Result(way, t));
    RankParts(Size(x), Size(w), Size(t));
    RankMonotone(Size(z), Size(t));
    RankMonotone(Size(w), Size(y));
    RankMonotone(Size(w), Size(t));
  }

  // The last round.
  lemma LastRound(way: Way, t: Tree)
    requires t.Bin? && (way(t.n) == 0 || Rest(way, t).Leaf?)
    ensures Cost(way, t) <= 1 + 2 * Rank(Size(t))
  {
    if way(t.n) != 0 && Straight(way, t) {
      var s := SideOf(way(t.n));
      var y := Near(s, t);
      var x := Mk(s, Far(s, y), t.n, Far(s, t));
      SizeBySide(s, t);
      SizeBySide(s, y);
      SizeBySide(s, x);
      SizeBySide(s, Lift(s, t));
      RankMonotone(Size(x), Size(t));
    }
  }

  // Two rounds without rotations, to one side and then to the other.
  lemma Zigzag(way: Way, t: Tree)
    requires t.Bin? && way(t.n) != 0 && !Straight(way, t) && Rest(way, t).Bin?
    requires var y := Rest(way, t); way(y.n) != 0 && !Straight(way, y) && Rest(way, y).Bin?
    ensures var z := Rest(way, Rest(way, t)); Cost(way, t) <= Cost(way, z) + 4 * Rank(Size(t)) - 4 * Rank(Size(z))
    ensures Rank(Size(Rest(way, Rest(way, t)))) <= Rank(Size(t))
  {
    hide Rank, Potential;
    var s, y := SideOf(way(t.n)), Rest(way, t);
    var o, z := SideOf(way(y.n)), Rest(way, y);
    var v, w := Result(way, y), Result(way, z);
    Single(way, t);
    Single(way, y);
    assert o == Other(s);
    SizeBySide(o, y);
    SizeBySide(o, w);
    assert Far(s, v) == Near(o, w);
    RankParts(Size(Leftover(way, t)), Size(Leftover(way, y)), Size(t));
    RankMonotone(Size(z), Size(y));
    RankMonotone(Size(y), Size(t));
  }

  lemma SingleBound(way: Way, t: Tree)
    requires t.Bin? && way(t.n) != 0 && !Straight(way, t) && Rest(way, t).Bin?
    ensures Cost(way, t) <= 1 + Cost(way, Rest(way, t)) + 2 * Rank(Size(t)) - 2 * Rank(Size(Rest(way, t)))
    ensures Rank(Size(Rest(way, t))) <= Rank(Size(t))
  {
    hide Rank, Potential, Cost, Rounds, Result, Bent, Straight, Size;
    var s, y := SideOf(way(t.n)), Rest(way, t);
    Single(way, t);
    SizeBySide(s, Result(way, y));
    RankMonotone(Size(Leftover(way, t)), Size(t));
    RankMonotone(Size(y), Size(t));
  }

  // The amortised cost of a splay: a round with a rotation pays for itself and
  // for a round without one before it, and two rounds without pay together.
  lemma {:induction false} Amortised(way: Way, t: Tree)
    requires t.Bin?
    ensures Rounds(way, t) + 2 * Potential(Result(way, t)) <= 2 * Potential(t) + 6 * Rank(Size(t)) + 2
    decreases Size(t)
  {
    hide Rounds, Result, Potential, Bent, Rank;
    if way(t.n) == 0 || Rest(way, t).Leaf? {
      LastRound(way, t);
    } else if Straight(way, t) {
      Double(way, t);
      Amortised(way, Rest(way, t));
    } else {
      var y := Rest(way, t);
      SingleBound(way, t);
      if way(y.n) == 0 || Rest(way, y).Leaf? {
        LastRound(way, y);
      } else if Straight(way, y) {
        Double(way, y);
        Amortised(way, Rest(way, y));
      } else {
        Zigzag(way, t);
        Amortised(way, Rest(way, y));
      }
    }
  }

  // Other changes of a tree
  // -----------------------

  lemma {:induction false} SizeIs(t: Tree)
    ensures Size(t) == |Inorder(t)|
  {
    if t.Bin? {
      SizeIs(t.left);
      SizeIs(t.right);
    }
  }

  // A new root over the halves of a tree.
  lemma NewRoot(u: Tree, n: Node, c: int)
    requires u.Bin?
    ensures var t := if c < 0 then Bin(u.left, n, Bin(Leaf, u.n, u.right)) else Bin(Bin(u.left, u.n, Leaf), n, u.right);
            Size(t) == Size(u) + 1 && Potential(t) <= Potential(u) + Rank(Size(t))
  {
    hide Rank;
    var x := if c < 0 then Bin(Leaf, u.n, u.right) else Bin(u.left, u.n, Leaf);
    SizeBySide(L, u);
    SizeBySide(L, x);
    SizeBySide(L, if c < 0 then Bin(u.left, n, x) else Bin(x, n, u.right));
    RankMonotone(Size(x), Size(u));
  }

  // A right subtree hung on a root without one, where both were below one root.
  lemma Rejoined(u: Tree, w: Tree)
    requires u.Bin? && w.Bin? && w.right.Leaf? && Size(w) == Size(u.left)
    ensures var t := Bin(w.left, w.n, u.right);
            Size(t) < Size(u) && Potential(t) + Potential(u.left) <= Potential(u) + Potential(w)
  {
    RankMonotone(Size(Bin(w.left, w.n, u.right)), Size(u));
  }

  // Paying
  // ------

  ghost function Max(a: nat, b: nat): nat {
    if a < b then b else a
  }

  // What each splay and each insertion is granted with at most n elements.
  ghost function Grant(n: nat): nat {
    6 * Rank(n) + 2
  }

  lemma GrantMore(charges: nat, n: nat, n': nat)
    requires n <= n'
    ensures charges * Grant(n) + Grant(n') <= (charges + 1) * Grant(n')
    ensures charges * Grant(n) <= charges * Grant(n')
  {
    RankMonotone(n, n');
    Product(charges, Grant(n), Grant(n'));
  }

  // Work that is within a grant, and what there is to pay with after it.
  lemma Pay(rounds: nat, more: nat, before: nat, after: nat, charges: nat, n: nat, most: nat)
    requires rounds + 2 * before <= charges * Grant(most)
    requires more + 2 * after <= 2 * before + Grant(n) && n <= most
    ensures rounds + more + 2 * after <= (charges + 1) * Grant(most)
  {
    GrantMore(charges, most, most);
    RankMonotone(n, most);
  }

  // One more element: the tree may not be larger than most' then.
  lemma PayNew(rounds: nat, before: nat, after: nat, charges: nat, n: nat, most: nat, most': nat)
    requires rounds + 2 * before <= charges * Grant(most)
    requires after <= before + Rank(n) && n <= most' && most <= most'
    ensures rounds + 2 * after <= (charges + 1) * Grant(most')
  {
    GrantMore(charges, most, most');
    RankMonotone(n, most');
  }

  // Splaying the left subtree of a root, and joining what comes up with the
  // right one in place of the root.
  lemma RemovePays(way: Way, u: Tree, before: nat, charges: nat, most: nat)
    requires u.Bin? && u.left.Bin? && Result(way, u.left).right.Leaf? && Size(u) <= most
    requires before + 2 * Potential(u) <= charges * Grant(most)
    ensures var w := Result(way, u.left); var t := Bin(w.left, w.n, u.right);
            Size(t) <= most && before + Rounds(way, u.left) + 2 * Potential(t) <= (charges + 1) * Grant(most)
  {
    hide Result, Rounds, Potential;
    var w := Result(way, u.left);
    var t := Bin(w.left, w.n, u.right);
    Amortised(way, u.left);
    Rejoined(u, w);
    Pay(before, Rounds(way, u.left), Potential(u), Potential(t), charges, Size(u.left), most);
  }

  lemma Smaller(u: Tree)
    requires u.Bin?
    ensures Size(u.right) < Size(u) && Potential(u.right) <= Potential(u)
  {
  }

  lemma Product(a: nat, b: nat, c: nat)
    requires b <= c
    ensures a * b <= a * c && a * b + c <= (a + 1) * c
  {
    assert a * c - a * b == a * (c - b) >= 0;
    assert (a + 1) * c == a * c + c;
  }
}
