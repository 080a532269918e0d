/** Searching a red-black tree: where a key belongs, and how far away that is. */
module RbSearch {
  import opened Sides
  import opened Logs
  import opened Order
  import Sequences
  import opened RbShape

  // The position of u splits s into elements below k, those of u, and elements
  // above k.
  ghost predicate Between(cmp: Cmp, s: seq<Node>, q: Path, u: Tree, k: Key) {
    && s == Before(q) + Inorder(u) + After(q)
    && AllBelow(cmp, Keys(Before(q)), k) && AllAbove(cmp, k, Keys(After(q)))
  }

  lemma KeysJoin(b: seq<Node>, n: Node, a: seq<Node>)
    ensures Keys(b + [n] + a) == Keys(b) + [n.key] + Keys(a)
    ensures Keys(b + [n]) == Keys(b) + [n.key] && Keys([n] + a) == [n.key] + Keys(a)
    ensures Keys(b + a) == Keys(b) + Keys(a)
  {
  }

  lemma Around(q: Path, u: Tree)
    requires u.Bin?
    ensures Before(q) + Inorder(u) + After(q)
         == (Before(q) + Inorder(u.left)) + [u.n] + (Inorder(u.right) + After(q))
  {
    Sequences.Around(Before(q), Inorder(u.left), u.n, Inorder(u.right), After(q));
  }

  lemma Narrow(cmp: Cmp, s: seq<Node>, q: Path, u: Tree, k: Key, side: Side)
    requires TotalOrder(cmp) && Sorted(cmp, Keys(s)) && Between(cmp, s, q, u, k) && u.Bin?
    requires if side.L? then cmp(k, u.n.key) < 0 else cmp(k, u.n.key) > 0
    ensures Between(cmp, s, In(q, u, side), Near(side, u), k)
  {
    hide TotalOrder, Sorted, AllBelow, AllAbove, LowerBound, Keys;
    var b, a := Before(q) + Inorder(u.left), Inorder(u.right) + After(q);
    Around(q, u);
    KeysJoin(b, u.n, a);
    SplitAt(cmp, Keys(b), u.n.key, Keys(a), k);
    if side.L? {
      assert [u.n] + a == After(In(q, u, L));
    } else {
      assert b + [u.n] == Before(In(q, u, R));
    }
  }

  // The search ends at a node with an equal key or at an empty position: at
  // the lower bound.
  lemma Found(cmp: Cmp, s: seq<Node>, q: Path, u: Tree, k: Key)
    requires TotalOrder(cmp) && Sorted(cmp, Keys(s)) && Between(cmp, s, q, u, k)
    requires u.Bin? ==> cmp(k, u.n.key) == 0
    ensures var i := LowerBound(cmp, Keys(s), k);
            if u.Bin? then i < |s| && s[i] == u.n else
              s[..i] == Before(q) && s[i..] == After(q) && (i < |s| ==> cmp(k, s[i].key) < 0)
  {
    hide TotalOrder;
    if u.Bin? {
      var b, a := Before(q) + Inorder(u.left), Inorder(u.right) + After(q);
      Around(q, u);
      KeysJoin(b, u.n, a);
      SplitAt(cmp, Keys(b), u.n.key, Keys(a), k);
    } else {
      var b, a := Before(q), After(q);
      assert s == b + a && Keys(s)[..|b|] == Keys(b);
      if a != [] {
        assert s[|b|] == a[0] && Keys(a)[0] == a[0].key;
        Opposite(cmp, k, a[0].key);
      }
      LowerBoundIs(cmp, Keys(s), k, |b|);
    }
  }

  // A key that is strictly between two neighbours is no element's.
  lemma NotThere(cmp: Cmp, s: seq<Node>, i: nat, elm: Node)
    requires TotalOrder(cmp) && i <= |s|
    requires AllBelow(cmp, Keys(s[..i]), elm.key) && AllAbove(cmp, elm.key, Keys(s[i..]))
    ensures elm !in s
  {
    hide TotalOrder;
    Opposite(cmp, elm.key, elm.key);
    forall j | 0 <= j < |s| ensures s[j] != elm {
      if j < i {
        assert s[j] == s[..i][j] && Keys(s[..i])[j] == s[j].key;
      } else {
        assert s[j] == s[i..][j - i] && Keys(s[i..])[j - i] == s[j].key;
      }
    }
  }

  // What lies at the lower bound, seen from any element.
  lemma AtBound(cmp: Cmp, s: seq<Node>, k: Key, n: Node)
    requires TotalOrder(cmp) && Sorted(cmp, Keys(s)) && n in s
    ensures var i := LowerBound(cmp, Keys(s), k);
            && (cmp(k, n.key) == 0 ==> i < |s| && s[i] == n)
            && (cmp(k, n.key) < 0 ==> i < |s| && cmp(s[i].key, n.key) <= 0)
  {
    hide TotalOrder;
    var j :| 0 <= j < |s| && s[j] == n;
    var i, ks := LowerBound(cmp, Keys(s), k), Keys(s);
    Opposite(cmp, k, n.key);
    Opposite(cmp, n.key, n.key);
    assert i > j ==> ks[..i][j] == n.key;
    if cmp(k, n.key) == 0 && i < j {
      Transitive(cmp, ks[i], ks[j], k);
    }
  }

  // Taking one element out of an ascending sequence.
  lemma Once(cmp: Cmp, b: seq<Node>, n: Node, a: seq<Node>)
    requires TotalOrder(cmp) && Sorted(cmp, Keys(b + [n] + a))
    ensures n !in b && n !in a
    ensures Sorted(cmp, Keys(b + a))
  {
    hide TotalOrder;
    var s := b + [n] + a;
    KeysJoin(b, n, a);
    SortedDrop(cmp, Keys(b), n.key, Keys(a));
    Opposite(cmp, n.key, n.key);
    assert s[|b|] == n;
    assert forall i :: 0 <= i < |b| ==> b[i] == s[i];
    assert forall i :: 0 <= i < |a| ==> a[i] == s[|b| + 1 + i];
  }

  lemma Splits(s: seq<Node>, i: nat, n: Node)
    requires i <= |s|
    ensures Keys(s)[..i] == Keys(s[..i]) && Keys(s)[i..] == Keys(s[i..])
    ensures Keys(s[..i] + [n] + s[i..]) == Keys(s)[..i] + [n.key] + Keys(s)[i..]
  {
  }

  // The neighbours of an element; NULL at the ends.
  ghost predicate IsNext(s: seq<Node>, n: Node, r: Node?) {
    forall i :: 0 <= i < |s| && s[i] == n ==> r == if i + 1 < |s| then s[i + 1] else null
  }

  ghost predicate IsPrev(s: seq<Node>, n: Node, r: Node?) {
    forall i :: 0 <= i < |s| && s[i] == n ==> r == if i > 0 then s[i - 1] else null
  }

  lemma NextAt(s: seq<Node>, i: nat, r: Node?)
    requires i < |s| && IsNext(s, s[i], r)
    ensures r == if i + 1 < |s| then s[i + 1] else null
  {
  }

  lemma Neighbours(b: seq<Node>, n: Node, a: seq<Node>)
    requires n !in b && n !in a
    ensures IsNext(b + [n] + a, n, if a == [] then null else a[0])
    ensures IsPrev(b + [n] + a, n, if b == [] then null else b[|b| - 1])
  {
    var s := b + [n] + a;
    assert forall i :: 0 <= i < |b| ==> s[i] == b[i];
    assert forall i :: |b| < i < |s| ==> s[i] == a[i - |b| - 1];
  }

  // The height bound
  // ----------------

  ghost function Height(t: Tree): nat {
    if t.Leaf? then 0 else
      1 + if Height(t.left) < Height(t.right) then Height(t.right) else Height(t.left)
  }

  // At most every other node on the way down is red, and the black ones fill
  // the tree.
  lemma {:induction false} HeightAndSize(t: Tree, h: nat)
    requires Bal(t, h) && NoRR(t)
    ensures Height(t) <= 2 * h + if IsRed(t) then 1 else 0
    ensures |Inorder(t)| + 1 >= Pow2(h)
  {
    if t.Bin? {
      BalHeight(t, h);
      var k := if t.red then h else h - 1;
      HeightAndSize(t.left, k);
      HeightAndSize(t.right, k);
    }
  }

  // Height at most 2 lg(n + 1).
  lemma HeightBound(t: Tree)
    requires RedBlack(t)
    ensures Pow2(Height(t)) <= (|Inorder(t)| + 1) * (|Inorder(t)| + 1)
  {
    var h, n := BlackHeight(t), |Inorder(t)| + 1;
    HeightAndSize(t, h);
    Pow2Monotone(Height(t), 2 * h);
    Pow2Twice(h);
    Squares(Pow2(h), n);
  }

  // A way up is no longer than the tree is high.
  lemma {:induction false} DepthHeight(p: Path, t: Tree)
    ensures Depth(p) + Height(t) <= Height(Plug(p, t))
  {
    if p.Step? {
      DepthHeight(p.up, Out(p, t));
    }
  }

  ghost predicate WithinBound(steps: nat, n: nat) {
    Pow2(steps) <= (n + 1) * (n + 1)
  }

  lemma StepsBound(t: Tree, steps: nat)
    requires RedBlack(t) && steps <= Height(t)
    ensures WithinBound(steps, |Inorder(t)|)
  {
    HeightBound(t);
    Pow2Monotone(steps, Height(t));
  }
}
