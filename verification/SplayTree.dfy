/** The splay tree of include/uv/tree.h, restructured in place by every access. */
module SplayTree {
  import opened Sides
  import opened Order
  import Sequences
  import opened SplayShape
  import opened SplayCost
  import opened Logs

  class SplayTree {
    const cmp: Cmp
    var root: Node?
    ghost var nodes: set<Node>
    ghost var shape: Tree
    // All rounds of all splays so far, the number of splays and insertions, and
    // the most elements there ever were.
    ghost var rounds: nat
    ghost var charges: nat
    ghost var most: nat

    // The root pointer holds t.
    ghost predicate Holds(t: Tree)
      reads `root, `nodes, nodes
    {
      root == Ptr(t) && Distinct(t) && Nodes(t) <= nodes && Rep(Snap(nodes), t)
    }

    ghost predicate Valid()
      reads this, nodes
    {
      && TotalOrder(cmp) && Sorted(cmp, Keys(Inorder(shape)))
      && Holds(shape) && nodes == Nodes(shape) && Paid()
    }

    // The rounds so far, and those that the shape of the tree may yet make
    // necessary, are covered by what was granted.
    ghost predicate Paid()
      reads this
    {
      Size(shape) <= most && rounds + 2 * Potential(shape) <= charges * Grant(most)
    }

    // The documented bound: m splays and insertions on a tree that was empty at
    // first take no more than m (6 lg n + 2) rounds.
    lemma Balance()
      requires Valid()
      ensures rounds <= charges * (6 * Rank(most) + 2) && |Contents()| <= most
    {
      SizeIs(shape);
    }

    // The elements in ascending order.
    ghost function Contents(): seq<Node>
      reads this
    {
      Inorder(shape)
    }

    constructor (cmp: Cmp)
      requires TotalOrder(cmp)
      ensures Valid() && Contents() == [] && this.cmp == cmp && rounds == 0 && charges == 0
    {
      this.cmp := cmp;
      root, nodes, shape := null, {}, Leaf;
      rounds, charges, most := 0, 0, 0;
    }

    // The splay step
    // --------------

    // The state between the rounds of the splay loop.
    ghost predicate InParts(scratch: Node, l: Spine, r: Spine, t: Tree)
      reads `root, `nodes, nodes, scratch
    {
      && t.Bin? && root == t.n && scratch !in nodes
      && Nodes(t) <= nodes && SpineNodes(l) <= nodes && SpineNodes(r) <= nodes
      && Parted(Snap(nodes + {scratch}), scratch, l, r, t)
    }

    lemma Look(scratch: Node, l: Spine, r: Spine, t: Tree)
      requires InParts(scratch, l, r, t)
      ensures t.n in nodes && t.n.left == Ptr(t.left) && t.n.right == Ptr(t.right)
      ensures t.left.Bin? ==>
        && t.left.n in nodes && t.left.n != t.n
        && t.left.n.left == Ptr(t.left.left) && t.left.n.right == Ptr(t.left.right)
      ensures t.right.Bin? ==>
        && t.right.n in nodes && t.right.n != t.n
        && t.right.n.left == Ptr(t.right.left) && t.right.n.right == Ptr(t.right.right)
      ensures l.Link? ==> l.n in nodes && l.n != t.n
      ensures r.Link? ==> r.n in nodes && r.n != t.n && (l.Link? ==> l.n != r.n)
    {
      assert t.left.Bin? ==> t.left.n in Nodes(t.left) && Rep(Snap(nodes + {scratch}), t.left);
      assert t.right.Bin? ==> t.right.n in Nodes(t.right) && Rep(Snap(nodes + {scratch}), t.right);
      assert l.Link? ==> l.n in SpineNodes(l);
      assert r.Link? ==> r.n in SpineNodes(r);
    }

    method RotateRight(tmp: Node, ghost scratch: Node, ghost l: Spine, ghost r: Spine, ghost t: Tree)
      requires InParts(scratch, l, r, t) && t.left.Bin? && t.left.n == tmp
      modifies `root, nodes
      ensures InParts(scratch, l, r, Lift(L, t))
    {
      hide Parted, Nodes, SpineNodes;
      ghost var m := Snap(nodes + {scratch});
      Look(scratch, l, r, t);
      root.left := tmp.right;
      tmp.right := root;
      root := tmp;
      Rotated(m, Snap(nodes + {scratch}), scratch, l, r, t, L);
      LiftKeeps(L, t);
    }

    method RotateLeft(tmp: Node, ghost scratch: Node, ghost l: Spine, ghost r: Spine, ghost t: Tree)
      requires InParts(scratch, l, r, t) && t.right.Bin? && t.right.n == tmp
      modifies `root, nodes
      ensures InParts(scratch, l, r, Lift(R, t))
    {
      hide Parted, Nodes, SpineNodes;
      ghost var m := Snap(nodes + {scratch});
      Look(scratch, l, r, t);
      root.right := tmp.left;
      tmp.left := root;
      root := tmp;
      Rotated(m, Snap(nodes + {scratch}), scratch, l, r, t, R);
      LiftKeeps(R, t);
    }

    method LinkLeft(right: Node, ghost scratch: Node, ghost l: Spine, ghost r: Spine, ghost t: Tree) returns (last: Node)
      requires InParts(scratch, l, r, t) && t.left.Bin? && right == Last(r, scratch)
      modifies `root, nodes, scratch
      ensures last == t.n
      ensures InParts(scratch, l, Link(r, t.n, t.right), t.left)
    {
      hide Parted;
      ghost var m := Snap(nodes + {scratch});
      Look(scratch, l, r, t);
      right.left := root;
      last := root;
      root := root.left;
      Linked(m, Snap(nodes + {scratch}), scratch, l, r, t, L);
    }

    method LinkRight(left: Node, ghost scratch: Node, ghost l: Spine, ghost r: Spine, ghost t: Tree) returns (last: Node)
      requires InParts(scratch, l, r, t) && t.right.Bin? && left == Last(l, scratch)
      modifies `root, nodes, scratch
      ensures last == t.n
      ensures InParts(scratch, Link(l, t.n, t.left), r, t.right)
    {
      hide Parted;
      ghost var m := Snap(nodes + {scratch});
      Look(scratch, l, r, t);
      left.right := root;
      last := root;
      root := root.right;
      Linked(m, Snap(nodes + {scratch}), scratch, l, r, t, R);
    }

    method Assemble(scratch: Node, left: Node, right: Node, ghost l: Spine, ghost r: Spine, ghost t: Tree)
      requires InParts(scratch, l, r, t) && left == Last(l, scratch) && right == Last(r, scratch)
      modifies nodes, scratch
      ensures Holds(Whole(l, r, t))
    {
      hide Parted, SpineNodes, Nodes, Distinct, Fill;
      ghost var m := Snap(nodes + {scratch});
      Look(scratch, l, r, t);
      left.right := root.left;
      right.left := root.right;
      ghost var m' := Snap(nodes + {scratch});
      Closed(m, m', scratch, l, r, t);
      root.left := scratch.right;
      root.right := scratch.left;
      Finish(m, m', scratch, l, r, t);
    }

    lemma Finish(m: Memory, m': Memory, scratch: Node, l: Spine, r: Spine, t: Tree)
      requires Parted(m, scratch, l, r, t) && t.Bin? && scratch !in nodes && root == t.n
      requires Nodes(t) <= nodes && SpineNodes(l) <= nodes && SpineNodes(r) <= nodes
      requires Rep(m', Fill(l, L, t.left)) && Rep(m', Fill(r, R, t.right))
      requires t.n in nodes && t.n.left == Ptr(Fill(l, L, t.left)) && t.n.right == Ptr(Fill(r, R, t.right))
      requires forall n :: n in nodes && n != t.n ==> n in m' && m'[n] == Cell(n.left, n.right)
      ensures Holds(Whole(l, r, t))
    {
      hide Inorder, SpineSeq, Fill, Open;
      WholeKeeps(scratch, l, r, t);
      FillNodes(l, L, t.left);
      FillNodes(r, R, t.right);
      Frame(m', Snap(nodes), Fill(l, L, t.left));
      Frame(m', Snap(nodes), Fill(r, R, t.right));
    }

    // What one round makes of the three parts.
    ghost predicate RoundIs(way: Way, l: Spine, r: Spine, t: Tree, l': Spine, r': Spine, u: Tree, done: bool) {
      t.Bin? && way(t.n) != 0 &&
      var b := Bent(way, t);
      if done then Rest(way, t).Leaf? && l' == l && r' == r && u == b
      else
        && u == Rest(way, t) && u.Bin? && Size(u) < Size(t)
        && if way(t.n) < 0 then l' == l && r' == Link(r, b.n, b.right)
           else l' == Link(l, b.n, b.left) && r' == r
    }

    // One round for a key below the root's; done: the loop is left.
    method RoundLeft(k: Key, scratch: Node, right: Node,
                     ghost s: seq<Node>, ghost l: Spine, ghost r: Spine, ghost t: Tree)
      returns (last: Node, done: bool, ghost q: Spine, ghost u: Tree)
      requires TotalOrder(cmp) && Sorted(cmp, Keys(s)) && Split(cmp, s, l, r, t, k)
      requires InParts(scratch, l, r, t) && right == Last(r, scratch) && cmp(k, root.key) < 0
      modifies `root, nodes, scratch
      ensures InParts(scratch, l, q, u) && Split(cmp, s, l, q, u, k) && last == Last(q, scratch)
      ensures done ==> cmp(k, u.n.key) < 0 && u.left.Leaf?
      ensures RoundIs(Towards(cmp, k), l, r, t, l, q, u, done) && root == u.n
    {
      hide TotalOrder, Sorted, Parted, AllBelow, AllAbove, Inorder;
      Look(scratch, l, r, t);
      last, done, q, u := right, true, r, t;
      var tmp := root.left;
      if tmp == null {
        return;
      }
      if cmp(k, tmp.key) < 0 {
        LiftKeeps(L, t);
        RotateRight(tmp, scratch, l, r, t);
        u := Lift(L, t);
        Look(scratch, l, r, u);
        if root.left == null {
          return;
        }
      }
      SplitLink(cmp, s, l, r, u, k, L);
      last := LinkLeft(right, scratch, l, r, u);
      done, q, u := false, Link(r, u.n, u.right), u.left;
    }

    method RoundRight(k: Key, scratch: Node, left: Node,
                      ghost s: seq<Node>, ghost l: Spine, ghost r: Spine, ghost t: Tree)
      returns (last: Node, done: bool, ghost q: Spine, ghost u: Tree)
      requires TotalOrder(cmp) && Sorted(cmp, Keys(s)) && Split(cmp, s, l, r, t, k)
      requires InParts(scratch, l, r, t) && left == Last(l, scratch) && cmp(k, root.key) > 0
      modifies `root, nodes, scratch
      ensures InParts(scratch, q, r, u) && Split(cmp, s, q, r, u, k) && last == Last(q, scratch)
      ensures done ==> cmp(k, u.n.key) > 0 && u.right.Leaf?
      ensures RoundIs(Towards(cmp, k), l, r, t, q, r, u, done) && root == u.n
    {
      hide TotalOrder, Sorted, Parted, AllBelow, AllAbove, Inorder;
      Look(scratch, l, r, t);
      last, done, q, u := left, true, l, t;
      var tmp := root.right;
      if tmp == null {
        return;
      }
      if cmp(k, tmp.key) > 0 {
        LiftKeeps(R, t);
        RotateLeft(tmp, scratch, l, r, t);
        u := Lift(R, t);
        Look(scratch, l, r, u);
        if root.right == null {
          return;
        }
      }
      SplitLink(cmp, s, l, r, u, k, R);
      last := LinkRight(left, scratch, l, r, u);
      done, q, u := false, Link(l, u.n, u.left), u.right;
    }

    // Brings up the element with the key of elm, or else a neighbour of the
    // place where it belongs, and keeps the elements and their order.
    method Splay(elm: Node, ghost t: Tree) returns (ghost u: Tree)
      requires TotalOrder(cmp) && Sorted(cmp, Keys(Inorder(t)))
      requires Holds(t) && t.Bin? && nodes == Nodes(t)
      modifies `root, `rounds, nodes
      ensures Holds(u) && Nodes(u) == Nodes(t)
      ensures Inorder(u) == Inorder(t) && Splayed(cmp, u, elm.key)
      ensures u == Result(Towards(cmp, elm.key), t)
      ensures rounds == old(rounds) + Rounds(Towards(cmp, elm.key), t)
    {
      hide TotalOrder, Sorted, InParts, Split, Splayed, Result, Rounds, Whole, Bent, Rest, Size, Inorder;
      var scratch := new Node(elm.key);
      var left, right := scratch, scratch;
      ghost var l, r, w, way := End, End, t, Towards(cmp, elm.key);
      Begin(scratch, t, elm.key);
      WholeAlone(Result(way, t));
      var comp, done := cmp(elm.key, root.key), false;
      while comp != 0
        invariant !done
        invariant fresh(scratch) && InParts(scratch, l, r, w)
        invariant Split(cmp, Inorder(t), l, r, w, elm.key)
        invariant left == Last(l, scratch) && right == Last(r, scratch)
        invariant w.Bin? && root == w.n && comp == way(w.n)
        invariant Whole(l, r, Result(way, w)) == Result(way, t)
        invariant rounds + Rounds(way, w) == old(rounds) + Rounds(way, t)
        decreases Size(w)
      {
        ghost var l', r', v := l, r, w;
        if comp < 0 {
          right, done, r, w := RoundLeft(elm.key, scratch, right, Inorder(t), l, r, w);
        } else {
          left, done, l, w := RoundRight(elm.key, scratch, left, Inorder(t), l, r, w);
        }
        rounds := rounds + 1;
        if done {
          RoundStops(way, v);
          break;
        }
        RoundLinks(way, l', r', v);
        comp := cmp(elm.key, root.key);
      }
      if !done {
        RoundStops(way, w);
      }
      SplitEnd(cmp, Inorder(t), l, r, w, elm.key);
      SplitIs(cmp, Inorder(t), l, r, w, elm.key);
      u := Close(scratch, left, right, l, r, w, t);
    }

    lemma WholeAlone(t: Tree)
      requires t.Bin?
      ensures Whole(End, End, t) == t
    {
    }

    // The parts become one tree again, with the same elements in the same order.
    method Close(scratch: Node, left: Node, right: Node, ghost l: Spine, ghost r: Spine, ghost w: Tree, ghost t: Tree)
      returns (ghost u: Tree)
      requires InParts(scratch, l, r, w) && left == Last(l, scratch) && right == Last(r, scratch)
      requires AllInorder(l, r, w) == Inorder(t) && nodes == Nodes(t)
      modifies nodes, scratch
      ensures Holds(u) && u.Bin? && u.n == w.n && u == Whole(l, r, w) && Inorder(u) == Inorder(t) && Nodes(u) == Nodes(t)
    {
      Conclude(scratch, t, l, r, w);
      Assemble(scratch, left, right, l, r, w);
      u := Whole(l, r, w);
    }

    lemma Begin(scratch: Node, t: Tree, k: Key)
      requires Holds(t) && t.Bin? && scratch !in nodes
      ensures InParts(scratch, End, End, t) && Split(cmp, Inorder(t), End, End, t, k) && root == t.n
      ensures AllInorder(End, End, t) == Inorder(t)
    {
      Frame(Snap(nodes), Snap(nodes + {scratch}), t);
      assert [] + Inorder(t) + [] == Inorder(t);
    }

    lemma Conclude(scratch: Node, t: Tree, l: Spine, r: Spine, w: Tree)
      requires InParts(scratch, l, r, w) && nodes == Nodes(t)
      requires AllInorder(l, r, w) == Inorder(t)
      ensures Inorder(Whole(l, r, w)) == Inorder(t) && Nodes(Whole(l, r, w)) == Nodes(t)
    {
      WholeKeeps(scratch, l, r, w);
      forall n | n in Nodes(t) ensures n in Nodes(Whole(l, r, w)) {
        InorderNodes(t, n);
        InorderNodes(Whole(l, r, w), n);
      }
    }

    // The operations
    // --------------

    // Where a key belongs, seen from a splayed root.
    lemma Position(u: Tree, k: Key)
      requires TotalOrder(cmp) && Sorted(cmp, Keys(Inorder(u))) && Splayed(cmp, u, k)
      ensures var i := LowerBound(cmp, Keys(Inorder(u)), k);
              i == |Inorder(u.left)| + if cmp(k, u.n.key) > 0 then 1 else 0
      ensures forall n :: n in Inorder(u) && n != u.n ==> cmp(k, n.key) != 0
    {
      hide TotalOrder, Sorted, LowerBound;
      var b, a := Inorder(u.left), Inorder(u.right);
      KeysJoin(b, u.n, a);
      BoundAt(cmp, Keys(b), u.n.key, Keys(a), k);
      forall n | n in b ensures cmp(k, n.key) != 0 {
        var j :| 0 <= j < |b| && b[j] == n;
        assert Keys(b)[j] == n.key;
        Opposite(cmp, k, n.key);
      }
      forall n | n in a ensures cmp(k, n.key) != 0 {
        var j :| 0 <= j < |a| && a[j] == n;
        assert Keys(a)[j] == n.key;
      }
    }

    // A root pointer that holds all the nodes, in ascending order, is valid.
    lemma Accept()
      requires TotalOrder(cmp) && Holds(shape) && Sorted(cmp, Keys(Inorder(shape)))
      requires forall n :: n in nodes ==> n in Inorder(shape)
      requires Paid()
      ensures Valid()
    {
      hide TotalOrder, Sorted;
      forall n | n in nodes ensures n in Nodes(shape) {
        InorderNodes(shape, n);
      }
    }

    lemma NotEmpty()
      requires Valid() && root != null
      ensures shape.Bin? && shape.n == root && Inorder(shape) != []
    {
    }

    // Splaying a valid tree, for one grant.
    method Access(elm: Node)
      requires Valid() && root != null
      modifies `root, `shape, `rounds, `charges, nodes
      ensures Valid() && Contents() == old(Contents()) && shape.Bin? && root == shape.n
      ensures Splayed(cmp, shape, elm.key) && charges == old(charges) + 1
    {
      hide TotalOrder, Sorted, Splayed, Result, Rounds, Potential, Grant;
      NotEmpty();
      ghost var way := Towards(cmp, elm.key);
      ghost var u := Splay(elm, shape);
      Affordable(way, shape, old(rounds), charges, most);
      shape, charges := u, charges + 1;
    }

    lemma Affordable(way: Way, t: Tree, before: nat, paid: nat, n: nat)
      requires t.Bin? && Size(t) <= n && before + 2 * Potential(t) <= paid * Grant(n)
      ensures before + Rounds(way, t) + 2 * Potential(Result(way, t)) <= (paid + 1) * Grant(n)
      ensures Size(Result(way, t)) <= n
    {
      hide Result, Rounds, Potential;
      Amortised(way, t);
      Pay(before, Rounds(way, t), Potential(t), Potential(Result(way, t)), paid, Size(t), n);
    }

    // The node with the same key as elm, which is the root then.
    method Find(elm: Node) returns (r: Node?)
      requires Valid()
      modifies `root, `shape, `rounds, `charges, nodes
      ensures Valid() && Contents() == old(Contents())
      ensures Contents() != [] ==> Splayed(cmp, shape, elm.key)
      ensures charges <= old(charges) + 1
      ensures r != null ==> r in Contents() && cmp(elm.key, r.key) == 0 && r == root
      ensures r == null ==> forall n :: n in Contents() ==> cmp(elm.key, n.key) != 0
    {
      hide TotalOrder, Sorted, Splayed, LowerBound;
      if root == null {
        return null;
      }
      Access(elm);
      Position(shape, elm.key);
      if cmp(elm.key, root.key) == 0 {
        return root;
      }
      return null;
    }

    // The root becomes a child of elm, which takes over its subtree on the
    // other side.
    ghost function Below(u: Tree, elm: Node, k: int): Tree
      requires u.Bin?
    {
      if k < 0 then Bin(u.left, elm, Bin(Leaf, u.n, u.right)) else Bin(Bin(u.left, u.n, Leaf), elm, u.right)
    }

    lemma BelowDistinct(u: Tree, elm: Node, k: int)
      requires u.Bin? && Distinct(u) && elm !in Nodes(u)
      ensures Distinct(Below(u, elm, k)) && Nodes(Below(u, elm, k)) == Nodes(u) + {elm}
      ensures u.n in Nodes(u) && u.n !in Nodes(u.left) && u.n !in Nodes(u.right)
      ensures Nodes(u.left) <= Nodes(u) && Nodes(u.right) <= Nodes(u)
    {
      assert Nodes(Bin(Leaf, u.n, u.right)) == {u.n} + Nodes(u.right);
      assert Nodes(Bin(u.left, u.n, Leaf)) == {u.n} + Nodes(u.left);
      assert Distinct(Bin(Leaf, u.n, u.right)) && Distinct(Bin(u.left, u.n, Leaf));
    }

    lemma Inserted(u: Tree, elm: Node)
      requires TotalOrder(cmp) && Sorted(cmp, Keys(Inorder(u))) && Splayed(cmp, u, elm.key)
      requires cmp(elm.key, u.n.key) != 0
      ensures var s, i := Inorder(u), LowerBound(cmp, Keys(Inorder(u)), elm.key);
              Inorder(Below(u, elm, cmp(elm.key, u.n.key))) == s[..i] + [elm] + s[i..]
              && Sorted(cmp, Keys(s[..i] + [elm] + s[i..]))
      ensures elm !in Nodes(u)
    {
      hide TotalOrder, Sorted, LowerBound, AllBelow, AllAbove, Keys;
      var s, b, a, k := Inorder(u), Inorder(u.left), Inorder(u.right), elm.key;
      Position(u, k);
      var i := LowerBound(cmp, Keys(s), k);
      Opposite(cmp, k, k);
      Opposite(cmp, k, u.n.key);
      InorderNodes(u, elm);
      KeysJoin(b, u.n, a);
      SplitAt(cmp, Keys(b), u.n.key, Keys(a), k);
      Cut(s, i, elm);
      Halves(b, u.n, a);
      assert Inorder(Bin(Leaf, u.n, u.right)) == [u.n] + a;
      assert Inorder(Bin(u.left, u.n, Leaf)) == b + [u.n];
      SortedInsert(cmp, Keys(s), i, k);
    }

    lemma Halves(b: seq<Node>, n: Node, a: seq<Node>)
      ensures (b + [n] + a)[..|b|] == b && (b + [n] + a)[|b|..] == [n] + a
      ensures (b + [n] + a)[..|b| + 1] == b + [n] && (b + [n] + a)[|b| + 1..] == a
    {
    }

    lemma Cut(s: seq<Node>, i: nat, n: Node)
      requires i <= |s|
      ensures Keys(s)[..i] == Keys(s[..i]) && Keys(s)[i..] == Keys(s[i..])
      ensures Keys(s[..i] + [n] + s[i..]) == Keys(s)[..i] + [n.key] + Keys(s)[i..]
    {
    }

    lemma NewPays(elm: Node, comp: int) returns (n: nat)
      requires Paid() && shape.Bin?
      ensures n == Max(most, Size(Below(shape, elm, comp)))
      ensures rounds + 2 * Potential(Below(shape, elm, comp)) <= (charges + 1) * Grant(n)
    {
      hide Potential, Grant, Size;
      var t := Below(shape, elm, comp);
      n := Max(most, Size(t));
      NewRoot(shape, elm, comp);
      PayNew(rounds, Potential(shape), Potential(t), charges, Size(t), most, n);
    }

    // The links that an insertion at a splayed root writes.
    method Hang(elm: Node, comp: int)
      requires Valid() && root != null && shape.Bin? && root == shape.n
      requires elm !in nodes && comp != 0
      modifies this, nodes, elm
      ensures nodes == old(nodes) + {elm} && Holds(shape) && shape == Below(old(shape), elm, comp)
      ensures Paid() && charges == old(charges) + 1 && most == Max(old(most), Size(shape))
    {
      hide TotalOrder, Sorted, Inorder, Distinct, Nodes, Potential, Grant, Size;
      ghost var u, m := shape, Snap(nodes);
      BelowDistinct(u, elm, comp);
      most := NewPays(elm, comp);
      charges := charges + 1;
      if comp < 0 {
        elm.left := root.left;
        elm.right := root;
        root.left := null;
      } else {
        elm.right := root.right;
        elm.left := root;
        root.right := null;
      }
      root := elm;
      nodes := nodes + {elm};
      shape := Below(u, elm, comp);
      Frame(m, Snap(nodes), u.left);
      Frame(m, Snap(nodes), u.right);
      assert if comp < 0 then Rep(Snap(nodes), Bin(Leaf, u.n, u.right)) else Rep(Snap(nodes), Bin(u.left, u.n, Leaf));
    }

    method Insert(elm: Node) returns (r: Node?)
      requires Valid()
      modifies this, nodes, elm
      ensures Valid()
      ensures charges <= old(charges) + 2
      ensures most == if r != null then old(most) else Max(old(most), |Contents()|)
      ensures r != null ==>
        && r in Contents() && cmp(elm.key, r.key) == 0 && Contents() == old(Contents())
        && (elm !in nodes ==> unchanged(elm))
      ensures r == null ==>
        && (forall n :: n in old(Contents()) ==> cmp(elm.key, n.key) != 0)
        && nodes == old(nodes) + {elm}
        && var s := old(Contents()); var i := LowerBound(cmp, Keys(s), elm.key);
           Contents() == s[..i] + [elm] + s[i..]
    {
      hide TotalOrder, Sorted, Splayed, LowerBound, Keys;
      ghost var s := Contents();
      if root == null {
        First(elm);
        return null;
      }
      Access(elm);
      var comp := cmp(elm.key, root.key);
      Position(shape, elm.key);
      if comp == 0 {
        return root;
      }
      Inserted(shape, elm);
      Hang(elm, comp);
      forall n | n in nodes ensures n in Inorder(shape) {
        InorderNodes(old(shape), n);
      }
      Accept();
      SizeIs(shape);
      r := null;
    }

    method First(elm: Node)
      requires Valid() && root == null
      modifies this, elm
      ensures Valid() && nodes == old(nodes) + {elm} && Contents() == [elm] && old(Contents()) == []
      ensures charges == old(charges) + 1 && most == Max(old(most), 1)
    {
      hide Grant, TotalOrder;
      ghost var n := Max(most, 1);
      PayNew(rounds, 0, 0, charges, 1, most, n);
      elm.left, elm.right := null, null;
      root := elm;
      nodes, shape := {elm}, Bin(Leaf, elm, Leaf);
      charges, most := charges + 1, n;
      assert Size(shape) == 1 && Potential(shape) == 0;
      assert Inorder(shape) == [elm];
      assert Nodes(shape) == {elm} && Snap(nodes)[elm] == Cell(null, null) && Rep(Snap(nodes), Leaf);
    }

    // A left subtree splayed for a key above all of its own has its maximum at
    // the root, and nothing to the right of it.
    lemma MaximumUp(u: Tree, w: Tree, k: Key)
      requires TotalOrder(cmp) && AllBelow(cmp, Keys(Inorder(u)), k)
      requires Splayed(cmp, w, k) && Inorder(w) == Inorder(u)
      ensures w.right.Leaf?
    {
      hide TotalOrder;
      if w.right.Bin? {
        var b, a := Inorder(w.left) + [w.n], Inorder(w.right);
        assert a[|Inorder(w.right.left)|] == w.right.n;
        assert Inorder(u)[|b|] == a[0] && Keys(Inorder(u))[|b|] == Keys(a)[0];
        Opposite(cmp, k, a[0].key);
      }
    }

    lemma SortedParts(u: Tree)
      requires u.Bin? && Sorted(cmp, Keys(Inorder(u)))
      ensures Sorted(cmp, Keys(Inorder(u.left))) && Sorted(cmp, Keys(Inorder(u.left) + Inorder(u.right)))
    {
      hide Sorted, Keys;
      KeysJoin(Inorder(u.left), u.n, Inorder(u.right));
      SortedDrop(cmp, Keys(Inorder(u.left)), u.n.key, Keys(Inorder(u.right)));
    }

    // Taking out a splayed root.
    method RemoveRoot(elm: Node)
      requires Valid() && shape.Bin? && root == shape.n
      requires Splayed(cmp, shape, elm.key) && cmp(elm.key, root.key) == 0
      modifies `root, `nodes, `shape, `rounds, `charges, nodes
      ensures Holds(shape) && nodes == old(nodes) - {old(root)}
      ensures Contents() == Inorder(old(shape).left) + Inorder(old(shape).right)
      ensures Paid() && charges <= old(charges) + 1
    {
      hide TotalOrder, Sorted, AllBelow, AllAbove, Keys, Inorder, Result, Rounds, Potential, Grant, Size;
      ghost var u, m := shape, Snap(nodes);
      SortedParts(u);
      Parts(u);
      if root.left == null {
        root := root.right;
        nodes, shape := Nodes(u.right), u.right;
        Smaller(u);
        Frame(m, Snap(nodes), u.right);
      } else {
        JoinParts(elm, u);
      }
    }

    lemma Budget()
      ensures Paid() <==> Size(shape) <= most && rounds + 2 * Potential(shape) <= charges * Grant(most)
    {
    }

    // The left part is splayed for the same key, and takes over the right one.
    method JoinParts(elm: Node, ghost u: Tree)
      requires Holds(u) && u.Bin? && nodes == Nodes(u) && u == shape && u.left.Bin? && Paid()
      requires TotalOrder(cmp) && Sorted(cmp, Keys(Inorder(u.left))) && AllBelow(cmp, Keys(Inorder(u.left)), elm.key)
      modifies `root, `nodes, `shape, `rounds, `charges, nodes
      ensures Holds(shape) && nodes == Nodes(u.left) + Nodes(u.right)
      ensures Contents() == Inorder(u.left) + Inorder(u.right)
      ensures Paid() && charges == old(charges) + 1
    {
      hide TotalOrder, Sorted, AllBelow, Keys, Inorder, Result, Rounds, Potential, Grant, Size, Splayed, Paid, Holds;
      Budget();
      ghost var m := Snap(nodes);
      Parts(u);
      var tmp := root.right;
      root := root.left;
      nodes := Nodes(u.left);
      LeftHolds(m, u);
      ghost var w := Splay(elm, u.left);
      MaximumUp(u.left, w, elm.key);
      RemovePays(Towards(cmp, elm.key), u, old(rounds), charges, most);
      charges := charges + 1;
      Rejoin(tmp, m, u, w);
      Budget();
    }

    lemma LeftHolds(m: Memory, u: Tree)
      requires u.Bin? && Distinct(u) && Rep(m, u)
      requires root == Ptr(u.left) && nodes == Nodes(u.left)
      requires forall n :: n in nodes ==> n in m && m[n] == Cell(n.left, n.right)
      ensures Holds(u.left)
    {
      Frame(m, Snap(nodes), u.left);
    }

    // The facts about a root and its subtrees that the removal needs.
    lemma Parts(u: Tree)
      requires Holds(u) && u.Bin? && nodes == Nodes(u)
      ensures Distinct(u) && Rep(Snap(nodes), u)
      ensures root == u.n && u.n in nodes && u.n.left == Ptr(u.left) && u.n.right == Ptr(u.right)
      ensures nodes - {u.n} == Nodes(u.left) + Nodes(u.right)
      ensures Inorder(Leaf) + Inorder(u.right) == Inorder(u.right)
    {
    }

    // The saved right subtree goes to the right of the new root.
    method Rejoin(tmp: Node?, ghost m: Memory, ghost u: Tree, ghost w: Tree)
      requires u.Bin? && Distinct(u) && Rep(m, u) && tmp == Ptr(u.right)
      requires Holds(w) && w.Bin? && w.right.Leaf? && nodes == Nodes(w) == Nodes(u.left)
      requires forall n :: n in Nodes(u.right) && n in m ==> m[n] == Cell(n.left, n.right)
      requires Inorder(w) == Inorder(u.left)
      modifies `nodes, `shape, nodes
      ensures Holds(shape) && nodes == Nodes(u.left) + Nodes(u.right) && shape == Bin(w.left, w.n, u.right)
      ensures Contents() == Inorder(u.left) + Inorder(u.right)
    {
      ghost var m' := Snap(nodes);
      root.right := tmp;
      nodes, shape := nodes + Nodes(u.right), Bin(w.left, w.n, u.right);
      assert w.n in Nodes(w) && w.n !in Nodes(u.right);
      Frame(m, Snap(nodes), u.right);
      Frame(m', Snap(nodes), w.left);
      Ends(w);
    }

    lemma Ends(w: Tree)
      requires w.Bin? && w.right.Leaf?
      ensures Inorder(w) == Inorder(w.left) + [w.n] && Nodes(w) == Nodes(w.left) + {w.n}
    {
    }

    method Remove(elm: Node) returns (r: Node?)
      requires Valid()
      modifies `root, `nodes, `shape, `rounds, `charges, nodes
      ensures Valid() && charges <= old(charges) + 2
      ensures r == null ==>
        Contents() == old(Contents()) && forall n :: n in Contents() ==> cmp(elm.key, n.key) != 0
      ensures r != null ==>
        && r == elm
        && var s := old(Contents()); var i := LowerBound(cmp, Keys(s), elm.key);
           && i < |s| && cmp(elm.key, s[i].key) == 0
           && Contents() == s[..i] + s[i + 1..] && nodes == old(nodes) - {s[i]}
    {
      hide TotalOrder, Sorted, Splayed, LowerBound, Keys;
      if root == null {
        return null;
      }
      Access(elm);
      Position(shape, elm.key);
      if cmp(elm.key, root.key) != 0 {
        return null;
      }
      ghost var u := shape;
      SortedParts(u);
      Halves(Inorder(u.left), u.n, Inorder(u.right));
      RemoveRoot(elm);
      forall n | n in nodes ensures n in Inorder(shape) {
        InorderNodes(u, n);
      }
      Accept();
      r := elm;
    }

    // Walking in order
    // ----------------

    // An element of the tree that was splayed for is the root.
    lemma AtRoot(elm: Node)
      requires Valid() && shape.Bin? && Splayed(cmp, shape, elm.key) && elm in Contents()
      ensures elm == shape.n
      ensures IsNext(Contents(), elm, var a := Inorder(shape.right); if a == [] then null else a[0])
    {
      hide TotalOrder, Sorted, LowerBound;
      Opposite(cmp, elm.key, elm.key);
      Position(shape, elm.key);
      var b, a := Inorder(shape.left), Inorder(shape.right);
      InorderNodes(shape.left, elm);
      InorderNodes(shape.right, elm);
      NextIs(b, elm, a);
    }

    method Next(elm: Node) returns (r: Node?)
      requires Valid() && elm in Contents()
      modifies `root, `shape, `rounds, `charges, nodes
      ensures Valid() && Contents() == old(Contents()) && charges == old(charges) + 1
      ensures IsNext(Contents(), elm, r)
    {
      hide TotalOrder, Sorted, Splayed, IsNext, Keys;
      InorderNodes(shape, elm);
      Access(elm);
      AtRoot(elm);
      Kids(shape);
      if elm.right != null {
        var e := elm.right;
        ghost var u := shape.right;
        while e.left != null
          invariant u.Bin? && u.n == e && Rep(Snap(nodes), u) && Nodes(u) <= nodes && Inorder(u) != []
          invariant Inorder(u)[0] == Inorder(shape.right)[0]
          modifies {}
          decreases u
        {
          assert Inorder(u.left) != [] && Inorder(u)[0] == Inorder(u.left)[0];
          e, u := e.left, u.left;
        }
        return e;
      }
      return null;
    }

    lemma Kids(t: Tree)
      requires Holds(t) && t.Bin?
      ensures t.n in nodes && t.n.left == Ptr(t.left) && t.n.right == Ptr(t.right)
      ensures Rep(Snap(nodes), t.right) && Nodes(t.right) <= nodes
      ensures t.right.Bin? <==> Inorder(t.right) != []
    {
    }

    // The elements of all three parts.
    ghost function AllInorder(l: Spine, r: Spine, t: Tree): seq<Node> {
      SpineSeq(l, L) + Inorder(t) + SpineSeq(r, R)
    }

    lemma LinkOrder(l: Spine, r: Spine, t: Tree)
      requires t.Bin?
      ensures AllInorder(l, Link(r, t.n, t.right), t.left) == AllInorder(l, r, t)
      ensures AllInorder(Link(l, t.n, t.left), r, t.right) == AllInorder(l, r, t)
    {
      Sequences.From(Inorder(t.left), t.n, Inorder(t.right), SpineSeq(r, R));
      Sequences.Assoc(SpineSeq(l, L), Inorder(t.left), [t.n] + Inorder(t.right) + SpineSeq(r, R));
      Sequences.Assoc(SpineSeq(l, L), Inorder(t), SpineSeq(r, R));
      Sequences.UpTo(SpineSeq(l, L), Inorder(t.left), t.n, Inorder(t.right));
    }

    lemma Outermost(l: Spine, r: Spine, t: Tree)
      requires t.Bin?
      ensures AllInorder(l, r, t) != []
      ensures l == End && t.left.Leaf? ==> AllInorder(l, r, t)[0] == t.n
      ensures r == End && t.right.Leaf? ==> AllInorder(l, r, t)[|AllInorder(l, r, t)| - 1] == t.n
    {
      assert t.right.Leaf? ==> Inorder(t) == Inorder(t.left) + [t.n];
      assert AllInorder(l, r, t)[|SpineSeq(l, L)| + |Inorder(t.left)|] == t.n;
    }

    // One round towards the first element.
    method EndLeft(c: int, scratch: Node, right: Node, ghost l: Spine, ghost r: Spine, ghost t: Tree)
      returns (last: Node, done: bool, ghost q: Spine, ghost u: Tree)
      requires InParts(scratch, l, r, t) && right == Last(r, scratch) && c < 0
      modifies `root, nodes, scratch
      ensures InParts(scratch, l, q, u) && last == Last(q, scratch)
      ensures RoundIs(Always(c), l, r, t, l, q, u, done)
      ensures AllInorder(l, q, u) == AllInorder(l, r, t)
      ensures done ==> u.left.Leaf?
    {
      hide Parted;
      Look(scratch, l, r, t);
      last, done, q, u := right, true, r, t;
      var tmp := root.left;
      if tmp == null {
        return;
      }
      LiftKeeps(L, t);
      RotateRight(tmp, scratch, l, r, t);
      u := Lift(L, t);
      Look(scratch, l, r, u);
      if root.left == null {
        return;
      }
      LinkOrder(l, r, u);
      last := LinkLeft(right, scratch, l, r, u);
      done, q, u := false, Link(r, u.n, u.right), u.left;
    }

    method EndRight(c: int, scratch: Node, left: Node, ghost l: Spine, ghost r: Spine, ghost t: Tree)
      returns (last: Node, done: bool, ghost q: Spine, ghost u: Tree)
      requires InParts(scratch, l, r, t) && left == Last(l, scratch) && c > 0
      modifies `root, nodes, scratch
      ensures InParts(scratch, q, r, u) && last == Last(q, scratch)
      ensures RoundIs(Always(c), l, r, t, q, r, u, done)
      ensures AllInorder(q, r, u) == AllInorder(l, r, t)
      ensures done ==> u.right.Leaf?
    {
      hide Parted;
      Look(scratch, l, r, t);
      last, done, q, u := left, true, l, t;
      var tmp := root.right;
      if tmp == null {
        return;
      }
      LiftKeeps(R, t);
      RotateLeft(tmp, scratch, l, r, t);
      u := Lift(R, t);
      Look(scratch, l, r, u);
      if root.right == null {
        return;
      }
      LinkOrder(l, r, u);
      last := LinkRight(left, scratch, l, r, u);
      done, q, u := false, Link(l, u.n, u.left), u.right;
    }

    // Brings up the first element for a negative comp, the last for a positive
    // one.
    method SplayMinMax(comp: int)
      requires Valid() && root != null && comp != 0
      modifies `root, `shape, `rounds, `charges, nodes
      ensures Valid() && Contents() == old(Contents()) && Contents() != []
      ensures root == Contents()[if comp < 0 then 0 else |Contents()| - 1]
      ensures charges == old(charges) + 1
    {
      hide TotalOrder, Sorted, Keys, Result, Rounds, Potential, Grant, Size;
      NotEmpty();
      ghost var u := SplayEnd(comp, shape);
      Affordable(Always(comp), shape, old(rounds), charges, most);
      shape, charges := u, charges + 1;
    }

    method SplayEnd(comp: int, ghost t: Tree) returns (ghost u: Tree)
      requires Holds(t) && t.Bin? && nodes == Nodes(t) && comp != 0
      modifies `root, `rounds, nodes
      ensures Holds(u) && Nodes(u) == Nodes(t) && Inorder(u) == Inorder(t) && Inorder(t) != []
      ensures root == Inorder(t)[if comp < 0 then 0 else |Inorder(t)| - 1]
      ensures u == Result(Always(comp), t) && rounds == old(rounds) + Rounds(Always(comp), t)
    {
      hide Parted, Keys, AllInorder, Inorder, SpineSeq, SpineNodes, Nodes, Distinct, Rep, Result, Rounds, Whole, Bent,
           Rest;
      var scratch := new Node(root.key);
      var left, right, done := scratch, scratch, false;
      ghost var l, r, w, way := End, End, t, Always(comp);
      Begin(scratch, t, root.key);
      WholeAlone(Result(way, t));
      while !done
        invariant fresh(scratch) && InParts(scratch, l, r, w) && AllInorder(l, r, w) == Inorder(t)
        invariant left == Last(l, scratch) && right == Last(r, scratch)
        invariant if comp < 0 then l == End else r == End
        invariant done ==> if comp < 0 then w.left.Leaf? else w.right.Leaf?
        invariant Whole(l, r, if done then w else Result(way, w)) == Result(way, t)
        invariant rounds + (if done then 0 else Rounds(way, w)) == old(rounds) + Rounds(way, t)
        decreases Size(w), !done
      {
        ghost var l', r', v := l, r, w;
        if comp < 0 {
          right, done, r, w := EndLeft(comp, scratch, right, l, r, w);
        } else {
          left, done, l, w := EndRight(comp, scratch, left, l, r, w);
        }
        rounds := rounds + 1;
        if done {
          RoundStops(way, v);
        } else {
          RoundLinks(way, l', r', v);
        }
      }
      Outermost(l, r, w);
      u := Close(scratch, left, right, l, r, w, t);
    }

    // SPLAY_MIN and SPLAY_MAX.
    method MinMax(comp: int) returns (r: Node?)
      requires Valid() && comp != 0
      modifies `root, `shape, `rounds, `charges, nodes
      ensures Valid() && Contents() == old(Contents()) && charges <= old(charges) + 1
      ensures r == var s := Contents();
        if s == [] then null else if comp < 0 then s[0] else s[|s| - 1]
    {
      hide TotalOrder, Sorted, Keys, Rep;
      if root == null {
        return null;
      }
      SplayMinMax(comp);
      return root;
    }

    // SPLAY_FOREACH: the elements in the order visited.
    method Foreach() returns (visited: seq<Node>)
      requires Valid()
      modifies `root, `shape, `rounds, `charges, nodes
      ensures Valid() && Contents() == old(Contents()) && visited == Contents()
    {
      hide TotalOrder, Sorted, Holds, Nodes, Keys, Inorder, IsNext;
      ghost var s := Contents();
      visited := [];
      var x := MinMax(-1);
      while x != null
        invariant Valid() && Contents() == s
        invariant |visited| <= |s| && visited == s[..|visited|]
        invariant x == if |visited| == |s| then null else s[|visited|]
        decreases |s| - |visited|
      {
        var y := Next(x);
        NextAt(s, |visited|, y);
        visited := visited + [x];
        x := y;
      }
    }
  }
}
