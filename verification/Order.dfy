/** The comparison that the tree macros are instantiated with, and ordered
    sequences of keys. */
module Order {

  // The part of an element that the comparison looks at.
  type Key(!new)

  // Negative, zero or positive, as the third macro argument of the trees.
  type Cmp = (Key, Key) -> int

  ghost predicate TotalOrder(cmp: Cmp) {
    && (forall a, b :: cmp(a, b) < 0 <==> cmp(b, a) > 0)
    && (forall a, b, c :: cmp(a, b) <= 0 && cmp(b, c) <= 0 ==> cmp(a, c) <= 0)
  }

  lemma Transitive(cmp: Cmp, a: Key, b: Key, c: Key)
    requires TotalOrder(cmp)
    requires cmp(a, b) <= 0 && cmp(b, c) <= 0
    requires cmp(a, b) < 0 || cmp(b, c) < 0
    ensures cmp(a, c) < 0
  {
    assert cmp(a, c) <= 0;
    assert cmp(c, a) <= 0 ==> cmp(c, b) <= 0 && cmp(b, a) <= 0;
  }

  // Strictly ascending: no two keys compare equal.
  ghost predicate Sorted(cmp: Cmp, s: seq<Key>) {
    forall i, j :: 0 <= i < j < |s| ==> cmp(s[i], s[j]) < 0
  }

  ghost predicate AllBelow(cmp: Cmp, s: seq<Key>, k: Key) {
    forall i :: 0 <= i < |s| ==> cmp(s[i], k) < 0
  }

  ghost predicate AllAbove(cmp: Cmp, k: Key, s: seq<Key>) {
    forall i :: 0 <= i < |s| ==> cmp(k, s[i]) < 0
  }

  // How many keys of an ascending sequence lie strictly below k; equally, the
  // first position whose key is not below k.
  ghost function LowerBound(cmp: Cmp, s: seq<Key>, k: Key): (r: nat)
    ensures r <= |s|
    ensures AllBelow(cmp, s[..r], k)
    ensures r < |s| ==> cmp(s[r], k) >= 0
  {
    if s == [] || cmp(s[0], k) >= 0 then 0 else
      var r := 1 + LowerBound(cmp, s[1..], k);
      assert s[..r] == [s[0]] + s[1..][..r - 1];
      r
  }

  // A position that separates the keys below k from the others is the bound.
  lemma LowerBoundIs(cmp: Cmp, s: seq<Key>, k: Key, r: nat)
    requires r <= |s|
    requires AllBelow(cmp, s[..r], k)
    requires r < |s| ==> cmp(s[r], k) >= 0
    ensures LowerBound(cmp, s, k) == r
  {
    var b := LowerBound(cmp, s, k);
    assert forall i :: 0 <= i < r ==> s[..r][i] == s[i];
    assert forall i :: 0 <= i < b ==> s[..b][i] == s[i];
  }

  lemma Opposite(cmp: Cmp, a: Key, b: Key)
    requires TotalOrder(cmp)
    ensures cmp(a, b) < 0 <==> cmp(b, a) > 0
    ensures cmp(a, b) == 0 <==> cmp(b, a) == 0
  {
  }

  // What one comparison with an element tells about its whole side.
  lemma SplitAt(cmp: Cmp, b: seq<Key>, x: Key, a: seq<Key>, k: Key)
    requires TotalOrder(cmp) && Sorted(cmp, b + [x] + a)
    ensures cmp(k, x) < 0 ==> AllAbove(cmp, k, [x] + a)
    ensures cmp(k, x) > 0 ==> AllBelow(cmp, b + [x], k)
    ensures cmp(k, x) == 0 ==> LowerBound(cmp, b + [x] + a, k) == |b|
  {
    hide TotalOrder, LowerBound;
    var s := b + [x] + a;
    assert s[|b|] == x && s[..|b|] == b;
    Opposite(cmp, k, x);
    if cmp(k, x) < 0 {
      forall j | 0 <= j < |a| ensures cmp(k, a[j]) < 0 {
        assert a[j] == s[|b| + 1 + j];
        Transitive(cmp, k, x, a[j]);
      }
    } else {
      forall j | 0 <= j < |b| ensures cmp(b[j], k) < 0 {
        assert b[j] == s[j];
        Transitive(cmp, b[j], x, k);
      }
      if cmp(k, x) == 0 {
        LowerBoundIs(cmp, s, k, |b|);
      }
    }
  }

  lemma SplitSides(cmp: Cmp, b: seq<Key>, x: Key, a: seq<Key>, k: Key)
    requires TotalOrder(cmp) && Sorted(cmp, b + [x] + a)
    ensures cmp(k, x) <= 0 ==> AllAbove(cmp, k, a)
    ensures cmp(k, x) >= 0 ==> AllBelow(cmp, b, k)
  {
    hide TotalOrder;
    var s := b + [x] + a;
    assert s[|b|] == x;
    Opposite(cmp, k, x);
    if cmp(k, x) <= 0 {
      forall j | 0 <= j < |a| ensures cmp(k, a[j]) < 0 {
        assert a[j] == s[|b| + 1 + j];
        Transitive(cmp, k, x, a[j]);
      }
    }
    if cmp(k, x) >= 0 {
      forall j | 0 <= j < |b| ensures cmp(b[j], k) < 0 {
        assert b[j] == s[j];
        Transitive(cmp, b[j], x, k);
      }
    }
  }

  lemma FirstAbove(cmp: Cmp, k: Key, a: seq<Key>)
    requires TotalOrder(cmp) && AllAbove(cmp, k, a) && a != []
    ensures cmp(a[0], k) > 0
  {
    hide TotalOrder;
    Opposite(cmp, k, a[0]);
  }

  // An element between the keys on either side of k marks the bound.
  lemma BoundAt(cmp: Cmp, b: seq<Key>, x: Key, a: seq<Key>, k: Key)
    requires TotalOrder(cmp) && AllBelow(cmp, b, k) && AllAbove(cmp, k, a)
    ensures LowerBound(cmp, b + [x] + a, k) == |b| + if cmp(k, x) > 0 then 1 else 0
  {
    hide TotalOrder, LowerBound, AllAbove;
    var s := b + [x] + a;
    Opposite(cmp, k, x);
    assert s[..|b|] == b && s[..|b| + 1] == b + [x] && s[|b|] == x;
    if a != [] {
      FirstAbove(cmp, k, a);
      assert s[|b| + 1] == a[0];
    }
    LowerBoundIs(cmp, s, k, |b| + if cmp(k, x) > 0 then 1 else 0);
  }

  lemma SortedDrop(cmp: Cmp, b: seq<Key>, x: Key, a: seq<Key>)
    requires Sorted(cmp, b + [x] + a)
    ensures Sorted(cmp, b) && Sorted(cmp, a) && Sorted(cmp, b + a)
  {
    var s := b + [x] + a;
    assert forall i :: 0 <= i < |b| ==> b[i] == s[i];
    assert forall i :: 0 <= i < |a| ==> a[i] == s[|b| + 1 + i];
  }

  lemma SortedInsert(cmp: Cmp, s: seq<Key>, i: nat, k: Key)
    requires TotalOrder(cmp) && Sorted(cmp, s) && i <= |s|
    requires AllBelow(cmp, s[..i], k) && AllAbove(cmp, k, s[i..])
    ensures Sorted(cmp, s[..i] + [k] + s[i..])
  {
    hide TotalOrder;
    assert forall j :: 0 <= j < i ==> s[j] == s[..i][j];
    assert forall j :: i <= j < |s| ==> s[j] == s[i..][j - i];
  }
}
