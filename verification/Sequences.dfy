/** Sequences without the first occurrence of an element, and regroupings of
    concatenations. */
module Sequences {

  ghost function Without<T>(s: seq<T>, x: T): seq<T> {
    if s == [] then [] else if s[0] == x then s[1..] else [s[0]] + Without(s[1..], x)
  }

  lemma {:induction false} WithoutIs<T>(b: seq<T>, x: T, a: seq<T>)
    requires x !in b
    ensures Without(b + [x] + a, x) == b + a
  {
    if b == [] {
      assert b + [x] + a == [x] + a && b + a == a;
    } else {
      var y, c := b[0], b[1..];
      assert b + [x] + a == [y] + (c + [x] + a);
      assert (b + [x] + a)[1..] == c + [x] + a;
      WithoutIs(c, x, a);
      assert b + a == [y] + (c + a);
    }
  }

  lemma WithoutFirst<T>(s: seq<T>)
    requires s != []
    ensures Without(s, s[0]) == s[1..] && s == [s[0]] + s[1..]
  {
  }

  lemma Around<T>(b: seq<T>, l: seq<T>, x: T, r: seq<T>, a: seq<T>)
    ensures b + (l + [x] + r) + a == (b + l) + [x] + (r + a)
  {
  }

  lemma Hoist<T>(b: seq<T>, l: seq<T>, x: T, r: seq<T>, a: seq<T>)
    ensures b + (l + [x] + r) + a == b + l + ([x] + r + a)
    ensures b + (l + [x] + r) + a == b + l + [x] + r + a
  {
  }

  lemma Between<T>(b: seq<T>, l: seq<T>, r: seq<T>, a: seq<T>)
    ensures (b + l) + (r + a) == b + (l + r) + a
  {
  }

  lemma From<T>(l: seq<T>, x: T, r: seq<T>, a: seq<T>)
    ensures l + ([x] + r + a) == (l + [x] + r) + a
  {
  }

  lemma UpTo<T>(b: seq<T>, l: seq<T>, x: T, r: seq<T>)
    ensures (b + l + [x]) + r == b + (l + [x] + r)
  {
  }

  lemma Assoc<T>(a: seq<T>, b: seq<T>, c: seq<T>)
    ensures (a + b) + c == a + (b + c)
  {
  }

  lemma Push<T>(l: seq<T>, x: T, r: seq<T>)
    ensures l + [x] + r == l + ([x] + r)
  {
  }

  ghost function Elements<T>(s: seq<T>): set<T> {
    set x | x in s
  }

  ghost predicate Unique<T>(s: seq<T>) {
    forall i, j :: 0 <= i < j < |s| ==> s[i] != s[j]
  }

  // One more element at the end of a sequence.
  lemma UniqueLast<T>(s: seq<T>, x: T)
    ensures forall y :: y in s + [x] <==> y in s || y == x
    ensures Unique(s + [x]) <==> Unique(s) && x !in s
  {
    var u := s + [x];
    assert u[|s|] == x && forall i :: 0 <= i < |s| ==> u[i] == s[i];
    if Unique(u) {
      assert forall i, j :: 0 <= i < j < |s| ==> u[i] != u[j];
    }
  }
}
