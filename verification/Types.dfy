/** Small value types and list operations shared by the block-layer modules. */
module Types {

  datatype Option<+T> = None | Some(value: T)

  /** rq_data_dir: the two data directions. */
  datatype Dir = Read | Write {
    function Other(): Dir {
      if Read? then Write else Read
    }
  }

  /** A field the source declares as a two-element array indexed by READ and WRITE. */
  datatype PerDir<T> = PerDir(rd: T, wr: T) {
    function At(d: Dir): T {
      if d.Read? then rd else wr
    }

    function Put(d: Dir, t: T): (p: PerDir<T>)
      ensures p.At(d) == t && p.At(d.Other()) == At(d.Other())
    {
      if d.Read? then PerDir(t, wr) else PerDir(rd, t)
    }
  }

  ghost predicate NoDup<T>(l: seq<T>) {
    forall i, j :: 0 <= i < j < |l| ==> l[i] != l[j]
  }

  /** list_del: the list without x, the order of the others unchanged. */
  function Without<T(==,!new)>(l: seq<T>, x: T): (r: seq<T>)
    ensures forall y :: y in r <==> y in l && y != x
    ensures x !in l ==> r == l
    ensures |r| <= |l|
    ensures NoDup(l) ==> NoDup(r)
  {
    if l == [] then []
    else if l[0] == x then
      var r := Without(l[1..], x);
      assert forall y :: y in l <==> y == l[0] || y in l[1..];
      r
    else
      var r := Without(l[1..], x);
      assert forall y :: y in l <==> y == l[0] || y in l[1..];
      assert NoDup(l) ==> NoDup(l[1..]) && l[0] !in l[1..];
      assert x !in l ==> [l[0]] + l[1..] == l;
      [l[0]] + r
  }

  lemma {:induction false} WithoutConcat<T(!new)>(a: seq<T>, b: seq<T>, x: T)
    ensures Without(a + b, x) == Without(a, x) + Without(b, x)
  {
    if a == [] {
      assert a + b == b;
    } else {
      assert (a + b)[1..] == a[1..] + b;
      WithoutConcat(a[1..], b, x);
    }
  }

  /** Deleting a listed element of a duplicate-free list splits it around that element. */
  lemma {:induction false} WithoutAt<T(!new)>(l: seq<T>, i: nat)
    requires i < |l| && NoDup(l)
    ensures Without(l, l[i]) == l[..i] + l[i + 1..]
  {
    assert l == l[..i] + ([l[i]] + l[i + 1..]);
    WithoutConcat(l[..i], [l[i]] + l[i + 1..], l[i]);
    assert l[i] !in l[..i] && l[i] !in l[i + 1..];
    assert ([l[i]] + l[i + 1..])[1..] == l[i + 1..];
  }

  /** list_move(x, y): unlink x, then link it directly behind y. */
  function InsertAfter<T(==,!new)>(l: seq<T>, y: T, x: T): (r: seq<T>)
    ensures y in l ==> (forall z :: z in r <==> z in l || z == x)
    ensures y !in l ==> r == l
    ensures y in l ==> |r| == |l| + 1
    ensures NoDup(l) && x !in l ==> NoDup(r)
  {
    if l == [] then []
    else if l[0] == y then
      var r := [l[0], x] + l[1..];
      assert forall z :: z in l <==> z == l[0] || z in l[1..];
      assert forall z :: z in r <==> z == l[0] || z == x || z in l[1..];
      assert NoDup(l) && x !in l ==> NoDup(r) by {
        if NoDup(l) && x !in l {
          forall i, j | 0 <= i < j < |r| ensures r[i] != r[j] {
            assert j >= 2 ==> r[j] == l[j - 1];
            assert i >= 2 ==> r[i] == l[i - 1];
          }
        }
      }
      r
    else
      var t := InsertAfter(l[1..], y, x);
      assert forall z :: z in l <==> z == l[0] || z in l[1..];
      assert NoDup(l) ==> NoDup(l[1..]) && l[0] !in l[1..];
      assert y !in l ==> [l[0]] + t == l;
      [l[0]] + t
  }

  /** The least element of a non-empty set of numbers. */
  ghost function Least(s: set<nat>): (k: nat)
    requires s != {}
    ensures k in s && forall j :: j in s ==> k <= j
  {
    var x :| x in s;
    if s == {x} then x
    else
      var y := Least(s - {x});
      assert forall j :: j in s ==> j == x || j in s - {x};
      if x <= y then x else y
  }

  ghost function Greatest(s: set<nat>): (k: nat)
    requires s != {}
    ensures k in s && forall j :: j in s ==> j <= k
  {
    var x :| x in s;
    if s == {x} then x
    else
      var y := Greatest(s - {x});
      assert forall j :: j in s ==> j == x || j in s - {x};
      if x >= y then x else y
  }

  // ------------------------------------------------------------ division

  lemma DivUnique(v: nat, n: nat, d: nat, r: nat)
    requires n > 0 && r < n && v == n * d + r
    ensures v / n == d && v % n == r
  {
    var e := v / n;
    assert v == n * e + v % n;
    assert e < d ==> n * (e + 1) <= n * d;
    assert d < e ==> n * (d + 1) <= n * e;
  }

  lemma QuotientBelow(x: nat, c: nat, n: nat)
    requires n > 0 && x < c * n
    ensures x / n < c
  {
    var d := x / n;
    assert x == n * d + x % n;
    assert d >= c ==> n * d >= n * c;
  }
}
