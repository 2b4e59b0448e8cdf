/**
 Python's `sorted` on strings: a sorted permutation, of which there is only one.
 */
module Sorting {

  /** Code-point order of strings. */
  predicate TextLe(a: string, b: string) {
    a == [] || (b != [] && (a[0] < b[0] || (a[0] == b[0] && TextLe(a[1..], b[1..]))))
  }

  lemma {:induction false} TextLeTotal(a: string, b: string)
    ensures TextLe(a, b) || TextLe(b, a)
  {
    if a != [] && b != [] && a[0] == b[0] {
      TextLeTotal(a[1..], b[1..]);
    }
  }

  lemma {:induction false} TextLeAntisymmetric(a: string, b: string)
    requires TextLe(a, b) && TextLe(b, a)
    ensures a == b
  {
    if a != [] && b != [] {
      TextLeAntisymmetric(a[1..], b[1..]);
      assert a == [a[0]] + a[1..] && b == [b[0]] + b[1..];
    }
  }

  lemma {:induction false} TextLeTransitive(a: string, b: string, c: string)
    requires TextLe(a, b) && TextLe(b, c)
    ensures TextLe(a, c)
  {
    if a != [] && a[0] == b[0] == c[0] {
      TextLeTransitive(a[1..], b[1..], c[1..]);
    }
  }

  predicate Sorted(l: seq<string>) {
    forall i, j :: 0 <= i <= j < |l| ==> TextLe(l[i], l[j])
  }

  lemma PrependSorted(x: string, l: seq<string>)
    requires Sorted(l) && forall y :: y in l ==> TextLe(x, y)
    ensures Sorted([x] + l)
  {
    TextLeTotal(x, x);
  }

  function Insert(x: string, l: seq<string>): (r: seq<string>)
    requires Sorted(l)
    ensures Sorted(r) && multiset(r) == multiset(l) + multiset{x}
  {
    if l == [] then
      TextLeTotal(x, x); [x]
    else if TextLe(x, l[0]) then
      InsertFirst(x, l); [x] + l
    else
      var rest := Insert(x, l[1..]);
      InsertLater(x, l, rest);
      [l[0]] + rest
  }

  lemma InsertFirst(x: string, l: seq<string>)
    requires Sorted(l) && l != [] && TextLe(x, l[0])
    ensures Sorted([x] + l)
  {
    forall y | y in l ensures TextLe(x, y) {
      TextLeTransitive(x, l[0], y);
    }
    PrependSorted(x, l);
  }

  lemma InsertLater(x: string, l: seq<string>, rest: seq<string>)
    requires Sorted(l) && l != [] && !TextLe(x, l[0])
    requires Sorted(rest) && multiset(rest) == multiset(l[1..]) + multiset{x}
    ensures Sorted([l[0]] + rest) && multiset([l[0]] + rest) == multiset(l) + multiset{x}
  {
    TextLeTotal(x, l[0]);
    assert l == [l[0]] + l[1..];
    forall y | y in rest ensures TextLe(l[0], y) {
      assert y in multiset(rest);
      assert y == x || y in l[1..];
    }
    PrependSorted(l[0], rest);
  }

  /** `sorted` */
  function Sort(l: seq<string>): (r: seq<string>)
    ensures Sorted(r) && multiset(r) == multiset(l) && |r| == |l|
  {
    if l == [] then []
    else
      assert l == l[..|l| - 1] + [l[|l| - 1]];
      var r := Insert(l[|l| - 1], Sort(l[..|l| - 1]));
      assert |multiset(r)| == |multiset(l)|;
      r
  }

  lemma HeadsAgree(a: seq<string>, b: seq<string>)
    requires Sorted(a) && Sorted(b) && multiset(a) == multiset(b) && a != [] && b != []
    ensures a[0] == b[0]
  {
    assert a[0] in multiset(b) && b[0] in multiset(a);
    var i :| 0 <= i < |a| && a[i] == b[0];
    var j :| 0 <= j < |b| && b[j] == a[0];
    TextLeAntisymmetric(a[0], b[0]);
  }

  lemma TailMultiset(a: seq<string>)
    requires a != []
    ensures multiset(a[1..]) == multiset(a) - multiset{a[0]}
  {
    assert a == [a[0]] + a[1..];
  }

  lemma {:induction false} SortedListsAgree(a: seq<string>, b: seq<string>)
    requires Sorted(a) && Sorted(b) && multiset(a) == multiset(b)
    ensures a == b
  {
    assert |multiset(a)| == |a| && |multiset(b)| == |b|;
    if a != [] {
      HeadsAgree(a, b);
      TailMultiset(a);
      TailMultiset(b);
      SortedListsAgree(a[1..], b[1..]);
      assert a == [a[0]] + a[1..] && b == [b[0]] + b[1..];
    }
  }

  /** Sorting forgets the order of its input. */
  lemma SortIgnoresOrder(a: seq<string>, b: seq<string>)
    requires multiset(a) == multiset(b)
    ensures Sort(a) == Sort(b)
  {
    SortedListsAgree(Sort(a), Sort(b));
  }

  predicate Distinct<T(==)>(l: seq<T>) {
    forall i, j :: 0 <= i < j < |l| ==> l[i] != l[j]
  }

  function Elements<T>(l: seq<T>): set<T> {
    set x | x in l
  }

  lemma {:induction false} DistinctMultiset<T>(l: seq<T>)
    requires Distinct(l)
    ensures multiset(l) == multiset(Elements(l)) && |Elements(l)| == |l|
  {
    if l != [] {
      var front, last := l[..|l| - 1], l[|l| - 1];
      assert l == front + [last];
      DistinctMultiset(front);
      assert last !in front;
      assert Elements(l) == Elements(front) + {last};
    }
  }

  lemma SortKeepsElements(l: seq<string>)
    ensures Elements(Sort(l)) == Elements(l)
  {
    forall x ensures x in Sort(l) <==> x in l {
      assert x in multiset(Sort(l)) <==> x in multiset(l);
    }
  }

  // ----- finite sets in order

  lemma {:induction false} LeastExists(keys: set<string>)
    requires keys != {}
    ensures exists k :: IsLeast(k, keys)
  {
    var some :| some in keys;
    TextLeTotal(some, some);
    var others := keys - {some};
    if others == {} {
      assert keys == {some} && IsLeast(some, keys);
    } else {
      LeastExists(others);
      var k :| IsLeast(k, others);
      TextLeTotal(k, some);
      var least := if TextLe(k, some) then k else some;
      forall x | x in keys ensures TextLe(least, x) {
        if x in others { TextLeTransitive(least, k, x); }
      }
      assert IsLeast(least, keys);
    }
  }

  predicate IsLeast(k: string, keys: set<string>) {
    k in keys && forall x :: x in keys ==> TextLe(k, x)
  }

  function Least(keys: set<string>): (k: string)
    requires keys != {}
    ensures k in keys
  {
    LeastExists(keys);
    assert exists k :: IsLeast(k, keys);
    assert forall j, k :: IsLeast(j, keys) && IsLeast(k, keys) ==> j == k by {
      forall j, k | IsLeast(j, keys) && IsLeast(k, keys) ensures j == k { TextLeAntisymmetric(j, k); }
    }
    var k :| IsLeast(k, keys);
    k
  }

  /** The members of a set in ascending order: `ORDER BY` a key, `sorted` of a set. */
  function InOrder(keys: set<string>): (l: seq<string>)
    ensures Elements(l) == keys && Sorted(l) && Distinct(l)
  {
    if keys == {} then []
    else
      var k := Least(keys);
      var rest := InOrder(keys - {k});
      assert Elements([k] + rest) == {k} + Elements(rest);
      assert k !in Elements(rest);
      LeastFirst(keys, k, rest);
      [k] + rest
  }

  lemma LeastFirst(keys: set<string>, k: string, rest: seq<string>)
    requires IsLeast(k, keys) && Elements(rest) == keys - {k} && Sorted(rest) && Distinct(rest)
    ensures Sorted([k] + rest) && Distinct([k] + rest)
  {
    forall y | y in rest ensures TextLe(k, y) {
      assert y in Elements(rest);
    }
    assert k !in Elements(rest);
    PrependSorted(k, rest);
  }

  /** A sorted list without repeats is determined by its members. */
  lemma SortedSetIsUnique(a: seq<string>, b: seq<string>)
    requires Sorted(a) && Sorted(b) && Distinct(a) && Distinct(b) && Elements(a) == Elements(b)
    ensures a == b
  {
    DistinctMultiset(a);
    DistinctMultiset(b);
    SortedListsAgree(a, b);
  }

  predicate IsGreatest(k: string, keys: set<string>) {
    k in keys && forall x :: x in keys ==> TextLe(x, k)
  }

  function Greatest(keys: set<string>): (k: string)
    requires keys != {}
    ensures IsGreatest(k, keys)
  {
    var l := InOrder(keys);
    var some :| some in keys;
    assert some in Elements(l);
    var k := l[|l| - 1];
    assert k in Elements(l);
    assert forall x :: x in keys ==> x in Elements(l);
    k
  }

  // ----- lists of strings, as Python compares them

  predicate ListLess(a: seq<string>, b: seq<string>) {
    b != [] && (a == [] || (a[0] != b[0] && TextLe(a[0], b[0])) || (a[0] == b[0] && ListLess(a[1..], b[1..])))
  }

  lemma {:induction false} ListLessTotal(a: seq<string>, b: seq<string>)
    ensures a == b || ListLess(a, b) || ListLess(b, a)
  {
    if a != [] && b != [] {
      TextLeTotal(a[0], b[0]);
      ListLessTotal(a[1..], b[1..]);
      assert a == [a[0]] + a[1..] && b == [b[0]] + b[1..];
    }
  }

  lemma {:induction false} ListLessAsymmetric(a: seq<string>, b: seq<string>)
    ensures !(ListLess(a, b) && ListLess(b, a))
  {
    if a != [] && b != [] {
      if a[0] == b[0] {
        ListLessAsymmetric(a[1..], b[1..]);
      } else if TextLe(a[0], b[0]) && TextLe(b[0], a[0]) {
        TextLeAntisymmetric(a[0], b[0]);
      }
    }
  }

  lemma {:induction false} ListLessTransitive(a: seq<string>, b: seq<string>, c: seq<string>)
    requires ListLess(a, b) && ListLess(b, c)
    ensures ListLess(a, c)
  {
    if a != [] {
      if a[0] == b[0] == c[0] {
        ListLessTransitive(a[1..], b[1..], c[1..]);
      } else if a[0] != b[0] && b[0] != c[0] {
        TextLeTransitive(a[0], b[0], c[0]);
        if a[0] == c[0] { TextLeAntisymmetric(a[0], b[0]); }
      }
    }
  }

  /** `a <= b`: both lists in order or equal. */
  lemma NotAboveThenBelow(a: seq<string>, b: seq<string>, c: seq<string>)
    requires !ListLess(b, a) && ListLess(b, c)
    ensures ListLess(a, c)
  {
    ListLessTotal(a, b);
    if a != b { ListLessTransitive(a, b, c); }
  }

  lemma BelowThenNotAbove(a: seq<string>, b: seq<string>, c: seq<string>)
    requires ListLess(a, b) && !ListLess(c, b)
    ensures ListLess(a, c)
  {
    ListLessTotal(b, c);
    if b != c { ListLessTransitive(a, b, c); }
  }

  // ----- sorting keeps a pointwise order

  predicate Pointwise(a: seq<string>, b: seq<string>) {
    |a| == |b| && forall i :: 0 <= i < |a| ==> TextLe(a[i], b[i])
  }

  lemma {:induction false} PointwiseIsNotAbove(a: seq<string>, b: seq<string>)
    requires Pointwise(a, b)
    ensures !ListLess(b, a)
  {
    if a != [] {
      if a[0] == b[0] {
        assert forall i :: 0 <= i < |a| - 1 ==> a[1..][i] == a[i + 1] && b[1..][i] == b[i + 1];
        PointwiseIsNotAbove(a[1..], b[1..]);
      } else if TextLe(b[0], a[0]) {
        TextLeAntisymmetric(a[0], b[0]);
      }
    }
  }

  lemma ConsPointwise(x: string, a: seq<string>, y: string, b: seq<string>)
    requires TextLe(x, y) && Pointwise(a, b)
    ensures Pointwise([x] + a, [y] + b)
  {
  }

  lemma TailPointwise(a: seq<string>, b: seq<string>)
    requires Sorted(a) && Sorted(b) && Pointwise(a, b) && a != []
    ensures |a| == |b| && TextLe(a[0], b[0]) && Pointwise(a[1..], b[1..]) && Sorted(a[1..]) && Sorted(b[1..])
  {
    hide TextLe;
    assert forall i :: 0 <= i < |a| - 1 ==> a[1..][i] == a[i + 1] && b[1..][i] == b[i + 1];
  }

  lemma InsertSmallest(l: seq<string>)
    requires Sorted(l) && l != []
    ensures Insert(l[0], l[1..]) == l
  {
    assert l == [l[0]] + l[1..];
    if |l| > 1 { assert TextLe(l[0], l[1]); }
  }

  lemma {:induction false} InsertKeepsPointwise(u: string, a: seq<string>, v: string, b: seq<string>)
    requires Sorted(a) && Sorted(b) && Pointwise(a, b) && TextLe(u, v)
    ensures Pointwise(Insert(u, a), Insert(v, b))
    decreases |a|
  {
    if a == [] {
      assert b == [];
    } else {
      hide Pointwise, TextLe, Sorted;
      var x, y := a[1..], b[1..];
      TailPointwise(a, b);
      TextLeTotal(u, a[0]);
      TextLeTotal(v, b[0]);
      if TextLe(u, a[0]) && TextLe(v, b[0]) {
        ConsPointwise(u, a, v, b);
      } else if TextLe(u, a[0]) {
        TextLeTransitive(u, a[0], b[0]);
        TextLeTransitive(a[0], b[0], v);
        InsertSmallest(a);
        InsertKeepsPointwise(a[0], x, v, y);
        ConsPointwise(u, a, b[0], Insert(v, y));
      } else if TextLe(v, b[0]) {
        TextLeTransitive(a[0], u, v);
        TextLeTransitive(u, v, b[0]);
        InsertSmallest(b);
        InsertKeepsPointwise(u, x, b[0], y);
        ConsPointwise(a[0], Insert(u, x), v, b);
      } else {
        InsertKeepsPointwise(u, x, v, y);
        ConsPointwise(a[0], Insert(u, x), b[0], Insert(v, y));
      }
    }
  }

  lemma {:induction false} SortKeepsPointwise(a: seq<string>, b: seq<string>)
    requires Pointwise(a, b)
    ensures Pointwise(Sort(a), Sort(b))
  {
    if a != [] {
      var m := |a| - 1;
      SortKeepsPointwise(a[..m], b[..m]);
      InsertKeepsPointwise(a[m], Sort(a[..m]), b[m], Sort(b[..m]));
    }
  }
}
