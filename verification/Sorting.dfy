/** A stable sort by an integer key, and when the order of the input does not
    matter to it. */
module Sorting {

  function Insert<T>(s: seq<T>, x: T, key: T -> int): seq<T> {
    if s == [] || key(s[|s| - 1]) <= key(x) then s + [x]
    else Insert(s[..|s| - 1], x, key) + [s[|s| - 1]]
  }

  /** Elements with equal keys keep their order. */
  function Sort<T>(s: seq<T>, key: T -> int): seq<T> {
    if s == [] then [] else Insert(Sort(s[..|s| - 1], key), s[|s| - 1], key)
  }

  ghost predicate Ascending<T>(s: seq<T>, key: T -> int) {
    forall i, j :: 0 <= i < j < |s| ==> key(s[i]) <= key(s[j])
  }

  /** Elements that the key does not tell apart are the same. */
  ghost predicate KeyDecides<T>(s: seq<T>, key: T -> int) {
    forall i, j :: 0 <= i < |s| && 0 <= j < |s| && key(s[i]) == key(s[j]) ==> s[i] == s[j]
  }

  lemma {:induction false} InsertPermutes<T>(s: seq<T>, x: T, key: T -> int)
    ensures multiset(Insert(s, x, key)) == multiset(s) + multiset{x}
  {
    if s == [] || key(s[|s| - 1]) <= key(x) {
    } else {
      var n := |s| - 1;
      InsertPermutes(s[..n], x, key);
      assert s == s[..n] + [s[n]];
    }
  }

  lemma InsertMember<T>(s: seq<T>, x: T, key: T -> int, i: nat)
    requires i < |Insert(s, x, key)|
    ensures Insert(s, x, key)[i] == x || Insert(s, x, key)[i] in s
  {
    hide Insert;
    InsertPermutes(s, x, key);
    assert Insert(s, x, key)[i] in multiset(Insert(s, x, key));
  }

  lemma {:induction false} InsertAscends<T>(s: seq<T>, x: T, key: T -> int)
    requires Ascending(s, key)
    ensures Ascending(Insert(s, x, key), key)
  {
    if s == [] || key(s[|s| - 1]) <= key(x) {
    } else {
      var n := |s| - 1;
      InsertAscends(s[..n], x, key);
      var r := Insert(s[..n], x, key);
      forall i | 0 <= i < |r| ensures key(r[i]) <= key(s[n]) {
        InsertMember(s[..n], x, key, i);
      }
    }
  }

  lemma {:induction false} SortIs<T>(s: seq<T>, key: T -> int)
    ensures Ascending(Sort(s, key), key)
    ensures multiset(Sort(s, key)) == multiset(s)
    ensures |Sort(s, key)| == |s|
  {
    if s == [] {
    } else {
      var n := |s| - 1;
      SortIs(s[..n], key);
      InsertAscends(Sort(s[..n], key), s[n], key);
      InsertPermutes(Sort(s[..n], key), s[n], key);
      assert s == s[..n] + [s[n]];
    }
    assert |multiset(Sort(s, key))| == |Sort(s, key)|;
  }

  lemma LastIsGreatest<T>(s: seq<T>, t: seq<T>, key: T -> int)
    requires Ascending(s, key) && t != []
    requires multiset(s) == multiset(t)
    ensures s != [] && t[|t| - 1] in s && key(t[|t| - 1]) <= key(s[|s| - 1])
  {
    assert t[|t| - 1] in multiset(t);
    assert t[|t| - 1] in s;
  }

  lemma CancelOne<T>(a: multiset<T>, b: multiset<T>, x: T)
    requires a + multiset{x} == b + multiset{x}
    ensures a == b
  {
    assert a == (a + multiset{x}) - multiset{x};
    assert b == (b + multiset{x}) - multiset{x};
  }

  lemma DropLast<T>(s: seq<T>, t: seq<T>, x: T)
    requires multiset(s + [x]) == multiset(t + [x])
    ensures multiset(s) == multiset(t)
  {
    CancelOne(multiset(s), multiset(t), x);
  }

  /** Where the last element of s is in a permutation of it. */
  lemma FindLast<T>(s: seq<T>, t: seq<T>) returns (i: nat)
    requires s != [] && multiset(s) == multiset(t)
    ensures i < |t| && t[i] == s[|s| - 1]
    ensures t == t[..i] + [t[i]] + t[i + 1..]
    ensures multiset(s[..|s| - 1]) == multiset(t[..i] + t[i + 1..])
  {
    var n := |s| - 1;
    assert s[n] in multiset(s);
    i :| 0 <= i < |t| && t[i] == s[n];
    assert s == s[..n] + [s[n]];
    assert t == t[..i] + [t[i]] + t[i + 1..];
    CancelOne(multiset(s[..n]), multiset(t[..i] + t[i + 1..]), s[n]);
  }

  lemma SameLast<T>(s: seq<T>, t: seq<T>, key: T -> int)
    requires Ascending(s, key) && Ascending(t, key) && s != []
    requires multiset(s) == multiset(t)
    requires KeyDecides(s, key)
    ensures t != [] && s[|s| - 1] == t[|t| - 1]
  {
    assert t != [] by {
      assert s[|s| - 1] in multiset(t);
    }
    hide Ascending;
    LastIsGreatest(s, t, key);
    LastIsGreatest(t, s, key);
    var j :| 0 <= j < |s| && s[j] == t[|t| - 1];
    assert key(s[j]) == key(s[|s| - 1]);
  }

  /** Ascending sequences of the same elements are equal when the key decides. */
  lemma {:induction false} AscendingUnique<T>(s: seq<T>, t: seq<T>, key: T -> int)
    requires Ascending(s, key) && Ascending(t, key)
    requires multiset(s) == multiset(t)
    requires KeyDecides(s, key)
    ensures s == t
  {
    if s == [] {
      assert |multiset(t)| == 0;
    } else {
      var m, n := |s| - 1, |t| - 1;
      SameLast(s, t, key);
      assert s == s[..m] + [s[m]] && t == t[..n] + [t[n]];
      DropLast(s[..m], t[..n], s[m]);
      AscendingUnique(s[..m], t[..n], key);
    }
  }

  lemma DecidesForPermutation<T>(s: seq<T>, t: seq<T>, key: T -> int)
    requires multiset(s) == multiset(t) && KeyDecides(s, key)
    ensures KeyDecides(t, key)
  {
    forall i, j | 0 <= i < |t| && 0 <= j < |t| && key(t[i]) == key(t[j]) ensures t[i] == t[j] {
      assert t[i] in multiset(s) && t[j] in multiset(s);
      assert t[i] in s && t[j] in s;
    }
  }

  lemma SortIgnoresOrder<T>(s: seq<T>, t: seq<T>, key: T -> int)
    requires multiset(s) == multiset(t) && KeyDecides(s, key)
    ensures Sort(s, key) == Sort(t, key)
  {
    SortIs(s, key);
    SortIs(t, key);
    DecidesForPermutation(s, Sort(s, key), key);
    AscendingUnique(Sort(s, key), Sort(t, key), key);
  }

  // -------------------------------------------------- equal keys

  /** The elements with key k, in order. */
  function WithKey<T>(s: seq<T>, key: T -> int, k: int): seq<T> {
    if s == [] then []
    else WithKey(s[..|s| - 1], key, k) + OneWithKey(s[|s| - 1], key, k)
  }

  function OneWithKey<T>(x: T, key: T -> int, k: int): seq<T> {
    if key(x) == k then [x] else []
  }

  lemma WithKeyLast<T>(s: seq<T>, x: T, key: T -> int, k: int)
    ensures WithKey(s + [x], key, k) == WithKey(s, key, k) + OneWithKey(x, key, k)
  {
    assert (s + [x])[..|s|] == s;
  }

  lemma {:induction false} InsertStable<T>(s: seq<T>, x: T, key: T -> int, k: int)
    requires Ascending(s, key)
    ensures WithKey(Insert(s, x, key), key, k) == WithKey(s, key, k) + OneWithKey(x, key, k)
  {
    hide WithKey;
    if s == [] || key(s[|s| - 1]) <= key(x) {
      WithKeyLast(s, x, key, k);
    } else {
      var n := |s| - 1;
      assert s == s[..n] + [s[n]];
      InsertStable(s[..n], x, key, k);
      WithKeyLast(Insert(s[..n], x, key), s[n], key, k);
      WithKeyLast(s[..n], s[n], key, k);
    }
  }

  lemma {:induction false} SortStable<T>(s: seq<T>, key: T -> int, k: int)
    ensures WithKey(Sort(s, key), key, k) == WithKey(s, key, k)
  {
    if s == [] {
    } else {
      var n := |s| - 1;
      var r := Sort(s[..n], key);
      SortIs(s[..n], key);
      SortStable(s[..n], key, k);
      InsertStable(r, s[n], key, k);
    }
  }

  lemma {:induction false} WithKeyConcat<T>(s: seq<T>, t: seq<T>, key: T -> int, k: int)
    ensures WithKey(s + t, key, k) == WithKey(s, key, k) + WithKey(t, key, k)
  {
    if t == [] {
      assert s + t == s;
    } else {
      hide WithKey;
      var n := |t| - 1;
      assert t == t[..n] + [t[n]];
      assert s + t == (s + t[..n]) + [t[n]];
      WithKeyConcat(s, t[..n], key, k);
      WithKeyLast(s + t[..n], t[n], key, k);
      WithKeyLast(t[..n], t[n], key, k);
    }
  }

  lemma TwoWithKey<T>(x: T, y: T, key: T -> int)
    requires key(x) == key(y)
    ensures WithKey([x, y], key, key(x)) == [x, y]
  {
    assert [x, y][..1] == [x];
    assert WithKey([x], key, key(x)) == [x];
  }

  lemma PulledToFront<T>(s: seq<T>, i: nat, j: nat) returns (rest: seq<T>)
    requires i < j < |s|
    ensures multiset([s[i], s[j]] + rest) == multiset([s[j], s[i]] + rest) == multiset(s)
  {
    rest := s[..i] + s[i + 1..j] + s[j + 1..];
    assert s == s[..i] + [s[i]] + s[i + 1..j] + [s[j]] + s[j + 1..];
  }

  /** Two orders of the same elements that sort differently, when the key does not decide. */
  lemma OrderMatters<T>(s: seq<T>, i: nat, j: nat, key: T -> int) returns (t: seq<T>, u: seq<T>)
    requires i < j < |s| && key(s[i]) == key(s[j]) && s[i] != s[j]
    ensures multiset(t) == multiset(s) == multiset(u)
    ensures Sort(t, key) != Sort(u, key)
  {
    var rest := PulledToFront(s, i, j);
    t, u := [s[i], s[j]] + rest, [s[j], s[i]] + rest;
    var k := key(s[i]);
    SortStable(t, key, k);
    SortStable(u, key, k);
    WithKeyConcat([s[i], s[j]], rest, key, k);
    WithKeyConcat([s[j], s[i]], rest, key, k);
    TwoWithKey(s[i], s[j], key);
    TwoWithKey(s[j], s[i], key);
    assert WithKey(t, key, k)[0] == s[i] && WithKey(u, key, k)[0] == s[j];
  }

  /** The result of sorting does not depend on the order of the input exactly
      when the key decides. */
  lemma OrderIndependence<T(!new)>(s: seq<T>, key: T -> int)
    ensures (forall t :: multiset(t) == multiset(s) ==> Sort(t, key) == Sort(s, key)) <==> KeyDecides(s, key)
  {
    if KeyDecides(s, key) {
      forall t | multiset(t) == multiset(s) ensures Sort(t, key) == Sort(s, key) {
        SortIgnoresOrder(s, t, key);
      }
    } else {
      var i, j :| 0 <= i < |s| && 0 <= j < |s| && key(s[i]) == key(s[j]) && s[i] != s[j];
      var t, u := OrderMatters(s, if i < j then i else j, if i < j then j else i, key);
      assert Sort(t, key) != Sort(s, key) || Sort(u, key) != Sort(s, key);
    }
  }

  /** The first of the elements with key k, if there are any. */
  lemma {:induction false} FirstWithKey<T>(s: seq<T>, key: T -> int, k: int) returns (i: nat)
    ensures WithKey(s, key, k) == [] ==> forall j :: 0 <= j < |s| ==> key(s[j]) != k
    ensures WithKey(s, key, k) != [] ==>
              && i < |s| && s[i] == WithKey(s, key, k)[0] && key(s[i]) == k
              && forall j :: 0 <= j < i ==> key(s[j]) != k
  {
    if s == [] {
      i := 0;
    } else {
      var n := |s| - 1;
      i := FirstWithKey(s[..n], key, k);
      if WithKey(s[..n], key, k) == [] {
        i := n;
      }
    }
  }

  /** An element put first comes out first among those with its key. */
  lemma FrontOfKey<T>(x: T, rest: seq<T>, key: T -> int) returns (i: nat)
    ensures i < |Sort([x] + rest, key)| && Sort([x] + rest, key)[i] == x
    ensures forall j :: 0 <= j < i ==> key(Sort([x] + rest, key)[j]) != key(x)
  {
    var k := key(x);
    SortStable([x] + rest, key, k);
    WithKeyConcat([x], rest, key, k);
    assert [x][..0] == [];
    assert WithKey([x], key, k) == [x];
    i := FirstWithKey(Sort([x] + rest, key), key, k);
  }

  // -------------------------------------------------- pairs

  function OnSecond<A, B>(key: B -> int): ((A, B)) -> int {
    (p: (A, B)) => key(p.1)
  }

  function Zip<A, B>(a: seq<A>, b: seq<B>): (r: seq<(A, B)>)
    requires |a| == |b|
    ensures |r| == |a| && Firsts(r) == a && Seconds(r) == b
  {
    seq(|a|, i requires 0 <= i < |a| => (a[i], b[i]))
  }

  function Firsts<A, B>(s: seq<(A, B)>): seq<A> {
    seq(|s|, i requires 0 <= i < |s| => s[i].0)
  }

  function Seconds<A, B>(s: seq<(A, B)>): seq<B> {
    seq(|s|, i requires 0 <= i < |s| => s[i].1)
  }

  lemma {:induction false} InsertSecond<A, B>(s: seq<(A, B)>, x: (A, B), key: B -> int)
    ensures Seconds(Insert(s, x, OnSecond(key))) == Insert(Seconds(s), x.1, key)
  {
    if s == [] || key(s[|s| - 1].1) <= key(x.1) {
      assert Seconds(s + [x]) == Seconds(s) + [x.1];
    } else {
      var n := |s| - 1;
      InsertSecond(s[..n], x, key);
      assert Seconds(s[..n]) == Seconds(s)[..n];
    }
  }

  /** Sorting pairs by their second parts sorts the second parts. */
  lemma {:induction false} SortSecond<A, B>(s: seq<(A, B)>, key: B -> int)
    ensures Seconds(Sort(s, OnSecond(key))) == Sort(Seconds(s), key)
  {
    if s == [] {
    } else {
      var n := |s| - 1;
      SortSecond(s[..n], key);
      InsertSecond(Sort(s[..n], OnSecond(key)), s[n], key);
      assert Seconds(s[..n]) == Seconds(s)[..n];
    }
  }
}
