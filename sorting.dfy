/** The order the screens sort text by (`a.localeCompare(b)`), modelled as
    the lexicographic order on character codes, and the stable sort that
    `Array.prototype.sort` performs with it. */
module Sorting {

  /** `a` sorts strictly before `b`. */
  predicate Before(a: string, b: string)
    decreases |a|
  {
    if a == [] then b != []
    else if b == [] then false
    else a[0] < b[0] || (a[0] == b[0] && Before(a[1..], b[1..]))
  }

  predicate AtMost(a: string, b: string) {
    a == b || Before(a, b)
  }

  lemma {:induction false} BeforeIrreflexive(a: string)
    ensures !Before(a, a)
    decreases |a|
  {
    if a != [] {
      BeforeIrreflexive(a[1..]);
    }
  }

  lemma {:induction false} BeforeTransitive(a: string, b: string, c: string)
    requires Before(a, b) && Before(b, c)
    ensures Before(a, c)
    decreases |a|
  {
    if a != [] && a[0] == b[0] && b[0] == c[0] {
      BeforeTransitive(a[1..], b[1..], c[1..]);
    }
  }

  lemma {:induction false} BeforeTotal(a: string, b: string)
    ensures a == b || Before(a, b) || Before(b, a)
    decreases |a|
  {
    if a != [] && b != [] && a[0] == b[0] {
      BeforeTotal(a[1..], b[1..]);
      if a[1..] == b[1..] {
        assert a == [a[0]] + a[1..] && b == [b[0]] + b[1..];
      }
    }
  }

  lemma BeforeAsymmetric(a: string, b: string)
    ensures !(Before(a, b) && Before(b, a))
  {
    if Before(a, b) && Before(b, a) {
      BeforeTransitive(a, b, a);
      BeforeIrreflexive(a);
    }
  }

  // ---------------------------------------------------------------------
  // Distinct sorted lists (`Array.from(new Set(..)).sort(..)`)

  predicate StrictlySorted(s: seq<string>) {
    forall i, j :: 0 <= i < j < |s| ==> Before(s[i], s[j])
  }

  /** Adds `x` to a strictly sorted list unless it is already there. */
  function InsertDistinct(x: string, s: seq<string>): (r: seq<string>)
    requires StrictlySorted(s)
    ensures StrictlySorted(r)
    ensures forall y :: y in r <==> y in s || y == x
  {
    if s == [] then [x]
    else if x == s[0] then s
    else if Before(x, s[0]) then
      assert forall j :: 0 < j < |s| ==> Before(x, s[j]) by {
        forall j | 0 < j < |s| ensures Before(x, s[j]) {
          BeforeTransitive(x, s[0], s[j]);
        }
      }
      [x] + s
    else
      BeforeTotal(x, s[0]);
      var t := InsertDistinct(x, s[1..]);
      assert forall k :: 0 <= k < |t| ==> Before(s[0], t[k]) by {
        forall k | 0 <= k < |t| ensures Before(s[0], t[k]) {
          assert t[k] in t;
          if t[k] != x {
            var i :| 0 <= i < |s[1..]| && s[1..][i] == t[k];
            assert s[i + 1] == t[k];
          }
        }
      }
      assert s == [s[0]] + s[1..];
      [s[0]] + t
  }

  /** `Array.from(new Set(s)).sort((a, b) => a.localeCompare(b))` */
  function SortDistinct(s: seq<string>): (r: seq<string>)
    ensures StrictlySorted(r)
    ensures forall y :: y in r <==> y in s
  {
    if s == [] then []
    else
      assert s == [s[0]] + s[1..];
      InsertDistinct(s[0], SortDistinct(s[1..]))
  }

  /** Two strictly sorted lists with the same elements are the same list:
      the sorted list of a set of strings is unique. */
  lemma {:induction false} StrictlySortedUnique(a: seq<string>, b: seq<string>)
    requires StrictlySorted(a) && StrictlySorted(b)
    requires forall y :: y in a <==> y in b
    ensures a == b
    decreases |a|
  {
    if a == [] || b == [] {
      BothEmpty(a, b);
    } else {
      SameHead(a, b);
      SameTail(a, b);
      StrictlySortedUnique(a[1..], b[1..]);
      assert a == [a[0]] + a[1..] && b == [b[0]] + b[1..];
    }
  }

  /** Lists with the same elements are empty together. */
  lemma BothEmpty(a: seq<string>, b: seq<string>)
    requires forall y :: y in a <==> y in b
    ensures a == [] <==> b == []
  {
    if a != [] {
      assert a[0] in a;
    }
    if b != [] {
      assert b[0] in b;
    }
  }

  /** Their first elements agree: each is the least of the same set. */
  lemma SameHead(a: seq<string>, b: seq<string>)
    requires a != [] && b != []
    requires StrictlySorted(a) && StrictlySorted(b)
    requires forall y :: y in a <==> y in b
    ensures a[0] == b[0]
  {
    assert a[0] in b;
    var j :| 0 <= j < |b| && b[j] == a[0];
    assert b[0] in a;
    var i :| 0 <= i < |a| && a[i] == b[0];
    if i != 0 && j != 0 {
      BeforeAsymmetric(a[0], b[0]);
    }
  }

  /** ... and so do the elements after them. */
  lemma SameTail(a: seq<string>, b: seq<string>)
    requires a != [] && b != [] && a[0] == b[0]
    requires StrictlySorted(a) && StrictlySorted(b)
    requires forall y :: y in a <==> y in b
    ensures StrictlySorted(a[1..]) && StrictlySorted(b[1..])
    ensures forall y :: y in a[1..] <==> y in b[1..]
  {
    forall y | y in a[1..] ensures y in b[1..] {
      TailMember(a, b, y);
    }
    forall y | y in b[1..] ensures y in a[1..] {
      TailMember(b, a, y);
    }
  }

  lemma TailMember(a: seq<string>, b: seq<string>, y: string)
    requires a != [] && b != [] && a[0] == b[0]
    requires StrictlySorted(a) && StrictlySorted(b)
    requires forall y :: y in a <==> y in b
    requires y in a[1..]
    ensures y in b[1..]
  {
    var k :| 0 <= k < |a[1..]| && a[1..][k] == y;
    assert Before(a[0], a[k + 1]);
    BeforeIrreflexive(y);
    assert y in b;
    var m :| 0 <= m < |b| && b[m] == y;
    assert m != 0;
    assert b[1..][m - 1] == y;
  }

  // ---------------------------------------------------------------------
  // Stable sort by a text key

  predicate SortedBy<T>(s: seq<T>, key: T -> string) {
    forall i, j :: 0 <= i < j < |s| ==> AtMost(key(s[i]), key(s[j]))
  }

  /** Puts `x` in front of the first element whose key is not below its own,
      so `x` stays ahead of the elements it came before with equal keys. */
  function InsertBy<T>(x: T, s: seq<T>, key: T -> string): (r: seq<T>)
    requires SortedBy(s, key)
    ensures SortedBy(r, key)
    ensures multiset(r) == multiset(s) + multiset{x}
  {
    if s == [] then [x]
    else if AtMost(key(x), key(s[0])) then
      assert forall j :: 0 <= j < |s| ==> AtMost(key(x), key(s[j])) by {
        forall j | 0 <= j < |s| ensures AtMost(key(x), key(s[j])) {
          if key(x) != key(s[0]) && key(s[0]) != key(s[j]) {
            BeforeTransitive(key(x), key(s[0]), key(s[j]));
          }
        }
      }
      [x] + s
    else
      BeforeTotal(key(x), key(s[0]));
      var t := InsertBy(x, s[1..], key);
      assert forall k :: 0 <= k < |t| ==> AtMost(key(s[0]), key(t[k])) by {
        forall k | 0 <= k < |t| ensures AtMost(key(s[0]), key(t[k])) {
          assert t[k] in multiset(t);
          if t[k] != x {
            assert t[k] in multiset(s[1..]);
            var i :| 0 <= i < |s[1..]| && s[1..][i] == t[k];
            assert s[i + 1] == t[k];
          }
        }
      }
      assert s == [s[0]] + s[1..];
      [s[0]] + t
  }

  /** `list.sort((a, b) => key(a).localeCompare(key(b)))` */
  function SortBy<T>(s: seq<T>, key: T -> string): (r: seq<T>)
    ensures SortedBy(r, key)
    ensures multiset(r) == multiset(s)
    ensures |r| == |s|
  {
    if s == [] then []
    else
      assert s == [s[0]] + s[1..];
      InsertBy(s[0], SortBy(s[1..], key), key)
  }

  /** The elements whose key is `k`, in their order. */
  function WithKey<T>(s: seq<T>, key: T -> string, k: string): seq<T> {
    if s == [] then []
    else (if key(s[0]) == k then [s[0]] else []) + WithKey(s[1..], key, k)
  }

  lemma WithKeyCons<T>(a: T, t: seq<T>, key: T -> string, k: string)
    ensures WithKey([a] + t, key, k) == (if key(a) == k then [a] else []) + WithKey(t, key, k)
  {
    assert ([a] + t)[0] == a && ([a] + t)[1..] == t;
  }

  /** Inserting `x` puts it ahead of every element with the same key. */
  lemma {:induction false} InsertByStable<T>(x: T, s: seq<T>, key: T -> string, k: string)
    requires SortedBy(s, key)
    ensures WithKey(InsertBy(x, s, key), key, k) == (if key(x) == k then [x] else []) + WithKey(s, key, k)
    decreases |s|
  {
    var mine: seq<T> := if key(x) == k then [x] else [];
    if s == [] {
      WithKeyCons(x, [], key, k);
      assert [x] + [] == [x];
    } else if AtMost(key(x), key(s[0])) {
      WithKeyCons(x, s, key, k);
    } else {
      var t := InsertBy(x, s[1..], key);
      var first: seq<T> := if key(s[0]) == k then [s[0]] else [];
      var rest := WithKey(s[1..], key, k);
      InsertByStable(x, s[1..], key, k);
      WithKeyCons(s[0], t, key, k);
      assert s == [s[0]] + s[1..];
      WithKeyCons(s[0], s[1..], key, k);
      assert key(x) != key(s[0]);
      calc {
        WithKey(InsertBy(x, s, key), key, k);
        WithKey([s[0]] + t, key, k);
        first + (mine + rest);
        { assert first == [] || mine == []; }
        mine + (first + rest);
        mine + WithKey(s, key, k);
      }
    }
  }

  /** The sort is stable: the elements sharing a key keep their relative
      order, as `Array.prototype.sort` guarantees. */
  lemma {:induction false} SortByStable<T>(s: seq<T>, key: T -> string, k: string)
    ensures WithKey(SortBy(s, key), key, k) == WithKey(s, key, k)
    decreases |s|
  {
    if s != [] {
      assert s == [s[0]] + s[1..];
      SortByStable(s[1..], key, k);
      InsertByStable(s[0], SortBy(s[1..], key), key, k);
    }
  }
}
