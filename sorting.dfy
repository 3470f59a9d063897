/**
 * Python 2 ordering of sort keys, and Python's stable `sorted(..., key=...)`.
 *
 * A sort key is a tuple of optional strings: a bare value `v` is the
 * one-element key `[v]`, a tuple `(a, b)` is `[a, b]`, and `None` used as a
 * whole key is the empty key `[]`. Python 2 orders `None` below every string
 * and every tuple, strings by their characters, and tuples
 * lexicographically, a proper prefix first; `KeyLe` is that order.
 */
module Sorting {
  import opened Wrappers

  type Key = seq<Option<string>>

  /** Python 2 string order: lexicographic on characters, a proper prefix first. */
  predicate StrLe(a: string, b: string)
  {
    |a| == 0 || (|b| > 0 && (a[0] < b[0] || (a[0] == b[0] && StrLe(a[1..], b[1..]))))
  }

  /** `None` sorts below every string. */
  predicate OptLe(a: Option<string>, b: Option<string>)
  {
    a.None? || (b.Some? && StrLe(a.value, b.value))
  }

  /** Python 2 tuple order over `OptLe`. */
  predicate KeyLe(a: Key, b: Key)
  {
    |a| == 0 || (|b| > 0 && ((OptLe(a[0], b[0]) && a[0] != b[0]) || (a[0] == b[0] && KeyLe(a[1..], b[1..]))))
  }

  lemma {:induction false} StrLeTotal(a: string, b: string)
    ensures StrLe(a, b) || StrLe(b, a)
    ensures StrLe(a, b) && StrLe(b, a) ==> a == b
  {
    if |a| > 0 && |b| > 0 && a[0] == b[0] {
      StrLeTotal(a[1..], b[1..]);
      if StrLe(a, b) && StrLe(b, a) {
        assert a == [a[0]] + a[1..] && b == [b[0]] + b[1..];
      }
    }
  }

  lemma {:induction false} StrLeTrans(a: string, b: string, c: string)
    requires StrLe(a, b) && StrLe(b, c)
    ensures StrLe(a, c)
  {
    if |a| > 0 && a[0] == b[0] && b[0] == c[0] {
      StrLeTrans(a[1..], b[1..], c[1..]);
    }
  }

  lemma OptLeTotal(a: Option<string>, b: Option<string>)
    ensures OptLe(a, b) || OptLe(b, a)
    ensures OptLe(a, b) && OptLe(b, a) ==> a == b
  {
    if a.Some? && b.Some? {
      StrLeTotal(a.value, b.value);
    }
  }

  lemma OptLeTrans(a: Option<string>, b: Option<string>, c: Option<string>)
    requires OptLe(a, b) && OptLe(b, c)
    ensures OptLe(a, c)
  {
    if a.Some? {
      StrLeTrans(a.value, b.value, c.value);
    }
  }

  /** `KeyLe` is a total order. */
  lemma {:induction false} KeyLeTotal(a: Key, b: Key)
    ensures KeyLe(a, b) || KeyLe(b, a)
    ensures KeyLe(a, b) && KeyLe(b, a) ==> a == b
  {
    if |a| > 0 && |b| > 0 {
      OptLeTotal(a[0], b[0]);
      if a[0] == b[0] {
        KeyLeTotal(a[1..], b[1..]);
        if KeyLe(a, b) && KeyLe(b, a) {
          assert a == [a[0]] + a[1..] && b == [b[0]] + b[1..];
        }
      }
    }
  }

  lemma {:induction false} KeyLeTrans(a: Key, b: Key, c: Key)
    requires KeyLe(a, b) && KeyLe(b, c)
    ensures KeyLe(a, c)
  {
    if |a| > 0 {
      OptLeTotal(a[0], a[0]);
      OptLeTotal(b[0], b[0]);
      OptLeTrans(a[0], b[0], c[0]);
      OptLeTotal(a[0], b[0]);
      OptLeTotal(b[0], c[0]);
      OptLeTotal(a[0], c[0]);
      if a[0] == b[0] && b[0] == c[0] {
        KeyLeTrans(a[1..], b[1..], c[1..]);
      }
    }
  }

  lemma KeyLeRefl(a: Key)
    ensures KeyLe(a, a)
  {
    KeyLeTotal(a, a);
  }

  predicate SortedBy<T>(s: seq<T>, key: T -> Key)
  {
    forall i, j | 0 <= i < j < |s| :: KeyLe(key(s[i]), key(s[j]))
  }

  /** The members of `s` whose key is `k`, in their order in `s`. */
  function WithKey<T>(s: seq<T>, key: T -> Key, k: Key): seq<T>
  {
    if s == [] then [] else (if key(s[0]) == k then [s[0]] else []) + WithKey(s[1..], key, k)
  }

  /** Insert `x` before the first member whose key is not below its own. */
  function Insert<T>(x: T, s: seq<T>, key: T -> Key): (r: seq<T>)
    ensures |r| == |s| + 1
  {
    if s == [] then [x]
    else if KeyLe(key(x), key(s[0])) then [x] + s
    else [s[0]] + Insert(x, s[1..], key)
  }

  /**
   * Python's `sorted(s, key=key)`: a stable sort. Insertion sort is one
   * stable sort; the lemmas below show that any two stable sorts agree.
   */
  function SortBy<T>(s: seq<T>, key: T -> Key): (r: seq<T>)
    ensures |r| == |s|
  {
    if s == [] then [] else Insert(s[0], SortBy(s[1..], key), key)
  }

  lemma {:induction false} InsertProperties<T>(x: T, s: seq<T>, key: T -> Key)
    requires SortedBy(s, key)
    ensures SortedBy(Insert(x, s, key), key)
    ensures multiset(Insert(x, s, key)) == multiset(s) + multiset{x}
    ensures forall k :: WithKey(Insert(x, s, key), key, k) == (if key(x) == k then [x] else []) + WithKey(s, key, k)
  {
    InsertMultiset(x, s, key);
    InsertSorted(x, s, key);
    forall k ensures WithKey(Insert(x, s, key), key, k) == (if key(x) == k then [x] else []) + WithKey(s, key, k) {
      InsertWithKey(x, s, key, k);
    }
  }

  lemma {:induction false} InsertMultiset<T>(x: T, s: seq<T>, key: T -> Key)
    ensures multiset(Insert(x, s, key)) == multiset(s) + multiset{x}
  {
    if s != [] && !KeyLe(key(x), key(s[0])) {
      InsertMultiset(x, s[1..], key);
      assert s == [s[0]] + s[1..];
    }
  }

  /** Every member of `s` has a key at or above `k`. */
  predicate AllAbove<T>(k: Key, s: seq<T>, key: T -> Key)
  {
    forall i | 0 <= i < |s| :: KeyLe(k, key(s[i]))
  }

  /** Inserting a member at or above `k` keeps every member at or above `k`. */
  lemma {:induction false} InsertAbove<T>(k: Key, x: T, s: seq<T>, key: T -> Key)
    requires AllAbove(k, s, key) && KeyLe(k, key(x))
    ensures AllAbove(k, Insert(x, s, key), key)
  {
    if s != [] && !KeyLe(key(x), key(s[0])) {
      assert AllAbove(k, s[1..], key) by {
        forall i | 0 <= i < |s| - 1 ensures KeyLe(k, key(s[1..][i])) {
          assert s[1..][i] == s[i + 1];
        }
      }
      InsertAbove(k, x, s[1..], key);
      var r := Insert(x, s, key);
      forall i | 0 <= i < |r| ensures KeyLe(k, key(r[i])) {
        if i > 0 {
          assert r[i] == Insert(x, s[1..], key)[i - 1];
        }
      }
    }
  }

  /** A sequence is sorted when its head is below everything after it and its tail is sorted. */
  lemma SortedCons<T>(y: T, t: seq<T>, key: T -> Key)
    requires AllAbove(key(y), t, key) && SortedBy(t, key)
    ensures SortedBy([y] + t, key)
  {
    var r := [y] + t;
    forall i, j | 0 <= i < j < |r| ensures KeyLe(key(r[i]), key(r[j])) {
      assert r[j] == t[j - 1];
      if i > 0 {
        assert r[i] == t[i - 1];
      }
    }
  }

  lemma InsertSortedFront<T>(x: T, s: seq<T>, key: T -> Key)
    requires SortedBy(s, key) && s != [] && KeyLe(key(x), key(s[0]))
    ensures SortedBy(Insert(x, s, key), key)
  {
    forall i | 0 <= i < |s| ensures KeyLe(key(x), key(s[i])) {
      if i > 0 {
        KeyLeTrans(key(x), key(s[0]), key(s[i]));
      }
    }
    SortedCons(x, s, key);
  }

  lemma InsertSortedLater<T>(x: T, s: seq<T>, key: T -> Key)
    requires SortedBy(s, key) && s != [] && !KeyLe(key(x), key(s[0]))
    requires SortedBy(Insert(x, s[1..], key), key)
    ensures SortedBy(Insert(x, s, key), key)
  {
    var k := key(s[0]);
    assert AllAbove(k, s[1..], key) by {
      forall i | 0 <= i < |s| - 1 ensures KeyLe(k, key(s[1..][i])) {
        assert s[1..][i] == s[i + 1];
      }
    }
    KeyLeTotal(key(x), k);
    InsertAbove(k, x, s[1..], key);
    SortedCons(s[0], Insert(x, s[1..], key), key);
  }

  lemma {:induction false} InsertSorted<T>(x: T, s: seq<T>, key: T -> Key)
    requires SortedBy(s, key)
    ensures SortedBy(Insert(x, s, key), key)
  {
    if s == [] {
    } else if KeyLe(key(x), key(s[0])) {
      InsertSortedFront(x, s, key);
    } else {
      SortedTail(s, key);
      InsertSorted(x, s[1..], key);
      InsertSortedLater(x, s, key);
    }
  }

  lemma WithKeyCons<T>(y: T, t: seq<T>, key: T -> Key, k: Key)
    ensures WithKey([y] + t, key, k) == (if key(y) == k then [y] else []) + WithKey(t, key, k)
  {
    assert ([y] + t)[1..] == t;
  }

  lemma {:induction false} InsertWithKey<T>(x: T, s: seq<T>, key: T -> Key, k: Key)
    ensures WithKey(Insert(x, s, key), key, k) == (if key(x) == k then [x] else []) + WithKey(s, key, k)
  {
    if s == [] {
      WithKeyCons(x, s, key, k);
    } else if KeyLe(key(x), key(s[0])) {
      WithKeyCons(x, s, key, k);
    } else {
      InsertWithKey(x, s[1..], key, k);
      KeyLeTotal(key(x), key(s[0]));
      WithKeyCons(s[0], Insert(x, s[1..], key), key, k);
      WithKeyCons(s[0], s[1..], key, k);
      assert [s[0]] + s[1..] == s;
    }
  }


  /**
   * The result is sorted, is a permutation of the input, and keeps the
   * input order among members with equal keys.
   */
  lemma {:induction false} SortByProperties<T>(s: seq<T>, key: T -> Key)
    ensures SortedBy(SortBy(s, key), key)
    ensures multiset(SortBy(s, key)) == multiset(s)
    ensures forall k :: WithKey(SortBy(s, key), key, k) == WithKey(s, key, k)
  {
    if s != [] {
      SortByProperties(s[1..], key);
      InsertProperties(s[0], SortBy(s[1..], key), key);
      assert s == [s[0]] + s[1..];
    }
  }

  /** Sorting a sorted sequence changes nothing. */
  lemma {:induction false} SortBySorted<T>(s: seq<T>, key: T -> Key)
    requires SortedBy(s, key)
    ensures SortBy(s, key) == s
  {
    if s != [] {
      SortBySorted(s[1..], key);
      if |s| > 1 {
        assert KeyLe(key(s[0]), key(s[1]));
      }
      assert s == [s[0]] + s[1..];
    }
  }

  /** Two sorted lists with the same elements under every key start with the same element. */
  lemma SortedSameHead<T>(a: seq<T>, b: seq<T>, key: T -> Key)
    requires SortedBy(a, key) && SortedBy(b, key) && a != [] && b != []
    requires forall k :: WithKey(a, key, k) == WithKey(b, key, k)
    ensures a[0] == b[0]
  {
    WithKeyHead(a, key);
    WithKeyHead(b, key);
    var ka, kb := key(a[0]), key(b[0]);
    var j := WithKeyWitness(b, key, ka);
    var i := WithKeyWitness(a, key, kb);
    KeyLeRefl(ka);
    KeyLeRefl(kb);
    assert KeyLe(kb, ka) by {
      if j > 0 {
        assert KeyLe(key(b[0]), key(b[j]));
      }
    }
    assert KeyLe(ka, kb) by {
      if i > 0 {
        assert KeyLe(key(a[0]), key(a[i]));
      }
    }
    KeyLeTotal(ka, kb);
    assert a[0] == WithKey(a, key, ka)[0] == WithKey(b, key, ka)[0] == b[0];
  }

  /** Lists that agree under every key and share a head agree under every key after the head. */
  lemma SameTails<T>(a: seq<T>, b: seq<T>, key: T -> Key)
    requires a != [] && b != [] && a[0] == b[0]
    requires forall k :: WithKey(a, key, k) == WithKey(b, key, k)
    ensures forall k :: WithKey(a[1..], key, k) == WithKey(b[1..], key, k)
  {
    forall k ensures WithKey(a[1..], key, k) == WithKey(b[1..], key, k) {
      var pre := if key(a[0]) == k then [a[0]] else [];
      assert WithKey(a, key, k) == pre + WithKey(a[1..], key, k);
      assert WithKey(b, key, k) == pre + WithKey(b[1..], key, k);
      assert WithKey(a[1..], key, k) == (pre + WithKey(a[1..], key, k))[|pre|..];
      assert WithKey(b[1..], key, k) == (pre + WithKey(b[1..], key, k))[|pre|..];
    }
  }

  /** Two sorted sequences that agree on the members of every key are equal: a stable sort is unique. */
  lemma {:induction false} SortedUnique<T>(a: seq<T>, b: seq<T>, key: T -> Key)
    requires SortedBy(a, key) && SortedBy(b, key)
    requires forall k :: WithKey(a, key, k) == WithKey(b, key, k)
    ensures a == b
    decreases |a|
  {
    if a != [] {
      WithKeyHead(a, key);
    }
    if b != [] {
      WithKeyHead(b, key);
    }
    if a != [] && b != [] {
      SortedSameHead(a, b, key);
      SameTails(a, b, key);
      SortedTail(a, key);
      SortedTail(b, key);
      SortedUnique(a[1..], b[1..], key);
      assert a == [a[0]] + a[1..] && b == [b[0]] + b[1..];
    }
  }


  lemma SortedTail<T>(s: seq<T>, key: T -> Key)
    requires SortedBy(s, key) && s != []
    ensures SortedBy(s[1..], key)
  {
    forall i, j | 0 <= i < j < |s| - 1 ensures KeyLe(key(s[1..][i]), key(s[1..][j])) {
      assert s[1..][i] == s[i + 1] && s[1..][j] == s[j + 1];
    }
  }

  lemma WithKeyHead<T>(s: seq<T>, key: T -> Key)
    requires s != []
    ensures WithKey(s, key, key(s[0])) != [] && WithKey(s, key, key(s[0]))[0] == s[0]
  {
  }

  lemma {:induction false} WithKeyWitness<T>(s: seq<T>, key: T -> Key, k: Key) returns (j: nat)
    requires WithKey(s, key, k) != []
    ensures j < |s| && key(s[j]) == k
  {
    if key(s[0]) == k {
      j := 0;
    } else {
      var j' := WithKeyWitness(s[1..], key, k);
      j := j' + 1;
    }
  }

  /** `[f(x) for x in s]`. */
  function Map<T, U>(s: seq<T>, f: T -> U): (r: seq<U>)
    ensures |r| == |s| && forall i | 0 <= i < |s| :: r[i] == f(s[i])
  {
    seq(|s|, i requires 0 <= i < |s| => f(s[i]))
  }

  /** Sorting commutes with a map that keeps the keys. */
  lemma {:induction false} SortByMap<T, U>(s: seq<T>, f: T -> U, k1: T -> Key, k2: U -> Key)
    requires forall x :: k2(f(x)) == k1(x)
    ensures SortBy(Map(s, f), k2) == Map(SortBy(s, k1), f)
  {
    if s != [] {
      SortByMap(s[1..], f, k1, k2);
      assert Map(s, f)[1..] == Map(s[1..], f);
      InsertMap(s[0], SortBy(s[1..], k1), f, k1, k2);
    }
  }

  lemma {:induction false} InsertMap<T, U>(x: T, s: seq<T>, f: T -> U, k1: T -> Key, k2: U -> Key)
    requires forall x :: k2(f(x)) == k1(x)
    ensures Insert(f(x), Map(s, f), k2) == Map(Insert(x, s, k1), f)
  {
    if s != [] {
      assert Map(s, f)[1..] == Map(s[1..], f);
      if !KeyLe(k1(x), k1(s[0])) {
        InsertMap(x, s[1..], f, k1, k2);
      }
    }
  }

  /** No two members share a key. */
  predicate DistinctKeys<T>(s: seq<T>, key: T -> Key)
  {
    forall i, j | 0 <= i < j < |s| :: key(s[i]) != key(s[j])
  }

  lemma {:induction false} WithKeyMembers<T>(s: seq<T>, key: T -> Key, k: Key, x: T)
    ensures x in WithKey(s, key, k) <==> x in s && key(x) == k
  {
    if s != [] {
      WithKeyMembers(s[1..], key, k, x);
      assert s == [s[0]] + s[1..];
    }
  }

  lemma {:induction false} WithKeyDistinct<T>(s: seq<T>, key: T -> Key, k: Key)
    requires DistinctKeys(s, key)
    ensures |WithKey(s, key, k)| <= 1
  {
    if s != [] {
      assert DistinctKeys(s[1..], key) by {
        forall i, j | 0 <= i < j < |s| - 1 ensures key(s[1..][i]) != key(s[1..][j]) {
          assert s[1..][i] == s[i + 1] && s[1..][j] == s[j + 1];
        }
      }
      WithKeyDistinct(s[1..], key, k);
      var rest := WithKey(s[1..], key, k);
      if key(s[0]) == k && |rest| > 0 {
        WithKeyMembers(s[1..], key, k, rest[0]);
        assert false;
      }
    }
  }

  /** With distinct keys, the sorted order does not depend on the input order. */
  lemma SortByPermutation<T>(a: seq<T>, b: seq<T>, key: T -> Key)
    requires multiset(a) == multiset(b) && DistinctKeys(a, key) && DistinctKeys(b, key)
    ensures SortBy(a, key) == SortBy(b, key)
  {
    SortByProperties(a, key);
    SortByProperties(b, key);
    forall k ensures WithKey(SortBy(a, key), key, k) == WithKey(SortBy(b, key), key, k) {
      WithKeyPermutation(a, b, key, k);
    }
    SortedUnique(SortBy(a, key), SortBy(b, key), key);
  }

  lemma WithKeyPermutation<T>(a: seq<T>, b: seq<T>, key: T -> Key, k: Key)
    requires multiset(a) == multiset(b) && DistinctKeys(a, key) && DistinctKeys(b, key)
    ensures WithKey(a, key, k) == WithKey(b, key, k)
  {
    WithKeyDistinct(a, key, k);
    WithKeyDistinct(b, key, k);
    var wa, wb := WithKey(a, key, k), WithKey(b, key, k);
    if |wa| > 0 {
      WithKeyMembers(a, key, k, wa[0]);
      WithKeyMembers(b, key, k, wa[0]);
      assert wa[0] in multiset(a);
    }
    if |wb| > 0 {
      WithKeyMembers(a, key, k, wb[0]);
      WithKeyMembers(b, key, k, wb[0]);
      assert wb[0] in multiset(b);
    }
  }
}
