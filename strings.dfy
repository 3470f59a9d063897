/**
 * Python's `sep.join(parts)` and `s.split(c)` on strings, with the facts
 * that relate them.
 */
module Strings {

  /** `sep.join(parts)`. */
  function Join(parts: seq<string>, sep: string): string
  {
    if |parts| == 0 then ""
    else if |parts| == 1 then parts[0]
    else parts[0] + sep + Join(parts[1..], sep)
  }

  /** `s.split(c)` for a one-character separator: the pieces between the occurrences of `c`. */
  function Split(s: string, c: char): (pieces: seq<string>)
    ensures |pieces| >= 1
    decreases |s|
  {
    if |s| == 0 then [""]
    else if s[0] == c then [""] + Split(s[1..], c)
    else var r := Split(s[1..], c); [[s[0]] + r[0]] + r[1..]
  }

  /** `[f + x for x in xs]`. */
  function Prefixed(prefix: string, xs: seq<string>): (r: seq<string>)
    ensures |r| == |xs| && forall i | 0 <= i < |xs| :: r[i] == prefix + xs[i]
  {
    seq(|xs|, i requires 0 <= i < |xs| => prefix + xs[i])
  }

  /** `sum(lists, [])`. */
  function Concat<T>(lists: seq<seq<T>>): seq<T>
  {
    if |lists| == 0 then [] else lists[0] + Concat(lists[1..])
  }

  /** The lists `f(x)` for each `x` of `s`, concatenated in order. */
  function FlatMap<T, U>(s: seq<T>, f: T -> seq<U>): seq<U>
  {
    if |s| == 0 then [] else FlatMap(s[..|s| - 1], f) + f(s[|s| - 1])
  }

  lemma {:induction false} FlatMapAppend<T, U>(a: seq<T>, b: seq<T>, f: T -> seq<U>)
    ensures FlatMap(a + b, f) == FlatMap(a, f) + FlatMap(b, f)
    decreases |b|
  {
    if |b| == 0 {
      assert a + b == a;
    } else {
      assert (a + b)[..|a + b| - 1] == a + b[..|b| - 1];
      FlatMapAppend(a, b[..|b| - 1], f);
    }
  }

  /** When every `f(x)` has `n` elements, the result has `n` per element of `s`. */
  lemma {:induction false} FlatMapLength<T, U>(s: seq<T>, f: T -> seq<U>, n: nat)
    requires forall x :: |f(x)| == n
    ensures |FlatMap(s, f)| == n * |s|
  {
    if |s| > 0 {
      FlatMapLength(s[..|s| - 1], f, n);
      assert n * |s| == n * (|s| - 1) + n;
    }
  }

  /** Extending the input by one element extends the result by that element's list. */
  lemma FlatMapSnoc<T, U>(s: seq<T>, f: T -> seq<U>, k: nat)
    requires k < |s|
    ensures FlatMap(s[..k + 1], f) == FlatMap(s[..k], f) + f(s[k])
  {
    assert s[..k + 1][..k] == s[..k];
  }

  lemma FlatMapSingle<T, U>(x: T, f: T -> seq<U>)
    ensures FlatMap([x], f) == f(x)
  {
    assert [x][..0] == [];
  }

  /** `f(s[i])` sits between the lists of the elements before it and after it. */
  lemma FlatMapBlock<T, U>(s: seq<T>, f: T -> seq<U>, i: nat)
    requires i < |s|
    ensures FlatMap(s, f) == FlatMap(s[..i], f) + f(s[i]) + FlatMap(s[i + 1..], f)
  {
    var pre, x, post := s[..i], s[i], s[i + 1..];
    assert s == (pre + [x]) + post;
    FlatMapAppend(pre + [x], post, f);
    FlatMapAppend(pre, [x], f);
    FlatMapSingle(x, f);
  }

  lemma {:induction false} ConcatAppend<T>(a: seq<seq<T>>, b: seq<seq<T>>)
    ensures Concat(a + b) == Concat(a) + Concat(b)
  {
    if |a| > 0 {
      assert (a + b)[1..] == a[1..] + b;
      ConcatAppend(a[1..], b);
      assert Concat(a + b) == a[0] + Concat(a[1..] + b);
    } else {
      assert a + b == b;
    }
  }

  /** No piece of a split holds the separator. */
  lemma {:induction false} SplitPiecesFree(s: string, c: char)
    ensures forall i | 0 <= i < |Split(s, c)| :: c !in Split(s, c)[i]
    decreases |s|
  {
    if |s| > 0 {
      SplitPiecesFree(s[1..], c);
    }
  }

  /** Joining the pieces with the separator gives back the string. */
  lemma {:induction false} JoinSplit(s: string, c: char)
    ensures Join(Split(s, c), [c]) == s
    decreases |s|
  {
    if |s| > 0 {
      var r := Split(s[1..], c);
      JoinSplit(s[1..], c);
      if s[0] == c {
        assert s == [c] + s[1..];
      } else {
        var p := Split(s, c);
        assert p[1..] == r[1..];
        if |r| > 1 {
          assert Join(r, [c]) == r[0] + [c] + Join(r[1..], [c]);
        }
        assert s == [s[0]] + s[1..];
      }
    }
  }

  /** A string without the separator splits to itself. */
  lemma {:induction false} SplitFree(s: string, c: char)
    requires c !in s
    ensures Split(s, c) == [s]
    decreases |s|
  {
    if |s| > 0 {
      SplitFree(s[1..], c);
      assert s == [s[0]] + s[1..];
    }
  }

  /** Splitting `a + c + b` splits `a` and `b` separately. */
  lemma {:induction false} SplitAround(a: string, c: char, b: string)
    ensures Split(a + [c] + b, c) == Split(a, c) + Split(b, c)
    decreases |a|
  {
    var s := a + [c] + b;
    if |a| == 0 {
      assert s[1..] == b;
    } else {
      assert s[0] == a[0] && s[1..] == a[1..] + [c] + b;
      SplitAround(a[1..], c, b);
      var p, q := Split(a[1..], c), Split(b, c);
      if a[0] != c {
        assert (p + q)[0] == p[0] && (p + q)[1..] == p[1..] + q;
      }
    }
  }

  /** Splitting a joined list splits each part: the round trip of `split` over `join`. */
  lemma {:induction false} SplitJoin(parts: seq<string>, c: char)
    requires |parts| >= 1
    ensures Split(Join(parts, [c]), c) == Concat(seq(|parts|, i requires 0 <= i < |parts| => Split(parts[i], c)))
  {
    var pieces := seq(|parts|, i requires 0 <= i < |parts| => Split(parts[i], c));
    if |parts| == 1 {
      assert Concat(pieces) == pieces[0] + Concat(pieces[1..]);
    } else {
      var rest := seq(|parts| - 1, i requires 0 <= i < |parts| - 1 => Split(parts[1..][i], c));
      SplitJoin(parts[1..], c);
      SplitAround(parts[0], c, Join(parts[1..], [c]));
      assert pieces[1..] == rest;
    }
  }

  /** Joining pieces that do not hold the separator and splitting again gives back the pieces. */
  lemma SplitJoinFree(parts: seq<string>, c: char)
    requires |parts| >= 1 && forall i | 0 <= i < |parts| :: c !in parts[i]
    ensures Split(Join(parts, [c]), c) == parts
  {
    SplitJoin(parts, c);
    var pieces := seq(|parts|, i requires 0 <= i < |parts| => Split(parts[i], c));
    forall i | 0 <= i < |parts| ensures pieces[i] == [parts[i]] {
      SplitFree(parts[i], c);
    }
    ConcatSingletons(parts, pieces);
  }

  lemma {:induction false} ConcatSingletons<T>(xs: seq<T>, lists: seq<seq<T>>)
    requires |lists| == |xs| && forall i | 0 <= i < |xs| :: lists[i] == [xs[i]]
    ensures Concat(lists) == xs
  {
    if |xs| > 0 {
      ConcatSingletons(xs[1..], lists[1..]);
    }
  }
}
