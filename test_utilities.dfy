/**
 * `ContextSet` (edxpipelines/tests/utilities.py): a set-like collection
 * that remembers, for each item, every context it was added from.
 *
 * The items are the keys of a map from item to the list of its contexts;
 * `add` appends, construction from pairs is a sequence of `add`s,
 * `iteritems` yields every (item, context) pair once per `add`, the four
 * comparisons look only at the item sets, and `&` builds the
 * intersection with prefixed contexts.
 */
module TestUtilities {
  import opened Wrappers

  /** The contexts recorded for `item` in `m`: its list, or none at all (the defaultdict's empty list). */
  function Lookup<T>(m: map<T, seq<string>>, item: T): seq<string>
  {
    if item in m then m[item] else []
  }

  /** `add`: the context goes at the end of the item's list. */
  function AddTo<T>(m: map<T, seq<string>>, item: T, context: string): (r: map<T, seq<string>>)
  {
    m[item := Lookup(m, item) + [context]]
  }

  /** The contexts after `add`ing every pair in order to an empty set. */
  function FromPairs<T>(pairs: seq<(T, string)>): map<T, seq<string>>
  {
    if |pairs| == 0 then map[]
    else
      var last := pairs[|pairs| - 1];
      AddTo(FromPairs(pairs[..|pairs| - 1]), last.0, last.1)
  }

  /** The contexts paired with `item` in a list of pairs, in order. */
  function ContextsOf<T(==)>(pairs: seq<(T, string)>, item: T): seq<string>
  {
    if |pairs| == 0 then []
    else
      var last := pairs[|pairs| - 1];
      ContextsOf(pairs[..|pairs| - 1], item) + (if last.0 == item then [last.1] else [])
  }

  /** Every recorded item has at least one context (items only arise through `add`). */
  ghost predicate NonEmpty<T>(m: map<T, seq<string>>)
  {
    forall x :: x in m ==> m[x] != []
  }

  /** `add` keeps every context, duplicates included, and touches no other item. */
  lemma AddToEffect<T>(m: map<T, seq<string>>, item: T, context: string)
    ensures var r := AddTo(m, item, context);
      && r.Keys == m.Keys + {item}
      && r[item] == Lookup(m, item) + [context]
      && |r[item]| == |Lookup(m, item)| + 1
      && (forall x :: x in m && x != item ==> r[x] == m[x])
      && (NonEmpty(m) ==> NonEmpty(r))
  {
  }

  /**
   * Construction from pairs records exactly the items that occur in the
   * pairs, each with its contexts in the order the pairs give them.
   */
  lemma {:induction false} FromPairsContexts<T>(pairs: seq<(T, string)>)
    ensures forall x :: x in FromPairs(pairs) <==> ContextsOf(pairs, x) != []
    ensures forall x :: Lookup(FromPairs(pairs), x) == ContextsOf(pairs, x)
    ensures NonEmpty(FromPairs(pairs))
  {
    if |pairs| > 0 {
      FromPairsContexts(pairs[..|pairs| - 1]);
    }
  }

  /** Pairs listing the same contexts per item (in any interleaving) build the same set. */
  lemma FromPairsDeterminedByContexts<T>(pairs: seq<(T, string)>, m: map<T, seq<string>>)
    requires NonEmpty(m)
    requires forall x :: ContextsOf(pairs, x) == Lookup(m, x)
    ensures FromPairs(pairs) == m
  {
    FromPairsContexts(pairs);
    var f := FromPairs(pairs);
    forall x | x in f ensures x in m && f[x] == m[x] {
      assert f[x] != [];
      assert Lookup(f, x) == ContextsOf(pairs, x) == Lookup(m, x);
    }
    forall x | x in m ensures x in f {
      assert m[x] != [];
      assert Lookup(f, x) == ContextsOf(pairs, x) == Lookup(m, x);
    }
    assert f.Keys == m.Keys;
  }

  lemma {:induction false} ContextsOfAppend<T>(a: seq<(T, string)>, b: seq<(T, string)>, item: T)
    ensures ContextsOf(a + b, item) == ContextsOf(a, item) + ContextsOf(b, item)
  {
    if |b| == 0 {
      assert a + b == a;
    } else {
      var n := |b| - 1;
      assert (a + b)[..|a + b| - 1] == a + b[..n];
      ContextsOfAppend(a, b[..n], item);
    }
  }

  /** One item paired with each of its contexts, in order. */
  function Pairs<T>(item: T, contexts: seq<string>): (r: seq<(T, string)>)
    ensures |r| == |contexts| && forall i :: 0 <= i < |r| ==> r[i] == (item, contexts[i])
  {
    seq(|contexts|, i requires 0 <= i < |contexts| => (item, contexts[i]))
  }

  lemma {:induction false} ContextsOfPairs<T>(item: T, contexts: seq<string>, x: T)
    ensures ContextsOf(Pairs(item, contexts), x) == if x == item then contexts else []
  {
    if |contexts| > 0 {
      var n := |contexts| - 1;
      assert Pairs(item, contexts)[..n] == Pairs(item, contexts[..n]);
      ContextsOfPairs(item, contexts[..n], x);
      assert contexts[..n] + [contexts[n]] == contexts;
    }
  }

  /** `"{} -> {}".format(name, context)` for each context. */
  function Prefixed(name: string, contexts: seq<string>): (r: seq<string>)
    ensures |r| == |contexts| && forall i :: 0 <= i < |r| ==> r[i] == name + " -> " + contexts[i]
  {
    seq(|contexts|, i requires 0 <= i < |contexts| => name + " -> " + contexts[i])
  }

  /** The contexts of `a & b`: shared items only, `a`'s contexts then `b`'s, each prefixed by its set's name. */
  function Meet<T>(aName: string, a: map<T, seq<string>>, bName: string, b: map<T, seq<string>>): (r: map<T, seq<string>>)
  {
    map x | x in a.Keys * b.Keys :: Prefixed(aName, a[x]) + Prefixed(bName, b[x])
  }

  /** The intersection keeps every context of both sides, so it is as non-empty as they are. */
  lemma MeetEffect<T>(aName: string, a: map<T, seq<string>>, bName: string, b: map<T, seq<string>>)
    ensures var r := Meet(aName, a, bName, b);
      && r.Keys == a.Keys * b.Keys
      && (forall x :: x in r ==> |r[x]| == |a[x]| + |b[x]|)
      && (NonEmpty(a) ==> NonEmpty(r))
  {
  }

  /** The pairs of one item and each of its contexts, in order, after `r`. */
  method AppendPairs<T>(r: seq<(T, string)>, item: T, cs: seq<string>) returns (r': seq<(T, string)>)
    ensures r' == r + Pairs(item, cs)
  {
    r' := r;
    var j := 0;
    while j < |cs|
      invariant 0 <= j <= |cs|
      invariant r' == r + Pairs(item, cs[..j])
    {
      assert Pairs(item, cs[..j + 1]) == Pairs(item, cs[..j]) + [(item, cs[j])];
      r' := r' + [(item, cs[j])];
      j := j + 1;
    }
    assert cs[..j] == cs;
  }

  /** Appending one more item's pairs adds exactly its contexts to what has been flattened so far. */
  lemma FlattenStep<T>(m: map<T, seq<string>>, done: set<T>, before: seq<(T, string)>, item: T, after: seq<(T, string)>)
    requires item in m && item !in done && after == before + Pairs(item, m[item])
    requires forall x {:trigger ContextsOf(before, x)} :: ContextsOf(before, x) == if x in done then Lookup(m, x) else []
    ensures forall x {:trigger ContextsOf(after, x)} :: ContextsOf(after, x) == if x in done + {item} then Lookup(m, x) else []
  {
    forall x ensures ContextsOf(after, x) == if x in done + {item} then Lookup(m, x) else [] {
      ContextsOfAppend(before, Pairs(item, m[item]), x);
      ContextsOfPairs(item, m[item], x);
    }
  }

  /**
   * Every (item, context) pair of `m`, item by item in an arbitrary order,
   * each item's contexts in their recorded order: the generator loops of
   * `iteritems` and `__and__`.
   */
  method Flatten<T(==,!new)>(m: map<T, seq<string>>) returns (r: seq<(T, string)>)
    ensures forall x :: ContextsOf(r, x) == Lookup(m, x)
  {
    r := [];
    var todo := m.Keys;
    ghost var done: set<T> := {};
    while todo != {}
      invariant todo <= m.Keys && done == m.Keys - todo
      invariant forall x {:trigger ContextsOf(r, x)} :: ContextsOf(r, x) == if x in done then Lookup(m, x) else []
      decreases todo
    {
      var item :| item in todo;
      var cs := m[item];
      ghost var before := r;
      r := AppendPairs(r, item, cs);
      FlattenStep(m, done, before, item, r);
      todo := todo - {item};
      done := done + {item};
    }
    assert done == m.Keys;
  }

  /** The comparisons `ContextSet` defines. */
  datatype Comparison = Lt | Le | Eq | Ne

  /** A set relation as Python defines it on sets. */
  predicate Relates<T>(op: Comparison, mine: set<T>, theirs: set<T>)
  {
    match op
    case Lt => mine < theirs
    case Le => mine <= theirs
    case Eq => mine == theirs
    case Ne => mine != theirs
  }

  /** The right-hand operand of a comparison. */
  datatype Operand<T(==,!new)> = Contexts(cs: ContextSet<T>) | PySet(s: set<T>) | Unrelated

  class ContextSet<T(==,!new)> {
    const name: string
    /** `_contexts`: each item's contexts, in the order they were added. */
    var contexts: map<T, seq<string>>

    ghost predicate Valid()
      reads this
    {
      NonEmpty(contexts)
    }

    /** `ContextSet(name, contexts)`: start empty, then `add` every pair in order. */
    constructor(name: string, pairs: seq<(T, string)>)
      ensures this.name == name && contexts == FromPairs(pairs)
      ensures Valid()
    {
      this.name := name;
      contexts := map[];
      new;
      var k := 0;
      while k < |pairs|
        invariant 0 <= k <= |pairs|
        invariant contexts == FromPairs(pairs[..k])
      {
        assert pairs[..k + 1][..k] == pairs[..k];
        Add(pairs[k].0, pairs[k].1);
        k := k + 1;
      }
      assert pairs[..k] == pairs;
      FromPairsContexts(pairs);
    }

    /** `add`: record `item` as having come from `context`. */
    method Add(item: T, context: string)
      modifies this
      ensures contexts == AddTo(old(contexts), item, context)
      ensures old(Valid()) ==> Valid()
    {
      var list := if item in contexts then contexts[item] else [];
      contexts := contexts[item := list + [context]];
    }

    /** The item set, `set(self._contexts)`. */
    function Items(): set<T>
      reads this
    {
      contexts.Keys
    }

    /**
     * `iteritems`: every (item, context) pair, each item's contexts in the
     * order they were added; items come in the dictionary's (arbitrary) order.
     */
    method Iteritems() returns (r: seq<(T, string)>)
      ensures forall x :: ContextsOf(r, x) == Lookup(contexts, x)
    {
      r := Flatten(contexts);
    }

    /**
     * `__lt__`, `__le__`, `__eq__`, `__ne__`: compare the item sets only,
     * against another `ContextSet` or a set; any other operand gives
     * `NotImplemented` (None).
     */
    function Compare(op: Comparison, other: Operand<T>): (r: Option<bool>)
      reads this, if other.Contexts? then {other.cs} else {}
      ensures r.None? <==> other.Unrelated?
      ensures other.PySet? ==> r == Some(Relates(op, contexts.Keys, other.s))
      ensures other.Contexts? ==> r == Some(Relates(op, contexts.Keys, other.cs.contexts.Keys))
    {
      match other
      case PySet(s) => Some(Relates(op, Items(), s))
      case Contexts(cs) => Some(Relates(op, Items(), cs.Items()))
      case Unrelated => None
    }

    /**
     * `__and__`: a fresh set named `"<a> & <b>"` holding the shared items;
     * the pairs are generated item by item (in arbitrary item order) and
     * then added.
     */
    method Intersect(other: ContextSet<T>) returns (r: ContextSet<T>)
      requires Valid() && other.Valid()
      ensures fresh(r) && r.Valid()
      ensures r.name == name + " & " + other.name
      ensures r.contexts == Meet(name, contexts, other.name, other.contexts)
    {
      var expected := Meet(name, contexts, other.name, other.contexts);
      var pairs := Flatten(expected);
      MeetEffect(name, contexts, other.name, other.contexts);
      FromPairsDeterminedByContexts(pairs, expected);
      r := new ContextSet(name + " & " + other.name, pairs);
    }
  }

  /** Comparing with an equal item set is never "less than", and "not equal" is the negation of "equal". */
  lemma ComparisonLaws<T>(mine: set<T>, theirs: set<T>)
    ensures Relates(Ne, mine, theirs) <==> !Relates(Eq, mine, theirs)
    ensures Relates(Lt, mine, theirs) <==> Relates(Le, mine, theirs) && !Relates(Eq, mine, theirs)
  {
  }
}
