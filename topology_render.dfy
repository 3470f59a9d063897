/**
 * The text rendering of a simplified GoCD topology
 * (edxpipelines/topology.py: `indent`, `sort_key`, `Container.render`).
 *
 * A simplified configuration is a tree of containers, `Serial` (children
 * run in order) and `Concurrent` (children run together), with `Exec`
 * tasks at the leaves. Each container may carry the XML element it came
 * from. As with any lxml element, an element is true only when it has
 * children, so `if element:` tests for children, not for presence.
 */
module TopologyRender {
  import opened Wrappers
  import opened Sorting
  import opened Strings

  datatype Kind = Serial | Concurrent

  /** An XML element as the rendering sees it: its tag, its `name` attribute, and whether it has children. */
  datatype Elem = Elem(tag: string, name: Option<string>, hasChildren: bool)

  /**
   * A container, or an `exec` task: the `name` attribute of its element,
   * whether that element has children (`arg` or `runif`), and the line
   * `Exec.render` makes of it.
   */
  datatype Task =
    | Container(kind: Kind, element: Option<Elem>, tasks: seq<Task>)
    | Exec(name: Option<string>, hasChildren: bool, line: string)

  /** `sort_key` reaching an `Exec` whose element has no children asks it for `sorted`, which it lacks. */
  datatype RenderError = AttributeError

  /** The class name a container renders under. */
  function KindName(k: Kind): string
  {
    match k
    case Serial => "Serial"
    case Concurrent => "Concurrent"
  }

  /** The truth value of an optional lxml element. */
  predicate Truthy(e: Option<Elem>)
  {
    e.Some? && e.value.hasChildren
  }

  /** One block of `indent`: each of its lines prefixed with `ind`. */
  function IndentBlock(block: string, ind: string): string
  {
    Join(Prefixed(ind, Split(block, '\n')), "\n")
  }

  /**
   * `indent(blocks, indent)`: every line of every block prefixed with
   * `ind`, the blocks joined with newlines.
   */
  function Indent(blocks: seq<string>, ind: string): string
  {
    Join(seq(|blocks|, i requires 0 <= i < |blocks| => IndentBlock(blocks[i], ind)), "\n")
  }

  /** The lines of the indented text are exactly the lines of the blocks, each prefixed with `ind`. */
  lemma IndentLines(blocks: seq<string>, ind: string)
    requires |blocks| > 0 && '\n' !in ind
    ensures Split(Indent(blocks, ind), '\n') == Prefixed(ind, Concat(seq(|blocks|, i requires 0 <= i < |blocks| => Split(blocks[i], '\n'))))
  {
    var lines := seq(|blocks|, i requires 0 <= i < |blocks| => Split(blocks[i], '\n'));
    var indented := seq(|blocks|, i requires 0 <= i < |blocks| => IndentBlock(blocks[i], ind));
    SplitJoin(indented, '\n');
    var pieces := seq(|indented|, i requires 0 <= i < |indented| => Split(indented[i], '\n'));
    forall i | 0 <= i < |blocks| ensures pieces[i] == Prefixed(ind, lines[i]) {
      SplitPiecesFree(blocks[i], '\n');
      forall j | 0 <= j < |lines[i]| ensures '\n' !in Prefixed(ind, lines[i])[j] {
        assert Prefixed(ind, lines[i])[j] == ind + lines[i][j];
      }
      SplitJoinFree(Prefixed(ind, lines[i]), '\n');
    }
    ConcatPrefixed(ind, lines, pieces);
  }

  lemma {:induction false} ConcatPrefixed(ind: string, lines: seq<seq<string>>, pieces: seq<seq<string>>)
    requires |pieces| == |lines| && forall i | 0 <= i < |lines| :: pieces[i] == Prefixed(ind, lines[i])
    ensures Concat(pieces) == Prefixed(ind, Concat(lines))
  {
    if |lines| > 0 {
      ConcatPrefixed(ind, lines[1..], pieces[1..]);
    }
  }

  /**
   * `sort_key`: the element's `(tag, name)` when the element is true;
   * otherwise the key of the first child, or of the least child for a
   * `Concurrent`; None (the empty key) without children.
   */
  function SortKey(t: Task): Result<Key, RenderError>
    decreases t
  {
    match t
    case Exec(name, hasChildren, _) =>
      if hasChildren then Ok([Some("exec"), name]) else Err(AttributeError)
    case Container(kind, e, tasks) =>
      if Truthy(e) then Ok([Some(e.value.tag), e.value.name])
      else if |tasks| == 0 then Ok([])
      else if kind == Serial then SortKey(tasks[0])
      else
        if exists i | 0 <= i < |tasks| :: SortKey(tasks[i]).Err? then Err(AttributeError)
        else
          var values := seq(|tasks|, i requires 0 <= i < |tasks| => SortKey(tasks[i]).value);
          Ok(values[FirstLeast(values)])
  }

  /** The sort key as a total function, for sorting tasks none of whose keys fail. */
  function KeyOf(t: Task): Key
  {
    match SortKey(t)
    case Ok(k) => k
    case Err(_) => []
  }

  /** The position of the first least key. */
  function FirstLeast(keys: seq<Key>): (r: nat)
    requires |keys| > 0
    ensures r < |keys|
    ensures forall i | 0 <= i < |keys| :: KeyLe(keys[r], keys[i])
    ensures forall i | 0 <= i < r :: keys[i] != keys[r]
  {
    if |keys| == 1 then
      KeyLeRefl(keys[0]);
      0
    else
      var r := FirstLeast(keys[1..]);
      assert forall i | 1 <= i < |keys| :: keys[i] == keys[1..][i - 1];
      KeyLeTotal(keys[0], keys[r + 1]);
      if KeyLe(keys[0], keys[r + 1]) then
        KeyLeRefl(keys[0]);
        LeastBelow(keys, r + 1, 0);
        0
      else
        r + 1
  }

  lemma LeastBelow(keys: seq<Key>, m: nat, f: nat)
    requires m < |keys| && f < |keys| && KeyLe(keys[f], keys[m])
    requires forall i | 1 <= i < |keys| :: KeyLe(keys[m], keys[i])
    ensures forall i | 1 <= i < |keys| :: KeyLe(keys[f], keys[i])
  {
    forall i | 1 <= i < |keys| ensures KeyLe(keys[f], keys[i]) {
      KeyLeTrans(keys[f], keys[m], keys[i]);
    }
  }

  /**
   * The key of a childless-element `Concurrent` is the key of the first
   * task of its stable sort, as `sort_key` computes it.
   */
  lemma SortKeyIsHeadOfSorted(kind: Kind, e: Option<Elem>, tasks: seq<Task>)
    requires kind == Concurrent && !Truthy(e) && |tasks| > 0
    requires forall i | 0 <= i < |tasks| :: SortKey(tasks[i]).Ok?
    ensures SortKey(Container(kind, e, tasks)) == Ok(KeyOf(SortBy(tasks, KeyOf)[0]))
  {
    var values := seq(|tasks|, i requires 0 <= i < |tasks| => SortKey(tasks[i]).value);
    var m := FirstLeast(values);
    var s := SortBy(tasks, KeyOf);
    HeadIsLeast(tasks);
    SortByProperties(tasks, KeyOf);
    assert s[0] in multiset(tasks);
    var j :| 0 <= j < |tasks| && tasks[j] == s[0];
    assert KeyLe(values[m], values[j]);
    assert KeyLe(values[j], values[m]) by {
      assert KeyOf(tasks[m]) == values[m];
    }
    KeyLeTotal(values[m], values[j]);
  }

  /** The first task of the stable sort has a key no greater than any task's. */
  lemma HeadIsLeast(tasks: seq<Task>)
    requires |tasks| > 0
    ensures forall j | 0 <= j < |tasks| :: KeyLe(KeyOf(SortBy(tasks, KeyOf)[0]), KeyOf(tasks[j]))
  {
    var s := SortBy(tasks, KeyOf);
    SortByProperties(tasks, KeyOf);
    forall j | 0 <= j < |tasks| ensures KeyLe(KeyOf(s[0]), KeyOf(tasks[j])) {
      assert tasks[j] in multiset(s);
      var k :| 0 <= k < |s| && s[k] == tasks[j];
      if k > 0 {
        assert KeyLe(KeyOf(s[0]), KeyOf(s[k]));
      } else {
        KeyLeRefl(KeyOf(s[0]));
      }
    }
  }

  /**
   * The order in which a container renders its tasks: as given for a
   * `Serial`, sorted by `sort_key` for a `Concurrent`.
   */
  function Ordered(kind: Kind, tasks: seq<Task>): (r: Result<seq<Task>, RenderError>)
    ensures kind == Serial ==> r == Ok(tasks)
    ensures kind == Concurrent ==> (r.Err? <==> exists i | 0 <= i < |tasks| :: SortKey(tasks[i]).Err?)
    ensures r.Ok? ==> multiset(r.value) == multiset(tasks)
    ensures r.Ok? && kind == Concurrent ==> SortedBy(r.value, KeyOf)
    ensures r.Ok? ==> forall k :: WithKey(r.value, KeyOf, k) == WithKey(tasks, KeyOf, k)
    ensures r.Ok? ==> forall i | 0 <= i < |r.value| :: r.value[i] in tasks
  {
    if kind == Serial then Ok(tasks)
    else if exists i | 0 <= i < |tasks| :: SortKey(tasks[i]).Err? then Err(AttributeError)
    else
      SortByProperties(tasks, KeyOf);
      var s := SortBy(tasks, KeyOf);
      assert forall i | 0 <= i < |s| :: s[i] in multiset(tasks);
      Ok(s)
  }

  /** `if self.element and self.element.get('name')`. */
  predicate Named(e: Option<Elem>)
  {
    Truthy(e) && e.value.name.Some? && e.value.name.value != ""
  }

  /** The context a container's tasks render in. */
  function Context(e: Option<Elem>, ctx: seq<string>): seq<string>
  {
    if Named(e) then ctx + [e.value.name.value] else ctx
  }

  predicate AllOk(rs: seq<Result<seq<string>, RenderError>>)
  {
    forall i | 0 <= i < |rs| :: rs[i].Ok?
  }

  /** `[rendered for rendered in rendered_tasks if rendered]`. */
  function NonEmpty(ls: seq<seq<string>>): (r: seq<seq<string>>)
    ensures forall i | 0 <= i < |r| :: r[i] != []
  {
    if ls == [] then [] else (if ls[0] == [] then [] else [ls[0]]) + NonEmpty(ls[1..])
  }

  /**
   * `sum(rendered_tasks, [])` after dropping the empty renderings; the
   * first failing rendering fails the whole.
   */
  function Combine(rs: seq<Result<seq<string>, RenderError>>): (r: Result<seq<string>, RenderError>)
    ensures r.Ok? <==> AllOk(rs)
  {
    if !AllOk(rs) then Err(AttributeError)
    else Ok(Concat(NonEmpty(Values(rs))))
  }

  /** The lines of renderings none of which failed. */
  function Values(rs: seq<Result<seq<string>, RenderError>>): (r: seq<seq<string>>)
    requires AllOk(rs)
    ensures |r| == |rs| && forall i | 0 <= i < |rs| :: r[i] == rs[i].value
  {
    seq(|rs|, i requires 0 <= i < |rs| => rs[i].value)
  }

  lemma AllOkAppend(rx: seq<Result<seq<string>, RenderError>>, ry: seq<Result<seq<string>, RenderError>>)
    ensures AllOk(rx + ry) <==> AllOk(rx) && AllOk(ry)
  {
    var rf := rx + ry;
    if AllOk(rf) {
      forall i | 0 <= i < |rx| ensures rx[i].Ok? {
        assert rf[i] == rx[i];
      }
      forall i | 0 <= i < |ry| ensures ry[i].Ok? {
        assert rf[|rx| + i] == ry[i];
      }
    }
  }

  /**
   * How a container presents its tasks' lines: between `start`/`end`
   * lines (same mode, named), bare (same mode, unnamed), or under a header
   * of its class name, indented by four spaces (different mode).
   */
  function Frame(kind: Kind, e: Option<Elem>, mode: Option<Kind>, ctx: seq<string>, body: seq<string>): seq<string>
  {
    var title := Join(ctx, " :: ");
    if mode == Some(kind) then
      if Named(e) then ["start " + title] + body + ["end " + title] else body
    else
      [if Named(e) then KindName(kind) + "  # " + title else KindName(kind)] + Prefixed("    ", body)
  }

  /**
   * `Container.render(current_mode, context)`: a container whose only task
   * is a container renders as that task in the extended context; otherwise
   * its tasks, in `Ordered` order, render in its own mode and it frames
   * their lines.
   */
  function Render(t: Task, mode: Option<Kind>, ctx: seq<string>): Result<seq<string>, RenderError>
    decreases t
  {
    match t
    case Exec(_, _, line) => Ok([line])
    case Container(kind, e, tasks) =>
      var ctx' := Context(e, ctx);
      if |tasks| == 1 && tasks[0].Container? then Render(tasks[0], mode, ctx')
      else
        var ordered :- Ordered(kind, tasks);
        var body :- Combine(seq(|ordered|, i requires 0 <= i < |ordered| => Render(ordered[i], Some(kind), ctx')));
        Ok(Frame(kind, e, mode, ctx', body))
  }

  /** Dropping the empty renderings does not change the concatenated lines. */
  lemma {:induction false} NonEmptyConcat(ls: seq<seq<string>>)
    ensures Concat(NonEmpty(ls)) == Concat(ls)
  {
    if ls != [] {
      NonEmptyConcat(ls[1..]);
      ConcatAppend(if ls[0] == [] then [] else [ls[0]], NonEmpty(ls[1..]));
    }
  }

  /**
   * A `Concurrent` renders the same whatever the order of its tasks, as
   * long as no two of them share a sort key.
   */
  lemma ConcurrentOrderIndependent(e: Option<Elem>, a: seq<Task>, b: seq<Task>, mode: Option<Kind>, ctx: seq<string>)
    requires multiset(a) == multiset(b) && DistinctKeys(a, KeyOf) && DistinctKeys(b, KeyOf)
    ensures Render(Container(Concurrent, e, a), mode, ctx) == Render(Container(Concurrent, e, b), mode, ctx)
  {
    assert |a| == |multiset(a)| == |b|;
    if |a| == 1 {
      assert b[0] in multiset(a);
      assert a == b;
    } else {
      OrderedPermutation(a, b);
    }
  }

  /** Tasks that are a permutation of each other with distinct keys sort to the same order. */
  lemma OrderedPermutation(a: seq<Task>, b: seq<Task>)
    requires multiset(a) == multiset(b) && DistinctKeys(a, KeyOf) && DistinctKeys(b, KeyOf)
    ensures Ordered(Concurrent, a) == Ordered(Concurrent, b)
  {
    SameKeyErrors(a, b);
    if Ordered(Concurrent, a).Ok? {
      SortByPermutation(a, b, KeyOf);
    }
  }

  lemma SameKeyErrors(a: seq<Task>, b: seq<Task>)
    requires multiset(a) == multiset(b)
    ensures (exists i | 0 <= i < |a| :: SortKey(a[i]).Err?) <==> (exists i | 0 <= i < |b| :: SortKey(b[i]).Err?)
  {
    forall i | 0 <= i < |a| && SortKey(a[i]).Err? ensures exists j | 0 <= j < |b| :: SortKey(b[j]).Err? {
      assert a[i] in multiset(b);
      var j :| 0 <= j < |b| && b[j] == a[i];
    }
    forall i | 0 <= i < |b| && SortKey(b[i]).Err? ensures exists j | 0 <= j < |a| :: SortKey(a[j]).Err? {
      assert b[i] in multiset(a);
      var j :| 0 <= j < |a| && a[j] == b[i];
    }
  }


  /**
   * A `Serial` nested first in a `Serial` is flattened into it: neither
   * carries a name, so the inner one renders its lines without `start` or
   * `end` lines, inline.
   */
  lemma SerialFlattens(e: Option<Elem>, xs: seq<Task>, ys: seq<Task>, mode: Option<Kind>, ctx: seq<string>)
    requires |xs| >= 1 && |ys| >= 1 && !(|xs| == 1 && xs[0].Container?)
    ensures Render(Container(Serial, e, [Container(Serial, None, xs)] + ys), mode, ctx)
         == Render(Container(Serial, e, xs + ys), mode, ctx)
  {
    var c := Context(e, ctx);
    var inner := Container(Serial, None, xs);
    RenderSerial(None, xs, Some(Serial), c);
    assert Context(None, c) == c;
    assert Renders([inner] + ys, Serial, c) == [Combine(Renders(xs, Serial, c))] + Renders(ys, Serial, c);
    assert Renders(xs + ys, Serial, c) == Renders(xs, Serial, c) + Renders(ys, Serial, c);
    CombineFlattens(Renders(xs, Serial, c), Renders(ys, Serial, c));
    RenderSerial(e, [inner] + ys, mode, ctx);
    RenderSerial(e, xs + ys, mode, ctx);
  }

  /** The renderings of `ts` in the mode of `kind`. */
  function Renders(ts: seq<Task>, kind: Kind, ctx: seq<string>): (rs: seq<Result<seq<string>, RenderError>>)
    ensures |rs| == |ts| && forall i | 0 <= i < |ts| :: rs[i] == Render(ts[i], Some(kind), ctx)
  {
    seq(|ts|, i requires 0 <= i < |ts| => Render(ts[i], Some(kind), ctx))
  }

  /** A `Serial` that does not collapse frames the combined renderings of its tasks, in their order. */
  lemma RenderSerial(e: Option<Elem>, tasks: seq<Task>, mode: Option<Kind>, ctx: seq<string>)
    requires !(|tasks| == 1 && tasks[0].Container?)
    ensures Render(Container(Serial, e, tasks), mode, ctx)
         == (var b := Combine(Renders(tasks, Serial, Context(e, ctx)));
             if b.Err? then Err(AttributeError) else Ok(Frame(Serial, e, mode, Context(e, ctx), b.value)))
  {
    var c := Context(e, ctx);
    assert Ordered(Serial, tasks) == Ok(tasks);
    assert seq(|tasks|, i requires 0 <= i < |tasks| => Render(tasks[i], Some(Serial), c)) == Renders(tasks, Serial, c);
  }

  /** Combining a combined prefix with more renderings is combining them all. */
  lemma CombineFlattens(rx: seq<Result<seq<string>, RenderError>>, ry: seq<Result<seq<string>, RenderError>>)
    ensures Combine([Combine(rx)] + ry) == Combine(rx + ry)
  {
    var ro, rf := [Combine(rx)] + ry, rx + ry;
    AllOkAppend(rx, ry);
    AllOkAppend([Combine(rx)], ry);
    if AllOk(rf) {
      CombineFlattensOk(rx, ry);
    }
  }

  lemma CombineFlattensOk(rx: seq<Result<seq<string>, RenderError>>, ry: seq<Result<seq<string>, RenderError>>)
    requires AllOk(rx) && AllOk(ry) && AllOk(rx + ry) && AllOk([Combine(rx)] + ry)
    ensures Combine([Combine(rx)] + ry) == Combine(rx + ry)
  {
    var vx, vy := Values(rx), Values(ry);
    var vo, vf := Values([Combine(rx)] + ry), Values(rx + ry);
    NonEmptyConcat(vx);
    assert vo == [Concat(vx)] + vy;
    assert vf == vx + vy;
    NonEmptyConcat(vo);
    NonEmptyConcat(vf);
    assert vo[1..] == vy;
    ConcatAppend(vx, vy);
  }

}
