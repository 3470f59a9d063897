/**
 * The dependency topology of GoCD pipelines (edxpipelines/topology.py,
 * `pipelines`).
 *
 * The configuration is abstracted to the elements with tag `pipeline`: each
 * has an optional `name` and the names of the pipelines its pipeline
 * materials wait for (its triggers). Selected pipelines are split into
 * groups, the connected components of the trigger edges taken in either
 * direction; each group is then split into phases: a phase holds the
 * remaining members none of whose triggers remain, so every pipeline is
 * placed one phase after the last of its triggers.
 */
module Topology {
  import opened Wrappers

  /** An element with tag `pipeline`: a pipeline definition (named) or a pipeline material (no `name`). */
  datatype PipelineNode = PipelineNode(name: Option<string>, triggers: seq<string>)

  datatype TopologyError = KeyError

  /** Selected pipelines, by name, with the trigger names of their materials. */
  type Selection = map<string, seq<string>>

  /** The trigger graph: each selected pipeline and the set of pipelines it waits for. */
  type Graph = map<string, set<string>>

  predicate Selected(name: Option<string>, filter: set<string>)
  {
    filter == {} || (name.Some? && name.value in filter)
  }

  /**
   * The selection exactly as written: every element with tag `pipeline`
   * whose name passes the filter, keyed by its name, a later element
   * replacing an earlier one of the same name. Pipeline materials also have
   * tag `pipeline`; they have no name, so with an empty filter they are
   * selected under the key None.
   */
  function SelectAsWritten(nodes: seq<PipelineNode>, filter: set<string>): map<Option<string>, seq<string>>
  {
    if |nodes| == 0 then map[]
    else
      var prev := SelectAsWritten(nodes[..|nodes| - 1], filter);
      var n := nodes[|nodes| - 1];
      if Selected(n.name, filter) then prev[n.name := n.triggers] else prev
  }

  /** The pipeline definitions only: what the selection is evidently meant to hold. */
  function Select(nodes: seq<PipelineNode>, filter: set<string>): Selection
  {
    if |nodes| == 0 then map[]
    else
      var prev := Select(nodes[..|nodes| - 1], filter);
      var n := nodes[|nodes| - 1];
      if n.name.Some? && Selected(n.name, filter) then prev[n.name.value := n.triggers] else prev
  }

  /**
   * A pipeline is selected exactly when some definition carries its name and
   * the filter is empty or names it; the last definition of that name wins.
   */
  lemma {:induction false} SelectContents(nodes: seq<PipelineNode>, filter: set<string>, k: string)
    ensures k in Select(nodes, filter) <==>
      (filter == {} || k in filter) && exists i :: 0 <= i < |nodes| && nodes[i].name == Some(k)
    ensures forall i | 0 <= i < |nodes| && nodes[i].name == Some(k) && (filter == {} || k in filter) ::
      (forall j | i < j < |nodes| :: nodes[j].name != Some(k)) ==> Select(nodes, filter)[k] == nodes[i].triggers
  {
    if |nodes| > 0 {
      var init := nodes[..|nodes| - 1];
      SelectContents(init, filter, k);
      assert forall i | 0 <= i < |init| :: init[i] == nodes[i];
      if k in Select(nodes, filter) && nodes[|nodes| - 1].name != Some(k) {
        var i :| 0 <= i < |init| && init[i].name == Some(k);
        assert nodes[i].name == Some(k);
      }
    }
  }

  /** With an empty filter, a pipeline material (an unnamed `pipeline` element) is selected as written. */
  lemma MaterialSelectedAsPipeline()
    ensures var nodes := [PipelineNode(Some("a"), []), PipelineNode(Some("b"), ["a"]), PipelineNode(None, [])];
      None in SelectAsWritten(nodes, {}) && None !in (set k | k in Select(nodes, {}) :: Some(k))
  {
    var nodes := [PipelineNode(Some("a"), []), PipelineNode(Some("b"), ["a"]), PipelineNode(None, [])];
    assert nodes[..2][..1] == nodes[..1] == [nodes[0]];
    assert nodes[..1][..0] == [];
    assert Select(nodes[..1], {}) == map["a" := []];
    assert Select(nodes[..2], {}) == map["a" := [], "b" := ["a"]];
    assert Select(nodes, {}) == map["a" := [], "b" := ["a"]];
  }

  /** Every key of the corrected selection is the name of a definition, as written or not. */
  lemma {:induction false} SelectIsNamedPartOfAsWritten(nodes: seq<PipelineNode>, filter: set<string>)
    ensures forall k | k in Select(nodes, filter) :: (Some(k) in SelectAsWritten(nodes, filter) &&
      SelectAsWritten(nodes, filter)[Some(k)] == Select(nodes, filter)[k])
    ensures forall k | Some(k) in SelectAsWritten(nodes, filter) :: k in Select(nodes, filter)
  {
    if |nodes| > 0 {
      SelectIsNamedPartOfAsWritten(nodes[..|nodes| - 1], filter);
    }
  }

  /** Every trigger names a selected pipeline. */
  predicate TriggersSelected(sel: Selection)
  {
    forall p, i | p in sel && 0 <= i < |sel[p]| :: sel[p][i] in sel
  }

  function Elems(s: seq<string>): set<string>
  {
    set i | 0 <= i < |s| :: s[i]
  }

  /** The trigger graph of a selection, or `KeyError` when a trigger is not selected. */
  function GraphOf(sel: Selection): Result<Graph, TopologyError>
  {
    if TriggersSelected(sel) then Ok(map p | p in sel :: Elems(sel[p])) else Err(KeyError)
  }

  /** Every trigger in the graph is itself a node. */
  predicate Closed(g: Graph)
  {
    forall p, t | p in g && t in g[p] :: t in g
  }

  /** `only_after`: the pipelines with at least one trigger, and their triggers. */
  function OnlyAfter(g: Graph): map<string, set<string>>
  {
    map p | p in g && g[p] != {} :: g[p]
  }

  /**
   * The loops building `only_after`: for each selected pipeline, look up each
   * trigger among the selected pipelines, raising `KeyError` when it is not
   * there.
   */
  method BuildOnlyAfter(sel: Selection) returns (r: Result<map<string, set<string>>, TopologyError>)
    ensures r.Err? <==> GraphOf(sel).Err?
    ensures r.Ok? ==> r.value == OnlyAfter(GraphOf(sel).value)
  {
    var onlyAfter: map<string, set<string>> := map[];
    var todo := sel.Keys;
    while todo != {}
      invariant todo <= sel.Keys
      invariant forall p, i | p in sel.Keys - todo && 0 <= i < |sel[p]| :: sel[p][i] in sel
      invariant onlyAfter == OnlyAfterOf(sel, sel.Keys - todo)
    {
      var p :| p in todo;
      var added := AddTriggers(sel, p, onlyAfter);
      if added.Err? {
        return Err(KeyError);
      }
      OnlyAfterOfAdd(sel, sel.Keys - todo, p);
      onlyAfter := added.value;
      todo := todo - {p};
    }
    assert sel.Keys - todo == sel.Keys;
    return Ok(onlyAfter);
  }

  /** The loop over one pipeline's pipeline materials, adding each trigger to its `only_after` entry. */
  method AddTriggers(sel: Selection, p: string, before: map<string, set<string>>)
    returns (r: Result<map<string, set<string>>, TopologyError>)
    requires p in sel && p !in before
    ensures r.Err? <==> exists i | 0 <= i < |sel[p]| :: sel[p][i] !in sel
    ensures r.Ok? ==> r.value == if |sel[p]| == 0 then before else before[p := Elems(sel[p])]
  {
    var onlyAfter := before;
    var i := 0;
    while i < |sel[p]|
      invariant 0 <= i <= |sel[p]|
      invariant forall j | 0 <= j < i :: sel[p][j] in sel
      invariant onlyAfter == if i == 0 then before else before[p := Elems(sel[p][..i])]
    {
      var t := sel[p][i];
      if t !in sel {
        return Err(KeyError);
      }
      var known := if p in onlyAfter then onlyAfter[p] else {};
      assert known == Elems(sel[p][..i]);
      onlyAfter := onlyAfter[p := known + {t}];
      assert Elems(sel[p][..i + 1]) == Elems(sel[p][..i]) + {t} by {
        assert sel[p][..i + 1] == sel[p][..i] + [t];
      }
      i := i + 1;
    }
    assert sel[p][..i] == sel[p];
    return Ok(onlyAfter);
  }


  /** `only_after` restricted to the pipelines of `done`. */
  function OnlyAfterOf(sel: Selection, done: set<string>): map<string, set<string>>
    requires done <= sel.Keys
  {
    map q | q in done && Elems(sel[q]) != {} :: Elems(sel[q])
  }

  lemma OnlyAfterOfAdd(sel: Selection, done: set<string>, p: string)
    requires done <= sel.Keys && p in sel && p !in done
    ensures OnlyAfterOf(sel, done + {p}) ==
      if |sel[p]| == 0 then OnlyAfterOf(sel, done) else OnlyAfterOf(sel, done)[p := Elems(sel[p])]
  {
    if |sel[p]| == 0 {
      assert Elems(sel[p]) == {};
    } else {
      assert sel[p][0] in Elems(sel[p]);
    }
  }

  // ---------------------------------------------------------------- grouping

  /** The undirected material edges of the graph. */
  ghost function Edges(g: Graph): set<(string, string)>
  {
    set p, t | p in g && t in g[p] :: (p, t)
  }

  /** `S` contains both ends of every edge of `E` or neither. */
  ghost predicate EdgeClosed(E: set<(string, string)>, S: set<string>)
  {
    forall e | e in E :: e.0 in S <==> e.1 in S
  }

  /** `q` lies in every edge-closed set that holds `p`. */
  ghost predicate Linked(E: set<(string, string)>, p: string, q: string)
  {
    forall S :: EdgeClosed(E, S) && p in S ==> q in S
  }

  ghost predicate Adjacent(E: set<(string, string)>, a: string, b: string)
  {
    (a, b) in E || (b, a) in E
  }

  /** A chain of material edges, each taken in either direction. */
  ghost predicate IsChain(E: set<(string, string)>, s: seq<string>)
  {
    |s| >= 1 && forall i | 0 <= i < |s| - 1 :: Adjacent(E, s[i], s[i + 1])
  }

  ghost predicate Connected(E: set<(string, string)>, p: string, q: string)
  {
    exists s :: IsChain(E, s) && s[0] == p && s[|s| - 1] == q
  }

  /** Along a chain, every edge-closed set holding the start holds every later member. */
  lemma {:induction false} ChainLinked(E: set<(string, string)>, s: seq<string>, S: set<string>)
    requires IsChain(E, s) && EdgeClosed(E, S) && s[0] in S
    ensures s[|s| - 1] in S
    decreases |s|
  {
    if |s| > 1 {
      assert Adjacent(E, s[0], s[1]);
      ChainLinked(E, s[1..], S);
    }
  }

  /** Being linked is being connected by a chain, for nodes of a closed graph. */
  lemma LinkedIffConnected(g: Graph, p: string, q: string)
    requires Closed(g) && p in g
    ensures Linked(Edges(g), p, q) <==> Connected(Edges(g), p, q)
  {
    var E := Edges(g);
    if Connected(E, p, q) {
      var s :| IsChain(E, s) && s[0] == p && s[|s| - 1] == q;
      forall S | EdgeClosed(E, S) && p in S ensures q in S {
        ChainLinked(E, s, S);
      }
    }
    if Linked(E, p, q) {
      var R := set x | x in g && Connected(E, p, x);
      assert IsChain(E, [p]);
      assert p in R;
      forall e | e in E ensures e.0 in R <==> e.1 in R {
        var (a, b) := e;
        assert a in g && b in g;
        if a in R {
          var s :| IsChain(E, s) && s[0] == p && s[|s| - 1] == a;
          assert IsChain(E, s + [b]);
        }
        if b in R {
          var s :| IsChain(E, s) && s[0] == p && s[|s| - 1] == b;
          assert IsChain(E, s + [a]);
        }
      }
      assert q in R;
    }
  }

  /** `groupOf` maps every node to its block, and the blocks partition the nodes. */
  ghost predicate Partition(nodes: set<string>, groupOf: map<string, set<string>>)
  {
    groupOf.Keys == nodes &&
    (forall x | x in groupOf :: x in groupOf[x] && groupOf[x] <= nodes) &&
    (forall x, y | x in groupOf && y in groupOf[x] :: groupOf[y] == groupOf[x])
  }

  /** Merging the blocks of `p` and `t`, as `pipeline_set.update(trigger_set)` followed by repointing the members of `trigger_set`. */
  function MergeBlocks(groupOf: map<string, set<string>>, p: string, t: string): map<string, set<string>>
    requires p in groupOf && t in groupOf
  {
    var merged := groupOf[p] + groupOf[t];
    map x | x in groupOf :: if x in merged then merged else groupOf[x]
  }

  /**
   * The grouping loop. Afterwards two selected pipelines share a group
   * exactly when a chain of material edges, taken in either direction,
   * connects them.
   */
  method GroupPipelines(g: Graph) returns (groupOf: map<string, set<string>>)
    requires Closed(g)
    ensures Partition(g.Keys, groupOf)
    ensures forall p, q | p in g && q in g :: q in groupOf[p] <==> Connected(Edges(g), p, q)
  {
    groupOf := map p | p in g :: {p};
    var onlyAfter := OnlyAfter(g);
    var todo := onlyAfter.Keys;
    ghost var done: set<(string, string)> := {};
    InitialGroups(g);
    while todo != {}
      invariant todo <= onlyAfter.Keys
      invariant GroupInv(g, groupOf, done)
      invariant forall p, t | p in g && p !in todo && t in g[p] :: (p, t) in done
    {
      var p :| p in todo;
      groupOf, done := MergeTriggers(g, groupOf, done, p, onlyAfter[p]);
      todo := todo - {p};
    }
    GroupsAreComponents(g, groupOf, done);
  }

  /** The inner loop: merge the group of `p` with the group of each of its triggers. */
  method MergeTriggers(g: Graph, groupOf: map<string, set<string>>, ghost done: set<(string, string)>,
                       p: string, triggers: set<string>)
    returns (groupOf': map<string, set<string>>, ghost done': set<(string, string)>)
    requires p in g && triggers == g[p]
    requires GroupInv(g, groupOf, done)
    ensures GroupInv(g, groupOf', done')
    ensures done' == done + Pairs(p, triggers)
  {
    groupOf', done' := groupOf, done;
    var todo := triggers;
    PairsOf(p, triggers, triggers);
    while todo != {}
      invariant todo <= triggers
      invariant GroupInv(g, groupOf', done')
      invariant done' == done + Pairs(p, triggers - todo)
    {
      var t :| t in todo;
      groupOf', done' := MergeStep(g, groupOf', done', p, t);
      PairsOf(p, triggers, todo);
      todo := todo - {t};
    }
    PairsOf(p, triggers, {});
  }

  ghost function Pairs(p: string, ts: set<string>): set<(string, string)>
  {
    set t | t in ts :: (p, t)
  }

  /** How `Pairs` grows as the loop of `MergeTriggers` takes one trigger off `todo`. */
  lemma PairsOf(p: string, triggers: set<string>, todo: set<string>)
    ensures Pairs(p, triggers - triggers) == {}
    ensures Pairs(p, triggers - {}) == Pairs(p, triggers)
    ensures forall t | t in todo :: Pairs(p, triggers - (todo - {t})) == Pairs(p, triggers - todo) + (if t in triggers then {(p, t)} else {})
  {
    forall t | t in todo
      ensures Pairs(p, triggers - (todo - {t})) == Pairs(p, triggers - todo) + (if t in triggers then {(p, t)} else {})
    {
      var A := Pairs(p, triggers - (todo - {t}));
      var B := Pairs(p, triggers - todo) + (if t in triggers then {(p, t)} else {});
      forall e | e in A ensures e in B { }
      forall e | e in B ensures e in A { }
    }
  }

  /** The invariant of the grouping loops, over the edges `done` handled so far. */
  ghost predicate GroupInv(g: Graph, groupOf: map<string, set<string>>, done: set<(string, string)>)
  {
    Closed(g) && Partition(g.Keys, groupOf) && done <= Edges(g) &&
    (forall e | e in done :: groupOf[e.0] == groupOf[e.1]) &&
    (forall x, y | x in groupOf && y in groupOf[x] :: Linked(done, x, y))
  }

  lemma InitialGroups(g: Graph)
    requires Closed(g)
    ensures GroupInv(g, map p | p in g :: {p}, {})
  {
    var groupOf := map p | p in g :: {p};
    forall x, y | x in groupOf && y in groupOf[x] ensures Linked({}, x, y) {
      assert y == x;
    }
  }

  /** One step of the inner loop, on the abstract state: merge the blocks of `p` and `t` unless they are already one. */
  method MergeStep(g: Graph, groupOf: map<string, set<string>>, ghost done: set<(string, string)>, p: string, t: string)
    returns (groupOf': map<string, set<string>>, ghost done': set<(string, string)>)
    requires p in g && t in g[p]
    requires GroupInv(g, groupOf, done)
    ensures done' == done + {(p, t)}
    ensures GroupInv(g, groupOf', done')
  {
    done' := done + {(p, t)};
    if groupOf[p] == groupOf[t] {
      SameGroupKeepsInv(g, groupOf, done, p, t);
      groupOf' := groupOf;
    } else {
      MergeKeepsInv(g, groupOf, done, p, t);
      groupOf' := MergeBlocks(groupOf, p, t);
    }
  }

  /** A trigger edge inside one group keeps the grouping invariant as it is. */
  lemma SameGroupKeepsInv(g: Graph, groupOf: map<string, set<string>>, done: set<(string, string)>, p: string, t: string)
    requires p in g && t in g[p] && GroupInv(g, groupOf, done) && groupOf[p] == groupOf[t]
    ensures GroupInv(g, groupOf, done + {(p, t)})
  {
    LinkedGrows(done, done + {(p, t)});
  }

  /** A trigger edge across two groups keeps the grouping invariant once the groups merge. */
  lemma MergeKeepsInv(g: Graph, groupOf: map<string, set<string>>, done: set<(string, string)>, p: string, t: string)
    requires p in g && t in g[p] && GroupInv(g, groupOf, done)
    ensures GroupInv(g, MergeBlocks(groupOf, p, t), done + {(p, t)})
  {
    var done' := done + {(p, t)};
    LinkedGrows(done, done');
    MergeKeepsPartition(g.Keys, groupOf, p, t);
    MergeLinked(done, groupOf, p, t);
    var m := MergeBlocks(groupOf, p, t);
    forall e | e in done' ensures m[e.0] == m[e.1] {
      if e != (p, t) {
        assert groupOf[e.0] == groupOf[e.1];
        assert e.0 in groupOf[e.0] && e.1 in groupOf[e.1];
      }
    }
  }


  /** Blocks that contain every edge and are linked inside are exactly the connected components. */
  lemma GroupsAreComponents(g: Graph, groupOf: map<string, set<string>>, done: set<(string, string)>)
    requires GroupInv(g, groupOf, done)
    requires forall p, t | p in g && t in g[p] :: (p, t) in done
    ensures forall p, q | p in g && q in g :: q in groupOf[p] <==> Connected(Edges(g), p, q)
  {
    var E := Edges(g);
    assert done == E;
    forall p, q | p in g && q in g ensures q in groupOf[p] <==> Connected(E, p, q) {
      LinkedIffConnected(g, p, q);
      if Linked(E, p, q) {
        assert EdgeClosed(E, groupOf[p]) by {
          forall e | e in E ensures e.0 in groupOf[p] <==> e.1 in groupOf[p] {
            assert groupOf[e.0] == groupOf[e.1];
          }
        }
      }
    }
  }

  lemma LinkedGrows(E: set<(string, string)>, E': set<(string, string)>)
    requires E <= E'
    ensures forall x, y :: Linked(E, x, y) ==> Linked(E', x, y)
  {
    forall x, y | Linked(E, x, y) ensures Linked(E', x, y) {
      forall S | EdgeClosed(E', S) && x in S ensures y in S {
        assert EdgeClosed(E, S);
      }
    }
  }

  lemma MergeKeepsPartition(nodes: set<string>, groupOf: map<string, set<string>>, p: string, t: string)
    requires Partition(nodes, groupOf) && p in groupOf && t in groupOf
    ensures Partition(nodes, MergeBlocks(groupOf, p, t))
  {
    var merged := groupOf[p] + groupOf[t];
    var m := MergeBlocks(groupOf, p, t);
    forall x, y | x in m && y in m[x] ensures m[y] == m[x] {
      if x in merged {
        assert y in merged;
      } else {
        assert groupOf[y] == groupOf[x] && x in groupOf[x];
        assert y !in groupOf[p] by {
          assert x !in groupOf[p];
        }
        assert y !in groupOf[t] by {
          assert x !in groupOf[t];
        }
      }
    }
  }

  /** Adding the edge (p, t) links every member of p's block to every member of t's block. */
  lemma MergeLinked(done: set<(string, string)>, groupOf: map<string, set<string>>, p: string, t: string)
    requires p in groupOf && t in groupOf
    requires Partition(groupOf.Keys, groupOf)
    requires forall x, y | x in groupOf && y in groupOf[x] :: Linked(done + {(p, t)}, x, y)
    ensures var m := MergeBlocks(groupOf, p, t);
      forall x, y | x in m && y in m[x] :: Linked(done + {(p, t)}, x, y)
  {
    var E' := done + {(p, t)};
    var merged := groupOf[p] + groupOf[t];
    var m := MergeBlocks(groupOf, p, t);
    forall x, y | x in m && y in m[x] ensures Linked(E', x, y) {
      if x in merged && y in merged {
        forall S | EdgeClosed(E', S) && x in S ensures y in S {
          assert (p, t) in E';
          var xs := if x in groupOf[p] then p else t;
          var ys := if y in groupOf[p] then p else t;
          assert groupOf[xs] == groupOf[x] && Linked(E', x, xs);
          assert xs in S;
          assert p in S && t in S;
          assert groupOf[y] == groupOf[ys] && Linked(E', ys, y);
        }
      }
    }
  }

  // ---------------------------------------------------------------- phases

  /** `only_after` once the pipelines of `removed` have been discarded from every trigger set. */
  function OnlyAfterFrom(g: Graph, removed: set<string>): map<string, set<string>>
  {
    map p | p in g && g[p] - removed != {} :: g[p] - removed
  }

  /** Discarding `x` from every trigger set, and dropping the sets that become empty. */
  function Discard(onlyAfter: map<string, set<string>>, x: string): map<string, set<string>>
  {
    map a | a in onlyAfter && onlyAfter[a] - {x} != {} :: onlyAfter[a] - {x}
  }

  /** `rank` ranks every node strictly above each of its triggers: the trigger graph has no cycle. */
  ghost predicate RankedBy(g: Graph, rank: map<string, nat>)
  {
    g.Keys <= rank.Keys && forall p, t | p in g && t in g[p] :: t in rank && rank[t] < rank[p]
  }

  /** A group holds the triggers of its members. */
  predicate TriggerClosed(g: Graph, group: set<string>)
  {
    group <= g.Keys && forall p, t | p in group && t in g[p] :: t in group
  }

  predicate NoDup(s: seq<string>)
  {
    forall i, j | 0 <= i < j < |s| :: s[i] != s[j]
  }

  /** The members of the phases before phase `i`. */
  function Before(phases: seq<seq<string>>, i: nat): set<string>
    requires i <= |phases|
  {
    if i == 0 then {} else Before(phases, i - 1) + Elems(phases[i - 1])
  }

  /** The members of `group` not yet placed whose triggers are all placed. */
  function Ready(g: Graph, group: set<string>, placed: set<string>): set<string>
    requires group <= g.Keys
  {
    set p | p in group && p !in placed && g[p] <= placed
  }

  /**
   * `phases` is the phase split of `group`: every phase is non-empty and
   * holds, without repetition, exactly the members that are ready once the
   * earlier phases are placed, and the phases together place the group.
   */
  ghost predicate Phased(g: Graph, group: set<string>, phases: seq<seq<string>>)
    requires group <= g.Keys
  {
    Before(phases, |phases|) == group && PhasesSoFar(g, group, phases)
  }

  /** Every phase so far is non-empty and holds, without repetition, exactly the members then ready. */
  ghost predicate PhasesSoFar(g: Graph, group: set<string>, phases: seq<seq<string>>)
    requires group <= g.Keys
  {
    forall i | 0 <= i < |phases| :: PhaseOk(g, group, phases, i)
  }

  /** Phase `i` is non-empty and holds, without repetition, exactly the members ready after the earlier phases. */
  ghost predicate PhaseOk(g: Graph, group: set<string>, phases: seq<seq<string>>, i: nat)
    requires group <= g.Keys && i < |phases|
  {
    phases[i] != [] && NoDup(phases[i]) && Elems(phases[i]) == Ready(g, group, Before(phases, i))
  }

  lemma PhasesExtend(g: Graph, group: set<string>, phases: seq<seq<string>>, phase: seq<string>)
    requires group <= g.Keys && PhasesSoFar(g, group, phases)
    requires phase != [] && NoDup(phase) && Elems(phase) == Ready(g, group, Before(phases, |phases|))
    ensures PhasesSoFar(g, group, phases + [phase])
    ensures Before(phases + [phase], |phases| + 1) == Before(phases, |phases|) + Elems(phase)
  {
    BeforeAppend(phases, phase);
    var ps := phases + [phase];
    forall i | 0 <= i < |ps| ensures PhaseOk(g, group, ps, i) {
      if i < |phases| {
        assert PhaseOk(g, group, phases, i);
        assert ps[i] == phases[i] && Before(ps, i) == Before(phases, i);
      } else {
        assert ps[i] == phase && Before(ps, i) == Before(phases, |phases|);
      }
    }
  }

  /**
   * The phase loop for one group. `onlyAfter` is the shared `only_after`,
   * from which the pipelines of the groups already done (`doneBefore`) have
   * been discarded; on return those of `group` are discarded too.
   */
  method PhasesOf(g: Graph, group: set<string>, ghost doneBefore: set<string>,
                  onlyAfter: map<string, set<string>>, ghost rank: map<string, nat>)
    returns (phases: seq<seq<string>>, onlyAfter': map<string, set<string>>)
    requires TriggerClosed(g, group) && RankedBy(g, rank) && group !! doneBefore
    requires onlyAfter == OnlyAfterFrom(g, doneBefore)
    ensures Phased(g, group, phases)
    ensures onlyAfter' == OnlyAfterFrom(g, doneBefore + group)
  {
    phases := [];
    onlyAfter' := onlyAfter;
    var remaining := group;
    ghost var placed: set<string> := {};
    PhaseLoopInit(g, group, doneBefore, onlyAfter);
    while remaining != {}
      invariant PhaseLoop(g, group, doneBefore, placed, remaining, phases, onlyAfter')
      decreases |remaining|
    {
      var phase, next := PhaseRound(g, group, doneBefore, placed, remaining, phases, onlyAfter', rank);
      phases := phases + [phase];
      remaining := remaining - Elems(phase);
      onlyAfter' := next;
      placed := placed + Elems(phase);
    }
    PhaseLoopExit(g, group, doneBefore, placed, phases, onlyAfter');
  }

  lemma PhaseLoopInit(g: Graph, group: set<string>, doneBefore: set<string>, onlyAfter: map<string, set<string>>)
    requires TriggerClosed(g, group) && onlyAfter == OnlyAfterFrom(g, doneBefore)
    ensures PhaseLoop(g, group, doneBefore, {}, group, [], onlyAfter)
  {
    assert doneBefore + {} == doneBefore;
  }

  lemma PhaseLoopExit(g: Graph, group: set<string>, doneBefore: set<string>, placed: set<string>,
                      phases: seq<seq<string>>, onlyAfter: map<string, set<string>>)
    requires PhaseLoop(g, group, doneBefore, placed, {}, phases, onlyAfter)
    ensures Phased(g, group, phases) && onlyAfter == OnlyAfterFrom(g, doneBefore + group)
  {
    forall x | x in group ensures x in placed {
      assert x !in group - placed;
    }
  }

  /** The invariant of the phase loop: `placed` is what the phases so far place, and has been discarded from `only_after`. */
  ghost predicate PhaseLoop(g: Graph, group: set<string>, doneBefore: set<string>, placed: set<string>,
                            remaining: set<string>, phases: seq<seq<string>>, onlyAfter: map<string, set<string>>)
  {
    group <= g.Keys && placed <= group && remaining == group - placed &&
    placed == Before(phases, |phases|) && PhasesSoFar(g, group, phases) &&
    onlyAfter == OnlyAfterFrom(g, doneBefore + placed)
  }

  /** One round of the phase loop: the next phase, and `only_after` with it discarded. */
  method PhaseRound(g: Graph, group: set<string>, ghost doneBefore: set<string>, ghost placed: set<string>,
                    remaining: set<string>, ghost phases: seq<seq<string>>, onlyAfter: map<string, set<string>>,
                    ghost rank: map<string, nat>)
    returns (phase: seq<string>, next: map<string, set<string>>)
    requires TriggerClosed(g, group) && RankedBy(g, rank) && group !! doneBefore
    requires PhaseLoop(g, group, doneBefore, placed, remaining, phases, onlyAfter) && remaining != {}
    ensures PhaseLoop(g, group, doneBefore, placed + Elems(phase), remaining - Elems(phase), phases + [phase], next)
    ensures |remaining - Elems(phase)| < |remaining|
  {
    // Find all pipelines with no remaining triggers.
    phase := NextPhase(g, group, doneBefore, placed, remaining, onlyAfter, rank);
    // Discard the phase from every trigger set.
    next := DiscardPhase(g, doneBefore + placed, onlyAfter, phase);
    PhaseStep(g, group, doneBefore, placed, remaining, phases, phase, next);
  }

  lemma PhaseStep(g: Graph, group: set<string>, doneBefore: set<string>, placed: set<string>,
                  remaining: set<string>, phases: seq<seq<string>>, phase: seq<string>, next: map<string, set<string>>)
    requires PhaseLoop(g, group, doneBefore, placed, remaining, phases, OnlyAfterFrom(g, doneBefore + placed))
    requires phase != [] && NoDup(phase) && Elems(phase) == Ready(g, group, placed) && Elems(phase) <= remaining
    requires next == OnlyAfterFrom(g, doneBefore + placed + Elems(phase))
    ensures PhaseLoop(g, group, doneBefore, placed + Elems(phase), remaining - Elems(phase), phases + [phase], next)
    ensures |remaining - Elems(phase)| < |remaining|
  {
    PhasesExtend(g, group, phases, phase);
    assert phase[0] in Elems(phase);
    assert remaining - Elems(phase) <= remaining - {phase[0]};
    assert doneBefore + placed + Elems(phase) == doneBefore + (placed + Elems(phase));
  }

  /** The next phase: the ready members, of which an acyclic group has at least one while unplaced members remain. */
  method NextPhase(g: Graph, group: set<string>, ghost doneBefore: set<string>, ghost placed: set<string>,
                   remaining: set<string>, onlyAfter: map<string, set<string>>, ghost rank: map<string, nat>)
    returns (phase: seq<string>)
    requires TriggerClosed(g, group) && RankedBy(g, rank) && group !! doneBefore
    requires placed <= group && remaining == group - placed && remaining != {}
    requires onlyAfter == OnlyAfterFrom(g, doneBefore + placed)
    ensures phase != [] && NoDup(phase) && Elems(phase) == Ready(g, group, placed)
    ensures Elems(phase) <= remaining
  {
    phase := Untriggered(remaining, onlyAfter);
    ReadyIsUntriggered(g, group, doneBefore, placed);
    ghost var m := SomeReady(g, group, placed, rank);
    assert m in Elems(phase);
  }

  /** The loop collecting a phase: the remaining pipelines with no entry in `only_after`. */
  method Untriggered(remaining: set<string>, onlyAfter: map<string, set<string>>) returns (phase: seq<string>)
    ensures NoDup(phase)
    ensures Elems(phase) == set p | p in remaining && p !in onlyAfter
  {
    phase := [];
    var rest := remaining;
    while rest != {}
      invariant rest <= remaining
      invariant NoDup(phase)
      invariant Elems(phase) == set p | p in remaining && p !in rest && p !in onlyAfter
    {
      var p :| p in rest;
      if p !in onlyAfter {
        assert p !in Elems(phase);
        ElemsAppend(phase, p);
        phase := phase + [p];
      }
      rest := rest - {p};
    }
  }

  /** The loop over the members of a phase, discarding each from every trigger set. */
  method DiscardPhase(g: Graph, ghost removed: set<string>, onlyAfter: map<string, set<string>>, phase: seq<string>)
    returns (r: map<string, set<string>>)
    requires onlyAfter == OnlyAfterFrom(g, removed)
    ensures r == OnlyAfterFrom(g, removed + Elems(phase))
  {
    r := onlyAfter;
    var j := 0;
    assert removed + Elems(phase[..0]) == removed;
    while j < |phase|
      invariant 0 <= j <= |phase|
      invariant r == OnlyAfterFrom(g, removed + Elems(phase[..j]))
    {
      r := DiscardEverywhere(r, phase[j]);
      OnlyAfterFromDiscard(g, removed + Elems(phase[..j]), phase[j]);
      assert removed + Elems(phase[..j + 1]) == removed + Elems(phase[..j]) + {phase[j]} by {
        assert phase[..j + 1] == phase[..j] + [phase[j]];
      }
      j := j + 1;
    }
    assert phase[..j] == phase;
  }

  /**
   * The innermost loop: for each key of (a snapshot of) `only_after`,
   * discard `x` from its triggers and delete the key when none remain.
   */
  method DiscardEverywhere(onlyAfter: map<string, set<string>>, x: string) returns (r: map<string, set<string>>)
    ensures r == Discard(onlyAfter, x)
  {
    r := onlyAfter;
    var keys := onlyAfter.Keys;
    while keys != {}
      invariant keys <= onlyAfter.Keys
      invariant r.Keys == (set a | a in onlyAfter && (a in keys || onlyAfter[a] - {x} != {}))
      invariant forall a | a in r :: r[a] == if a in keys then onlyAfter[a] else onlyAfter[a] - {x}
    {
      var after :| after in keys;
      var triggers := r[after] - {x};
      r := r[after := triggers];
      if triggers == {} {
        r := r - {after};
      }
      keys := keys - {after};
    }
  }

  lemma ElemsAppend(s: seq<string>, x: string)
    ensures Elems(s + [x]) == Elems(s) + {x}
  {
    var t := s + [x];
    assert t[|s|] == x;
    forall y | y in Elems(s) ensures y in Elems(t) {
      var i :| 0 <= i < |s| && s[i] == y;
      assert t[i] == y;
    }
  }

  /** Discarding one more pipeline is `Discard` on `only_after`. */
  lemma OnlyAfterFromDiscard(g: Graph, removed: set<string>, x: string)
    ensures OnlyAfterFrom(g, removed + {x}) == Discard(OnlyAfterFrom(g, removed), x)
  {
    forall p | p in g ensures g[p] - (removed + {x}) == (g[p] - removed) - {x} { }
  }

  /** For the members of a group not yet placed, having no entry in `only_after` is being ready. */
  lemma ReadyIsUntriggered(g: Graph, group: set<string>, doneBefore: set<string>, placed: set<string>)
    requires TriggerClosed(g, group) && group !! doneBefore && placed <= group
    ensures Ready(g, group, placed) ==
      set p | p in group - placed && p !in OnlyAfterFrom(g, doneBefore + placed)
  {
    forall p | p in group - placed
      ensures g[p] <= placed <==> g[p] - (doneBefore + placed) == {}
    {
      if g[p] - (doneBefore + placed) == {} {
        forall t | t in g[p] ensures t in placed {
          assert t !in g[p] - (doneBefore + placed);
          assert t in group;
          assert t !in doneBefore;
        }
      }
    }
  }

  /** While some of an acyclic group is unplaced, some member is ready: one of least rank. */
  lemma SomeReady(g: Graph, group: set<string>, placed: set<string>, rank: map<string, nat>) returns (m: string)
    requires TriggerClosed(g, group) && RankedBy(g, rank) && placed <= group && group - placed != {}
    ensures m in Ready(g, group, placed)
  {
    m := MinRanked(group - placed, rank);
    forall t | t in g[m] ensures t in placed {
      assert t in group && rank[t] < rank[m];
    }
  }

  /** A member of least rank. */
  lemma {:induction false} MinRanked(s: set<string>, rank: map<string, nat>) returns (m: string)
    requires s != {} && s <= rank.Keys
    ensures m in s && forall q | q in s :: rank[m] <= rank[q]
    decreases |s|
  {
    var x :| x in s;
    if s == {x} {
      m := x;
    } else {
      var m' := MinRanked(s - {x}, rank);
      m := if rank[x] <= rank[m'] then x else m';
    }
  }

  lemma {:induction false} BeforeAppend(phases: seq<seq<string>>, phase: seq<string>)
    ensures forall i | 0 <= i <= |phases| :: Before(phases + [phase], i) == Before(phases, i)
    ensures Before(phases + [phase], |phases| + 1) == Before(phases, |phases|) + Elems(phase)
  {
    var ps := phases + [phase];
    forall i | 0 <= i <= |phases| ensures Before(ps, i) == Before(phases, i) {
      BeforePrefix(phases, ps, i);
    }
  }

  lemma {:induction false} BeforePrefix(a: seq<seq<string>>, b: seq<seq<string>>, i: nat)
    requires i <= |a| <= |b| && a[..i] == b[..i]
    ensures Before(a, i) == Before(b, i)
  {
    if i > 0 {
      assert a[..i - 1] == a[..i][..i - 1] && b[..i - 1] == b[..i][..i - 1];
      assert a[i - 1] == a[..i][i - 1] && b[i - 1] == b[..i][i - 1];
      BeforePrefix(a, b, i - 1);
    }
  }

  // ---------------------------------------------------------------- phase properties

  lemma {:induction false} BeforeMembers(phases: seq<seq<string>>, i: nat, x: string)
    requires i <= |phases|
    ensures x in Before(phases, i) <==> exists j :: 0 <= j < i && x in Elems(phases[j])
  {
    if i > 0 {
      BeforeMembers(phases, i - 1, x);
    }
  }

  lemma {:induction false} BeforeGrows(phases: seq<seq<string>>, i: nat, j: nat)
    requires i <= j <= |phases|
    ensures Before(phases, i) <= Before(phases, j)
    decreases j
  {
    if i < j {
      BeforeGrows(phases, i, j - 1);
    }
  }

  /** A pipeline is placed in a strictly later phase than each of its triggers. */
  lemma PhasesRespectTriggers(g: Graph, group: set<string>, phases: seq<seq<string>>, i: nat, p: string, t: string)
    requires group <= g.Keys && Phased(g, group, phases)
    requires i < |phases| && p in Elems(phases[i]) && p in group && t in g[p]
    ensures exists j :: 0 <= j < i && t in Elems(phases[j])
  {
    assert PhaseOk(g, group, phases, i);
    BeforeMembers(phases, i, t);
  }

  /** Phases are pairwise disjoint. */
  lemma PhasesDisjoint(g: Graph, group: set<string>, phases: seq<seq<string>>, i: nat, j: nat)
    requires group <= g.Keys && Phased(g, group, phases)
    requires i < j < |phases|
    ensures Elems(phases[i]) !! Elems(phases[j])
  {
    assert PhaseOk(g, group, phases, j);
    forall x | x in Elems(phases[i]) ensures x !in Elems(phases[j]) {
      BeforeMembers(phases, j, x);
    }
  }

  /** No pipeline could have gone in an earlier phase: each one after the first waits for a member of the phase before. */
  lemma PhasesAsEarlyAsPossible(g: Graph, group: set<string>, phases: seq<seq<string>>, i: nat, p: string)
    requires group <= g.Keys && Phased(g, group, phases)
    requires 0 < i < |phases| && p in Elems(phases[i]) && p in group
    ensures g[p] * Elems(phases[i - 1]) != {}
  {
    assert PhaseOk(g, group, phases, i) && PhaseOk(g, group, phases, i - 1);
    assert p !in Elems(phases[i - 1]);
    assert !(g[p] <= Before(phases, i - 1));
    var t :| t in g[p] && t !in Before(phases, i - 1);
    assert t in g[p] * Elems(phases[i - 1]);
  }

  /** The phase split of a group is unique, up to the order inside each phase. */
  lemma PhasesUnique(g: Graph, group: set<string>, ps: seq<seq<string>>, qs: seq<seq<string>>)
    requires group <= g.Keys && Phased(g, group, ps) && Phased(g, group, qs)
    ensures |ps| == |qs| && forall i | 0 <= i < |ps| :: Elems(ps[i]) == Elems(qs[i])
  {
    var n := if |ps| <= |qs| then |ps| else |qs|;
    PhasesAgree(g, group, ps, qs, n);
    PhasedEnds(g, group, ps, n);
    PhasedEnds(g, group, qs, n);
  }

  /** Once the phases so far place the whole group, there are no more phases. */
  lemma PhasedEnds(g: Graph, group: set<string>, ps: seq<seq<string>>, n: nat)
    requires group <= g.Keys && Phased(g, group, ps) && n <= |ps| && Before(ps, n) == group
    ensures n == |ps|
  {
    forall i | 0 <= i < |ps| ensures Before(ps, i) != group {
      assert PhaseOk(g, group, ps, i);
      assert ps[i][0] in Elems(ps[i]);
    }
  }

  lemma {:induction false} PhasesAgree(g: Graph, group: set<string>, ps: seq<seq<string>>, qs: seq<seq<string>>, n: nat)
    requires group <= g.Keys && Phased(g, group, ps) && Phased(g, group, qs)
    requires n <= |ps| && n <= |qs|
    ensures Before(ps, n) == Before(qs, n)
    ensures forall i | 0 <= i < n :: Elems(ps[i]) == Elems(qs[i])
  {
    if n > 0 {
      PhasesAgree(g, group, ps, qs, n - 1);
      assert PhaseOk(g, group, ps, n - 1) && PhaseOk(g, group, qs, n - 1);
    }
  }

  /**
   * A set of pipelines each waiting for another of the set (a trigger
   * cycle) is never ready: the phase loop would find empty phases forever,
   * and no ranking exists.
   */
  lemma CycleNeverReady(g: Graph, group: set<string>, cycle: set<string>, placed: set<string>)
    requires group <= g.Keys && cycle <= group && cycle !! placed
    requires forall p | p in cycle :: g[p] * cycle != {}
    ensures Ready(g, group, placed) !! cycle
  {
    forall p | p in cycle ensures p !in Ready(g, group, placed) {
      var t :| t in g[p] * cycle;
      assert t !in placed;
    }
  }

  lemma CycleUnranked(g: Graph, cycle: set<string>)
    requires cycle <= g.Keys && cycle != {}
    requires forall p | p in cycle :: g[p] * cycle != {}
    ensures forall rank :: !RankedBy(g, rank)
  {
    forall rank ensures !RankedBy(g, rank) {
      if cycle <= rank.Keys {
        var m := MinRanked(cycle, rank);
        var t :| t in g[m] * cycle;
        assert !(t in rank && rank[t] < rank[m]);
      }
    }
  }

  // ---------------------------------------------------------------- pipelines

  /** The members of a group: what its phases place. */
  function Members(phases: seq<seq<string>>): set<string>
  {
    Before(phases, |phases|)
  }

  /** `phases` splits a connected component of `g` into its phases. */
  ghost predicate ComponentPhases(g: Graph, phases: seq<seq<string>>)
  {
    Members(phases) != {} && Members(phases) <= g.Keys && Phased(g, Members(phases), phases) &&
    forall p, q | p in Members(phases) && q in g :: q in Members(phases) <==> Connected(Edges(g), p, q)
  }

  /**
   * `groups` is the topology of `g`: each group is a connected component,
   * split into its phases; the groups are disjoint and cover every pipeline.
   */
  ghost predicate Grouped(g: Graph, groups: seq<seq<seq<string>>>)
  {
    (forall k | 0 <= k < |groups| :: ComponentPhases(g, groups[k])) &&
    (forall k, l | 0 <= k < l < |groups| :: Members(groups[k]) !! Members(groups[l])) &&
    (forall p | p in g :: exists k :: 0 <= k < |groups| && p in Members(groups[k]))
  }

  /**
   * `pipelines`: select, build `only_after`, group, and split each distinct
   * group into phases. The result lists the groups, each as its phases, each
   * phase as pipeline names; the order of the groups and inside a phase is
   * the arbitrary order of set iteration.
   */
  method Pipelines(nodes: seq<PipelineNode>, filter: set<string>, ghost rank: map<string, nat>)
    returns (r: Result<seq<seq<seq<string>>>, TopologyError>)
    requires GraphOf(Select(nodes, filter)).Ok? ==> RankedBy(GraphOf(Select(nodes, filter)).value, rank)
    ensures r.Err? <==> GraphOf(Select(nodes, filter)).Err?
    ensures r.Ok? ==> Grouped(GraphOf(Select(nodes, filter)).value, r.value)
  {
    var sel := Select(nodes, filter);
    var built := BuildOnlyAfter(sel);
    if built.Err? {
      return Err(built.error);
    }
    var onlyAfter := built.value;
    var g := map p | p in sel :: if p in onlyAfter then onlyAfter[p] else {};
    assert g == GraphOf(sel).value;
    assert Closed(g);
    var groupOf := GroupPipelines(g);
    assert Components(g, groupOf);

    // The distinct groups.
    var blocks := set p | p in groupOf :: groupOf[p];
    ghost var done: set<string> := {};
    var groups: seq<seq<seq<string>>> := [];
    GroupLoopInit(g, groupOf, onlyAfter);
    while blocks != {}
      invariant GroupLoop(g, groupOf, blocks, done, groups, onlyAfter)
      decreases |blocks|
    {
      var b :| b in blocks;
      BlockReady(g, groupOf, blocks, done, groups, onlyAfter, b);
      var phases, onlyAfter' := PhasesOf(g, b, done, onlyAfter, rank);
      GroupStep(g, groupOf, blocks, done, groups, onlyAfter, b, phases, onlyAfter');
      groups := groups + [phases];
      blocks := blocks - {b};
      done := done + b;
      onlyAfter := onlyAfter';
    }
    GroupLoopDone(g, groupOf, done, groups, onlyAfter);
    return Ok(groups);
  }

  /** `groupOf` maps each pipeline of a closed graph to its connected component. */
  ghost predicate Components(g: Graph, groupOf: map<string, set<string>>)
  {
    Closed(g) && Partition(g.Keys, groupOf) &&
    forall p, q | p in g && q in g :: q in groupOf[p] <==> Connected(Edges(g), p, q)
  }

  /** The members of each group phased so far. */
  function GroupSets(groups: seq<seq<seq<string>>>): set<set<string>>
  {
    set k | 0 <= k < |groups| :: Members(groups[k])
  }

  /** The invariant of the loop over the distinct groups. */
  ghost predicate GroupLoop(g: Graph, groupOf: map<string, set<string>>, blocks: set<set<string>>,
                            done: set<string>, groups: seq<seq<seq<string>>>, onlyAfter: map<string, set<string>>)
  {
    Components(g, groupOf) &&
    blocks + GroupSets(groups) == (set p | p in groupOf :: groupOf[p]) && blocks !! GroupSets(groups) &&
    done <= g.Keys && (forall p | p in g :: p in done <==> groupOf[p] in GroupSets(groups)) &&
    onlyAfter == OnlyAfterFrom(g, done) &&
    (forall k | 0 <= k < |groups| :: GroupAt(g, groups, k)) &&
    (forall k, l | 0 <= k < l < |groups| :: Members(groups[k]) != Members(groups[l]))
  }

  ghost predicate GroupAt(g: Graph, groups: seq<seq<seq<string>>>, k: nat)
    requires k < |groups|
  {
    Members(groups[k]) <= g.Keys && Phased(g, Members(groups[k]), groups[k])
  }

  lemma GroupLoopInit(g: Graph, groupOf: map<string, set<string>>, onlyAfter: map<string, set<string>>)
    requires Components(g, groupOf) && onlyAfter == OnlyAfter(g)
    ensures GroupLoop(g, groupOf, set p | p in groupOf :: groupOf[p], {}, [], onlyAfter)
  {
    assert GroupSets([]) == {};
    assert OnlyAfter(g) == OnlyAfterFrom(g, {}) by {
      forall p | p in g ensures g[p] - {} == g[p] { }
    }
  }

  /** A block not yet phased meets what `PhasesOf` requires. */
  lemma BlockReady(g: Graph, groupOf: map<string, set<string>>, blocks: set<set<string>>,
                   done: set<string>, groups: seq<seq<seq<string>>>, onlyAfter: map<string, set<string>>, b: set<string>)
    requires GroupLoop(g, groupOf, blocks, done, groups, onlyAfter) && b in blocks
    ensures TriggerClosed(g, b) && b !! done
  {
    var x :| x in groupOf && groupOf[x] == b;
    forall p, t | p in b && t in g[p] ensures t in b {
      assert groupOf[p] == b && p in g && t in g;
      assert IsChain(Edges(g), [p, t]) && [p, t][0] == p && [p, t][1] == t;
      assert Connected(Edges(g), p, t);
    }
    forall p | p in b ensures p !in done {
      assert groupOf[p] == b;
    }
  }

  lemma GroupStep(g: Graph, groupOf: map<string, set<string>>, blocks: set<set<string>>,
                  done: set<string>, groups: seq<seq<seq<string>>>, onlyAfter: map<string, set<string>>,
                  b: set<string>, phases: seq<seq<string>>, onlyAfter': map<string, set<string>>)
    requires GroupLoop(g, groupOf, blocks, done, groups, onlyAfter) && b in blocks
    requires b <= g.Keys && Phased(g, b, phases) && onlyAfter' == OnlyAfterFrom(g, done + b)
    ensures GroupLoop(g, groupOf, blocks - {b}, done + b, groups + [phases], onlyAfter')
    ensures |blocks - {b}| < |blocks|
  {
    var gs := groups + [phases];
    assert Members(phases) == b;
    assert GroupSets(gs) == GroupSets(groups) + {b} by {
      assert Members(gs[|groups|]) == b;
      forall k | 0 <= k < |groups| ensures gs[k] == groups[k] { }
    }
    forall p | p in g ensures p in done + b <==> groupOf[p] in GroupSets(gs) {
      if p in b {
        var x :| x in groupOf && groupOf[x] == b;
        assert groupOf[p] == b;
      }
      if groupOf[p] == b {
        assert p in groupOf[p];
      }
    }
    forall k | 0 <= k < |gs| ensures GroupAt(g, gs, k) {
      if k < |groups| {
        assert gs[k] == groups[k] && GroupAt(g, groups, k);
      }
    }
    forall k, l | 0 <= k < l < |gs| ensures Members(gs[k]) != Members(gs[l]) {
      assert gs[k] == groups[k];
      if l < |groups| {
        assert gs[l] == groups[l];
      } else {
        assert Members(groups[k]) in GroupSets(groups);
      }
    }
  }

  lemma GroupLoopDone(g: Graph, groupOf: map<string, set<string>>, done: set<string>,
                      groups: seq<seq<seq<string>>>, onlyAfter: map<string, set<string>>)
    requires GroupLoop(g, groupOf, {}, done, groups, onlyAfter)
    ensures Grouped(g, groups)
  {
    forall k | 0 <= k < |groups| ensures ComponentPhases(g, groups[k]) {
      assert GroupAt(g, groups, k);
      assert Members(groups[k]) in GroupSets(groups);
      var x :| x in groupOf && groupOf[x] == Members(groups[k]);
      assert x in Members(groups[k]);
      forall p, q | p in Members(groups[k]) && q in g
        ensures q in Members(groups[k]) <==> Connected(Edges(g), p, q)
      {
        assert groupOf[p] == groupOf[x];
      }
    }
    forall k, l | 0 <= k < l < |groups| ensures Members(groups[k]) !! Members(groups[l]) {
      assert Members(groups[k]) in GroupSets(groups) && Members(groups[l]) in GroupSets(groups);
      var x :| x in groupOf && groupOf[x] == Members(groups[k]);
      var y :| y in groupOf && groupOf[y] == Members(groups[l]);
      forall z | z in Members(groups[k]) ensures z !in Members(groups[l]) {
        assert groupOf[z] == groupOf[x] != groupOf[y];
      }
    }
    forall p | p in g ensures exists k :: 0 <= k < |groups| && p in Members(groups[k]) {
      assert groupOf[p] in GroupSets(groups);
      var k :| 0 <= k < |groups| && Members(groups[k]) == groupOf[p];
      assert p in groupOf[p];
    }
  }
}
