/**
 * The consistency checks run on the configuration an install script
 * produces (edxpipelines/tests/scripts/test_scripts.py).
 *
 * The produced XML is abstracted to its pipelines: each has a name,
 * stages (with jobs that fetch and declare artifacts) and materials.
 * `script_result.iter('pipeline')` also meets the `pipeline` material
 * elements, but those have no name, stages or materials, so they add
 * nothing to any of the sets below and the model walks the real
 * pipelines only. Attributes that `.get` may miss are options.
 */
module TestScripts {
  import opened Wrappers
  import GoCD

  datatype Fetch = Fetch(pipeline: Option<string>, stage: string, job: string,
                         srcfile: Option<string>, srcdir: Option<string>, dest: Option<string>)
  datatype JobXml = JobXml(name: string, fetches: seq<Fetch>, artifacts: seq<string>)
  datatype StageXml = StageXml(name: string, jobs: seq<JobXml>)
  datatype MaterialXml =
    | PipelineMaterial(pipelineName: string, stageName: string, materialName: Option<string>)
    | ScmMaterial(materialName: Option<string>, dest: Option<string>)
  datatype PipelineXml = PipelineXml(name: string, stages: seq<StageXml>, materials: seq<MaterialXml>)
  type ScriptResult = seq<PipelineXml>

  // ---------------------------------------------------------------------
  // prefixes (test_scripts.py:83-93)
  // ---------------------------------------------------------------------

  /** The prefixes of a list, shortest first. */
  function PrefixesOf<T>(items: seq<T>): seq<seq<T>>
  {
    seq(|items| + 1, k requires 0 <= k <= |items| => items[..k])
  }

  /** `prefixes`: before each item, the items seen so far; finally all of them. */
  method Prefixes<T>(items: seq<T>) returns (r: seq<seq<T>>)
    ensures |r| == |items| + 1
    ensures forall k :: 0 <= k < |r| ==> r[k] == items[..k]
  {
    r := [];
    var current: seq<T> := [];
    var i := 0;
    while i < |items|
      invariant 0 <= i <= |items|
      invariant current == items[..i]
      invariant |r| == i && forall k :: 0 <= k < i ==> r[k] == items[..k]
    {
      r := r + [current];
      current := current + [items[i]];
      assert current == items[..i + 1];
      i := i + 1;
    }
    r := r + [current];
  }

  // ---------------------------------------------------------------------
  // find_available_stages (test_scripts.py:96-109)
  // ---------------------------------------------------------------------

  function StageXmlName(s: StageXml): string { s.name }

  function StageNames(stages: seq<StageXml>): seq<string>
  {
    GoCD.Names(stages, StageXmlName)
  }

  /** One pipeline's stage names up to and including the target; whether the target was met. */
  function StagesUpTo(stages: seq<StageXml>, target: string): (seq<string>, bool)
  {
    if |stages| == 0 then ([], false)
    else if stages[0].name == target then ([target], true)
    else
      var rest := StagesUpTo(stages[1..], target);
      ([stages[0].name] + rest.0, rest.1)
  }

  /** The target is met iff the pipeline has a stage of that name; otherwise every name is yielded. */
  lemma {:induction false} StagesUpToHit(stages: seq<StageXml>, target: string)
    ensures var (names, hit) := StagesUpTo(stages, target);
      && (hit <==> target in StageNames(stages))
      && (!hit ==> names == StageNames(stages))
  {
    if |stages| > 0 {
      StagesUpToHit(stages[1..], target);
      assert StageNames(stages) == [stages[0].name] + StageNames(stages[1..]);
    }
  }

  /** When met, the names yielded are the stage names up to and including the first stage of that name. */
  lemma {:induction false} StagesUpToPrefix(stages: seq<StageXml>, target: string)
    ensures var (names, hit) := StagesUpTo(stages, target);
      hit ==> 0 < |names| <= |stages| && names[|names| - 1] == target
              && names == StageNames(stages)[..|names|]
              && target !in names[..|names| - 1]
  {
    if |stages| > 0 && stages[0].name != target {
      StagesUpToPrefix(stages[1..], target);
      var rest := StagesUpTo(stages[1..], target);
      if rest.1 {
        var names := StagesUpTo(stages, target).0;
        assert names == [stages[0].name] + rest.0;
        assert StageNames(stages)[..|names|] == [stages[0].name] + StageNames(stages[1..])[..|rest.0|];
        assert names[..|names| - 1] == [stages[0].name] + rest.0[..|rest.0| - 1];
      }
    }
  }

  /**
   * `find_available_stages`: walk the pipelines named `targetPipeline`,
   * yielding stage names; meeting `targetStage` ends the whole walk.
   */
  function AvailableStages(pipelines: ScriptResult, targetPipeline: string, targetStage: string): seq<string>
  {
    if |pipelines| == 0 then []
    else if pipelines[0].name != targetPipeline then AvailableStages(pipelines[1..], targetPipeline, targetStage)
    else
      var (names, hit) := StagesUpTo(pipelines[0].stages, targetStage);
      if hit then names else names + AvailableStages(pipelines[1..], targetPipeline, targetStage)
  }

  /**
   * With one pipeline of that name, the available stages are its stages
   * up to and including the target stage.
   */
  lemma {:induction false} AvailableStagesOfUnique(pipelines: ScriptResult, k: nat, targetStage: string)
    requires k < |pipelines|
    requires forall i :: 0 <= i < |pipelines| && i != k ==> pipelines[i].name != pipelines[k].name
    ensures AvailableStages(pipelines, pipelines[k].name, targetStage) == StagesUpTo(pipelines[k].stages, targetStage).0
  {
    var name := pipelines[k].name;
    if k == 0 {
      NoneNamed(pipelines[1..], name, targetStage);
    } else {
      AvailableStagesOfUnique(pipelines[1..], k - 1, targetStage);
    }
  }

  lemma {:induction false} NoneNamed(pipelines: ScriptResult, name: string, targetStage: string)
    requires forall i :: 0 <= i < |pipelines| ==> pipelines[i].name != name
    ensures AvailableStages(pipelines, name, targetStage) == []
  {
    if |pipelines| > 0 {
      NoneNamed(pipelines[1..], name, targetStage);
    }
  }

  // ---------------------------------------------------------------------
  // test_upstream_artifacts (test_scripts.py:22-49)
  // ---------------------------------------------------------------------

  datatype Location = Location(pipeline: Option<string>, stage: string, job: string, fileName: Option<string>)

  /** `fetch.get('srcfile', fetch.get('srcdir'))`. */
  function FetchedFile(f: Fetch): Option<string>
  {
    if f.srcfile.Some? then f.srcfile else f.srcdir
  }

  /** `os.path.basename`: what follows the last slash. */
  function Basename(path: string): (r: string)
    ensures '/' !in r
    ensures |r| <= |path| && r == path[|path| - |r|..]
    ensures |r| < |path| ==> path[|path| - |r| - 1] == '/'
  {
    if |path| == 0 then ""
    else if path[|path| - 1] == '/' then ""
    else Basename(path[..|path| - 1]) + [path[|path| - 1]]
  }

  function RequiredArtifacts(result: ScriptResult): set<Location>
  {
    set p, s, j, f | p in result && s in p.stages && j in s.jobs && f in j.fetches
      :: Location(f.pipeline, f.stage, f.job, FetchedFile(f))
  }

  function ProvidedArtifacts(result: ScriptResult): set<Location>
  {
    set p, s, j, a | p in result && s in p.stages && j in s.jobs && a in j.artifacts
      :: Location(Some(p.name), s.name, j.name, Some(Basename(a)))
  }

  predicate UpstreamArtifactsOk(result: ScriptResult)
  {
    RequiredArtifacts(result) <= ProvidedArtifacts(result)
  }

  /**
   * Under the check, every fetch names a pipeline, stage and job that
   * exist and declare an artifact with the fetched file's base name; a
   * fetch without a `pipeline` attribute always fails it.
   */
  lemma UpstreamArtifactsDeclared(result: ScriptResult, p: PipelineXml, s: StageXml, j: JobXml, f: Fetch)
    requires p in result && s in p.stages && j in s.jobs && f in j.fetches
    requires UpstreamArtifactsOk(result)
    ensures f.pipeline.Some? && FetchedFile(f).Some?
    ensures exists p', s', j', a ::
      && p' in result && s' in p'.stages && j' in s'.jobs && a in j'.artifacts
      && p'.name == f.pipeline.value && s'.name == f.stage && j'.name == f.job && Basename(a) == FetchedFile(f).value
  {
    var loc := Location(f.pipeline, f.stage, f.job, FetchedFile(f));
    assert loc in RequiredArtifacts(result);
    assert loc in ProvidedArtifacts(result);
    var p', s', j', a :| p' in result && s' in p'.stages && j' in s'.jobs && a in j'.artifacts
      && loc == Location(Some(p'.name), s'.name, j'.name, Some(Basename(a)));
  }

  // ---------------------------------------------------------------------
  // test_upstream_stages (test_scripts.py:52-76)
  // ---------------------------------------------------------------------

  function RequiredStages(result: ScriptResult): set<(string, string)>
  {
    set p, m | p in result && m in p.materials && m.PipelineMaterial? :: (m.pipelineName, m.stageName)
  }

  function ProvidedStages(result: ScriptResult): set<(string, string)>
  {
    set p, s | p in result && s in p.stages :: (p.name, s.name)
  }

  predicate UpstreamStagesOk(result: ScriptResult)
  {
    RequiredStages(result) <= ProvidedStages(result)
  }

  /** The check holds iff every pipeline material names a stage of a pipeline of that name. */
  lemma UpstreamStagesOkIff(result: ScriptResult)
    ensures UpstreamStagesOk(result) <==>
      forall p, m :: p in result && m in p.materials && m.PipelineMaterial? ==>
        exists q, s :: q in result && s in q.stages && q.name == m.pipelineName && s.name == m.stageName
  {
    if UpstreamStagesOk(result) {
      forall p, m | p in result && m in p.materials && m.PipelineMaterial?
        ensures exists q, s :: q in result && s in q.stages && q.name == m.pipelineName && s.name == m.stageName
      {
        assert (m.pipelineName, m.stageName) in RequiredStages(result);
      }
    }
  }

  // ---------------------------------------------------------------------
  // test_upstream_stages_for_artifacts (test_scripts.py:112-160)
  // ---------------------------------------------------------------------

  datatype RequiredStage = RequiredStage(downstreamPipeline: string, downstreamStage: string,
                                         upstreamPipeline: Option<string>, upstreamStage: string)

  function FetchingStages(result: ScriptResult): set<RequiredStage>
  {
    set p, s, j, f | p in result && s in p.stages && j in s.jobs && f in j.fetches
      :: RequiredStage(p.name, s.name, f.pipeline, f.stage)
  }

  /** Every stage of a pipeline may fetch from the stages its pipeline materials make available. */
  function MaterialStages(result: ScriptResult): set<RequiredStage>
  {
    set p, m, u, d | p in result && m in p.materials && m.PipelineMaterial?
                     && u in AvailableStages(result, m.pipelineName, m.stageName) && d in p.stages
      :: RequiredStage(p.name, d.name, Some(m.pipelineName), u)
  }

  /** The last item of a non-empty prefix (`stage_prefixes[-1]`). */
  function Last<T>(xs: seq<T>): T
    requires xs != []
  {
    xs[|xs| - 1]
  }

  /** The items before it (`stage_prefixes[:-1]`). */
  function Init<T>(xs: seq<T>): seq<T>
    requires xs != []
  {
    xs[..|xs| - 1]
  }

  /** One pipeline's pairs of a stage and an earlier stage, by way of its stage prefixes. */
  function PipelineEarlierStages(p: PipelineXml): set<RequiredStage>
  {
    set pre: seq<StageXml>, u: StageXml | pre in PrefixesOf(p.stages) && pre != [] && u in Init(pre)
      :: RequiredStage(p.name, Last(pre).name, Some(p.name), u.name)
  }

  function EarlierStages(result: ScriptResult): set<RequiredStage>
  {
    set p, r | p in result && r in PipelineEarlierStages(p) :: r
  }

  predicate UpstreamStagesForArtifactsOk(result: ScriptResult)
  {
    FetchingStages(result) <= MaterialStages(result) + EarlierStages(result)
  }

  /** A stage may fetch from any strictly earlier stage of its own pipeline ... */
  lemma EarlierStageAvailable(p: PipelineXml, j: nat, k: nat)
    requires j < k < |p.stages|
    ensures RequiredStage(p.name, p.stages[k].name, Some(p.name), p.stages[j].name) in PipelineEarlierStages(p)
  {
    var pre := p.stages[..k + 1];
    assert pre == PrefixesOf(p.stages)[k + 1];
    assert pre in PrefixesOf(p.stages) && pre != [];
    assert Init(pre)[j] == p.stages[j] && Last(pre) == p.stages[k];
    assert p.stages[j] in Init(pre);
  }

  /** ... and those are the only pairs the prefixes contribute. */
  lemma EarlierStagesAreEarlier(p: PipelineXml, r: RequiredStage)
    requires r in PipelineEarlierStages(p)
    ensures exists j, k ::
      && 0 <= j < k < |p.stages|
      && r == RequiredStage(p.name, p.stages[k].name, Some(p.name), p.stages[j].name)
  {
    var pre: seq<StageXml>, u: StageXml :| pre in PrefixesOf(p.stages) && pre != [] && u in Init(pre)
      && r == RequiredStage(p.name, Last(pre).name, Some(p.name), u.name);
    var n :| 0 <= n < |PrefixesOf(p.stages)| && PrefixesOf(p.stages)[n] == pre;
    var j :| 0 <= j < n - 1 && Init(pre)[j] == u;
    assert p.stages[j] == u && p.stages[n - 1] == Last(pre);
  }

  // ---------------------------------------------------------------------
  // Duplicate checks (test_scripts.py:163-224)
  // ---------------------------------------------------------------------

  /** The identifiers counted more than once. */
  function Duplicates<T>(ids: seq<T>): set<T>
  {
    set x | x in ids && multiset(ids)[x] > 1
  }

  /** No identifier is a duplicate iff the identifiers are pairwise distinct. */
  lemma {:induction false} NoDuplicatesIffDistinct<T>(ids: seq<T>)
    ensures Duplicates(ids) == {} <==> forall i, j :: 0 <= i < j < |ids| ==> ids[i] != ids[j]
  {
    if |ids| > 0 {
      var n := |ids| - 1;
      var init := ids[..n];
      assert ids == init + [ids[n]];
      NoDuplicatesIffDistinct(init);
      if Duplicates(ids) == {} {
        forall x | x in init ensures multiset(init)[x] <= 1 {
          assert x in ids && x !in Duplicates(ids);
          assert multiset(ids)[x] >= multiset(init)[x];
        }
        assert Duplicates(init) == {};
        assert ids[n] in ids && ids[n] !in Duplicates(ids);
        assert multiset(ids)[ids[n]] == multiset(init)[ids[n]] + 1;
        assert ids[n] !in init;
        forall i, j | 0 <= i < j < |ids| ensures ids[i] != ids[j] {
          if j < n {
            assert init[i] == ids[i] && init[j] == ids[j];
          } else {
            assert init[i] == ids[i];
          }
        }
      } else {
        var x :| x in Duplicates(ids);
        if Duplicates(init) == {} {
          assert ids[n] in init;
          var i :| 0 <= i < n && init[i] == ids[n];
          assert ids[i] == ids[n];
        } else {
          var x' :| x' in Duplicates(init);
          var i, j :| 0 <= i < j < n && init[i] == init[j];
          assert ids[i] == ids[j];
        }
      }
    }
  }

  /** `material.get('materialName', material.get('dest'))`. */
  function MaterialName(m: MaterialXml): Option<string>
  {
    if m.materialName.Some? then m.materialName
    else if m.ScmMaterial? then m.dest
    else None
  }

  /** test_duplicate_materials: each pipeline's (name, material name or destination), in document order. */
  function MaterialIds(result: ScriptResult): seq<(string, Option<string>)>
  {
    if |result| == 0 then []
    else
      var p := result[0];
      seq(|p.materials|, i requires 0 <= i < |p.materials| => (p.name, MaterialName(p.materials[i])))
      + MaterialIds(result[1..])
  }

  /** test_duplicate_upstream_pipelines: each (downstream, upstream) pipeline dependency. */
  function DependencyIds(result: ScriptResult): seq<(string, string)>
  {
    if |result| == 0 then []
    else
      var p := result[0];
      PipelineDeps(p.name, p.materials) + DependencyIds(result[1..])
  }

  function PipelineDeps(name: string, materials: seq<MaterialXml>): seq<(string, string)>
  {
    if |materials| == 0 then []
    else
      var head := if materials[0].PipelineMaterial? then [(name, materials[0].pipelineName)] else [];
      head + PipelineDeps(name, materials[1..])
  }

  /** test_duplicate_artifacts: where each fetch of each job puts which file. */
  function FetchIds(result: ScriptResult): seq<(string, string, string, Option<string>, Option<string>)>
  {
    if |result| == 0 then []
    else StageFetchIds(result[0].name, result[0].stages) + FetchIds(result[1..])
  }

  function StageFetchIds(pipeline: string, stages: seq<StageXml>): seq<(string, string, string, Option<string>, Option<string>)>
  {
    if |stages| == 0 then []
    else JobFetchIds(pipeline, stages[0].name, stages[0].jobs) + StageFetchIds(pipeline, stages[1..])
  }

  function JobFetchIds(pipeline: string, stage: string, jobs: seq<JobXml>): seq<(string, string, string, Option<string>, Option<string>)>
  {
    if |jobs| == 0 then []
    else
      var j := jobs[0];
      seq(|j.fetches|, i requires 0 <= i < |j.fetches| => (pipeline, stage, j.name, j.fetches[i].dest, FetchedFile(j.fetches[i])))
      + JobFetchIds(pipeline, stage, jobs[1..])
  }

  /** Two SCM materials of one pipeline with the same name both count, so the check fails. */
  lemma SameMaterialNameIsDuplicate(result: ScriptResult, k: nat, a: nat, b: nat)
    requires k < |result| && a < b < |result[k].materials|
    requires MaterialName(result[k].materials[a]) == MaterialName(result[k].materials[b])
    ensures Duplicates(MaterialIds(result)) != {}
  {
    var ids := MaterialIds(result);
    var offset := MaterialIdsOffset(result, k);
    assert ids[offset + a] == ids[offset + b];
    NoDuplicatesIffDistinct(ids);
  }

  /** Where pipeline `k`'s material identifiers sit among all of them. */
  lemma {:induction false} MaterialIdsOffset(result: ScriptResult, k: nat) returns (offset: nat)
    requires k < |result|
    ensures offset + |result[k].materials| <= |MaterialIds(result)|
    ensures forall i :: 0 <= i < |result[k].materials| ==>
      MaterialIds(result)[offset + i] == (result[k].name, MaterialName(result[k].materials[i]))
  {
    var p := result[0];
    var head := seq(|p.materials|, i requires 0 <= i < |p.materials| => (p.name, MaterialName(p.materials[i])));
    assert MaterialIds(result) == head + MaterialIds(result[1..]);
    if k == 0 {
      offset := 0;
    } else {
      var rest := MaterialIdsOffset(result[1..], k - 1);
      assert result[1..][k - 1] == result[k];
      offset := |head| + rest;
      forall i | 0 <= i < |result[k].materials|
        ensures MaterialIds(result)[offset + i] == (result[k].name, MaterialName(result[k].materials[i]))
      {
        assert MaterialIds(result)[offset + i] == MaterialIds(result[1..])[rest + i];
      }
    }
  }

  // ---------------------------------------------------------------------
  // environment_variables_for_scm_material (test_scripts.py:227-242)
  // ---------------------------------------------------------------------

  /** Python 2 `str.upper` on ASCII text. */
  function UpperChar(c: char): char
  {
    if 'a' <= c <= 'z' then (c as int - 'a' as int + 'A' as int) as char else c
  }

  /** `re.sub("[^A-Za-z0-9_]", "_", s)` character by character. */
  function Sanitized(c: char): char
  {
    if 'A' <= c <= 'Z' || 'a' <= c <= 'z' || '0' <= c <= '9' || c == '_' then c else '_'
  }

  predicate EnvNameChar(c: char)
  {
    'A' <= c <= 'Z' || '0' <= c <= '9' || c == '_'
  }

  /** The suffix every variable of the material gets. */
  function ScmSuffix(m: MaterialXml): (r: string)
    ensures MaterialName(m).None? ==> r == ""
    ensures MaterialName(m).Some? ==> |r| == |MaterialName(m).value| + 1 && r[0] == '_'
    ensures forall i :: 0 <= i < |r| ==> EnvNameChar(r[i])
  {
    match MaterialName(m)
    case None => ""
    case Some(name) => "_" + seq(|name|, i requires 0 <= i < |name| => Sanitized(UpperChar(name[i])))
  }

  /** `environment_variables_for_scm_material`. */
  function ScmEnvVars(m: MaterialXml): (r: seq<string>)
    ensures |r| == 3
    ensures r[0] == "GO_REVISION" + ScmSuffix(m)
    ensures r[1] == "GO_TO_REVISION" + ScmSuffix(m)
    ensures r[2] == "GO_FROM_REVISION" + ScmSuffix(m)
  {
    var suffix := ScmSuffix(m);
    ["GO_REVISION" + suffix, "GO_TO_REVISION" + suffix, "GO_FROM_REVISION" + suffix]
  }

  /** The three names one material gives are distinct. */
  lemma ScmEnvVarsDistinct(m: MaterialXml)
    ensures ScmEnvVars(m)[0] != ScmEnvVars(m)[1] && ScmEnvVars(m)[1] != ScmEnvVars(m)[2] && ScmEnvVars(m)[0] != ScmEnvVars(m)[2]
  {
    var r := ScmEnvVars(m);
    assert r[0][3] == 'R' && r[1][3] == 'T' && r[2][3] == 'F';
  }
}
