/**
 * The McKinsey Academy (Apros) deployment pipelines
 * (edxpipelines/patterns/apros.py). The builder works like the one in
 * pipelines.py, with three differences: the AMIs are built once per
 * environment rather than once per EDP, every EDP is deployed once per
 * sub-application, and the play and CD environment are popped from sets
 * without checking that there is only one of each.
 */
module Apros {
  import opened Wrappers
  import opened GoCD
  import opened Constants
  import opened Pipelines
  import Utils

  /** `MCKA_SUBAPPS`. */
  const SubApps: seq<string> := ["cms", "lms", "apros"]

  /** The builder's arguments, with `MCKA_PLAYBOOK_PATH`, which constants.py does not define. */
  datatype Request = Request(
    appMaterial: Git,
    cdEdps: seq<EDP>,
    manualEdps: seq<EDP>,
    configurationBranch: Option<string>,
    hasMigrations: bool,
    cdPipelineName: Option<string>,
    manualPipelineName: Option<string>,
    mckaPlaybookPath: string)   // MCKA_PLAYBOOK_PATH

  function AllEdps(req: Request): seq<EDP>
  {
    req.cdEdps + req.manualEdps
  }

  // ---------------------------------------------------------------------
  // The play and the CD pipeline's name (apros.py:167-175)
  // ---------------------------------------------------------------------

  /**
   * `plays.pop()` and `cd_envs.pop()` remove an arbitrary element, so the
   * method may choose any play of the EDPs and, for an unnamed CD pipeline,
   * any environment of the CD EDPs. No EDP at all is a ValueError; an
   * unnamed CD pipeline without CD EDPs pops from an empty set (KeyError).
   * Several plays or several CD environments are accepted.
   */
  method Names(cdEdps: seq<EDP>, manualEdps: seq<EDP>, cdPipelineName: Option<string>)
    returns (r: Result<(string, string), Error>)
    ensures r == Err(NoEdps) <==> cdEdps + manualEdps == []
    ensures r == Err(EmptySetPop) <==> cdEdps + manualEdps != [] && cdPipelineName.None? && cdEdps == []
    ensures r.Err? ==> r.error == NoEdps || r.error == EmptySetPop
    ensures r.Ok? ==> r.value.0 in Plays(cdEdps + manualEdps)
    ensures r.Ok? && cdPipelineName.Some? ==> r.value.1 == cdPipelineName.value
    ensures r.Ok? && cdPipelineName.None? ==>
      exists env :: env in Environments(cdEdps) && r.value.1 == EnvironmentPipelineName(env, r.value.0)
  {
    var all := cdEdps + manualEdps;
    var plays := Plays(all);
    if all == [] {
      return Err(NoEdps);
    }
    assert all[0].play in plays;
    var play :| play in plays;
    match cdPipelineName {
      case Some(n) =>
        r := Ok((play, n));
      case None =>
        var envs := Environments(cdEdps);
        if cdEdps == [] {
          return Err(EmptySetPop);
        }
        assert cdEdps[0].environment in envs;
        var env :| env in envs;
        r := Ok((play, EnvironmentPipelineName(env, play)));
    }
  }

  // ---------------------------------------------------------------------
  // ed_dict: the EDPs grouped by environment (apros.py:161-165)
  // ---------------------------------------------------------------------

  /** The EDPs of one environment, in input order. */
  function InEnvironment(edps: seq<EDP>, env: string): (r: seq<EDP>)
    ensures |r| <= |edps|
  {
    if |edps| == 0 then []
    else
      var last := edps[|edps| - 1];
      InEnvironment(edps[..|edps| - 1], env) + (if last.environment == env then [last] else [])
  }

  /** An environment's group holds exactly the EDPs of that environment. */
  lemma {:induction false} InEnvironmentMembers(edps: seq<EDP>, env: string)
    ensures forall e :: e in InEnvironment(edps, env) <==> e in edps && e.environment == env
  {
    if |edps| > 0 {
      var n := |edps| - 1;
      InEnvironmentMembers(edps[..n], env);
      assert edps == edps[..n] + [edps[n]];
    }
  }

  /** Grouping keeps the input order: the groups of a concatenation are the concatenated groups. */
  lemma {:induction false} InEnvironmentAppend(a: seq<EDP>, b: seq<EDP>, env: string)
    ensures InEnvironment(a + b, env) == InEnvironment(a, env) + InEnvironment(b, env)
  {
    if |b| == 0 {
      assert a + b == a;
    } else {
      var n := |b| - 1;
      assert (a + b)[..|a + b| - 1] == a + b[..n];
      InEnvironmentAppend(a, b[..n], env);
    }
  }

  /** A map from each environment of `edps` to its EDPs in input order. */
  ghost predicate IsGrouping(groups: map<string, seq<EDP>>, edps: seq<EDP>)
  {
    && groups.Keys == Environments(edps)
    && forall env :: env in groups ==> groups[env] == InEnvironment(edps, env)
  }

  /** Every group is non-empty: an environment is a key only once one of its EDPs is appended. */
  lemma GroupsNonEmpty(groups: map<string, seq<EDP>>, edps: seq<EDP>, env: string)
    requires IsGrouping(groups, edps) && env in groups
    ensures |groups[env]| > 0 && groups[env][0].environment == env
  {
    var e :| e in edps && e.environment == env;
    InEnvironmentMembers(edps, env);
    assert e in groups[env];
  }

  lemma {:induction false} InEnvironmentAbsent(edps: seq<EDP>, env: string)
    requires env !in Environments(edps)
    ensures InEnvironment(edps, env) == []
  {
    if |edps| > 0 {
      var n := |edps| - 1;
      assert edps[n] in edps;
      assert Environments(edps[..n]) <= Environments(edps) by {
        forall x | x in Environments(edps[..n]) ensures x in Environments(edps) {
          var e :| e in edps[..n] && e.environment == x;
          assert e in edps;
        }
      }
      InEnvironmentAbsent(edps[..n], env);
    }
  }

  /** `ed_dict[edp.environment].append(edp)`: a missing key starts as an empty list. */
  function AppendToGroup(groups: map<string, seq<EDP>>, edp: EDP): map<string, seq<EDP>>
  {
    var list := if edp.environment in groups then groups[edp.environment] else [];
    groups[edp.environment := list + [edp]]
  }

  /** Appending the next EDP to its group keeps the map a grouping of the longer input. */
  lemma GroupingStep(groups: map<string, seq<EDP>>, edps: seq<EDP>, edp: EDP)
    requires IsGrouping(groups, edps)
    ensures IsGrouping(AppendToGroup(groups, edp), edps + [edp])
  {
    var env := edp.environment;
    var after := edps + [edp];
    assert after[..|after| - 1] == edps;
    assert Environments(after) == Environments(edps) + {env} by {
      assert edp in after;
      forall x | x in Environments(after) ensures x in Environments(edps) + {env} {
        var e :| e in after && e.environment == x;
        assert e == edp || e in edps;
      }
    }
    if env !in groups {
      InEnvironmentAbsent(edps, env);
    }
  }

  /** The `ed_dict[edp.environment].append(edp)` loop over a `defaultdict(list)`. */
  method GroupByEnvironment(edps: seq<EDP>) returns (groups: map<string, seq<EDP>>)
    ensures IsGrouping(groups, edps)
  {
    groups := map[];
    var k := 0;
    while k < |edps|
      invariant 0 <= k <= |edps|
      invariant IsGrouping(groups, edps[..k])
    {
      var edp := edps[k];
      GroupingStep(groups, edps[..k], edp);
      assert edps[..k + 1] == edps[..k] + [edp];
      groups := AppendToGroup(groups, edp);
      k := k + 1;
    }
    assert edps[..k] == edps;
  }

  // ---------------------------------------------------------------------
  // The calls recorded on the stages (apros.py:246-333)
  // ---------------------------------------------------------------------

  /** A list of EDPs as call arguments. */
  function EdpsWords(edps: seq<EDP>): (r: seq<string>)
    ensures |r| == 3 * |edps|
  {
    if |edps| == 0 then [] else EdpsWords(edps[..|edps| - 1]) + EdpWords(edps[|edps| - 1])
  }

  /**
   * The build of one environment's AMI: all of its EDPs, the application's
   * repository, the first EDP's secure and internal repositories, the
   * playbook, and the plays of the first two EDPs (the version tags).
   */
  function BuildCall(req: Request, ms: MaterialSource, edps: seq<EDP>): Call
    requires |edps| >= 2
  {
    Call("generate_build_ami", EdpsWords(edps) + [
      req.appMaterial.url,
      ms.deploymentSecure(edps[0].deployment).url,
      ms.deploymentInternal(edps[0].deployment, req.configurationBranch).url,
      req.mckaPlaybookPath,
      edps[0].play, edps[1].play])
  }

  /** Where one sub-application's deploy job leaves its migration output directory. */
  function MigrationInfoLocation(pipelineName: string, edp: EDP, subApp: string): Utils.ArtifactLocation
  {
    Utils.ArtifactLocation(pipelineName, DeployAmiStageName + "_" + subApp, EnvDeploymentName(edp),
      MigrationOutputDirName, true)
  }

  /** The deployment of one sub-application of `edp` from the AMI the CD pipeline built. */
  function DeployCall(cdName: string, edp: EDP, subApp: string): Call
  {
    Call("generate_deploy_ami", LocationWords(AmiLocation(cdName, edp)) + EdpWords(edp) + [subApp])
  }

  /** The migration rollback of one sub-application of `edp`, as the play's own user. */
  function RollbackMigrationsCall(pipelineName: string, cdName: string, edp: EDP, subApp: string): Call
  {
    Call("generate_rollback_migrations",
      EdpWords(edp) + [edp.play, edp.play, "/edx/app/" + edp.play, DbMigrationUser]
      + LocationWords(MigrationInfoLocation(pipelineName, edp, subApp))
      + LocationWords(AmiLocation(cdName, edp)) + [subApp])
  }

  // ---------------------------------------------------------------------
  // The build loop (apros.py:246-272)
  // ---------------------------------------------------------------------

  /** What the build loop leaves: its calls, and the error that stopped it, if any. */
  datatype BuildOutcome = BuildOutcome(calls: seq<Call>, error: Option<Error>)

  /**
   * The build loop over the environments in `order`: one build per
   * environment, until an environment with a single EDP raises an
   * IndexError on its second EDP (the builds before it stay recorded).
   */
  function BuildLoop(req: Request, ms: MaterialSource, order: seq<string>): BuildOutcome
  {
    if |order| == 0 then BuildOutcome([], None)
    else
      var init := BuildLoop(req, ms, order[..|order| - 1]);
      var env := order[|order| - 1];
      var group := InEnvironment(AllEdps(req), env);
      if init.error.Some? then init
      else if |group| < 2 then BuildOutcome(init.calls, Some(MissingSecondEdp(env)))
      else BuildOutcome(init.calls + [BuildCall(req, ms, group)], None)
  }

  /** Environment `env` has at least two EDPs. */
  predicate Buildable(req: Request, env: string)
  {
    |InEnvironment(AllEdps(req), env)| >= 2
  }

  /** The build loop succeeds exactly when every environment has two EDPs. */
  lemma {:induction false} BuildLoopSucceeds(req: Request, ms: MaterialSource, order: seq<string>)
    ensures BuildLoop(req, ms, order).error.None? <==> forall i :: 0 <= i < |order| ==> Buildable(req, order[i])
  {
    if |order| > 0 {
      var n := |order| - 1;
      BuildLoopStep(req, ms, order);
      BuildLoopSucceeds(req, ms, order[..n]);
      assert forall i :: 0 <= i < n ==> order[..n][i] == order[i];
    }
  }

  /** When every environment has two EDPs, the build loop builds once per environment, in order, from its EDPs. */
  lemma {:induction false} BuildLoopCalls(req: Request, ms: MaterialSource, order: seq<string>)
    requires forall i :: 0 <= i < |order| ==> Buildable(req, order[i])
    ensures var r := BuildLoop(req, ms, order);
      && r.error.None? && |r.calls| == |order|
      && forall i :: 0 <= i < |order| ==>
           Buildable(req, order[i]) && r.calls[i] == BuildCall(req, ms, InEnvironment(AllEdps(req), order[i]))
  {
    if |order| > 0 {
      var n := |order| - 1;
      BuildLoopStep(req, ms, order);
      BuildLoopCalls(req, ms, order[..n]);
      assert forall i :: 0 <= i < n ==> order[..n][i] == order[i];
    }
  }

  /**
   * A failed build loop reports the first environment with fewer than two
   * EDPs, after the builds of the environments before it.
   */
  lemma {:induction false} BuildLoopFailure(req: Request, ms: MaterialSource, order: seq<string>) returns (k: nat)
    requires BuildLoop(req, ms, order).error.Some?
    ensures k < |order| && !Buildable(req, order[k]) && forall i :: 0 <= i < k ==> Buildable(req, order[i])
    ensures BuildLoop(req, ms, order) == BuildOutcome(BuildLoop(req, ms, order[..k]).calls, Some(MissingSecondEdp(order[k])))
  {
    var n := |order| - 1;
    BuildLoopStep(req, ms, order);
    var r0 := BuildLoop(req, ms, order[..n]);
    if r0.error.Some? {
      k := BuildLoopFailure(req, ms, order[..n]);
      assert order[..n][..k] == order[..k];
      assert forall i :: 0 <= i <= k ==> order[..n][i] == order[i];
    } else {
      BuildLoopSucceeds(req, ms, order[..n]);
      assert forall i :: 0 <= i < n ==> order[..n][i] == order[i];
      k := n;
    }
  }

  /** One more environment for the build loop. */
  lemma BuildLoopStep(req: Request, ms: MaterialSource, order: seq<string>)
    requires |order| > 0
    ensures var r0 := BuildLoop(req, ms, order[..|order| - 1]);
      var env := order[|order| - 1];
      BuildLoop(req, ms, order)
        == if r0.error.Some? then r0
           else if !Buildable(req, env) then BuildOutcome(r0.calls, Some(MissingSecondEdp(env)))
           else BuildOutcome(r0.calls + [BuildCall(req, ms, InEnvironment(AllEdps(req), env))], None)
  {
  }

  /** `order` lists keys of `keys`, none twice. */
  predicate IsOrderOf(order: seq<string>, keys: set<string>)
  {
    && (forall i :: 0 <= i < |order| ==> order[i] in keys)
    && (forall i, j :: 0 <= i < j < |order| ==> order[i] != order[j])
  }

  /**
   * The build loop, on the CD pipeline's `build_ami` stage (index 0): the
   * environments come in the dictionary's order, which the model leaves
   * open and reports as `order`. Unless the loop stops at an environment
   * with a single EDP, `order` lists every environment.
   */
  method BuildJobs(cd: Pipeline, groups: map<string, seq<EDP>>, req: Request, ms: MaterialSource)
    returns (err: Option<Error>, ghost order: seq<string>)
    requires cd.Valid() && 0 < |cd.stages| && IsGrouping(groups, AllEdps(req))
    modifies cd`stages
    ensures cd.Valid() && IsOrderOf(order, groups.Keys)
    ensures err.None? ==> forall env :: env in groups ==> env in order
    ensures err == BuildLoop(req, ms, order).error
    ensures cd.stages == AppendCalls(old(cd.stages), 0, BuildLoop(req, ms, order).calls)
  {
    AppendCallsThen(cd.stages, 0, [], []);
    order := [];
    var todo := groups.Keys;
    while todo != {}
      invariant todo <= groups.Keys && cd.Valid() && |cd.stages| == |old(cd.stages)|
      invariant IsOrderOf(order, groups.Keys)
      invariant forall env :: env in groups ==> (env in order <==> env !in todo)
      invariant BuildLoop(req, ms, order).error.None?
      invariant cd.stages == AppendCalls(old(cd.stages), 0, BuildLoop(req, ms, order).calls)
      decreases todo
    {
      var env :| env in todo;
      var edps := groups[env];
      ghost var next := order + [env];
      assert next[..|next| - 1] == order;
      BuildLoopStep(req, ms, next);
      if |edps| < 2 {
        order := next;
        err := Some(MissingSecondEdp(env));
        return;
      }
      var c := BuildCall(req, ms, edps);
      AppendCallsThen(old(cd.stages), 0, BuildLoop(req, ms, order).calls, [c]);
      cd.AddStageCall(0, c);
      order := next;
      todo := todo - {env};
    }
    err := None;
  }

  // ---------------------------------------------------------------------
  // The deploy loop: every EDP, once per sub-application (apros.py:274-333)
  // ---------------------------------------------------------------------

  /** `edp` paired with each sub-application, in order. */
  function Pairs(edp: EDP, subApps: seq<string>): (r: seq<(EDP, string)>)
    ensures |r| == |subApps| && forall j :: 0 <= j < |subApps| ==> r[j] == (edp, subApps[j])
  {
    if |subApps| == 0 then [] else Pairs(edp, subApps[..|subApps| - 1]) + [(edp, subApps[|subApps| - 1])]
  }

  /** The iterations of the two nested loops: EDP by EDP, sub-application by sub-application. */
  function Fanout(edps: seq<EDP>): seq<(EDP, string)>
  {
    if |edps| == 0 then [] else Fanout(edps[..|edps| - 1]) + Pairs(edps[|edps| - 1], SubApps)
  }

  /** Iteration `3 * i + j` deploys sub-application `j` of EDP `i`. */
  lemma {:induction false} FanoutLayout(edps: seq<EDP>)
    ensures |Fanout(edps)| == 3 * |edps|
    ensures forall i, j :: 0 <= i < |edps| && 0 <= j < 3 ==> Fanout(edps)[3 * i + j] == (edps[i], SubApps[j])
  {
    if |edps| > 0 {
      var n := |edps| - 1;
      var front := Fanout(edps[..n]);
      var last := Pairs(edps[n], SubApps);
      FanoutLayout(edps[..n]);
      assert Fanout(edps) == front + last;
      forall i, j | 0 <= i < |edps| && 0 <= j < 3
        ensures Fanout(edps)[3 * i + j] == (edps[i], SubApps[j])
      {
        if i < n {
          assert edps[..n][i] == edps[i];
          assert 3 * i + j < |front|;
          assert (front + last)[3 * i + j] == front[3 * i + j];
        } else {
          assert 3 * i + j == |front| + j;
          assert (front + last)[|front| + j] == last[j];
        }
      }
    }
  }

  function DeployCalls(cdName: string, pairs: seq<(EDP, string)>): (r: seq<Call>)
    ensures |r| == |pairs| && forall i :: 0 <= i < |pairs| ==> r[i] == DeployCall(cdName, pairs[i].0, pairs[i].1)
  {
    if |pairs| == 0 then []
    else DeployCalls(cdName, pairs[..|pairs| - 1]) + [DeployCall(cdName, pairs[|pairs| - 1].0, pairs[|pairs| - 1].1)]
  }

  function RollbackAsgsCalls(pipelineName: string, pairs: seq<(EDP, string)>): (r: seq<Call>)
    ensures |r| == |pairs| && forall i :: 0 <= i < |pairs| ==> r[i] == RollbackAsgsCall(pipelineName, pairs[i].0)
  {
    if |pairs| == 0 then []
    else RollbackAsgsCalls(pipelineName, pairs[..|pairs| - 1]) + [RollbackAsgsCall(pipelineName, pairs[|pairs| - 1].0)]
  }

  function RollbackMigrationsCalls(pipelineName: string, cdName: string, pairs: seq<(EDP, string)>): (r: seq<Call>)
    ensures |r| == |pairs|
    ensures forall i :: 0 <= i < |pairs| ==> r[i] == RollbackMigrationsCall(pipelineName, cdName, pairs[i].0, pairs[i].1)
  {
    if |pairs| == 0 then []
    else
      RollbackMigrationsCalls(pipelineName, cdName, pairs[..|pairs| - 1])
      + [RollbackMigrationsCall(pipelineName, cdName, pairs[|pairs| - 1].0, pairs[|pairs| - 1].1)]
  }

  /**
   * Over a pipeline's EDPs, the deploy stage gets one call per EDP and
   * sub-application, the ASG rollback stage gets each EDP's (identical)
   * call three times, and the migration rollback stage one call per EDP and
   * sub-application.
   */
  lemma FanoutCalls(pipelineName: string, cdName: string, edps: seq<EDP>)
    ensures var pairs := Fanout(edps);
      && |pairs| == 3 * |edps|
      && forall i, j :: 0 <= i < |edps| && 0 <= j < 3 ==>
           && DeployCalls(cdName, pairs)[3 * i + j] == DeployCall(cdName, edps[i], SubApps[j])
           && RollbackAsgsCalls(pipelineName, pairs)[3 * i + j] == RollbackAsgsCall(pipelineName, edps[i])
           && RollbackMigrationsCalls(pipelineName, cdName, pairs)[3 * i + j]
                == RollbackMigrationsCall(pipelineName, cdName, edps[i], SubApps[j])
  {
    FanoutLayout(edps);
  }

  /** The calls one iteration adds: deploy, ASG rollback and, with migrations, migration rollback. */
  function WirePair(stages: seq<Stage>, ds: DeploymentStageIndices, hasMigrations: bool, pipelineName: string,
    cdName: string, pair: (EDP, string)): (r: seq<Stage>)
    requires IndicesIn(ds, |stages|) && (ds.rollbackMigrations.Some? <==> hasMigrations)
    ensures |r| == |stages|
  {
    var (edp, subApp) := pair;
    var s1 := AppendCalls(stages, ds.deploy, [DeployCall(cdName, edp, subApp)]);
    var s2 := AppendCalls(s1, ds.rollbackAsgs, [RollbackAsgsCall(pipelineName, edp)]);
    if hasMigrations then AppendCalls(s2, ds.rollbackMigrations.value, [RollbackMigrationsCall(pipelineName, cdName, edp, subApp)])
    else s2
  }

  /** The deployment calls of one pipeline, iteration by iteration. */
  function WirePairs(stages: seq<Stage>, ds: DeploymentStageIndices, hasMigrations: bool, pipelineName: string,
    cdName: string, pairs: seq<(EDP, string)>): (r: seq<Stage>)
    requires IndicesIn(ds, |stages|) && (ds.rollbackMigrations.Some? <==> hasMigrations)
    ensures |r| == |stages|
  {
    if |pairs| == 0 then stages
    else
      var s := WirePairs(stages, ds, hasMigrations, pipelineName, cdName, pairs[..|pairs| - 1]);
      WirePair(s, ds, hasMigrations, pipelineName, cdName, pairs[|pairs| - 1])
  }

  lemma WirePairEffect(stages: seq<Stage>, ds: DeploymentStageIndices, hasMigrations: bool, pipelineName: string,
    cdName: string, pair: (EDP, string))
    requires IndicesIn(ds, |stages|) && (ds.rollbackMigrations.Some? <==> hasMigrations) && Separate(ds)
    ensures var r := WirePair(stages, ds, hasMigrations, pipelineName, cdName, pair);
      && SameButCalls(r, stages) && OthersUnchanged(r, stages, ds)
      && r[ds.deploy].calls == stages[ds.deploy].calls + [DeployCall(cdName, pair.0, pair.1)]
      && r[ds.rollbackAsgs].calls == stages[ds.rollbackAsgs].calls + [RollbackAsgsCall(pipelineName, pair.0)]
      && (hasMigrations ==>
            r[ds.rollbackMigrations.value].calls
              == stages[ds.rollbackMigrations.value].calls + [RollbackMigrationsCall(pipelineName, cdName, pair.0, pair.1)])
  {
  }

  /** Wiring changes only calls, and only on the deploy and rollback stages. */
  lemma {:induction false} WirePairsShape(stages: seq<Stage>, ds: DeploymentStageIndices, hasMigrations: bool,
    pipelineName: string, cdName: string, pairs: seq<(EDP, string)>)
    requires IndicesIn(ds, |stages|) && (ds.rollbackMigrations.Some? <==> hasMigrations) && Separate(ds)
    ensures var r := WirePairs(stages, ds, hasMigrations, pipelineName, cdName, pairs);
      SameButCalls(r, stages) && OthersUnchanged(r, stages, ds)
  {
    if |pairs| > 0 {
      var n := |pairs| - 1;
      WirePairsShape(stages, ds, hasMigrations, pipelineName, cdName, pairs[..n]);
      var s := WirePairs(stages, ds, hasMigrations, pipelineName, cdName, pairs[..n]);
      WirePairEffect(s, ds, hasMigrations, pipelineName, cdName, pairs[n]);
    }
  }

  /** With three different stages, each iteration adds its calls to its stages, in iteration order. */
  lemma {:induction false} WirePairsCalls(stages: seq<Stage>, ds: DeploymentStageIndices, hasMigrations: bool,
    pipelineName: string, cdName: string, pairs: seq<(EDP, string)>)
    requires IndicesIn(ds, |stages|) && (ds.rollbackMigrations.Some? <==> hasMigrations) && Separate(ds)
    ensures var r := WirePairs(stages, ds, hasMigrations, pipelineName, cdName, pairs);
      && r[ds.deploy].calls == stages[ds.deploy].calls + DeployCalls(cdName, pairs)
      && r[ds.rollbackAsgs].calls == stages[ds.rollbackAsgs].calls + RollbackAsgsCalls(pipelineName, pairs)
      && (hasMigrations ==>
            r[ds.rollbackMigrations.value].calls
              == stages[ds.rollbackMigrations.value].calls + RollbackMigrationsCalls(pipelineName, cdName, pairs))
  {
    if |pairs| > 0 {
      var n := |pairs| - 1;
      var p := pairs[n];
      WirePairsCalls(stages, ds, hasMigrations, pipelineName, cdName, pairs[..n]);
      var s := WirePairs(stages, ds, hasMigrations, pipelineName, cdName, pairs[..n]);
      WirePairEffect(s, ds, hasMigrations, pipelineName, cdName, p);
      SnocAssoc(stages[ds.deploy].calls, DeployCalls(cdName, pairs[..n]), DeployCall(cdName, p.0, p.1));
      SnocAssoc(stages[ds.rollbackAsgs].calls, RollbackAsgsCalls(pipelineName, pairs[..n]), RollbackAsgsCall(pipelineName, p.0));
      if hasMigrations {
        var i := ds.rollbackMigrations.value;
        SnocAssoc(stages[i].calls, RollbackMigrationsCalls(pipelineName, cdName, pairs[..n]),
          RollbackMigrationsCall(pipelineName, cdName, p.0, p.1));
      }
    }
  }

  // ---------------------------------------------------------------------
  // The two pipelines' stages (apros.py:91-117, 178-218, 246-333)
  // ---------------------------------------------------------------------

  /** Where `_generate_deployment_stages` puts its stages after one leading stage. */
  function DeployIndices(hasMigrations: bool): (r: DeploymentStageIndices)
    ensures Separate(r)
  {
    DeploymentStageIndices(1, 2, if hasMigrations then Some(3) else None, None)
  }

  /** The rollback stages, both waiting for an operator. */
  function RollbackStages(hasMigrations: bool): seq<Stage>
  {
    [ManualStage(RollbackAsgsStageName)] + (if hasMigrations then [ManualStage(RollbackMigrationsStageName)] else [])
  }

  /** The CD pipeline's stages before any job: `build_ami`, `deploy_ami`, then the rollback stages. */
  function CdFrameStages(hasMigrations: bool): seq<Stage>
  {
    [EmptyStage(BuildAmiStageName), EmptyStage(DeployAmiStageName)] + RollbackStages(hasMigrations)
  }

  /** The manual pipeline's stages before any job: the armed stage, `deploy_ami` waiting for an operator, the rollbacks. */
  function ManualFrameStages(hasMigrations: bool): seq<Stage>
  {
    [Stage(ArmedStageName, false, [ArmedJob], []), ManualStage(DeployAmiStageName)] + RollbackStages(hasMigrations)
  }

  /** The CD frame the shared framing step builds, without e2e stage, is the one above. */
  lemma CdFrameLaidOut(hasMigrations: bool)
    ensures CdFrame(hasMigrations, None) == (CdFrameStages(hasMigrations), DeployIndices(hasMigrations))
  {
    CdFrameLayout(hasMigrations, None);
    var mig := if hasMigrations then [ManualStage(RollbackMigrationsStageName)] else [];
    assert [EmptyStage(BuildAmiStageName), EmptyStage(DeployAmiStageName)] + E2eStages(None)
      + [ManualStage(RollbackAsgsStageName)] + mig == CdFrameStages(hasMigrations);
  }

  /** The manual frame the shared framing step builds is the one above. */
  lemma ManualFrameLaidOut(hasMigrations: bool)
    ensures ManualFrame(hasMigrations) == (ManualFrameStages(hasMigrations), DeployIndices(hasMigrations))
  {
    ManualFrameLayout(hasMigrations);
    var mig := if hasMigrations then [ManualStage(RollbackMigrationsStageName)] else [];
    assert [Stage(ArmedStageName, false, [ArmedJob], []), ManualStage(DeployAmiStageName),
      ManualStage(RollbackAsgsStageName)] + mig == ManualFrameStages(hasMigrations);
  }

  /** The CD pipeline as framed out, before its materials and jobs: labelled, with its frame stages only. */
  ghost predicate IsFramedCdPipeline(cd: Pipeline, req: Request, cdName: string)
    reads cd
  {
    && cd.name == cdName
    && cd.labelTemplate == Some(DeploymentPipelineLabel(NameText(req.appMaterial.materialName)))
    && cd.stages == CdFrameStages(req.hasMigrations)
    && cd.materials == []
    && cd.envVars == map[] && cd.encryptedVars == map[] && cd.secureVars == map[]
  }

  /** The shared framing of the CD pipeline, without e2e stage, with its frame laid out. */
  method FrameCdPipeline(group: PipelineGroup, cdName: string, labelTemplate: string, hasMigrations: bool)
    returns (cd: Pipeline, ds: DeploymentStageIndices)
    modifies group`pipelines
    ensures fresh(cd) && cd.Valid() && cd.name == cdName && cd.labelTemplate == Some(labelTemplate)
    ensures group.pipelines == WithoutPipeline(old(group.pipelines), cdName) + [cd]
    ensures cd.stages == CdFrameStages(hasMigrations) && ds == DeployIndices(hasMigrations)
    ensures cd.materials == [] && cd.envVars == map[] && cd.encryptedVars == map[] && cd.secureVars == map[]
  {
    cd, ds := FrameCd(group, cdName, labelTemplate, hasMigrations, None);
    CdFrameLaidOut(hasMigrations);
  }

  /** The shared framing of the manual pipeline, with its frame laid out. */
  method FrameManualPipeline(group: PipelineGroup, manualName: string, cdName: string, hasMigrations: bool)
    returns (m: Pipeline, ds: DeploymentStageIndices)
    modifies group`pipelines
    ensures fresh(m) && m.Valid() && m.name == manualName && m.labelTemplate == Some("${" + cdName + "}")
    ensures group.pipelines == WithoutPipeline(old(group.pipelines), manualName) + [m]
    ensures m.stages == ManualFrameStages(hasMigrations) && ds == DeployIndices(hasMigrations)
    ensures m.materials == [UpstreamMaterial(cdName)]
    ensures m.envVars == map[] && m.encryptedVars == map[] && m.secureVars == map[]
  {
    m, ds := FrameManual(group, manualName, cdName, hasMigrations);
    ManualFrameLaidOut(hasMigrations);
  }

  /** The CD pipeline's stages at the end: its frame, the builds of the environments in `order`, the deployments. */
  function CdStages(req: Request, ms: MaterialSource, order: seq<string>, cdName: string): seq<Stage>
  {
    var built := AppendCalls(CdFrameStages(req.hasMigrations), 0, BuildLoop(req, ms, order).calls);
    WirePairs(built, DeployIndices(req.hasMigrations), req.hasMigrations, cdName, cdName, Fanout(req.cdEdps))
  }

  /** The manual pipeline's stages at the end: its frame and the deployments. */
  function ManualStages(req: Request, cdName: string, manualName: string): seq<Stage>
  {
    WirePairs(ManualFrameStages(req.hasMigrations), DeployIndices(req.hasMigrations), req.hasMigrations,
      manualName, cdName, Fanout(req.manualEdps))
  }

  /** The CD frame with the build calls on `build_ami`, before the deployment calls. */
  lemma CdBuiltFramed(hasMigrations: bool, calls: seq<Call>)
    ensures Framed(CallStage(BuildAmiStageName, false, calls), false, [], hasMigrations,
      AppendCalls(CdFrameStages(hasMigrations), 0, calls), DeployIndices(hasMigrations))
  {
    var tail := RollbackStages(hasMigrations);
    var rest := [EmptyStage(DeployAmiStageName)] + [] + tail;
    assert CdFrameStages(hasMigrations) == [] + [EmptyStage(BuildAmiStageName)] + rest;
    AppendCallsAt([], BuildAmiStageName, rest, calls);
    Regroup(CallStage(BuildAmiStageName, false, calls), EmptyStage(DeployAmiStageName), [], tail);
    FramedFromList(CallStage(BuildAmiStageName, false, calls), false, [], hasMigrations,
      AppendCalls(CdFrameStages(hasMigrations), 0, calls), DeployIndices(hasMigrations));
  }

  /**
   * The CD pipeline ends up with, in order: `build_ami` holding the builds
   * of the environments in `order`, `deploy_ami` holding one deploy call
   * per continuous EDP and sub-application, then the rollback stages, both
   * waiting for an operator, holding the ASG rollback calls and, exactly
   * when the service has migrations, the migration rollback calls.
   */
  lemma CdStagesLayout(req: Request, ms: MaterialSource, order: seq<string>, cdName: string)
    ensures var r := CdStages(req, ms, order, cdName);
      var pairs := Fanout(req.cdEdps);
      && |r| == 3 + (if req.hasMigrations then 1 else 0)
      && r[0] == CallStage(BuildAmiStageName, false, BuildLoop(req, ms, order).calls)
      && r[1] == CallStage(DeployAmiStageName, false, DeployCalls(cdName, pairs))
      && r[2] == CallStage(RollbackAsgsStageName, true, RollbackAsgsCalls(cdName, pairs))
      && (req.hasMigrations ==>
            r[3] == CallStage(RollbackMigrationsStageName, true, RollbackMigrationsCalls(cdName, cdName, pairs)))
  {
    var ds := DeployIndices(req.hasMigrations);
    var bc := BuildLoop(req, ms, order).calls;
    var built := AppendCalls(CdFrameStages(req.hasMigrations), 0, bc);
    var pairs := Fanout(req.cdEdps);
    CdBuiltFramed(req.hasMigrations, bc);
    WirePairsShape(built, ds, req.hasMigrations, cdName, cdName, pairs);
    WirePairsCalls(built, ds, req.hasMigrations, cdName, cdName, pairs);
    PlaceCalls(CallStage(BuildAmiStageName, false, bc), false, [], req.hasMigrations,
      built, ds, WirePairs(built, ds, req.hasMigrations, cdName, cdName, pairs),
      DeployCalls(cdName, pairs), RollbackAsgsCalls(cdName, pairs), RollbackMigrationsCalls(cdName, cdName, pairs));
  }

  /**
   * The manual pipeline ends up with, in order: the armed stage, then
   * `deploy_ami`, `rollback_asgs` and, exactly when the service has
   * migrations, `rollback_migrations`, each waiting for an operator and
   * holding the calls of every manual EDP and sub-application.
   */
  lemma ManualStagesLayout(req: Request, cdName: string, manualName: string)
    ensures var r := ManualStages(req, cdName, manualName);
      var pairs := Fanout(req.manualEdps);
      && |r| == 3 + (if req.hasMigrations then 1 else 0)
      && r[0] == Stage(ArmedStageName, false, [ArmedJob], [])
      && r[1] == CallStage(DeployAmiStageName, true, DeployCalls(cdName, pairs))
      && r[2] == CallStage(RollbackAsgsStageName, true, RollbackAsgsCalls(manualName, pairs))
      && (req.hasMigrations ==>
            r[3] == CallStage(RollbackMigrationsStageName, true, RollbackMigrationsCalls(manualName, cdName, pairs)))
  {
    var frame := ManualFrameStages(req.hasMigrations);
    var ds := DeployIndices(req.hasMigrations);
    var pairs := Fanout(req.manualEdps);
    var armed := Stage(ArmedStageName, false, [ArmedJob], []);
    assert frame == [armed, ManualStage(DeployAmiStageName)] + [] + RollbackStages(req.hasMigrations);
    FramedFromList(armed, true, [], req.hasMigrations, frame, ds);
    WirePairsShape(frame, ds, req.hasMigrations, manualName, cdName, pairs);
    WirePairsCalls(frame, ds, req.hasMigrations, manualName, cdName, pairs);
    PlaceCalls(armed, true, [], req.hasMigrations,
      frame, ds, WirePairs(frame, ds, req.hasMigrations, manualName, cdName, pairs),
      DeployCalls(cdName, pairs), RollbackAsgsCalls(manualName, pairs), RollbackMigrationsCalls(manualName, cdName, pairs));
  }

  /** The names the framing steps give to stages. */
  const FrameStageNames: set<string> :=
    {BuildAmiStageName, ArmedStageName, DeployAmiStageName, RollbackAsgsStageName, RollbackMigrationsStageName}

  /** `deploy_ami_<sub-app>` is none of them: its eleventh letter is `_`. */
  lemma SubAppStageNotFramed(subApp: string)
    ensures DeployAmiStageName + "_" + subApp !in FrameStageNames
  {
    var s := DeployAmiStageName + "_" + subApp;
    assert s[10] == '_';
  }

  /** Every stage of the finished CD pipeline bears one of the framing names. */
  lemma CdStagesFramed(req: Request, ms: MaterialSource, order: seq<string>, cdName: string)
    ensures forall n :: n in StageNames(CdStages(req, ms, order, cdName)) ==> n in FrameStageNames
  {
    var r := CdStages(req, ms, order, cdName);
    CdStagesLayout(req, ms, order, cdName);
    forall i | 0 <= i < |r| ensures r[i].name in FrameStageNames {
      assert i == 0 || i == 1 || i == 2 || (req.hasMigrations && i == 3);
    }
  }

  /** Every stage of the finished manual pipeline bears one of the framing names. */
  lemma ManualStagesFramed(req: Request, cdName: string, manualName: string)
    ensures forall n :: n in StageNames(ManualStages(req, cdName, manualName)) ==> n in FrameStageNames
  {
    var r := ManualStages(req, cdName, manualName);
    ManualStagesLayout(req, cdName, manualName);
    forall i | 0 <= i < |r| ensures r[i].name in FrameStageNames {
      assert i == 0 || i == 1 || i == 2 || (req.hasMigrations && i == 3);
    }
  }

  /**
   * The migration-info location of a sub-application names the stage
   * `deploy_ami_<sub-app>`, which neither pipeline has.
   */
  lemma MigrationInfoStageAbsent(req: Request, ms: MaterialSource, order: seq<string>, cdName: string, manualName: string,
    pipelineName: string, edp: EDP, j: nat)
    requires j < |SubApps|
    ensures var stage := MigrationInfoLocation(pipelineName, edp, SubApps[j]).stage;
      && stage !in StageNames(CdStages(req, ms, order, cdName))
      && stage !in StageNames(ManualStages(req, cdName, manualName))
  {
    SubAppStageNotFramed(SubApps[j]);
    CdStagesFramed(req, ms, order, cdName);
    ManualStagesFramed(req, cdName, manualName);
  }

  // ---------------------------------------------------------------------
  // Materials (apros.py:220-243)
  // ---------------------------------------------------------------------

  /** The materials both pipelines get: tubular, configuration, then each EDP's secure and internal repository. */
  function CommonMaterials(req: Request, ms: MaterialSource): seq<Material>
  {
    [AsMaterial(ms.tubular), AsMaterial(ms.configuration(req.configurationBranch))]
    + SecureMaterials(ms, AllEdps(req))
    + InternalMaterials(ms, AllEdps(req), req.configurationBranch)
  }

  function CdMaterials(req: Request, ms: MaterialSource): seq<Material>
  {
    EnsureMaterialIn(EnsureAllIn([], CommonMaterials(req, ms)), AsMaterial(req.appMaterial))
  }

  function ManualMaterials(req: Request, ms: MaterialSource, cdName: string): seq<Material>
  {
    EnsureAllIn([UpstreamMaterial(cdName)], CommonMaterials(req, ms))
  }

  /**
   * The CD pipeline holds each common material and the application's
   * material once; the manual pipeline holds the upstream material first,
   * then each common material once.
   */
  lemma MaterialsContents(req: Request, ms: MaterialSource, cdName: string)
    ensures forall m :: m in CdMaterials(req, ms) <==> m in CommonMaterials(req, ms) || m == AsMaterial(req.appMaterial)
    ensures NoDuplicates(CdMaterials(req, ms))
    ensures var mm := ManualMaterials(req, ms, cdName);
      && |mm| > 0 && mm[0] == UpstreamMaterial(cdName) && NoDuplicates(mm)
      && forall m :: m in mm <==> m == UpstreamMaterial(cdName) || m in CommonMaterials(req, ms)
  {
    EnsureAllInContents([], CommonMaterials(req, ms));
    EnsureAllInContents([UpstreamMaterial(cdName)], CommonMaterials(req, ms));
    assert [UpstreamMaterial(cdName)][..1] == [UpstreamMaterial(cdName)];
  }

  // ---------------------------------------------------------------------
  // The builder's steps
  // ---------------------------------------------------------------------

  lemma WirePairsSnoc(stages: seq<Stage>, ds: DeploymentStageIndices, hasMigrations: bool, pipelineName: string,
    cdName: string, pairs: seq<(EDP, string)>, pair: (EDP, string))
    requires IndicesIn(ds, |stages|) && (ds.rollbackMigrations.Some? <==> hasMigrations)
    ensures WirePairs(stages, ds, hasMigrations, pipelineName, cdName, pairs + [pair])
      == WirePair(WirePairs(stages, ds, hasMigrations, pipelineName, cdName, pairs), ds, hasMigrations, pipelineName, cdName, pair)
  {
    assert (pairs + [pair])[..|pairs|] == pairs;
  }

  /** One iteration of the inner deploy loop: one EDP, one sub-application. */
  method DeployPair(p: Pipeline, ds: DeploymentStageIndices, hasMigrations: bool, cdName: string, pair: (EDP, string))
    requires p.Valid() && IndicesIn(ds, |p.stages|) && (ds.rollbackMigrations.Some? <==> hasMigrations)
    modifies p`stages
    ensures p.Valid() && p.stages == WirePair(old(p.stages), ds, hasMigrations, p.name, cdName, pair)
  {
    var (edp, subApp) := pair;
    p.AddStageCall(ds.deploy, DeployCall(cdName, edp, subApp));
    p.AddStageCall(ds.rollbackAsgs, RollbackAsgsCall(p.name, edp));
    if hasMigrations {
      p.AddStageCall(ds.rollbackMigrations.value, RollbackMigrationsCall(p.name, cdName, edp, subApp));
    }
  }

  /** Wiring two runs of iterations is wiring their concatenation. */
  lemma {:induction false} WirePairsAppend(stages: seq<Stage>, ds: DeploymentStageIndices, hasMigrations: bool,
    pipelineName: string, cdName: string, a: seq<(EDP, string)>, b: seq<(EDP, string)>)
    requires IndicesIn(ds, |stages|) && (ds.rollbackMigrations.Some? <==> hasMigrations)
    ensures WirePairs(stages, ds, hasMigrations, pipelineName, cdName, a + b)
      == WirePairs(WirePairs(stages, ds, hasMigrations, pipelineName, cdName, a), ds, hasMigrations, pipelineName, cdName, b)
  {
    if |b| == 0 {
      assert a + b == a;
    } else {
      var n := |b| - 1;
      WirePairsAppend(stages, ds, hasMigrations, pipelineName, cdName, a, b[..n]);
      assert a + b == (a + b[..n]) + [b[n]];
      WirePairsSnoc(stages, ds, hasMigrations, pipelineName, cdName, a + b[..n], b[n]);
    }
  }

  /** The inner deploy loop: one EDP, each of `subApps` in turn. */
  method DeployEdp(p: Pipeline, ds: DeploymentStageIndices, hasMigrations: bool, cdName: string, edp: EDP,
    subApps: seq<string>)
    requires p.Valid() && IndicesIn(ds, |p.stages|) && (ds.rollbackMigrations.Some? <==> hasMigrations)
    modifies p`stages
    ensures p.Valid() && p.stages == WirePairs(old(p.stages), ds, hasMigrations, p.name, cdName, Pairs(edp, subApps))
  {
    var j := 0;
    while j < |subApps|
      invariant 0 <= j <= |subApps| && p.Valid() && |p.stages| == |old(p.stages)|
      invariant p.stages == WirePairs(old(p.stages), ds, hasMigrations, p.name, cdName, Pairs(edp, subApps[..j]))
    {
      assert subApps[..j + 1][..j] == subApps[..j];
      WirePairsSnoc(old(p.stages), ds, hasMigrations, p.name, cdName, Pairs(edp, subApps[..j]), (edp, subApps[j]));
      DeployPair(p, ds, hasMigrations, cdName, (edp, subApps[j]));
      j := j + 1;
    }
    assert subApps[..j] == subApps;
  }

  /** The deploy loop for one pipeline: every EDP, then every sub-application. */
  method DeployJobs(p: Pipeline, ds: DeploymentStageIndices, hasMigrations: bool, cdName: string, edps: seq<EDP>)
    requires p.Valid() && IndicesIn(ds, |p.stages|) && (ds.rollbackMigrations.Some? <==> hasMigrations)
    modifies p`stages
    ensures p.Valid() && p.stages == WirePairs(old(p.stages), ds, hasMigrations, p.name, cdName, Fanout(edps))
  {
    var k := 0;
    while k < |edps|
      invariant 0 <= k <= |edps| && p.Valid() && |p.stages| == |old(p.stages)|
      invariant p.stages == WirePairs(old(p.stages), ds, hasMigrations, p.name, cdName, Fanout(edps[..k]))
    {
      assert edps[..k + 1][..k] == edps[..k];
      WirePairsAppend(old(p.stages), ds, hasMigrations, p.name, cdName, Fanout(edps[..k]), Pairs(edps[k], SubApps));
      DeployEdp(p, ds, hasMigrations, cdName, edps[k], SubApps);
      k := k + 1;
    }
    assert edps[..k] == edps;
  }

  /**
   * The CD pipeline's materials, builds and deployments. The deployments
   * are added only when every build could be added.
   */
  method CdContents(cd: Pipeline, ds: DeploymentStageIndices, req: Request, ms: MaterialSource,
    groups: map<string, seq<EDP>>)
    returns (err: Option<Error>, ghost order: seq<string>)
    requires cd.Valid() && cd.stages == CdFrameStages(req.hasMigrations) && ds == DeployIndices(req.hasMigrations) && cd.materials == []
    requires cd.labelTemplate == Some(DeploymentPipelineLabel(NameText(req.appMaterial.materialName)))
    requires cd.envVars == map[] && cd.encryptedVars == map[] && cd.secureVars == map[]
    requires IsGrouping(groups, AllEdps(req))
    modifies cd`stages, cd`materials
    ensures IsOrderOf(order, Environments(AllEdps(req)))
    ensures err == BuildLoop(req, ms, order).error
    ensures err.None? ==> forall env :: env in Environments(AllEdps(req)) ==> env in order
    ensures err.None? ==> IsCdPipeline(cd, req, ms, order, cd.name)
    ensures cd.materials == CdMaterials(req, ms)
  {
    EnsureMaterials(cd, CommonMaterials(req, ms));
    cd.EnsureMaterial(AsMaterial(req.appMaterial));
    err, order := CdJobs(cd, ds, req, ms, groups);
  }

  /** The CD pipeline's builds and, when every build could be added, its deployments. */
  method CdJobs(cd: Pipeline, ds: DeploymentStageIndices, req: Request, ms: MaterialSource,
    groups: map<string, seq<EDP>>)
    returns (err: Option<Error>, ghost order: seq<string>)
    requires cd.Valid() && cd.stages == CdFrameStages(req.hasMigrations) && ds == DeployIndices(req.hasMigrations)
    requires IsGrouping(groups, AllEdps(req))
    modifies cd`stages
    ensures IsOrderOf(order, Environments(AllEdps(req)))
    ensures err == BuildLoop(req, ms, order).error
    ensures err.None? ==> forall env :: env in Environments(AllEdps(req)) ==> env in order
    ensures err.None? ==> cd.stages == CdStages(req, ms, order, cd.name)
  {
    err, order := BuildJobs(cd, groups, req, ms);
    if err.None? {
      DeployJobs(cd, ds, req.hasMigrations, cd.name, req.cdEdps);
    }
  }

  /** The manual pipeline's materials and, when `deploy` holds, its deployments. */
  method ManualContents(m: Pipeline, ds: DeploymentStageIndices, req: Request, ms: MaterialSource, cdName: string,
    deploy: bool)
    requires m.Valid() && m.stages == ManualFrameStages(req.hasMigrations) && ds == DeployIndices(req.hasMigrations) && m.materials == [UpstreamMaterial(cdName)]
    requires m.labelTemplate == Some("${" + cdName + "}")
    requires m.envVars == map[] && m.encryptedVars == map[] && m.secureVars == map[]
    modifies m`stages, m`materials
    ensures m.materials == ManualMaterials(req, ms, cdName)
    ensures deploy ==> IsManualPipeline(m, req, ms, cdName, m.name)
  {
    EnsureMaterials(m, CommonMaterials(req, ms));
    if deploy {
      DeployJobs(m, ds, req.hasMigrations, cdName, req.manualEdps);
    }
  }

  /** The CD pipeline as the builder leaves it, its builds in `order`. */
  ghost predicate IsCdPipeline(cd: Pipeline, req: Request, ms: MaterialSource, order: seq<string>, cdName: string)
    reads cd
  {
    && cd.name == cdName
    && cd.labelTemplate == Some(DeploymentPipelineLabel(NameText(req.appMaterial.materialName)))
    && cd.stages == CdStages(req, ms, order, cdName)
    && cd.materials == CdMaterials(req, ms)
    && cd.envVars == map[] && cd.encryptedVars == map[] && cd.secureVars == map[]
  }

  /** The manual pipeline as the builder leaves it. */
  ghost predicate IsManualPipeline(m: Pipeline, req: Request, ms: MaterialSource, cdName: string, manualName: string)
    reads m
  {
    && m.name == manualName
    && m.labelTemplate == Some("${" + cdName + "}")
    && m.stages == ManualStages(req, cdName, manualName)
    && m.materials == ManualMaterials(req, ms, cdName)
    && m.envVars == map[] && m.encryptedVars == map[] && m.secureVars == map[]
  }

  /**
   * The pipelines' names agree with `play`, one of the EDPs' plays: the CD
   * name is the given one or `<env>-<play>` for one of the CD
   * environments, and the manual name (when there are manual EDPs) is the
   * one `ManualName` gives.
   */
  ghost predicate CdNamed(req: Request, play: string, cdName: string)
  {
    && play in Plays(AllEdps(req))
    && (req.cdPipelineName.Some? ==> cdName == req.cdPipelineName.value)
    && (req.cdPipelineName.None? ==>
          exists env :: env in Environments(req.cdEdps) && cdName == EnvironmentPipelineName(env, play))
  }

  ghost predicate Named(req: Request, play: string, cdName: string, manualName: Option<string>)
  {
    && CdNamed(req, play, cdName)
    && (manualName.Some? <==> req.manualEdps != [])
    && (manualName.Some? ==> ManualName(req.manualEdps, req.manualPipelineName, play) == Ok(manualName.value))
  }

  /** The manual pipeline's name, when there is one. */
  function ManualNameOf(c: Created): Option<string>
  {
    if c.manual.Some? then Some(c.manual.value.name) else None
  }

  /** Every environment has two EDPs. */
  ghost predicate AllBuildable(req: Request)
  {
    forall env :: env in Environments(AllEdps(req)) ==> Buildable(req, env)
  }

  /** What the builds tell about the environments: all have two EDPs, or the reported one has fewer. */
  lemma BuildOutcomeMeaning(req: Request, ms: MaterialSource, order: seq<string>)
    requires IsOrderOf(order, Environments(AllEdps(req)))
    ensures var r := BuildLoop(req, ms, order);
      && (r.error.None? && (forall env :: env in Environments(AllEdps(req)) ==> env in order) ==> AllBuildable(req))
      && (r.error.Some? ==>
            && r.error.value.MissingSecondEdp?
            && r.error.value.environment in Environments(AllEdps(req))
            && !Buildable(req, r.error.value.environment))
  {
    var r := BuildLoop(req, ms, order);
    if r.error.None? {
      BuildLoopSucceeds(req, ms, order);
    } else {
      var k := BuildLoopFailure(req, ms, order);
    }
  }

  /** The CD pipeline alone, when there are no manual EDPs: frame, materials, builds, deployments. */
  method BuildCdOnly(group: PipelineGroup, req: Request, ms: MaterialSource, cdName: string,
    groups: map<string, seq<EDP>>)
    returns (r: Result<Created, Error>, ghost order: seq<string>)
    requires IsGrouping(groups, AllEdps(req))
    modifies group`pipelines
    ensures IsOrderOf(order, Environments(AllEdps(req)))
    ensures r.Err? ==> BuildLoop(req, ms, order).error == Some(r.error)
    ensures r.Ok? ==>
      && BuildLoop(req, ms, order).error.None? && (forall env :: env in Environments(AllEdps(req)) ==> env in order)
      && r.value.manual.None? && fresh(r.value.cd) && IsCdPipeline(r.value.cd, req, ms, order, cdName)
      && group.pipelines == WithoutPipeline(old(group.pipelines), cdName) + [r.value.cd]
  {
    var cd, cdStages := FrameCdPipeline(group, cdName, DeploymentPipelineLabel(NameText(req.appMaterial.materialName)),
      req.hasMigrations);
    var err;
    err, order := CdContents(cd, cdStages, req, ms, groups);
    if err.Some? {
      r := Err(err.value);
      return;
    }
    r := Ok(Created(cd, None));
  }

  /**
   * Both pipelines, `manualName` being the outcome of naming the manual
   * one: the CD pipeline is framed first, then a bad name fails, else the
   * manual pipeline is framed and both get their materials, builds and
   * deployments.
   */
  method BuildBoth(group: PipelineGroup, req: Request, ms: MaterialSource, cdName: string,
    manualName: Result<string, Error>, groups: map<string, seq<EDP>>)
    returns (r: Result<Created, Error>, ghost order: seq<string>)
    requires IsGrouping(groups, AllEdps(req))
    modifies group`pipelines
    ensures IsOrderOf(order, Environments(AllEdps(req)))
    ensures manualName.Err? ==>
      && r == Err(manualName.error)
      && |group.pipelines| > 0 && fresh(group.pipelines[|group.pipelines| - 1])
      && group.pipelines == WithoutPipeline(old(group.pipelines), cdName) + [group.pipelines[|group.pipelines| - 1]]
      && IsFramedCdPipeline(group.pipelines[|group.pipelines| - 1], req, cdName)
    ensures manualName.Ok? && r.Err? ==> BuildLoop(req, ms, order).error == Some(r.error)
    ensures r.Ok? ==>
      var cd := r.value.cd;
      && BuildLoop(req, ms, order).error.None? && (forall env :: env in Environments(AllEdps(req)) ==> env in order)
      && r.value.manual.Some?
      && var m := r.value.manual.value;
      && manualName == Ok(m.name)
      && fresh(cd) && IsCdPipeline(cd, req, ms, order, cdName)
      && fresh(m) && m != cd && IsManualPipeline(m, req, ms, cdName, m.name)
      && group.pipelines == WithoutPipeline(WithoutPipeline(old(group.pipelines), cdName) + [cd], m.name) + [m]
  {
    order := [];
    var cd, cdStages := FrameCdPipeline(group, cdName, DeploymentPipelineLabel(NameText(req.appMaterial.materialName)),
      req.hasMigrations);
    if manualName.Err? {
      r := Err(manualName.error);
      return;
    }
    var err, m;
    err, m, order := FrameAndFillBoth(group, cd, cdStages, manualName.value, req, ms, groups);
    if err.Some? {
      r := Err(err.value);
      return;
    }
    r := Ok(Created(cd, Some(m)));
  }

  /** The materials, builds and deployments of both pipelines; the manual pipeline's deployments only after every build. */
  method BothContents(cd: Pipeline, cdStages: DeploymentStageIndices, m: Pipeline, manualStages: DeploymentStageIndices,
    req: Request, ms: MaterialSource, groups: map<string, seq<EDP>>)
    returns (err: Option<Error>, ghost order: seq<string>)
    requires cd != m && IsGrouping(groups, AllEdps(req))
    requires cd.Valid() && cd.stages == CdFrameStages(req.hasMigrations) && cdStages == DeployIndices(req.hasMigrations) && cd.materials == []
    requires m.Valid() && m.stages == ManualFrameStages(req.hasMigrations) && manualStages == DeployIndices(req.hasMigrations)
    requires m.materials == [UpstreamMaterial(cd.name)]
    requires cd.labelTemplate == Some(DeploymentPipelineLabel(NameText(req.appMaterial.materialName)))
    requires cd.envVars == map[] && cd.encryptedVars == map[] && cd.secureVars == map[]
    requires m.labelTemplate == Some("${" + cd.name + "}")
    requires m.envVars == map[] && m.encryptedVars == map[] && m.secureVars == map[]
    modifies cd`stages, cd`materials, m`stages, m`materials
    ensures IsOrderOf(order, Environments(AllEdps(req)))
    ensures err == BuildLoop(req, ms, order).error
    ensures err.None? ==> forall env :: env in Environments(AllEdps(req)) ==> env in order
    ensures err.None? ==> IsCdPipeline(cd, req, ms, order, cd.name) && IsManualPipeline(m, req, ms, cd.name, m.name)
    ensures cd.materials == CdMaterials(req, ms) && m.materials == ManualMaterials(req, ms, cd.name)
  {
    err, order := CdContents(cd, cdStages, req, ms, groups);
    ManualContents(m, manualStages, req, ms, cd.name, err.None?);
  }

  /** With the CD pipeline framed: the manual pipeline's frame, then both pipelines' contents. */
  method FrameAndFillBoth(group: PipelineGroup, cd: Pipeline, cdStages: DeploymentStageIndices, manualName: string,
    req: Request, ms: MaterialSource, groups: map<string, seq<EDP>>)
    returns (err: Option<Error>, m: Pipeline, ghost order: seq<string>)
    requires IsGrouping(groups, AllEdps(req))
    requires cd.Valid() && cd.stages == CdFrameStages(req.hasMigrations) && cdStages == DeployIndices(req.hasMigrations) && cd.materials == []
    requires cd.labelTemplate == Some(DeploymentPipelineLabel(NameText(req.appMaterial.materialName)))
    requires cd.envVars == map[] && cd.encryptedVars == map[] && cd.secureVars == map[]
    modifies group`pipelines, cd`stages, cd`materials
    ensures fresh(m) && m.name == manualName
    ensures group.pipelines == WithoutPipeline(old(group.pipelines), manualName) + [m]
    ensures IsOrderOf(order, Environments(AllEdps(req)))
    ensures err == BuildLoop(req, ms, order).error
    ensures err.None? ==> forall env :: env in Environments(AllEdps(req)) ==> env in order
    ensures err.None? ==> IsCdPipeline(cd, req, ms, order, cd.name) && IsManualPipeline(m, req, ms, cd.name, manualName)
  {
    var manualStages;
    m, manualStages := FrameManualPipeline(group, manualName, cd.name, req.hasMigrations);
    err, order := BothContents(cd, cdStages, m, manualStages, req, ms, groups);
  }

  /**
   * `generate_service_deployment_pipelines`: name the pipelines, group the
   * EDPs by environment, then frame, fill and wire the CD pipeline and,
   * with manual EDPs, the manual one. `order` is the order in which the
   * environments were built.
   */
  method ServiceDeploymentPipelines(group: PipelineGroup, req: Request, ms: MaterialSource)
    returns (r: Result<Created, Error>, ghost order: seq<string>)
    modifies group`pipelines
    ensures r == Err(NoEdps) <==> AllEdps(req) == []
    ensures r == Err(EmptySetPop) <==> AllEdps(req) != [] && req.cdPipelineName.None? && req.cdEdps == []
    ensures r == Err(NoEdps) || r == Err(EmptySetPop) ==> group.pipelines == old(group.pipelines)
    ensures r == Err(MultipleManualEnvironments) <==>
      && AllEdps(req) != [] && (req.cdPipelineName.Some? || req.cdEdps != [])
      && req.manualEdps != [] && req.manualPipelineName.None? && |Environments(req.manualEdps)| > 1
    ensures r == Err(MultipleManualEnvironments) ==>
      && |group.pipelines| > 0
      && var last := group.pipelines[|group.pipelines| - 1];
      && fresh(last) && group.pipelines == WithoutPipeline(old(group.pipelines), last.name) + [last]
      && IsFramedCdPipeline(last, req, last.name) && exists play :: CdNamed(req, play, last.name)
    ensures r.Err? ==>
      r.error == NoEdps || r.error == EmptySetPop || r.error == MultipleManualEnvironments || r.error.MissingSecondEdp?
    ensures r.Err? && r.error.MissingSecondEdp? ==>
      && IsOrderOf(order, Environments(AllEdps(req))) && BuildLoop(req, ms, order).error == Some(r.error)
      && r.error.environment in Environments(AllEdps(req)) && !Buildable(req, r.error.environment)
    ensures r.Ok? ==>
      var cd := r.value.cd;
      && AllBuildable(req)
      && IsOrderOf(order, Environments(AllEdps(req))) && (forall env :: env in Environments(AllEdps(req)) ==> env in order)
      && fresh(cd) && IsCdPipeline(cd, req, ms, order, cd.name)
      && (r.value.manual.Some? <==> req.manualEdps != [])
      && exists play :: Named(req, play, cd.name, ManualNameOf(r.value))
    ensures r.Ok? && r.value.manual.None? ==>
      group.pipelines == WithoutPipeline(old(group.pipelines), r.value.cd.name) + [r.value.cd]
    ensures r.Ok? && r.value.manual.Some? ==>
      var cd := r.value.cd;
      var m := r.value.manual.value;
      && fresh(m) && m != cd && IsManualPipeline(m, req, ms, cd.name, m.name)
      && group.pipelines == WithoutPipeline(WithoutPipeline(old(group.pipelines), cd.name) + [cd], m.name) + [m]
  {
    order := [];
    var names := Names(req.cdEdps, req.manualEdps, req.cdPipelineName);
    if names.Err? {
      r := Err(names.error);
      return;
    }
    var (play, cdName) := names.value;
    var groups := GroupByEnvironment(AllEdps(req));
    if req.manualEdps == [] {
      r, order := BuildCdOnly(group, req, ms, cdName, groups);
      BuildOutcomeMeaning(req, ms, order);
      if r.Ok? {
        assert Named(req, play, cdName, ManualNameOf(r.value));
      }
    } else {
      var manualName := ManualName(req.manualEdps, req.manualPipelineName, play);
      ManualNameOutcome(req.manualEdps, req.manualPipelineName, play);
      r, order := BuildBoth(group, req, ms, cdName, manualName, groups);
      if manualName.Err? {
        assert CdNamed(req, play, cdName);
      }
      if manualName.Ok? {
        BuildOutcomeMeaning(req, ms, order);
      }
      if r.Ok? {
        assert Named(req, play, cdName, ManualNameOf(r.value));
      }
    }
  }
}
