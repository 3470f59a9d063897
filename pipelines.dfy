/**
 * The service deployment layout of edxpipelines/patterns/pipelines.py:
 * the pipeline group of a play, the deployment stages of a pipeline, and
 * the continuous-deployment (CD) and manual pipelines of one service.
 *
 * The job builders `generate_service_deployment_pipelines` calls are either
 * called with arguments that bind to the wrong parameters
 * (`generate_build_ami`, whose `edp` receives the application URL) or are
 * not defined in jobs.py (`generate_deploy_ami`, `generate_rollback_asgs`,
 * `generate_rollback_migrations`, `generate_run_jenkins_job`). Each call
 * raises in the source; the model records it on its stage as a `Call` and
 * describes the pipelines the builder is written to produce past it. The material factories of edxpipelines/materials.py and the two
 * constants the code reads but constants.py does not define are parameters.
 */
module Pipelines {
  import opened Wrappers
  import opened GoCD
  import opened Constants
  import Authz
  import Stages
  import Utils

  /** The exceptions the builders raise. */
  datatype Error =
    | NoEdps                                    // ValueError: nothing to deploy
    | MultiplePlays(plays: set<string>)         // ValueError
    | MultipleCdEnvironments                    // ValueError
    | EmptySetPop                               // KeyError: `pop` from an empty set
    | MultipleManualEnvironments                // ValueError
    | ArgumentCount(callee: string, given: nat, takes: nat)   // TypeError
    | MissingSecondEdp(environment: string)     // IndexError: an environment with one EDP

  // ---------------------------------------------------------------------
  // generate_service_pipeline_group (pipelines.py:205-221)
  // ---------------------------------------------------------------------

  /** `'-'.join([play, 'admin'])`. */
  function AdminRole(play: string): string
  {
    play + "-admin"
  }

  /** `'-'.join([play, 'operator'])`. */
  function OperatorRole(play: string): string
  {
    play + "-operator"
  }

  /** The group's authorization after granting admins, then operate, then view. */
  function GroupAuthorization(play: string): seq<PermissionElement>
  {
    var admins := Authz.WithRoles([], Authz.PermissionValue(Authz.Admins), [AdminRole(play)]);
    var operate := Authz.WithRoles(admins, Authz.PermissionValue(Authz.Operate), [OperatorRole(play)]);
    Authz.WithRoles(operate, Authz.PermissionValue(Authz.View), [OperatorRole(play)])
  }

  /**
   * A fresh group ends up with exactly three permission elements: the
   * admin role administers, the operator role operates and views.
   */
  lemma GroupAuthorizationLayout(play: string)
    ensures GroupAuthorization(play) == [
      PermissionElement("admins", [XmlChild("role", play + "-admin")]),
      PermissionElement("operate", [XmlChild("role", play + "-operator")]),
      PermissionElement("view", [XmlChild("role", play + "-operator")])]
  {
    var adminRoles := [XmlChild("role", play + "-admin")];
    var operatorRoles := [XmlChild("role", play + "-operator")];
    Authz.RoleChildrenExact([AdminRole(play)]);
    Authz.RoleChildrenExact([OperatorRole(play)]);
    assert Authz.RoleChildren([AdminRole(play)]) == adminRoles;
    assert Authz.RoleChildren([OperatorRole(play)]) == operatorRoles;
    var admin := PermissionElement("admins", adminRoles);
    var operate := PermissionElement("operate", operatorRoles);
    assert Authz.Tags([]) == [];
    assert IndexOf([], "admins") == None;
    var s1 := Authz.WithRoles([], Authz.PermissionValue(Authz.Admins), [AdminRole(play)]);
    assert s1 == [admin];
    assert Authz.Tags([admin]) == ["admins"];
    assert IndexOf(["admins"], "operate") == None;
    var s2 := Authz.WithRoles(s1, Authz.PermissionValue(Authz.Operate), [OperatorRole(play)]);
    assert s2 == [admin, operate];
    assert Authz.Tags([admin, operate]) == ["admins", "operate"];
    assert IndexOf(["admins", "operate"], "view") == None;
  }

  /** The groups left after removing `n` hold no group named `n`. */
  lemma NoGroupNamed(gs: seq<PipelineGroup>, n: string)
    ensures n !in GroupNames(WithoutGroup(gs, n))
  {
    var r := WithoutGroup(gs, n);
    forall i | 0 <= i < |r| ensures GroupNames(r)[i] != n {
      assert r[i].name != n;
    }
  }

  /**
   * The group builder as written: `ensure_permissions` takes three
   * parameters (authz.py:19) but is called with the configurator in front
   * of them, so the first call raises TypeError after the fresh group is in
   * place and before any role is granted.
   */
  method ServicePipelineGroupAsWritten(configurator: Configurator, play: string) returns (r: Result<PipelineGroup, Error>)
    modifies configurator`groups
    ensures r == Err(ArgumentCount("ensure_permissions", 4, 3))
    ensures |configurator.groups| > 0
    ensures var g := configurator.groups[|configurator.groups| - 1];
      && fresh(g) && g.name == play && g.pipelines == [] && g.authorization == None
      && configurator.groups == WithoutGroup(old(configurator.groups), play) + [g]
  {
    configurator.EnsureRemovalOfPipelineGroup(play);
    NoGroupNamed(old(configurator.groups), play);
    var group := configurator.EnsurePipelineGroup(play);
    r := Err(ArgumentCount("ensure_permissions", 4, 3));
  }

  /**
   * The group builder as intended: replace any group named after the play
   * with a fresh one and grant `<play>-admin` the admins permission and
   * `<play>-operator` the operate and view permissions.
   */
  method ServicePipelineGroup(configurator: Configurator, play: string) returns (group: PipelineGroup)
    modifies configurator`groups
    ensures fresh(group) && group.name == play && group.pipelines == []
    ensures configurator.groups == WithoutGroup(old(configurator.groups), play) + [group]
    ensures group.authorization == Some(GroupAuthorization(play))
  {
    configurator.EnsureRemovalOfPipelineGroup(play);
    NoGroupNamed(old(configurator.groups), play);
    group := configurator.EnsurePipelineGroup(play);
    Authz.EnsurePermissions(group, Authz.Admins, [AdminRole(play)]);
    Authz.EnsurePermissions(group, Authz.Operate, [OperatorRole(play)]);
    Authz.EnsurePermissions(group, Authz.View, [OperatorRole(play)]);
  }

  // ---------------------------------------------------------------------
  // _generate_deployment_stages (pipelines.py:227-257)
  // ---------------------------------------------------------------------

  /** The stages `_generate_deployment_stages` hands back, as stage indices. */
  datatype DeploymentStageIndices = DeploymentStageIndices(
    deploy: nat,
    rollbackAsgs: nat,
    rollbackMigrations: Option<nat>,
    e2eTests: Option<nat>)

  predicate IndicesIn(ds: DeploymentStageIndices, n: nat)
  {
    && ds.deploy < n && ds.rollbackAsgs < n
    && (ds.rollbackMigrations.Some? ==> ds.rollbackMigrations.value < n)
    && (ds.e2eTests.Some? ==> ds.e2eTests.value < n)
  }

  /** The deploy and rollback stages are three different stages. */
  predicate Separate(ds: DeploymentStageIndices)
  {
    && ds.deploy != ds.rollbackAsgs
    && (ds.rollbackMigrations.Some? ==>
          ds.rollbackMigrations.value != ds.deploy && ds.rollbackMigrations.value != ds.rollbackAsgs)
  }

  /** `ensure_stage` followed by `set_has_manual_approval`. */
  function EnsureManualIn(stages: seq<Stage>, name: string): (r: (seq<Stage>, nat))
    ensures r.1 < |r.0| && |stages| <= |r.0| && r.0[r.1].name == name && r.0[r.1].manualApproval
  {
    var (s, i) := EnsureStageIn(stages, name);
    (s[i := s[i].(manualApproval := true)], i)
  }

  /**
   * The stage list and stages after `_generate_deployment_stages`; `e2e`
   * is the e2e stage's name when e2e tests run after the deployment.
   */
  function DeploymentStagesIn(stages: seq<Stage>, hasMigrations: bool, e2e: Option<string>)
    : (r: (seq<Stage>, DeploymentStageIndices))
    ensures |stages| <= |r.0| && IndicesIn(r.1, |r.0|)
    ensures r.1.rollbackMigrations.Some? <==> hasMigrations
    ensures r.1.e2eTests.Some? <==> e2e.Some?
  {
    var (s1, deploy) := EnsureStageIn(stages, DeployAmiStageName);
    var (s2, e2eTests) :=
      match e2e
      case None => (s1, None)
      case Some(n) => var (s, i) := EnsureStageIn(s1, n); (s, Some(i));
    var (s3, rollbackAsgs) := EnsureManualIn(s2, RollbackAsgsStageName);
    var (s4, rollbackMigrations) :=
      if hasMigrations then var (s, i) := EnsureManualIn(s3, RollbackMigrationsStageName); (s, Some(i))
      else (s3, None);
    (s4, DeploymentStageIndices(deploy, rollbackAsgs, rollbackMigrations, e2eTests))
  }

  /** `_generate_deployment_stages`. */
  method DeploymentStages(p: Pipeline, hasMigrations: bool, e2e: Option<string>) returns (ds: DeploymentStageIndices)
    requires p.Valid()
    modifies p`stages
    ensures p.Valid()
    ensures (p.stages, ds) == DeploymentStagesIn(old(p.stages), hasMigrations, e2e)
  {
    var deploy := p.EnsureStage(DeployAmiStageName);
    var e2eTests: Option<nat> := None;
    if e2e.Some? {
      var i := p.EnsureStage(e2e.value);
      e2eTests := Some(i);
    }
    var rollbackAsgs := p.EnsureStage(RollbackAsgsStageName);
    p.SetHasManualApproval(rollbackAsgs);
    var rollbackMigrations: Option<nat> := None;
    if hasMigrations {
      var i := p.EnsureStage(RollbackMigrationsStageName);
      p.SetHasManualApproval(i);
      rollbackMigrations := Some(i);
    }
    ds := DeploymentStageIndices(deploy, rollbackAsgs, rollbackMigrations, e2eTests);
  }

  /** A stage with no job that waits for an operator. */
  function ManualStage(name: string): Stage
  {
    Stage(name, true, [], [])
  }

  function E2eStages(e2e: Option<string>): seq<Stage>
  {
    match e2e
    case None => []
    case Some(n) => [EmptyStage(n)]
  }

  lemma StageNamesAppend(stages: seq<Stage>, s: Stage)
    ensures StageNames(stages + [s]) == StageNames(stages) + [s.name]
  {
  }

  /**
   * On a pipeline that has none of these stages, the deployment stages are
   * appended in the order deploy, e2e tests (when asked for), ASG rollback,
   * migration rollback (exactly when the service has migrations); both
   * rollback stages wait for an operator and the others do not.
   */
  lemma DeploymentStagesLayout(stages: seq<Stage>, hasMigrations: bool, e2e: Option<string>)
    requires DeployAmiStageName !in StageNames(stages)
    requires RollbackAsgsStageName !in StageNames(stages)
    requires RollbackMigrationsStageName !in StageNames(stages)
    requires e2e.Some? ==> e2e.value !in StageNames(stages)
    requires e2e.Some? ==> e2e.value != DeployAmiStageName && e2e.value != RollbackAsgsStageName
    requires e2e.Some? ==> e2e.value != RollbackMigrationsStageName
    ensures var (r, ds) := DeploymentStagesIn(stages, hasMigrations, e2e);
      var n := |stages|;
      var k := |E2eStages(e2e)|;
      && r == stages + [EmptyStage(DeployAmiStageName)] + E2eStages(e2e) + [ManualStage(RollbackAsgsStageName)]
              + (if hasMigrations then [ManualStage(RollbackMigrationsStageName)] else [])
      && ds == DeploymentStageIndices(n, n + 1 + k, if hasMigrations then Some(n + 2 + k) else None,
                                      if e2e.Some? then Some(n + 1) else None)
  {
    var n := |stages|;
    AppendFresh(stages, DeployAmiStageName);
    var s1 := stages + [EmptyStage(DeployAmiStageName)];
    var s2 := s1 + E2eStages(e2e);
    if e2e.Some? {
      AppendFresh(s1, e2e.value);
    } else {
      assert s2 == s1;
    }
    assert StageNames(s2) == StageNames(stages) + [DeployAmiStageName] + (if e2e.Some? then [e2e.value] else []);
    AppendFreshManual(s2, RollbackAsgsStageName);
    var s3 := s2 + [ManualStage(RollbackAsgsStageName)];
    if hasMigrations {
      AppendFreshManual(s3, RollbackMigrationsStageName);
    }
  }

  lemma AppendFresh(stages: seq<Stage>, name: string)
    requires name !in StageNames(stages)
    ensures EnsureStageIn(stages, name) == (stages + [EmptyStage(name)], |stages|)
    ensures StageNames(stages + [EmptyStage(name)]) == StageNames(stages) + [name]
  {
    EnsureStageInKeepsOthers(stages, name);
  }

  lemma AppendFreshManual(stages: seq<Stage>, name: string)
    requires name !in StageNames(stages)
    ensures EnsureManualIn(stages, name) == (stages + [ManualStage(name)], |stages|)
    ensures StageNames(stages + [ManualStage(name)]) == StageNames(stages) + [name]
  {
    AppendFresh(stages, name);
    assert (stages + [EmptyStage(name)])[|stages| := ManualStage(name)] == stages + [ManualStage(name)];
  }


  // ---------------------------------------------------------------------
  // generate_service_deployment_pipelines (pipelines.py:260-499)
  // ---------------------------------------------------------------------

  /** A GitMaterial's identifying fields. */
  datatype Git = Git(url: string, materialName: Option<string>, dest: Option<string>)

  function AsMaterial(g: Git): Material
  {
    ScmMaterial(g.url, g.materialName, g.dest)
  }

  /**
   * The material factories the builder calls (`TUBULAR`, `CONFIGURATION`,
   * `EDX_ANSIBLE_PRIVATE`, `MCKA_ANSIBLE_PRIVATE`, `deployment_secure`,
   * `deployment_internal`).
   */
  datatype MaterialSource = MaterialSource(
    tubular: Git,
    configuration: Option<string> -> Git,
    edxAnsiblePrivate: Git,
    mckaAnsiblePrivate: Git,
    deploymentSecure: string -> Git,
    deploymentInternal: (string, Option<string>) -> Git)

  /** The builder's arguments, with the two constants it reads that constants.py does not define. */
  datatype Request = Request(
    config: EDP -> map<string, string>,
    appMaterial: Git,
    cdEdps: seq<EDP>,
    manualEdps: seq<EDP>,
    configurationBranch: Option<string>,
    hasMigrations: bool,
    cdPipelineName: Option<string>,
    manualPipelineName: Option<string>,
    applicationUser: Option<string>,
    runE2eTestsAfterDeploy: bool,
    playbookPathTpl: string -> string,
    e2eTestsStageName: string,             // E2E_TESTS_STAGE_NAME
    migrationOutputDir: string -> string)  // MIGRATION_OUTPUT_DIR_NAME_WITH_APP

  function AllEdps(req: Request): seq<EDP>
  {
    req.cdEdps + req.manualEdps
  }

  /** The e2e stage's name when e2e tests run after the deployment. */
  function E2e(req: Request): Option<string>
  {
    if req.runE2eTestsAfterDeploy then Some(req.e2eTestsStageName) else None
  }

  /** `application_user if application_user else edp.play`. */
  function AppUser(req: Request, edp: EDP): string
  {
    if req.applicationUser.Some? && req.applicationUser.value != "" then req.applicationUser.value else edp.play
  }

  /** `str.format` of a material name that may be None. */
  function NameText(name: Option<string>): string
  {
    match name
    case Some(n) => n
    case None => "None"
  }

  function Plays(edps: seq<EDP>): set<string>
  {
    set e | e in edps :: e.play
  }

  function Environments(edps: seq<EDP>): set<string>
  {
    set e | e in edps :: e.environment
  }

  lemma SingletonSet(s: set<string>, x: string)
    requires |s| == 1 && x in s
    ensures s == {x}
  {
    assert s == (s - {x}) + {x};
    assert |s - {x}| == 0;
  }

  /**
   * The validation before anything is built: the play (the single play of
   * all EDPs) and the CD pipeline's name (given, or `<env>-<play>` from the
   * single environment of the CD EDPs).
   */
  function ServiceNames(cdEdps: seq<EDP>, manualEdps: seq<EDP>, cdPipelineName: Option<string>)
    : (r: Result<(string, string), Error>)
  {
    var all := cdEdps + manualEdps;
    var plays := Plays(all);
    if |all| == 0 then Err(NoEdps)
    else if |plays| > 1 then Err(MultiplePlays(plays))
    else
      var play := all[0].play;
      match cdPipelineName
      case Some(n) => Ok((play, n))
      case None =>
        if |Environments(cdEdps)| > 1 then Err(MultipleCdEnvironments)
        else if |cdEdps| == 0 then Err(EmptySetPop)
        else Ok((play, EnvironmentPipelineName(cdEdps[0].environment, play)))
  }

  /**
   * Validation fails exactly on the inputs the source rejects, with the
   * exception it raises; on success the play is the one play of all EDPs
   * and an unnamed CD pipeline is named after the one CD environment.
   */
  lemma ServiceNamesOutcome(cdEdps: seq<EDP>, manualEdps: seq<EDP>, cdPipelineName: Option<string>)
    ensures var all := cdEdps + manualEdps;
      var r := ServiceNames(cdEdps, manualEdps, cdPipelineName);
      && (r == Err(NoEdps) <==> Plays(all) == {})
      && (r.Err? && r.error.MultiplePlays? <==> |Plays(all)| > 1)
      && (r == Err(MultipleCdEnvironments) <==>
            |Plays(all)| == 1 && cdPipelineName.None? && |Environments(cdEdps)| > 1)
      && (r == Err(EmptySetPop) <==> |Plays(all)| == 1 && cdPipelineName.None? && cdEdps == [])
      && (r.Ok? ==> Plays(all) == {r.value.0})
      && (r.Ok? && cdPipelineName.Some? ==> r.value.1 == cdPipelineName.value)
      && (r.Ok? && cdPipelineName.None? ==>
            Environments(cdEdps) == {cdEdps[0].environment}
            && r.value.1 == EnvironmentPipelineName(cdEdps[0].environment, r.value.0))
  {
    var all := cdEdps + manualEdps;
    if |all| > 0 {
      assert all[0].play in Plays(all);
      if |Plays(all)| <= 1 {
        SingletonSet(Plays(all), all[0].play);
      }
    }
    if |cdEdps| > 0 {
      assert cdEdps[0].environment in Environments(cdEdps);
      if |Environments(cdEdps)| <= 1 {
        SingletonSet(Environments(cdEdps), cdEdps[0].environment);
      }
    }
  }

  /** The manual pipeline's name: given, or `<env>-<play>` from the single manual environment. */
  function ManualName(manualEdps: seq<EDP>, manualPipelineName: Option<string>, play: string): (r: Result<string, Error>)
    requires manualEdps != []
  {
    match manualPipelineName
    case Some(n) => Ok(n)
    case None =>
      if |Environments(manualEdps)| > 1 then Err(MultipleManualEnvironments)
      else Ok(EnvironmentPipelineName(manualEdps[0].environment, play))
  }

  lemma ManualNameOutcome(manualEdps: seq<EDP>, manualPipelineName: Option<string>, play: string)
    requires manualEdps != []
    ensures var r := ManualName(manualEdps, manualPipelineName, play);
      && (r.Err? <==> manualPipelineName.None? && |Environments(manualEdps)| > 1)
      && (r.Err? ==> r.error == MultipleManualEnvironments)
      && (r.Ok? && manualPipelineName.None? ==>
            Environments(manualEdps) == {manualEdps[0].environment}
            && r.value == EnvironmentPipelineName(manualEdps[0].environment, play))
  {
    assert manualEdps[0].environment in Environments(manualEdps);
    if |Environments(manualEdps)| <= 1 {
      SingletonSet(Environments(manualEdps), manualEdps[0].environment);
    }
  }

  // Frames of the two pipelines

  /** The CD pipeline's stages before any job: `build_ami`, then the deployment stages. */
  function CdFrame(hasMigrations: bool, e2e: Option<string>): (r: (seq<Stage>, DeploymentStageIndices))
    ensures 0 < |r.0| && IndicesIn(r.1, |r.0|)
    ensures r.1.rollbackMigrations.Some? <==> hasMigrations
    ensures r.1.e2eTests.Some? <==> e2e.Some?
  {
    DeploymentStagesIn([EmptyStage(BuildAmiStageName)], hasMigrations, e2e)
  }

  /** The manual pipeline's stages before any job: the armed stage, then the deployment stages, deploy manual. */
  function ManualFrame(hasMigrations: bool): (r: (seq<Stage>, DeploymentStageIndices))
    ensures IndicesIn(r.1, |r.0|)
    ensures r.1.rollbackMigrations.Some? <==> hasMigrations
  {
    var armed := Stages.Built([], Stages.ArmedBuild(ArmedStageName));
    var (s, ds) := DeploymentStagesIn(armed, hasMigrations, None);
    (s[ds.deploy := s[ds.deploy].(manualApproval := true)], ds)
  }

  /** The job the armed stage holds. */
  const ArmedJob := Job(ArmedJobName, [Stages.ArmedEcho], {}, map[], map[])

  /**
   * The CD pipeline's stages are, in order, `build_ami`, `deploy_ami`, the
   * e2e stage (when asked for), `rollback_asgs` and, exactly when the
   * service has migrations, `rollback_migrations`; only the rollback stages
   * wait for an operator.
   */
  lemma CdFrameLayout(hasMigrations: bool, e2e: Option<string>)
    requires e2e.Some? ==> e2e.value !in {BuildAmiStageName, DeployAmiStageName, RollbackAsgsStageName, RollbackMigrationsStageName}
    ensures var (r, ds) := CdFrame(hasMigrations, e2e);
      var k := |E2eStages(e2e)|;
      && r == [EmptyStage(BuildAmiStageName), EmptyStage(DeployAmiStageName)] + E2eStages(e2e)
              + [ManualStage(RollbackAsgsStageName)]
              + (if hasMigrations then [ManualStage(RollbackMigrationsStageName)] else [])
      && ds == DeploymentStageIndices(1, 2 + k, if hasMigrations then Some(3 + k) else None,
                                      if e2e.Some? then Some(2) else None)
  {
    DeploymentStagesLayout([EmptyStage(BuildAmiStageName)], hasMigrations, e2e);
  }

  /**
   * The manual pipeline's stages are, in order, the armed stage (one echo
   * job, no approval), `deploy_ami`, `rollback_asgs` and, exactly when the
   * service has migrations, `rollback_migrations`; every stage after the
   * armed one waits for an operator.
   */
  lemma ManualFrameLayout(hasMigrations: bool)
    ensures var (r, ds) := ManualFrame(hasMigrations);
      && r == [Stage(ArmedStageName, false, [ArmedJob], []), ManualStage(DeployAmiStageName),
               ManualStage(RollbackAsgsStageName)]
              + (if hasMigrations then [ManualStage(RollbackMigrationsStageName)] else [])
      && ds == DeploymentStageIndices(1, 2, if hasMigrations then Some(3) else None, None)
  {
    Stages.ArmedStageLayout([], ArmedStageName);
    var armed := [Stage(ArmedStageName, false, [ArmedJob], [])];
    assert Stages.Built([], Stages.ArmedBuild(ArmedStageName)) == armed;
    assert StageNames(armed) == [ArmedStageName];
    DeploymentStagesLayout(armed, hasMigrations, None);
  }

  // The calls recorded on the stages

  /** An EDP as call arguments. */
  function EdpWords(edp: EDP): seq<string>
  {
    [edp.environment, edp.deployment, edp.play]
  }

  /** An artifact location as call arguments. */
  function LocationWords(loc: Utils.ArtifactLocation): seq<string>
  {
    [loc.pipeline, loc.stage, loc.job, loc.fileName] + (if loc.isDir then ["is_dir"] else [])
  }

  /** Where the CD pipeline's build job leaves the AMI it built for `edp`. */
  function AmiLocation(cdName: string, edp: EDP): Utils.ArtifactLocation
  {
    Utils.ArtifactLocation(cdName, BuildAmiStageName, EnvDeploymentName(edp), BuildAmiFilename)
  }

  /** Where a pipeline's deploy job leaves its deployment information for `edp`. */
  function DeploymentLocation(pipelineName: string, edp: EDP): Utils.ArtifactLocation
  {
    Utils.ArtifactLocation(pipelineName, DeployAmiStageName, EnvDeploymentName(edp), DeployAmiOutFilename)
  }

  /** Where a pipeline's deploy job leaves the migration output directory for `edp`. */
  function MigrationInfoLocation(req: Request, pipelineName: string, edp: EDP): Utils.ArtifactLocation
  {
    Utils.ArtifactLocation(pipelineName, DeployAmiStageName, EnvDeploymentName(edp),
      req.migrationOutputDir(AppUser(req, edp)), true)
  }

  function BuildCall(req: Request, ms: MaterialSource, edp: EDP): Call
  {
    Call("generate_build_ami", EdpWords(edp) + [
      req.appMaterial.url,
      ms.deploymentSecure(edp.deployment).url,
      ms.deploymentInternal(edp.deployment, req.configurationBranch).url,
      req.playbookPathTpl(edp.play)])
  }

  function JenkinsCall(edp: EDP): Call
  {
    Call("generate_run_jenkins_job", EdpWords(edp))
  }

  function DeployCall(cdName: string, edp: EDP): Call
  {
    Call("generate_deploy_ami", LocationWords(AmiLocation(cdName, edp)) + EdpWords(edp))
  }

  function RollbackAsgsCall(pipelineName: string, edp: EDP): Call
  {
    Call("generate_rollback_asgs", EdpWords(edp) + LocationWords(DeploymentLocation(pipelineName, edp)))
  }

  function RollbackMigrationsCall(req: Request, pipelineName: string, cdName: string, edp: EDP): Call
  {
    Call("generate_rollback_migrations",
      EdpWords(edp) + [AppUser(req, edp), edp.play, "/edx/app/" + edp.play, DbMigrationUser]
      + LocationWords(MigrationInfoLocation(req, pipelineName, edp)) + LocationWords(AmiLocation(cdName, edp)))
  }

  /** One build call per EDP, in order. */
  function BuildCalls(req: Request, ms: MaterialSource, edps: seq<EDP>): (r: seq<Call>)
    ensures |r| == |edps| && forall i :: 0 <= i < |edps| ==> r[i] == BuildCall(req, ms, edps[i])
  {
    if |edps| == 0 then [] else BuildCalls(req, ms, edps[..|edps| - 1]) + [BuildCall(req, ms, edps[|edps| - 1])]
  }

  function DeployCalls(cdName: string, edps: seq<EDP>): (r: seq<Call>)
    ensures |r| == |edps| && forall i :: 0 <= i < |edps| ==> r[i] == DeployCall(cdName, edps[i])
  {
    if |edps| == 0 then [] else DeployCalls(cdName, edps[..|edps| - 1]) + [DeployCall(cdName, edps[|edps| - 1])]
  }

  function RollbackAsgsCalls(pipelineName: string, edps: seq<EDP>): (r: seq<Call>)
    ensures |r| == |edps| && forall i :: 0 <= i < |edps| ==> r[i] == RollbackAsgsCall(pipelineName, edps[i])
  {
    if |edps| == 0 then [] else RollbackAsgsCalls(pipelineName, edps[..|edps| - 1]) + [RollbackAsgsCall(pipelineName, edps[|edps| - 1])]
  }

  function RollbackMigrationsCalls(req: Request, pipelineName: string, cdName: string, edps: seq<EDP>): (r: seq<Call>)
    ensures |r| == |edps| && forall i :: 0 <= i < |edps| ==> r[i] == RollbackMigrationsCall(req, pipelineName, cdName, edps[i])
  {
    if |edps| == 0 then []
    else
      RollbackMigrationsCalls(req, pipelineName, cdName, edps[..|edps| - 1])
      + [RollbackMigrationsCall(req, pipelineName, cdName, edps[|edps| - 1])]
  }

  /** `config_edp.get('jenkins_job_token') and config_edp.get('jenkins_job_name')`. */
  predicate JenkinsEnabled(c: map<string, string>)
  {
    && "jenkins_job_token" in c && c["jenkins_job_token"] != ""
    && "jenkins_job_name" in c && c["jenkins_job_name"] != ""
  }

  /** The e2e calls: one per EDP whose configuration opts in, in order. */
  function JenkinsCalls(req: Request, edps: seq<EDP>): seq<Call>
  {
    if |edps| == 0 then []
    else
      var edp := edps[|edps| - 1];
      JenkinsCalls(req, edps[..|edps| - 1]) + (if JenkinsEnabled(req.config(edp)) then [JenkinsCall(edp)] else [])
  }

  lemma EdpWordsInjective(a: EDP, b: EDP)
    ensures EdpWords(a) == EdpWords(b) <==> a == b
  {
    if EdpWords(a) == EdpWords(b) {
      assert EdpWords(a)[0] == EdpWords(b)[0] && EdpWords(a)[1] == EdpWords(b)[1] && EdpWords(a)[2] == EdpWords(b)[2];
    }
  }

  /** An EDP gets an e2e call exactly when it is a CD EDP whose configuration opts in. */
  lemma {:induction false} JenkinsCallsSelect(req: Request, edps: seq<EDP>, e: EDP)
    ensures JenkinsCall(e) in JenkinsCalls(req, edps) <==> e in edps && JenkinsEnabled(req.config(e))
    ensures |JenkinsCalls(req, edps)| <= |edps|
  {
    if |edps| > 0 {
      var n := |edps| - 1;
      JenkinsCallsSelect(req, edps[..n], e);
      EdpWordsInjective(e, edps[n]);
      assert edps == edps[..n] + [edps[n]];
    }
  }

  /** A stage list with `calls` appended to stage `si`'s calls. */
  function AppendCalls(stages: seq<Stage>, si: nat, calls: seq<Call>): (r: seq<Stage>)
    requires si < |stages|
    ensures |r| == |stages|
  {
    stages[si := stages[si].(calls := stages[si].calls + calls)]
  }

  lemma AppendCallsThen(stages: seq<Stage>, si: nat, a: seq<Call>, b: seq<Call>)
    requires si < |stages|
    ensures AppendCalls(AppendCalls(stages, si, a), si, b) == AppendCalls(stages, si, a + b)
    ensures AppendCalls(stages, si, []) == stages
  {
    assert stages[si].calls + a + b == stages[si].calls + (a + b);
    assert stages[si].calls + [] == stages[si].calls;
  }

  /** The calls one EDP adds: deploy, ASG rollback and, with migrations, migration rollback. */
  function WireOne(stages: seq<Stage>, ds: DeploymentStageIndices, req: Request, pipelineName: string,
    cdName: string, edp: EDP): (r: seq<Stage>)
    requires IndicesIn(ds, |stages|) && (ds.rollbackMigrations.Some? <==> req.hasMigrations)
    ensures |r| == |stages|
  {
    var s1 := AppendCalls(stages, ds.deploy, [DeployCall(cdName, edp)]);
    var s2 := AppendCalls(s1, ds.rollbackAsgs, [RollbackAsgsCall(pipelineName, edp)]);
    if req.hasMigrations then AppendCalls(s2, ds.rollbackMigrations.value, [RollbackMigrationsCall(req, pipelineName, cdName, edp)])
    else s2
  }

  /** Only calls change: names, approval gates and jobs stay as they were. */
  predicate SameButCalls(r: seq<Stage>, stages: seq<Stage>)
  {
    |r| == |stages| && forall i :: 0 <= i < |r| ==> r[i] == stages[i].(calls := r[i].calls)
  }

  /** Every stage other than the deploy and rollback stages is unchanged. */
  predicate OthersUnchanged(r: seq<Stage>, stages: seq<Stage>, ds: DeploymentStageIndices)
  {
    |r| == |stages| &&
    forall i ::
      (0 <= i < |r| && i != ds.deploy && i != ds.rollbackAsgs
       && (ds.rollbackMigrations.Some? ==> i != ds.rollbackMigrations.value)) ==> r[i] == stages[i]
  }

  lemma WireOneEffect(stages: seq<Stage>, ds: DeploymentStageIndices, req: Request, pipelineName: string,
    cdName: string, edp: EDP)
    requires IndicesIn(ds, |stages|) && (ds.rollbackMigrations.Some? <==> req.hasMigrations) && Separate(ds)
    ensures var r := WireOne(stages, ds, req, pipelineName, cdName, edp);
      && SameButCalls(r, stages) && OthersUnchanged(r, stages, ds)
      && r[ds.deploy].calls == stages[ds.deploy].calls + [DeployCall(cdName, edp)]
      && r[ds.rollbackAsgs].calls == stages[ds.rollbackAsgs].calls + [RollbackAsgsCall(pipelineName, edp)]
      && (req.hasMigrations ==>
            r[ds.rollbackMigrations.value].calls
              == stages[ds.rollbackMigrations.value].calls + [RollbackMigrationsCall(req, pipelineName, cdName, edp)])
  {
  }

  /** The deployment calls of one pipeline, EDP by EDP. */
  function WireDeploy(stages: seq<Stage>, ds: DeploymentStageIndices, req: Request, pipelineName: string,
    cdName: string, edps: seq<EDP>): (r: seq<Stage>)
    requires IndicesIn(ds, |stages|) && (ds.rollbackMigrations.Some? <==> req.hasMigrations)
    ensures |r| == |stages|
  {
    if |edps| == 0 then stages
    else
      var s := WireDeploy(stages, ds, req, pipelineName, cdName, edps[..|edps| - 1]);
      WireOne(s, ds, req, pipelineName, cdName, edps[|edps| - 1])
  }

  /** Wiring the deployment calls changes only calls, and only on the deploy and rollback stages. */
  lemma {:induction false} WireDeployShape(stages: seq<Stage>, ds: DeploymentStageIndices, req: Request,
    pipelineName: string, cdName: string, edps: seq<EDP>)
    requires IndicesIn(ds, |stages|) && (ds.rollbackMigrations.Some? <==> req.hasMigrations) && Separate(ds)
    ensures var r := WireDeploy(stages, ds, req, pipelineName, cdName, edps);
      SameButCalls(r, stages) && OthersUnchanged(r, stages, ds)
  {
    if |edps| > 0 {
      var n := |edps| - 1;
      WireDeployShape(stages, ds, req, pipelineName, cdName, edps[..n]);
      var s := WireDeploy(stages, ds, req, pipelineName, cdName, edps[..n]);
      WireOneEffect(s, ds, req, pipelineName, cdName, edps[n]);
    }
  }

  /**
   * With three different stages, each EDP adds one call to the deploy
   * stage (fetching the AMI from the CD pipeline's build stage), one to the
   * ASG rollback stage and, with migrations, one to the migration rollback
   * stage, in EDP order.
   */
  lemma {:induction false} WireDeployCalls(stages: seq<Stage>, ds: DeploymentStageIndices, req: Request,
    pipelineName: string, cdName: string, edps: seq<EDP>)
    requires IndicesIn(ds, |stages|) && (ds.rollbackMigrations.Some? <==> req.hasMigrations) && Separate(ds)
    ensures var r := WireDeploy(stages, ds, req, pipelineName, cdName, edps);
      && r[ds.deploy].calls == stages[ds.deploy].calls + DeployCalls(cdName, edps)
      && r[ds.rollbackAsgs].calls == stages[ds.rollbackAsgs].calls + RollbackAsgsCalls(pipelineName, edps)
      && (req.hasMigrations ==>
            r[ds.rollbackMigrations.value].calls
              == stages[ds.rollbackMigrations.value].calls + RollbackMigrationsCalls(req, pipelineName, cdName, edps))
  {
    if |edps| > 0 {
      var n := |edps| - 1;
      WireDeployCalls(stages, ds, req, pipelineName, cdName, edps[..n]);
      var s := WireDeploy(stages, ds, req, pipelineName, cdName, edps[..n]);
      WireOneEffect(s, ds, req, pipelineName, cdName, edps[n]);
      var r := WireOne(s, ds, req, pipelineName, cdName, edps[n]);
      assert r[ds.deploy].calls == s[ds.deploy].calls + [DeployCall(cdName, edps[n])];
      SnocAssoc(stages[ds.deploy].calls, DeployCalls(cdName, edps[..n]), DeployCall(cdName, edps[n]));
      SnocAssoc(stages[ds.rollbackAsgs].calls, RollbackAsgsCalls(pipelineName, edps[..n]), RollbackAsgsCall(pipelineName, edps[n]));
      if req.hasMigrations {
        var i := ds.rollbackMigrations.value;
        SnocAssoc(stages[i].calls, RollbackMigrationsCalls(req, pipelineName, cdName, edps[..n]),
          RollbackMigrationsCall(req, pipelineName, cdName, edps[n]));
      }
    }
  }

  lemma SnocAssoc<T>(a: seq<T>, b: seq<T>, x: T)
    ensures a + b + [x] == a + (b + [x])
  {
  }

  /** The CD pipeline's build, e2e and deployment calls on its frame. */
  function CdWired(frame: seq<Stage>, ds: DeploymentStageIndices, req: Request, ms: MaterialSource, cdName: string): seq<Stage>
    requires 0 < |frame| && IndicesIn(ds, |frame|) && (ds.rollbackMigrations.Some? <==> req.hasMigrations)
    requires req.runE2eTestsAfterDeploy ==> ds.e2eTests.Some?
  {
    var built := AppendCalls(frame, 0, BuildCalls(req, ms, AllEdps(req)));
    var tested := if req.runE2eTestsAfterDeploy then AppendCalls(built, ds.e2eTests.value, JenkinsCalls(req, req.cdEdps)) else built;
    WireDeploy(tested, ds, req, cdName, cdName, req.cdEdps)
  }

  /** The CD pipeline's stages at the end. */
  function CdStages(req: Request, ms: MaterialSource, cdName: string): seq<Stage>
  {
    var (frame, ds) := CdFrame(req.hasMigrations, E2e(req));
    CdWired(frame, ds, req, ms, cdName)
  }

  /** The manual pipeline's stages at the end. */
  function ManualStages(req: Request, cdName: string, manualName: string): seq<Stage>
  {
    var (frame, ds) := ManualFrame(req.hasMigrations);
    WireDeploy(frame, ds, req, manualName, cdName, req.manualEdps)
  }


  /** A stage with calls but no job. */
  function CallStage(name: string, manualApproval: bool, calls: seq<Call>): Stage
  {
    Stage(name, manualApproval, [], calls)
  }

  lemma IndexLayout<T>(x: T, y: T, e: seq<T>, t: seq<T>)
    ensures var s := [x, y] + e + t;
      && |s| == 2 + |e| + |t| && s[0] == x && s[1] == y
      && (forall i :: 0 <= i < |e| ==> s[2 + i] == e[i])
      && (forall j :: 0 <= j < |t| ==> s[2 + |e| + j] == t[j])
  {
  }

  lemma Regroup<T>(x: T, y: T, e: seq<T>, t: seq<T>)
    ensures [] + [x] + ([y] + e + t) == [x, y] + e + t
  {
    assert [] + [x] + ([y] + e + t) == [x] + [y] + e + t;
  }

  /** Calls appended to an empty stage at position `|head|`. */
  lemma AppendCallsAt(head: seq<Stage>, name: string, tail: seq<Stage>, calls: seq<Call>)
    ensures AppendCalls(head + [EmptyStage(name)] + tail, |head|, calls) == head + [CallStage(name, false, calls)] + tail
  {
    var s := head + [EmptyStage(name)] + tail;
    assert s[|head|] == EmptyStage(name);
    assert EmptyStage(name).calls + calls == calls;
  }

  /** The CD frame once the build and e2e calls are on it, before the deployment calls. */
  lemma CdTestedLayout(req: Request, ms: MaterialSource) returns (tested: seq<Stage>)
    requires req.runE2eTestsAfterDeploy ==>
      req.e2eTestsStageName !in {BuildAmiStageName, DeployAmiStageName, RollbackAsgsStageName, RollbackMigrationsStageName}
    ensures var (frame, ds) := CdFrame(req.hasMigrations, E2e(req));
      var built := AppendCalls(frame, 0, BuildCalls(req, ms, AllEdps(req)));
      && Separate(ds)
      && tested == (if req.runE2eTestsAfterDeploy then AppendCalls(built, ds.e2eTests.value, JenkinsCalls(req, req.cdEdps)) else built)
      && tested == [CallStage(BuildAmiStageName, false, BuildCalls(req, ms, AllEdps(req))), EmptyStage(DeployAmiStageName)]
        + (if req.runE2eTestsAfterDeploy then [CallStage(req.e2eTestsStageName, false, JenkinsCalls(req, req.cdEdps))] else [])
        + ([ManualStage(RollbackAsgsStageName)]
           + (if req.hasMigrations then [ManualStage(RollbackMigrationsStageName)] else []))
  {
    var e2e := E2e(req);
    var (frame, ds) := CdFrame(req.hasMigrations, e2e);
    var bc := BuildCalls(req, ms, AllEdps(req));
    var jc := JenkinsCalls(req, req.cdEdps);
    var tail := [ManualStage(RollbackAsgsStageName)]
      + (if req.hasMigrations then [ManualStage(RollbackMigrationsStageName)] else []);
    var rest := [EmptyStage(DeployAmiStageName)] + E2eStages(e2e) + tail;
    assert frame == [] + [EmptyStage(BuildAmiStageName)] + rest && Separate(ds) by {
      CdFrameLayout(req.hasMigrations, e2e);
    }
    var built := AppendCalls(frame, 0, bc);
    AppendCallsAt([], BuildAmiStageName, rest, bc);
    var head := [CallStage(BuildAmiStageName, false, bc), EmptyStage(DeployAmiStageName)];
    Regroup(CallStage(BuildAmiStageName, false, bc), EmptyStage(DeployAmiStageName), E2eStages(e2e), tail);
    if req.runE2eTestsAfterDeploy {
      assert ds.e2eTests.value == |head| by {
        CdFrameLayout(req.hasMigrations, e2e);
      }
      AppendCallsAt(head, req.e2eTestsStageName, tail, jc);
      tested := AppendCalls(built, ds.e2eTests.value, jc);
    } else {
      tested := built;
      assert tested == head + [] + tail;
    }
  }

  /**
   * The CD pipeline ends up with, in order: `build_ami` holding one build
   * call per EDP (continuous then manual), `deploy_ami` holding one deploy
   * call per continuous EDP, the e2e stage (only when e2e tests run after
   * the deployment) holding one Jenkins call per opted-in continuous EDP,
   * then the rollback stages, both waiting for an operator, holding one
   * ASG rollback call per continuous EDP and, exactly when the service has
   * migrations, one migration rollback call per continuous EDP.
   */
  lemma CdStagesLayout(req: Request, ms: MaterialSource, cdName: string)
    requires req.runE2eTestsAfterDeploy ==>
      req.e2eTestsStageName !in {BuildAmiStageName, DeployAmiStageName, RollbackAsgsStageName, RollbackMigrationsStageName}
    ensures var r := CdStages(req, ms, cdName);
      var k := if req.runE2eTestsAfterDeploy then 1 else 0;
      && |r| == 3 + k + (if req.hasMigrations then 1 else 0)
      && r[0] == CallStage(BuildAmiStageName, false, BuildCalls(req, ms, AllEdps(req)))
      && r[1] == CallStage(DeployAmiStageName, false, DeployCalls(cdName, req.cdEdps))
      && (req.runE2eTestsAfterDeploy ==> r[2] == CallStage(req.e2eTestsStageName, false, JenkinsCalls(req, req.cdEdps)))
      && r[2 + k] == CallStage(RollbackAsgsStageName, true, RollbackAsgsCalls(cdName, req.cdEdps))
      && (req.hasMigrations ==>
            r[3 + k] == CallStage(RollbackMigrationsStageName, true, RollbackMigrationsCalls(req, cdName, cdName, req.cdEdps)))
  {
    var tested, ds, e := CdStagesWired(req, ms, cdName);
    WireDeployShape(tested, ds, req, cdName, cdName, req.cdEdps);
    WireDeployCalls(tested, ds, req, cdName, cdName, req.cdEdps);
    PlaceCalls(CallStage(BuildAmiStageName, false, BuildCalls(req, ms, AllEdps(req))), false, e, req.hasMigrations,
      tested, ds, WireDeploy(tested, ds, req, cdName, cdName, req.cdEdps),
      DeployCalls(cdName, req.cdEdps), RollbackAsgsCalls(cdName, req.cdEdps),
      RollbackMigrationsCalls(req, cdName, cdName, req.cdEdps));
  }

  /** The CD pipeline's stages are its tested frame with the deployment calls wired in. */
  lemma CdStagesWired(req: Request, ms: MaterialSource, cdName: string)
    returns (tested: seq<Stage>, ds: DeploymentStageIndices, e: seq<Stage>)
    requires req.runE2eTestsAfterDeploy ==>
      req.e2eTestsStageName !in {BuildAmiStageName, DeployAmiStageName, RollbackAsgsStageName, RollbackMigrationsStageName}
    ensures e == if req.runE2eTestsAfterDeploy then [CallStage(req.e2eTestsStageName, false, JenkinsCalls(req, req.cdEdps))] else []
    ensures IndicesIn(ds, |tested|) && (ds.rollbackMigrations.Some? <==> req.hasMigrations) && Separate(ds)
    ensures CdStages(req, ms, cdName) == WireDeploy(tested, ds, req, cdName, cdName, req.cdEdps)
    ensures Framed(CallStage(BuildAmiStageName, false, BuildCalls(req, ms, AllEdps(req))), false, e, req.hasMigrations, tested, ds)
  {
    CdFrameLayout(req.hasMigrations, E2e(req));
    ds := CdFrame(req.hasMigrations, E2e(req)).1;
    tested := CdTestedLayout(req, ms);
    e := if req.runE2eTestsAfterDeploy then [CallStage(req.e2eTestsStageName, false, JenkinsCalls(req, req.cdEdps))] else [];
    FramedFromList(CallStage(BuildAmiStageName, false, BuildCalls(req, ms, AllEdps(req))), false, e, req.hasMigrations, tested, ds);
  }

  lemma FramedFromList(first: Stage, deployManual: bool, e: seq<Stage>, hasMigrations: bool,
    frame: seq<Stage>, ds: DeploymentStageIndices)
    requires |e| <= 1
    requires frame == [first, Stage(DeployAmiStageName, deployManual, [], [])] + e
      + ([ManualStage(RollbackAsgsStageName)] + (if hasMigrations then [ManualStage(RollbackMigrationsStageName)] else []))
    requires ds.deploy == 1 && ds.rollbackAsgs == 2 + |e|
    requires ds.rollbackMigrations == if hasMigrations then Some(3 + |e|) else None
    ensures Framed(first, deployManual, e, hasMigrations, frame, ds)
  {
    var tail := [ManualStage(RollbackAsgsStageName)] + (if hasMigrations then [ManualStage(RollbackMigrationsStageName)] else []);
    IndexLayout(first, Stage(DeployAmiStageName, deployManual, [], []), e, tail);
  }

  /**
   * A frame laid out as `first`, a `deploy_ami` stage with the given
   * approval, the optional stage `e`, `rollback_asgs` and the optional
   * `rollback_migrations`, the last two waiting for an operator.
   */
  predicate Framed(first: Stage, deployManual: bool, e: seq<Stage>, hasMigrations: bool,
    frame: seq<Stage>, ds: DeploymentStageIndices)
  {
    && |e| <= 1
    && |frame| == 3 + |e| + (if hasMigrations then 1 else 0)
    && frame[0] == first && frame[1] == Stage(DeployAmiStageName, deployManual, [], [])
    && (|e| == 1 ==> frame[2] == e[0])
    && frame[2 + |e|] == ManualStage(RollbackAsgsStageName)
    && (hasMigrations ==> frame[3 + |e|] == ManualStage(RollbackMigrationsStageName))
    && ds.deploy == 1 && ds.rollbackAsgs == 2 + |e|
    && ds.rollbackMigrations == if hasMigrations then Some(3 + |e|) else None
  }

  /** Where the deployment calls land on a framed stage list. */
  lemma PlaceCalls(first: Stage, deployManual: bool, e: seq<Stage>, hasMigrations: bool,
    frame: seq<Stage>, ds: DeploymentStageIndices, r: seq<Stage>,
    deployCalls: seq<Call>, asgCalls: seq<Call>, migrationCalls: seq<Call>)
    requires Framed(first, deployManual, e, hasMigrations, frame, ds)
    requires SameButCalls(r, frame) && OthersUnchanged(r, frame, ds)
    requires r[1].calls == deployCalls && r[2 + |e|].calls == asgCalls
    requires hasMigrations ==> r[3 + |e|].calls == migrationCalls
    ensures |r| == 3 + |e| + (if hasMigrations then 1 else 0)
    ensures r[0] == first && (|e| == 1 ==> r[2] == e[0])
    ensures r[1] == CallStage(DeployAmiStageName, deployManual, deployCalls)
    ensures r[2 + |e|] == CallStage(RollbackAsgsStageName, true, asgCalls)
    ensures hasMigrations ==> r[3 + |e|] == CallStage(RollbackMigrationsStageName, true, migrationCalls)
  {
    assert r[1] == frame[1].(calls := r[1].calls);
    assert r[2 + |e|] == frame[2 + |e|].(calls := r[2 + |e|].calls);
    if hasMigrations {
      assert r[3 + |e|] == frame[3 + |e|].(calls := r[3 + |e|].calls);
    }
  }

  /**
   * The manual pipeline ends up with, in order: the armed stage (its echo
   * job, no call, no approval), then `deploy_ami`, `rollback_asgs` and,
   * exactly when the service has migrations, `rollback_migrations`, each
   * waiting for an operator and holding one call per manual EDP: the
   * deployment of the AMI the CD pipeline built, and the rollbacks.
   */
  lemma ManualStagesLayout(req: Request, cdName: string, manualName: string)
    ensures var r := ManualStages(req, cdName, manualName);
      && |r| == 3 + (if req.hasMigrations then 1 else 0)
      && r[0] == Stage(ArmedStageName, false, [ArmedJob], [])
      && r[1] == CallStage(DeployAmiStageName, true, DeployCalls(cdName, req.manualEdps))
      && r[2] == CallStage(RollbackAsgsStageName, true, RollbackAsgsCalls(manualName, req.manualEdps))
      && (req.hasMigrations ==>
            r[3] == CallStage(RollbackMigrationsStageName, true, RollbackMigrationsCalls(req, manualName, cdName, req.manualEdps)))
  {
    var (frame, ds) := ManualFrame(req.hasMigrations);
    ManualFramed(req.hasMigrations);
    WireDeployShape(frame, ds, req, manualName, cdName, req.manualEdps);
    WireDeployCalls(frame, ds, req, manualName, cdName, req.manualEdps);
    PlaceCalls(Stage(ArmedStageName, false, [ArmedJob], []), true, [], req.hasMigrations,
      frame, ds, WireDeploy(frame, ds, req, manualName, cdName, req.manualEdps),
      DeployCalls(cdName, req.manualEdps), RollbackAsgsCalls(manualName, req.manualEdps),
      RollbackMigrationsCalls(req, manualName, cdName, req.manualEdps));
  }

  lemma ManualFramed(hasMigrations: bool)
    ensures var (frame, ds) := ManualFrame(hasMigrations);
      && Separate(ds)
      && Framed(Stage(ArmedStageName, false, [ArmedJob], []), true, [], hasMigrations, frame, ds)
  {
    ManualFrameLayout(hasMigrations);
    var (frame, ds) := ManualFrame(hasMigrations);
    var tail := [ManualStage(RollbackAsgsStageName)] + (if hasMigrations then [ManualStage(RollbackMigrationsStageName)] else []);
    assert frame == [Stage(ArmedStageName, false, [ArmedJob], []), Stage(DeployAmiStageName, true, [], [])] + [] + tail;
    FramedFromList(Stage(ArmedStageName, false, [ArmedJob], []), true, [], hasMigrations, frame, ds);
  }

  // Materials

  /** `ensure_material` for each material in turn. */
  function EnsureAllIn(materials: seq<Material>, list: seq<Material>): seq<Material>
  {
    if |list| == 0 then materials
    else EnsureMaterialIn(EnsureAllIn(materials, list[..|list| - 1]), list[|list| - 1])
  }

  predicate NoDuplicates<T(==)>(s: seq<T>)
  {
    forall i, j :: 0 <= i < j < |s| ==> s[i] != s[j]
  }

  /**
   * Ensuring a list of materials keeps the existing ones in place and adds
   * each missing one once: the result holds exactly the materials of both,
   * without duplicates when there were none.
   */
  lemma {:induction false} EnsureAllInContents(materials: seq<Material>, list: seq<Material>)
    ensures var r := EnsureAllIn(materials, list);
      && |materials| <= |r| && r[..|materials|] == materials
      && (forall m :: m in r <==> m in materials || m in list)
      && (NoDuplicates(materials) ==> NoDuplicates(r))
  {
    if |list| > 0 {
      var n := |list| - 1;
      EnsureAllInContents(materials, list[..n]);
      var s := EnsureAllIn(materials, list[..n]);
      assert list == list[..n] + [list[n]];
      if list[n] !in s {
        assert (s + [list[n]])[..|materials|] == s[..|materials|];
      }
    }
  }

  function SecureMaterials(ms: MaterialSource, edps: seq<EDP>): (r: seq<Material>)
    ensures |r| == |edps| && forall i :: 0 <= i < |edps| ==> r[i] == AsMaterial(ms.deploymentSecure(edps[i].deployment))
  {
    if |edps| == 0 then []
    else SecureMaterials(ms, edps[..|edps| - 1]) + [AsMaterial(ms.deploymentSecure(edps[|edps| - 1].deployment))]
  }

  function InternalMaterials(ms: MaterialSource, edps: seq<EDP>, branch: Option<string>): (r: seq<Material>)
    ensures |r| == |edps| && forall i :: 0 <= i < |edps| ==> r[i] == AsMaterial(ms.deploymentInternal(edps[i].deployment, branch))
  {
    if |edps| == 0 then []
    else InternalMaterials(ms, edps[..|edps| - 1], branch) + [AsMaterial(ms.deploymentInternal(edps[|edps| - 1].deployment, branch))]
  }

  /** The materials both pipelines get: the shared repositories, then each EDP's secure and internal repository. */
  function CommonMaterials(req: Request, ms: MaterialSource): seq<Material>
  {
    [AsMaterial(ms.tubular), AsMaterial(ms.configuration(req.configurationBranch)),
     AsMaterial(ms.edxAnsiblePrivate), AsMaterial(ms.mckaAnsiblePrivate)]
    + SecureMaterials(ms, AllEdps(req))
    + InternalMaterials(ms, AllEdps(req), req.configurationBranch)
  }

  /** The material on the CD pipeline's `build_ami` stage, named after the CD pipeline. */
  function UpstreamMaterial(cdName: string): Material
  {
    PipelineMaterial(cdName, BuildAmiStageName, Some(cdName))
  }

  function CdMaterials(req: Request, ms: MaterialSource): seq<Material>
  {
    EnsureMaterialIn(EnsureAllIn([], CommonMaterials(req, ms)), AsMaterial(req.appMaterial))
  }

  function ManualMaterials(req: Request, ms: MaterialSource, cdName: string): seq<Material>
  {
    EnsureAllIn([UpstreamMaterial(cdName)], CommonMaterials(req, ms))
  }

  /**
   * The CD pipeline holds each common material and the application's
   * material once; the manual pipeline holds the upstream material first,
   * then each common material once, and not the application's material
   * unless it is one of the common ones.
   */
  lemma MaterialsContents(req: Request, ms: MaterialSource, cdName: string)
    ensures forall m :: m in CdMaterials(req, ms) <==> m in CommonMaterials(req, ms) || m == AsMaterial(req.appMaterial)
    ensures NoDuplicates(CdMaterials(req, ms))
    ensures var mm := ManualMaterials(req, ms, cdName);
      && |mm| > 0 && mm[0] == UpstreamMaterial(cdName) && NoDuplicates(mm)
      && forall m :: m in mm <==> m == UpstreamMaterial(cdName) || m in CommonMaterials(req, ms)
  {
    EnsureAllInContents([], CommonMaterials(req, ms));
    EnsureAllInContents([UpstreamMaterial(cdName)], CommonMaterials(req, ms));
    assert [UpstreamMaterial(cdName)][..1] == [UpstreamMaterial(cdName)];
  }

  // The builder's steps

  /** Appends `calls` to stage `si`, one at a time. */
  method AddCalls(p: Pipeline, si: nat, calls: seq<Call>)
    requires p.Valid() && si < |p.stages|
    modifies p`stages
    ensures p.Valid() && p.stages == AppendCalls(old(p.stages), si, calls)
  {
    AppendCallsThen(p.stages, si, [], []);
    var k := 0;
    while k < |calls|
      invariant 0 <= k <= |calls| && p.Valid() && |p.stages| == |old(p.stages)|
      invariant p.stages == AppendCalls(old(p.stages), si, calls[..k])
    {
      AppendCallsThen(old(p.stages), si, calls[..k], [calls[k]]);
      assert calls[..k + 1] == calls[..k] + [calls[k]];
      p.AddStageCall(si, calls[k]);
      k := k + 1;
    }
    assert calls[..k] == calls;
  }

  /** The e2e loop: the Jenkins job of every CD EDP that opts in. */
  method E2eJobs(p: Pipeline, si: nat, req: Request)
    requires p.Valid() && si < |p.stages|
    modifies p`stages
    ensures p.Valid() && p.stages == AppendCalls(old(p.stages), si, JenkinsCalls(req, req.cdEdps))
  {
    AppendCallsThen(p.stages, si, [], []);
    var edps := req.cdEdps;
    var k := 0;
    while k < |edps|
      invariant 0 <= k <= |edps| && p.Valid() && |p.stages| == |old(p.stages)|
      invariant p.stages == AppendCalls(old(p.stages), si, JenkinsCalls(req, edps[..k]))
    {
      assert edps[..k + 1][..k] == edps[..k];
      var edp := edps[k];
      AppendCallsThen(old(p.stages), si, JenkinsCalls(req, edps[..k]), [JenkinsCall(edp)]);
      AppendCallsThen(old(p.stages), si, JenkinsCalls(req, edps[..k]), []);
      assert JenkinsCalls(req, edps[..k]) + [] == JenkinsCalls(req, edps[..k]);
      if JenkinsEnabled(req.config(edp)) {
        p.AddStageCall(si, JenkinsCall(edp));
      }
      k := k + 1;
    }
    assert edps[..k] == edps;
  }

  /** The deployment loop for one pipeline. */
  method DeployJobs(p: Pipeline, ds: DeploymentStageIndices, req: Request, cdName: string, edps: seq<EDP>)
    requires p.Valid() && IndicesIn(ds, |p.stages|) && (ds.rollbackMigrations.Some? <==> req.hasMigrations)
    modifies p`stages
    ensures p.Valid() && p.stages == WireDeploy(old(p.stages), ds, req, p.name, cdName, edps)
  {
    var k := 0;
    while k < |edps|
      invariant 0 <= k <= |edps| && p.Valid() && |p.stages| == |old(p.stages)|
      invariant p.stages == WireDeploy(old(p.stages), ds, req, p.name, cdName, edps[..k])
    {
      assert edps[..k + 1][..k] == edps[..k];
      DeployEdp(p, ds, req, cdName, edps[k]);
      k := k + 1;
    }
    assert edps[..k] == edps;
  }

  /** One EDP's deployment jobs. */
  method DeployEdp(p: Pipeline, ds: DeploymentStageIndices, req: Request, cdName: string, edp: EDP)
    requires p.Valid() && IndicesIn(ds, |p.stages|) && (ds.rollbackMigrations.Some? <==> req.hasMigrations)
    modifies p`stages
    ensures p.Valid() && p.stages == WireOne(old(p.stages), ds, req, p.name, cdName, edp)
  {
    p.AddStageCall(ds.deploy, DeployCall(cdName, edp));
    p.AddStageCall(ds.rollbackAsgs, RollbackAsgsCall(p.name, edp));
    if req.hasMigrations {
      p.AddStageCall(ds.rollbackMigrations.value, RollbackMigrationsCall(req, p.name, cdName, edp));
    }
  }

  /** The CD pipeline's jobs: a build per EDP, the opted-in e2e jobs, then the deployment jobs. */
  method CdJobs(cd: Pipeline, ds: DeploymentStageIndices, req: Request, ms: MaterialSource)
    requires cd.Valid() && 0 < |cd.stages| && IndicesIn(ds, |cd.stages|)
    requires (ds.rollbackMigrations.Some? <==> req.hasMigrations) && (req.runE2eTestsAfterDeploy ==> ds.e2eTests.Some?)
    modifies cd`stages
    ensures cd.Valid() && cd.stages == CdWired(old(cd.stages), ds, req, ms, cd.name)
  {
    AddCalls(cd, 0, BuildCalls(req, ms, AllEdps(req)));
    if req.runE2eTestsAfterDeploy {
      E2eJobs(cd, ds.e2eTests.value, req);
    }
    DeployJobs(cd, ds, req, cd.name, req.cdEdps);
  }

  /** The materials loop, on one pipeline: each material in turn. */
  method EnsureMaterials(p: Pipeline, list: seq<Material>)
    modifies p`materials
    ensures p.materials == EnsureAllIn(old(p.materials), list)
  {
    var k := 0;
    while k < |list|
      invariant 0 <= k <= |list|
      invariant p.materials == EnsureAllIn(old(p.materials), list[..k])
    {
      assert list[..k + 1][..k] == list[..k];
      p.EnsureMaterial(list[k]);
      k := k + 1;
    }
    assert list[..k] == list;
  }

  /** Frames out the CD pipeline: replace it in the group, label it, ensure its stages. */
  method FrameCd(group: PipelineGroup, cdName: string, labelTemplate: string, hasMigrations: bool, e2e: Option<string>)
    returns (cd: Pipeline, ds: DeploymentStageIndices)
    modifies group`pipelines
    ensures fresh(cd) && cd.Valid() && cd.name == cdName && cd.labelTemplate == Some(labelTemplate)
    ensures group.pipelines == WithoutPipeline(old(group.pipelines), cdName) + [cd]
    ensures (cd.stages, ds) == CdFrame(hasMigrations, e2e)
    ensures cd.materials == [] && cd.envVars == map[] && cd.encryptedVars == map[] && cd.secureVars == map[]
  {
    cd := group.EnsureReplacementOfPipeline(cdName);
    cd.SetLabelTemplate(labelTemplate);
    var build := cd.EnsureStage(BuildAmiStageName);
    assert cd.stages == [EmptyStage(BuildAmiStageName)];
    ds := DeploymentStages(cd, hasMigrations, e2e);
  }

  /** Frames out the manual pipeline: replace it in the group, wire it to the CD build, arm it, ensure its stages. */
  method FrameManual(group: PipelineGroup, manualName: string, cdName: string, hasMigrations: bool)
    returns (m: Pipeline, ds: DeploymentStageIndices)
    modifies group`pipelines
    ensures fresh(m) && m.Valid() && m.name == manualName && m.labelTemplate == Some("${" + cdName + "}")
    ensures group.pipelines == WithoutPipeline(old(group.pipelines), manualName) + [m]
    ensures (m.stages, ds) == ManualFrame(hasMigrations)
    ensures m.materials == [UpstreamMaterial(cdName)]
    ensures m.envVars == map[] && m.encryptedVars == map[] && m.secureVars == map[]
  {
    m := group.EnsureReplacementOfPipeline(manualName);
    m.EnsureMaterial(UpstreamMaterial(cdName));
    m.SetLabelTemplate("${" + cdName + "}");
    var armed := Stages.ArmedStage(m, ArmedStageName);
    ds := DeploymentStages(m, hasMigrations, None);
    m.SetHasManualApproval(ds.deploy);
  }

  /** The pipelines the builder creates (the source returns nothing; the model hands them back). */
  datatype Created = Created(cd: Pipeline, manual: Option<Pipeline>)

  /** The CD pipeline as the builder leaves it. */
  ghost predicate IsCdPipeline(cd: Pipeline, req: Request, ms: MaterialSource, cdName: string)
    reads cd
  {
    && cd.name == cdName
    && cd.labelTemplate == Some(DeploymentPipelineLabel(NameText(req.appMaterial.materialName)))
    && cd.stages == CdStages(req, ms, cdName)
    && cd.materials == CdMaterials(req, ms)
    && cd.envVars == map[] && cd.encryptedVars == map[] && cd.secureVars == map[]
  }

  /** The CD pipeline as framed out, before its materials and jobs: labelled, with its frame stages only. */
  ghost predicate IsFramedCdPipeline(cd: Pipeline, req: Request, cdName: string)
    reads cd
  {
    && cd.name == cdName
    && cd.labelTemplate == Some(DeploymentPipelineLabel(NameText(req.appMaterial.materialName)))
    && cd.stages == CdFrame(req.hasMigrations, E2e(req)).0
    && cd.materials == []
    && cd.envVars == map[] && cd.encryptedVars == map[] && cd.secureVars == map[]
  }

  /** The manual pipeline as the builder leaves it. */
  ghost predicate IsManualPipeline(m: Pipeline, req: Request, ms: MaterialSource, cdName: string, manualName: string)
    reads m
  {
    && m.name == manualName
    && m.labelTemplate == Some("${" + cdName + "}")
    && m.stages == ManualStages(req, cdName, manualName)
    && m.materials == ManualMaterials(req, ms, cdName)
    && m.envVars == map[] && m.encryptedVars == map[] && m.secureVars == map[]
  }

  /** The materials and jobs of the CD pipeline when there is no manual pipeline. */
  method AddCdJobs(cd: Pipeline, cdStages: DeploymentStageIndices, req: Request, ms: MaterialSource)
    requires cd.Valid() && (cd.stages, cdStages) == CdFrame(req.hasMigrations, E2e(req)) && cd.materials == []
    modifies cd`stages, cd`materials
    ensures cd.stages == CdStages(req, ms, cd.name) && cd.materials == CdMaterials(req, ms)
  {
    EnsureMaterials(cd, CommonMaterials(req, ms));
    cd.EnsureMaterial(AsMaterial(req.appMaterial));
    CdJobs(cd, cdStages, req, ms);
  }

  /** The framing of the CD pipeline with the request's label and stages. */
  method FrameCdFor(group: PipelineGroup, req: Request, cdName: string) returns (cd: Pipeline, ds: DeploymentStageIndices)
    modifies group`pipelines
    ensures fresh(cd) && cd.Valid() && IsFramedCdPipeline(cd, req, cdName) && ds == CdFrame(req.hasMigrations, E2e(req)).1
    ensures group.pipelines == WithoutPipeline(old(group.pipelines), cdName) + [cd]
  {
    cd, ds := FrameCd(group, cdName, DeploymentPipelineLabel(NameText(req.appMaterial.materialName)),
      req.hasMigrations, E2e(req));
  }

  /** The building half of `generate_service_deployment_pipelines` without manual EDPs: the CD pipeline alone. */
  method BuildCd(group: PipelineGroup, req: Request, ms: MaterialSource, cdName: string) returns (cd: Pipeline)
    modifies group`pipelines
    ensures fresh(cd) && IsCdPipeline(cd, req, ms, cdName)
    ensures group.pipelines == WithoutPipeline(old(group.pipelines), cdName) + [cd]
  {
    var cdStages;
    cd, cdStages := FrameCd(group, cdName, DeploymentPipelineLabel(NameText(req.appMaterial.materialName)),
      req.hasMigrations, E2e(req));
    AddCdJobs(cd, cdStages, req, ms);
  }

  /** The manual pipeline: framed, given the common materials, and its deployment jobs. */
  method BuildManual(group: PipelineGroup, req: Request, ms: MaterialSource, cdName: string, manualName: string)
    returns (m: Pipeline)
    modifies group`pipelines
    ensures fresh(m) && IsManualPipeline(m, req, ms, cdName, manualName)
    ensures group.pipelines == WithoutPipeline(old(group.pipelines), manualName) + [m]
  {
    var manualStages;
    m, manualStages := FrameManual(group, manualName, cdName, req.hasMigrations);
    EnsureMaterials(m, CommonMaterials(req, ms));
    DeployJobs(m, manualStages, req, cdName, req.manualEdps);
  }

  /** Past a good manual name: the framed CD pipeline is filled, then the manual pipeline built. */
  method FillCdBuildManual(group: PipelineGroup, req: Request, ms: MaterialSource, cd: Pipeline,
    cdStages: DeploymentStageIndices, cdName: string, manualName: string)
    returns (m: Pipeline)
    requires cd.Valid() && IsFramedCdPipeline(cd, req, cdName) && cdStages == CdFrame(req.hasMigrations, E2e(req)).1
    modifies group`pipelines, cd`stages, cd`materials
    ensures IsCdPipeline(cd, req, ms, cdName)
    ensures fresh(m) && m != cd && IsManualPipeline(m, req, ms, cdName, manualName)
    ensures group.pipelines == WithoutPipeline(old(group.pipelines), manualName) + [m]
  {
    AddCdJobs(cd, cdStages, req, ms);
    m := BuildManual(group, req, ms, cdName, manualName);
  }

  /**
   * The building half of `generate_service_deployment_pipelines` with
   * manual EDPs, `manualName` being the outcome of naming their pipeline:
   * the CD pipeline is framed out first; a bad name then fails with that
   * frame left in the group, before any material or job is added; a good
   * one fills the CD pipeline and builds the manual pipeline.
   */
  method BuildCdAndManual(group: PipelineGroup, req: Request, ms: MaterialSource, cdName: string,
    manualName: Result<string, Error>)
    returns (r: Result<Created, Error>)
    modifies group`pipelines
    ensures r.Err? ==>
      && manualName == Err(r.error)
      && |group.pipelines| > 0 && fresh(group.pipelines[|group.pipelines| - 1])
      && group.pipelines == WithoutPipeline(old(group.pipelines), cdName) + [group.pipelines[|group.pipelines| - 1]]
      && IsFramedCdPipeline(group.pipelines[|group.pipelines| - 1], req, cdName)
    ensures r.Ok? ==>
      var cd := r.value.cd;
      && r.value.manual.Some?
      && var m := r.value.manual.value;
      && manualName == Ok(m.name)
      && fresh(cd) && IsCdPipeline(cd, req, ms, cdName)
      && fresh(m) && m != cd && IsManualPipeline(m, req, ms, cdName, m.name)
      && group.pipelines == WithoutPipeline(WithoutPipeline(old(group.pipelines), cdName) + [cd], m.name) + [m]
  {
    var cd, cdStages := FrameCdFor(group, req, cdName);
    if manualName.Err? {
      return Err(manualName.error);
    }
    var m := FillCdBuildManual(group, req, ms, cd, cdStages, cdName, manualName.value);
    r := Ok(Created(cd, Some(m)));
  }

  /**
   * `generate_service_deployment_pipelines`: validate the EDPs and name the
   * pipelines, then build them. A failed validation of the manual
   * pipeline's name leaves the CD pipeline framed out in the group (the
   * source creates it before that check raises).
   */
  method ServiceDeploymentPipelines(group: PipelineGroup, req: Request, ms: MaterialSource)
    returns (r: Result<Created, Error>)
    modifies group`pipelines
    ensures var names := ServiceNames(req.cdEdps, req.manualEdps, req.cdPipelineName);
      names.Err? ==> r == Err(names.error) && group.pipelines == old(group.pipelines)
    ensures var names := ServiceNames(req.cdEdps, req.manualEdps, req.cdPipelineName);
      names.Ok? && r.Err? ==>
        && req.manualEdps != []
        && ManualName(req.manualEdps, req.manualPipelineName, names.value.0) == Err(r.error)
        && |group.pipelines| > 0 && fresh(group.pipelines[|group.pipelines| - 1])
        && group.pipelines == WithoutPipeline(old(group.pipelines), names.value.1) + [group.pipelines[|group.pipelines| - 1]]
        && IsFramedCdPipeline(group.pipelines[|group.pipelines| - 1], req, names.value.1)
    ensures r.Ok? ==>
      var names := ServiceNames(req.cdEdps, req.manualEdps, req.cdPipelineName);
      && names.Ok? && fresh(r.value.cd) && IsCdPipeline(r.value.cd, req, ms, names.value.1)
      && (r.value.manual.Some? <==> req.manualEdps != [])
      && (r.value.manual.None? ==> group.pipelines == WithoutPipeline(old(group.pipelines), r.value.cd.name) + [r.value.cd])
    ensures r.Ok? && r.value.manual.Some? ==>
      var names := ServiceNames(req.cdEdps, req.manualEdps, req.cdPipelineName);
      var cd := r.value.cd;
      var m := r.value.manual.value;
      && names.Ok? && req.manualEdps != []
      && ManualName(req.manualEdps, req.manualPipelineName, names.value.0) == Ok(m.name)
      && fresh(m) && m != cd && IsManualPipeline(m, req, ms, cd.name, m.name)
      && group.pipelines == WithoutPipeline(WithoutPipeline(old(group.pipelines), cd.name) + [cd], m.name) + [m]
  {
    var names := ServiceNames(req.cdEdps, req.manualEdps, req.cdPipelineName);
    if names.Err? {
      return Err(names.error);
    }
    if req.manualEdps == [] {
      var cd := BuildCd(group, req, ms, names.value.1);
      r := Ok(Created(cd, None));
    } else {
      var manualName := ManualName(req.manualEdps, req.manualPipelineName, names.value.0);
      r := BuildCdAndManual(group, req, ms, names.value.1, manualName);
    }
  }
}
