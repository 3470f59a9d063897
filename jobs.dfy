/**
 * The job builders of edxpipelines/patterns/jobs.py.
 *
 * `generate_build_ami` ensures one job named after the environment and
 * runs eight task builders on it, in a fixed order: installs, the target
 * directory, base AMI selection, instance launch, the service's play, AMI
 * creation and, whatever happened before, the instance cleanup. The files
 * each step writes are the files the next steps read.
 *
 * `generate_rollback_migration` ensures one job, fetches the inventory,
 * the key and the migration output into the target directory, makes the
 * key private and rolls the migrations back.
 */
module Jobs {
  import opened Wrappers
  import opened GoCD
  import opened Constants
  import opened Tasks
  import Stages
  import Utils

  /** The keys of the environment's secure configuration that the builder reads. */
  datatype EnvConfig = EnvConfig(
    awsAccessKeyId: string,
    awsSecretAccessKey: string,
    baseAmiId: string,
    ec2VpcSubnetId: string,
    ec2SecurityGroupId: string,
    ec2InstanceProfileName: string,
    githubPrivateKey: string,
    hipchatToken: string)

  // ---------------------------------------------------------------------
  // generate_build_ami (jobs.py:23-121)
  // ---------------------------------------------------------------------

  /** `'{environment}_{base_job_name}'` with the build-AMI job name. */
  function BuildAmiJobNameFor(edp: EDP): string
  {
    edp.environment + "_" + BuildAmiJobName
  }

  /** Two environments share a build-AMI job name iff they are the same environment. */
  lemma BuildAmiJobNameInjective(a: EDP, b: EDP)
    ensures BuildAmiJobNameFor(a) == BuildAmiJobNameFor(b) <==> a.environment == b.environment
  {
    var suffix := "_" + BuildAmiJobName;
    if BuildAmiJobNameFor(a) == BuildAmiJobNameFor(b) {
      assert |a.environment| == |b.environment|;
      assert a.environment == BuildAmiJobNameFor(a)[..|a.environment|];
      assert b.environment == BuildAmiJobNameFor(b)[..|b.environment|];
    }
  }

  /** Where the base AMI selection writes its override and the launch reads it. */
  const OverridePath := ArtifactPath + "/" + BaseAmiOverrideFilename

  /** Where the launch writes the instance's information and the AMI creation reads it. */
  const LaunchInfoPath := ArtifactPath + "/" + LaunchInstanceFilename

  /** The keyword arguments the builder adds to the play's own. */
  const PlaybookKwargs: seq<(string, string)> := [("disable_edx_services", "true"), ("COMMON_TAG_EC2_INSTANCE", "true")]

  /** The keyword argument the builder adds to the AMI creation's own. */
  const CreateAmiKwargs: seq<(string, string)> := [("configuration_secure_version", "$GO_REVISION_CONFIGURATION_SECURE")]

  /**
   * Names that, passed through `**kwargs`, would bind a named parameter of
   * the play or the AMI creation, or repeat one the builder passes itself.
   */
  const ReservedKwargs: set<string> := {
    "pipeline", "job", "playbook_with_path", "edp", "app_repo", "launch_artifacts_base_path",
    "private_github_key", "hipchat_token", "hipchat_room", "configuration_secure_dir",
    "configuration_internal_dir", "runif", "play", "deployment", "edx_environment",
    "configuration_secure_repo", "aws_access_key_id", "aws_secret_access_key", "launch_info_path",
    "configuration_repo", "ami_creation_timeout", "ami_wait", "cache_id", "artifact_path",
    "disable_edx_services", "COMMON_TAG_EC2_INSTANCE", "configuration_secure_version"}

  /** Keyword arguments as Python delivers them: distinct names, none of them reserved. */
  predicate PlainKwargs(kwargs: seq<(string, string)>)
  {
    && (forall i | 0 <= i < |kwargs| :: kwargs[i].0 !in ReservedKwargs)
    && (forall i, j | 0 <= i < j < |kwargs| :: kwargs[i].0 != kwargs[j].0)
  }

  function BuildAmiSelection(edp: EDP, c: EnvConfig): Effects
  {
    BaseAmiSelection(c.awsAccessKeyId, c.awsSecretAccessKey, play := Some(edp.play),
      deployment := Some(edp.deployment), edxEnvironment := Some(edp.environment), baseAmiId := Some(c.baseAmiId))
  }

  function BuildAmiLaunch(c: EnvConfig): Effects
  {
    LaunchInstance(c.awsAccessKeyId, c.awsSecretAccessKey, c.ec2VpcSubnetId, c.ec2SecurityGroupId,
      c.ec2InstanceProfileName, c.baseAmiId, variableOverridePath := Some(OverridePath))
  }

  function BuildAmiPlay(edp: EDP, appRepoUrl: string, playbookPath: string, c: EnvConfig,
    kwargs: seq<(string, string)>): Effects
  {
    RunAppPlaybook(playbookPath, edp, appRepoUrl, privateGithubKey := c.githubPrivateKey,
      hipchatToken := c.hipchatToken, kwargs := PlaybookKwargs + kwargs)
  }

  function BuildAmiCreate(edp: EDP, appRepoUrl: string, configSecureRepoUrl: string, c: EnvConfig,
    kwargs: seq<(string, string)>): Effects
  {
    CreateAmi(edp.play, edp.deployment, edp.environment, appRepoUrl, configSecureRepoUrl,
      c.awsAccessKeyId, c.awsSecretAccessKey, LaunchInfoPath, hipchatToken := c.hipchatToken,
      kwargs := CreateAmiKwargs + kwargs)
  }

  /** Ensure the job `name` in stage `si` and run `steps` on it, in order. */
  method EnsureJobAndRun(p: Pipeline, si: nat, name: string, steps: seq<Effects>) returns (ji: nat)
    requires p.Valid() && si < |p.stages|
    modifies p`stages, p`envVars, p`encryptedVars, p`secureVars
    ensures p.Valid() && p.HasJob(si, ji) && p.JobAt(si, ji).name == name
    ensures var e := Combine(steps);
      && p.envVars == old(p.envVars) + e.envVars
      && p.encryptedVars == old(p.encryptedVars) + e.encryptedVars
      && p.secureVars == old(p.secureVars) + e.secureVars
    ensures var (s, i) := EnsureJobIn(old(p.stages)[si], name);
      && ji == i
      && p.stages == WithJob(old(p.stages)[si := s], si, ji, ApplyOps(s.jobs[i], Combine(steps).ops))
  {
    ji := p.EnsureJob(si, name);
    p.RunAll(si, ji, steps);
  }

  /** The task builders `generate_build_ami` runs, in the order it runs them. */
  function BuildAmiSteps(edp: EDP, appRepoUrl: string, configSecureRepoUrl: string, playbookPath: string,
    c: EnvConfig, kwargs: seq<(string, string)>): seq<Effects>
  {
    [ JobOnly(RequirementsInstall("configuration")),
      JobOnly(PackageInstall("tubular")),
      JobOnly(TargetDirectory()),
      BuildAmiSelection(edp, c),
      BuildAmiLaunch(c),
      BuildAmiPlay(edp, appRepoUrl, playbookPath, c, kwargs),
      BuildAmiCreate(edp, appRepoUrl, configSecureRepoUrl, c, kwargs),
      JobOnly(AmiCleanup(Any)) ]
  }

  /**
   * `generate_build_ami`: ensure the environment's build job in stage `si`
   * and run the eight steps on it; the pipeline's variables gain what the
   * steps ensure.
   */
  method BuildAmi(p: Pipeline, si: nat, edp: EDP, appRepoUrl: string, configSecureRepoUrl: string,
    playbookPath: string, c: EnvConfig, kwargs: seq<(string, string)>) returns (ji: nat)
    requires p.Valid() && si < |p.stages|
    requires PlainKwargs(kwargs)
    modifies p`stages, p`envVars, p`encryptedVars, p`secureVars
    ensures p.Valid() && p.HasJob(si, ji) && p.JobAt(si, ji).name == BuildAmiJobNameFor(edp)
    ensures var e := Combine(BuildAmiSteps(edp, appRepoUrl, configSecureRepoUrl, playbookPath, c, kwargs));
      && p.envVars == old(p.envVars) + e.envVars
      && p.encryptedVars == old(p.encryptedVars) + e.encryptedVars
      && p.secureVars == old(p.secureVars) + e.secureVars
    ensures var (s, i) := EnsureJobIn(old(p.stages)[si], BuildAmiJobNameFor(edp));
      var e := Combine(BuildAmiSteps(edp, appRepoUrl, configSecureRepoUrl, playbookPath, c, kwargs));
      && ji == i
      && p.stages == WithJob(old(p.stages)[si := s], si, ji, ApplyOps(s.jobs[i], e.ops))
  {
    ji := EnsureJobAndRun(p, si, BuildAmiJobNameFor(edp), BuildAmiSteps(edp, appRepoUrl, configSecureRepoUrl, playbookPath, c, kwargs));
  }

  /**
   * The cleanup is the job's last operation and runs whatever the earlier
   * tasks did, so a failed build still removes its instance.
   */
  lemma BuildAmiCleanupLast(edp: EDP, appRepoUrl: string, configSecureRepoUrl: string, playbookPath: string,
    c: EnvConfig, kwargs: seq<(string, string)>)
    ensures var ops := Combine(BuildAmiSteps(edp, appRepoUrl, configSecureRepoUrl, playbookPath, c, kwargs)).ops;
      && |ops| > 0 && ops[|ops| - 1] == AmiCleanup(Any)[0]
      && ops[|ops| - 1].AddOp? && ops[|ops| - 1].task.runif == Any
  {
    var steps := BuildAmiSteps(edp, appRepoUrl, configSecureRepoUrl, playbookPath, c, kwargs);
    var e := Combine(steps);
    assert e.ops == Combine(steps[..7]).ops + AmiCleanup(Any);
  }

  /**
   * The base AMI selection declares the override file as an artifact and
   * marks the override as given; the launch passes that same file as its
   * last variable.
   */
  lemma BuildAmiLaunchReadsOverride(edp: EDP, c: EnvConfig)
    ensures BuildAmiSelection(edp, c).ops[0] == ArtifactsOp({OverridePath})
    ensures BuildAmiSelection(edp, c).envVars["BASE_AMI_ID_OVERRIDE"] == Some("yes")
    ensures BuildAmiLaunch(c).ops[1].AddOp?
    ensures var vs := LaunchVariables(Some(OverridePath)); |vs| == 11 && vs[10] == VarsFile(OverridePath)
  {
    BaseAmiOverrideFlag(c.awsAccessKeyId, c.awsSecretAccessKey, Some(edp.play), Some(edp.deployment),
      Some(edp.environment), Some(c.baseAmiId));
    LaunchInstanceOverride(c.awsAccessKeyId, c.awsSecretAccessKey, c.ec2VpcSubnetId, c.ec2SecurityGroupId,
      c.ec2InstanceProfileName, c.baseAmiId, Ec2Region, Ec2InstanceType, Ec2LaunchInstanceTimeout, Ec2EbsVolumeSize,
      Some(OverridePath), Passed);
  }

  /**
   * The launch declares the instance information file as an artifact; the
   * AMI creation reads it as its first variable and the cleanup as its
   * first variable too.
   */
  lemma BuildAmiLaunchInfoFlow(c: EnvConfig, kwargs: seq<(string, string)>)
    ensures BuildAmiLaunch(c).ops[0] == ArtifactsOp(LaunchArtifacts) && LaunchInfoPath in LaunchArtifacts
    ensures CreateAmiVariables(LaunchInfoPath, CreateAmiKwargs + kwargs)[0] == VarsFile(LaunchInfoPath)
    ensures AmiCleanup(Any)[0].task == AnsibleTaskOf(
      [ VarsFile(LaunchInfoPath), Var("ec2_region", "$EC2_REGION"), Var("hipchat_token", "$HIPCHAT_TOKEN"),
        Var("hipchat_room", "\"$HIPCHAT_ROOM\"") ],
      "playbooks/continuous_delivery/cleanup.yml", runif := Any, extraOptions := [ModulePathOption])
  {
    assert LaunchInfoPath == ArtifactPath + "/launch_info.yml";
    assert CreateAmiVariables(LaunchInfoPath, CreateAmiKwargs + kwargs)[0] == VarsFile(LaunchInfoPath) by {
      CreateAmiVariablesLayout(LaunchInfoPath, CreateAmiKwargs + kwargs);
    }
  }

  // ---------------------------------------------------------------------
  // generate_rollback_migration (jobs.py:124-172)
  // ---------------------------------------------------------------------

  /**
   * The job's name: the rollback job name, followed by `_` and the
   * sub-application's name when one is given.
   */
  function RollbackMigrationJobName(baseName: string, subApplicationName: Option<string>): (r: string)
  {
    match subApplicationName
    case None => baseName
    case Some(sub) => baseName + "_" + sub
  }

  /** The name is the base name iff no sub-application is given, and names differing sub-applications apart. */
  lemma RollbackMigrationJobNameSuffix(baseName: string, a: Option<string>, b: Option<string>)
    ensures RollbackMigrationJobName(baseName, a) == baseName <==> a.None?
    ensures RollbackMigrationJobName(baseName, a) == RollbackMigrationJobName(baseName, b) <==> a == b
  {
    var na, nb := RollbackMigrationJobName(baseName, a), RollbackMigrationJobName(baseName, b);
    if a.Some? && b.Some? && na == nb {
      assert a.value == na[|baseName| + 1..];
      assert b.value == nb[|baseName| + 1..];
    }
  }

  /** What `generate_rollback_migration` does to its job, call by call. */
  function RollbackMigrationOps(inventory: Utils.ArtifactLocation, instanceKey: Utils.ArtifactLocation,
    migrationInfo: Utils.ArtifactLocation, subApplicationName: Option<string>): seq<JobOp>
  {
    RetrieveArtifact(inventory, ArtifactPath)
    + RetrieveArtifact(instanceKey, ArtifactPath)
    + RetrieveArtifact(migrationInfo, ArtifactPath)
    + TargetDirectory()
    + [AddOp(Stages.ChmodKey(instanceKey.fileName, ArtifactPath))]
    + RequirementsInstall("configuration")
    + MigrationRollback(subApplicationName)
  }

  /**
   * `generate_rollback_migration`, with the job's base name as a parameter:
   * ensure the job in stage `si`, then apply its operations.
   */
  method RollbackMigration(p: Pipeline, si: nat, baseName: string, inventory: Utils.ArtifactLocation,
    instanceKey: Utils.ArtifactLocation, migrationInfo: Utils.ArtifactLocation,
    subApplicationName: Option<string> := None) returns (ji: nat)
    requires p.Valid() && si < |p.stages|
    modifies p`stages
    ensures p.Valid() && p.HasJob(si, ji)
    ensures p.JobAt(si, ji).name == RollbackMigrationJobName(baseName, subApplicationName)
    ensures var (s, i) := EnsureJobIn(old(p.stages)[si], RollbackMigrationJobName(baseName, subApplicationName));
      && ji == i
      && p.stages == WithJob(old(p.stages)[si := s], si, ji,
           ApplyOps(s.jobs[i], RollbackMigrationOps(inventory, instanceKey, migrationInfo, subApplicationName)))
  {
    var jobName := baseName;
    if subApplicationName.Some? {
      jobName := jobName + "_" + subApplicationName.value;
    }
    ji := p.EnsureJob(si, jobName);
    p.Apply(si, ji, RollbackMigrationOps(inventory, instanceKey, migrationInfo, subApplicationName));
  }

  /**
   * Ensuring a directory task around three distinct ensured tasks and
   * then adding one more, on a fresh job, leaves the directory task once,
   * followed by the three and the added one.
   */
  lemma EnsureAroundFetches(name: string, t: Task, a: Task, b: Task, c: Task, d: Task)
    requires t != a && t != b && t != c && a != b && a != c && b != c
    ensures ApplyOps(EmptyJob(name),
      [EnsureOp(t), EnsureOp(a), EnsureOp(t), EnsureOp(b), EnsureOp(t), EnsureOp(c), EnsureOp(t), AddOp(d)]).tasks
      == [t, a, b, c, d]
  {
    var j0 := EmptyJob(name);
    var p1, p2, p3, p4 := [EnsureOp(t), EnsureOp(a)], [EnsureOp(t), EnsureOp(b)], [EnsureOp(t), EnsureOp(c)], [EnsureOp(t), AddOp(d)];
    assert [EnsureOp(t), EnsureOp(a), EnsureOp(t), EnsureOp(b), EnsureOp(t), EnsureOp(c), EnsureOp(t), AddOp(d)]
      == p1 + p2 + p3 + p4;
    ApplyOpsPair(j0, p1[0], p1[1]);
    var j1 := ApplyOps(j0, p1);
    assert j1.tasks == [t, a];
    ApplyOpsPair(j1, p2[0], p2[1]);
    var j2 := ApplyOps(j1, p2);
    assert j2.tasks == [t, a, b];
    ApplyOpsPair(j2, p3[0], p3[1]);
    var j3 := ApplyOps(j2, p3);
    assert j3.tasks == [t, a, b, c];
    ApplyOpsPair(j3, p4[0], p4[1]);
    ApplyOpsAppend(j0, p1, p2);
    ApplyOpsAppend(j0, p1 + p2, p3);
    ApplyOpsAppend(j0, p1 + p2 + p3, p4);
  }

  /**
   * The operations begin with the three retrievals, each ensuring the
   * target directory and then its fetch, the directory once more and the
   * key's permission change.
   */
  lemma RollbackMigrationOpsLayout(inventory: Utils.ArtifactLocation, instanceKey: Utils.ArtifactLocation,
    migrationInfo: Utils.ArtifactLocation, subApplicationName: Option<string>)
    ensures var ops := RollbackMigrationOps(inventory, instanceKey, migrationInfo, subApplicationName);
      var t := EnsureOp(TargetDirectory()[0].task);
      && ops == [ t, EnsureOp(Utils.AsFetchTask(inventory, ArtifactPath)),
                  t, EnsureOp(Utils.AsFetchTask(instanceKey, ArtifactPath)),
                  t, EnsureOp(Utils.AsFetchTask(migrationInfo, ArtifactPath)),
                  t, AddOp(Stages.ChmodKey(instanceKey.fileName, ArtifactPath)) ]
                + (RequirementsInstall("configuration") + MigrationRollback(subApplicationName))
  {
    var t := EnsureOp(TargetDirectory()[0].task);
    assert TargetDirectory() == [t];
    RetrievalsShape(t, RetrieveArtifact(inventory, ArtifactPath), RetrieveArtifact(instanceKey, ArtifactPath),
      RetrieveArtifact(migrationInfo, ArtifactPath), AddOp(Stages.ChmodKey(instanceKey.fileName, ArtifactPath)),
      RequirementsInstall("configuration"), MigrationRollback(subApplicationName));
  }

  /** Three two-element retrievals, the directory and one more element, then the rest. */
  lemma RetrievalsShape<T>(t: T, r1: seq<T>, r2: seq<T>, r3: seq<T>, d: T, x: seq<T>, y: seq<T>)
    requires |r1| == |r2| == |r3| == 2 && r1[0] == r2[0] == r3[0] == t
    ensures r1 + r2 + r3 + [t] + [d] + x + y == [t, r1[1], t, r2[1], t, r3[1], t, d] + (x + y)
  {
    assert r1 == [t, r1[1]] && r2 == [t, r2[1]] && r3 == [t, r3[1]];
  }

  /**
   * On a fresh job, three distinct locations give five leading tasks: the
   * target directory once, the three fetches in call order and then the
   * key's permission change; installs and the rollback follow.
   */
  lemma RollbackMigrationFreshJob(name: string, inventory: Utils.ArtifactLocation,
    instanceKey: Utils.ArtifactLocation, migrationInfo: Utils.ArtifactLocation, subApplicationName: Option<string>)
    requires inventory != instanceKey && inventory != migrationInfo && instanceKey != migrationInfo
    ensures var tasks := ApplyOps(EmptyJob(name), RollbackMigrationOps(inventory, instanceKey, migrationInfo, subApplicationName)).tasks;
      && |tasks| >= 5
      && tasks[..5] == [ TargetDirectory()[0].task,
                         Utils.AsFetchTask(inventory, ArtifactPath),
                         Utils.AsFetchTask(instanceKey, ArtifactPath),
                         Utils.AsFetchTask(migrationInfo, ArtifactPath),
                         Stages.ChmodKey(instanceKey.fileName, ArtifactPath) ]
  {
    var t := TargetDirectory()[0].task;
    var a, b, c := Utils.AsFetchTask(inventory, ArtifactPath), Utils.AsFetchTask(instanceKey, ArtifactPath),
      Utils.AsFetchTask(migrationInfo, ArtifactPath);
    var d := Stages.ChmodKey(instanceKey.fileName, ArtifactPath);
    Utils.AsFetchTaskRoundTrip(inventory, ArtifactPath);
    Utils.AsFetchTaskRoundTrip(instanceKey, ArtifactPath);
    Utils.AsFetchTaskRoundTrip(migrationInfo, ArtifactPath);
    var head := [EnsureOp(t), EnsureOp(a), EnsureOp(t), EnsureOp(b), EnsureOp(t), EnsureOp(c), EnsureOp(t), AddOp(d)];
    var rest := RequirementsInstall("configuration") + MigrationRollback(subApplicationName);
    RollbackMigrationOpsLayout(inventory, instanceKey, migrationInfo, subApplicationName);
    EnsureAroundFetches(name, t, a, b, c, d);
    ApplyOpsAppend(EmptyJob(name), head, rest);
    ApplyOpsKeepsTasks(ApplyOps(EmptyJob(name), head), rest);
  }
}
