/**
 * The stage builders of edxpipelines/patterns/stages.py.
 *
 * Every builder ensures some plain and some encrypted environment variables
 * on the pipeline, ensures one stage (setting manual approval when asked),
 * ensures one job in it and then changes that job step by step. Each
 * builder is a method on a `Pipeline`; what it does is described by a
 * `StageBuild` value, and `Built` says what the pipeline's stage list
 * becomes. The lemmas state, builder by builder, the layout the source
 * promises.
 *
 * Three builders call a task builder without the parameters it requires
 * (the launch, the playbook run and the AMI creation), which raises
 * `TypeError` in the source; each such call is recorded as a `CallTask`
 * with the arguments the call site passes, and the builder is described
 * past it.
 */
module Stages {
  import opened Wrappers
  import opened GoCD
  import opened Constants
  import opened Tasks
  import Utils

  /** Everything one stage builder does to its pipeline. */
  datatype StageBuild = StageBuild(
    envVars: map<string, Option<string>>,
    encryptedVars: map<string, string>,
    stage: string,
    manual: bool,
    job: string,
    ops: seq<JobOp>)

  /**
   * `ensure_stage`, then `set_has_manual_approval` when `manual`, then
   * `ensure_job`: the new stage list and the indices of the stage and job.
   */
  function Opened(stages: seq<Stage>, name: string, manual: bool, jobName: string): (r: (seq<Stage>, nat, nat))
    ensures r.1 < |r.0| && r.2 < |r.0[r.1].jobs|
  {
    var (s1, si) := EnsureStageIn(stages, name);
    var s2 := if manual then s1[si := s1[si].(manualApproval := true)] else s1;
    var (st, ji) := EnsureJobIn(s2[si], jobName);
    (s2[si := st], si, ji)
  }

  /** The stage list after the builder `b`. */
  function Built(stages: seq<Stage>, b: StageBuild): seq<Stage>
  {
    var (s, si, ji) := Opened(stages, b.stage, b.manual, b.job);
    WithJob(s, si, ji, ApplyOps(s[si].jobs[ji], b.ops))
  }

  /** The builder `b` has run on `p`: its variables are set and its stage is built. */
  twostate predicate Performed(p: Pipeline, b: StageBuild)
    reads p
  {
    && p.envVars == old(p.envVars) + b.envVars
    && p.encryptedVars == old(p.encryptedVars) + b.encryptedVars
    && p.stages == Built(old(p.stages), b)
  }

  /** `Built` is opening the stage and then applying the operations to the opened job. */
  lemma BuiltFromOpened(stages: seq<Stage>, b: StageBuild)
    ensures var (s, si, ji) := Opened(stages, b.stage, b.manual, b.job);
      Built(stages, b) == WithJob(s, si, ji, ApplyOps(s[si].jobs[ji], b.ops))
  {
  }

  /** The opening steps every builder shares. */
  method OpenStage(p: Pipeline, name: string, manual: bool, jobName: string) returns (si: nat, ji: nat)
    requires p.Valid()
    modifies p`stages
    ensures p.Valid() && p.HasJob(si, ji)
    ensures (p.stages, si, ji) == Opened(old(p.stages), name, manual, jobName)
  {
    si := p.EnsureStage(name);
    if manual {
      p.SetHasManualApproval(si);
    }
    ji := p.EnsureJob(si, jobName);
  }

  // ---------------------------------------------------------------------
  // What any builder does to the stage list
  // ---------------------------------------------------------------------

  /** On a pipeline without the stage, the builder appends it, with one job. */
  predicate AppendsStage(stages: seq<Stage>, b: StageBuild)
  {
    Built(stages, b) == stages + [Stage(b.stage, b.manual, [ApplyOps(EmptyJob(b.job), b.ops)], [])]
  }

  /**
   * A new stage is appended after the existing ones; it is manual exactly
   * when the builder asks for it, and holds only the builder's job.
   */
  lemma BuiltFresh(stages: seq<Stage>, b: StageBuild)
    requires b.stage !in StageNames(stages)
    ensures AppendsStage(stages, b)
  {
    EnsureStageInKeepsOthers(stages, b.stage);
    var (s1, si) := EnsureStageIn(stages, b.stage);
    var s2 := if b.manual then s1[si := s1[si].(manualApproval := true)] else s1;
    var st := Stage(b.stage, b.manual, [], []);
    assert s2 == stages + [st];
    assert IndexOf(JobNames(st.jobs), b.job) == None;
    assert st.jobs + [EmptyJob(b.job)] == [EmptyJob(b.job)];
    var st' := st.(jobs := [EmptyJob(b.job)]);
    assert EnsureJobIn(st, b.job) == (st', 0);
    var n := |stages|;
    assert si == n && s2[si] == st;
    assert (stages + [st])[n := st'] == stages + [st'];
    assert Opened(stages, b.stage, b.manual, b.job) == (stages + [st'], n, 0);
    var j := ApplyOps(EmptyJob(b.job), b.ops);
    assert (stages + [st'])[n].jobs[0] == EmptyJob(b.job);
    assert Built(stages, b) == WithJob(stages + [st'], n, 0, j);
    assert [EmptyJob(b.job)][0 := j] == [j];
  }

  /**
   * On a pipeline that has the stage, the builder changes only that stage:
   * it keeps its place, name and recorded calls, it becomes manual if the
   * builder asks for it and is never made automatic, and it has the
   * builder's job.
   */
  lemma BuiltExisting(stages: seq<Stage>, b: StageBuild, i: nat)
    requires WellFormed(stages) && i < |stages| && stages[i].name == b.stage
    ensures var r := Built(stages, b);
      && |r| == |stages|
      && r[i].name == b.stage && r[i].calls == stages[i].calls
      && r[i].manualApproval == (stages[i].manualApproval || b.manual)
      && b.job in JobNames(r[i].jobs)
      && forall k | 0 <= k < |stages| && k != i :: r[k] == stages[k]
  {
    EnsureStageInKeepsOthers(stages, b.stage);
    EnsureStageInProperties(stages, b.stage);
    var (s1, si) := EnsureStageIn(stages, b.stage);
    assert si == i;
    var s2 := if b.manual then s1[si := s1[si].(manualApproval := true)] else s1;
    var (st, ji) := EnsureJobIn(s2[si], b.job);
    var j := ApplyOps(st.jobs[ji], b.ops);
    var r := Built(stages, b);
    assert r == WithJob(s2[si := st], si, ji, j);
    assert r[i].jobs[ji].name == b.job;
    assert JobNames(r[i].jobs)[ji] == b.job;
  }

  /** Stage names stay unique, and job names stay unique in every stage. */
  lemma BuiltWellFormed(stages: seq<Stage>, b: StageBuild)
    requires WellFormed(stages)
    ensures WellFormed(Built(stages, b))
  {
    EnsureStageInProperties(stages, b.stage);
    var (s1, si) := EnsureStageIn(stages, b.stage);
    var s2 := if b.manual then s1[si := s1[si].(manualApproval := true)] else s1;
    assert StageNames(s2) == StageNames(s1);
    assert WellFormed(s2) by {
      forall k | 0 <= k < |s2| ensures Distinct(JobNames(s2[k].jobs)) {
        assert JobNames(s2[k].jobs) == JobNames(s1[k].jobs);
      }
    }
    EnsureJobInProperties(s2[si], b.job);
    var (st, ji) := EnsureJobIn(s2[si], b.job);
    var s3 := s2[si := st];
    assert StageNames(s3) == StageNames(s2);
    assert WellFormed(s3);
    WithJobWellFormed(s3, si, ji, ApplyOps(st.jobs[ji], b.ops));
  }

  /** A builder that always asks for approval leaves its stage manual, whatever was there before. */
  lemma BuiltManual(stages: seq<Stage>, b: StageBuild)
    requires WellFormed(stages) && b.manual
    ensures forall k | 0 <= k < |Built(stages, b)| && Built(stages, b)[k].name == b.stage :: Built(stages, b)[k].manualApproval
  {
    var r := Built(stages, b);
    BuiltWellFormed(stages, b);
    if b.stage in StageNames(stages) {
      var i := IndexOf(StageNames(stages), b.stage).value;
      BuiltExisting(stages, b, i);
      forall k | 0 <= k < |r| && r[k].name == b.stage ensures r[k].manualApproval {
        if k != i {
          assert false;
        }
      }
    } else {
      BuiltFresh(stages, b);
      forall k | 0 <= k < |r| && r[k].name == b.stage ensures r[k].manualApproval {
        if k < |stages| {
          assert false;
        }
      }
    }
  }

  // ---------------------------------------------------------------------
  // Shared tasks
  // ---------------------------------------------------------------------

  /** A `FetchArtifactTask` of a single file. */
  function Fetch(loc: Utils.ArtifactLocation, dest: string): Task
  {
    FetchTask(loc.pipeline, loc.stage, loc.job, FetchFile(loc.fileName), dest, Passed)
  }

  /** The `chmod 600` that the SSH key needs before use. */
  function ChmodKey(keyFile: string, workingDir: string): Task
  {
    ExecTask(["/bin/bash", "-c", "chmod 600 " + keyFile], Some(workingDir), Passed)
  }

  /** Keyword arguments as they appear at a recorded call. */
  function KwargWords(kwargs: seq<(string, string)>): (r: seq<string>)
    ensures |r| == |kwargs|
  {
    seq(|kwargs|, i requires 0 <= i < |kwargs| => kwargs[i].0 + "=" + kwargs[i].1)
  }


  // ---------------------------------------------------------------------
  // Shapes of operation lists, over abstract operations
  // ---------------------------------------------------------------------

  lemma SuffixOf(prefix: seq<JobOp>, rest: seq<JobOp>)
    ensures |prefix + rest| == |prefix| + |rest|
    ensures (prefix + rest)[|prefix|..] == rest && (prefix + rest)[..|prefix|] == prefix
  {
  }

  lemma LastFour(prefix: seq<JobOp>, d: JobOp, e: JobOp, f: JobOp, g: JobOp)
    ensures |prefix + [d] + [e] + [f] + [g]| == |prefix| + 4
    ensures (prefix + [d] + [e] + [f] + [g])[|prefix|..] == [d, e, f, g]
  {
  }

  lemma LastTwo(prefix: seq<JobOp>, d: JobOp, e: JobOp)
    ensures |prefix + [d] + [e]| == |prefix| + 2
    ensures (prefix + [d] + [e])[|prefix|..] == [d, e]
  {
  }

  /** The six operations every ansible-style job starts with. */
  lemma SixSteps(x: JobOp, y: JobOp, c: seq<JobOp>, z: JobOp, w: JobOp, f: seq<JobOp>)
    requires |c| == 1 && |f| == 1
    ensures [x] + [y] + c + [z] + [w] + f == [x, y, c[0], z, w, f[0]]
  {
  }

  lemma AfterPrefix(a: seq<JobOp>, x: JobOp, m: seq<JobOp>, y: JobOp, z: JobOp)
    ensures |a + [x] + m + [y, z]| == |a| + 3 + |m|
    ensures (a + [x] + m + [y, z])[|a|..] == [x] + m + [y, z]
    ensures |m| == 1 ==> [x] + m + [y, z] == [x, m[0], y, z]
    ensures |m| == 0 ==> [x] + m + [y, z] == [x, y, z]
  {
    assert a + [x] + m + [y, z] == a + ([x] + m + [y, z]);
  }

  lemma TwoThenOne(a: seq<JobOp>, b: seq<JobOp>, x: JobOp)
    requires |a| == 1 && |b| == 1
    ensures a + b + [x] == [a[0], b[0], x]
  {
  }

  lemma OneThenFour(a: seq<JobOp>, x: JobOp, y: JobOp, z: JobOp, w: JobOp)
    requires |a| == 1
    ensures a + [x, y] + [z] + [w] == [a[0], x, y, z, w]
  {
  }

  // ---------------------------------------------------------------------
  // generate_asg_cleanup (stages.py:7-50)
  // ---------------------------------------------------------------------

  const CleanupAsgsTask := ExecTask(["/usr/bin/python", "scripts/cleanup-asgs.py"], Some("tubular"), Passed)

  function AsgCleanupOps(): seq<JobOp>
  {
    RequirementsInstall("tubular") + [AddOp(CleanupAsgsTask)]
  }

  function AsgCleanupBuild(
    asgardApiEndpoints: string, asgardToken: string, awsAccessKeyId: string, awsSecretAccessKey: string,
    manualApproval: bool := false): StageBuild
  {
    StageBuild(
      map["ASGARD_API_ENDPOINTS" := Some(asgardApiEndpoints)],
      map["ASGARD_API_TOKEN" := asgardToken, "AWS_ACCESS_KEY_ID" := awsAccessKeyId,
          "AWS_SECRET_ACCESS_KEY" := awsSecretAccessKey],
      "ASG-Cleanup-Stage", manualApproval, "Cleanup-ASGS", AsgCleanupOps())
  }

  method AsgCleanup(
    p: Pipeline, asgardApiEndpoints: string, asgardToken: string, awsAccessKeyId: string,
    awsSecretAccessKey: string, manualApproval: bool := false) returns (si: nat)
    requires p.Valid()
    modifies p`stages, p`envVars, p`encryptedVars
    ensures p.Valid() && si < |p.stages| && p.stages[si].name == "ASG-Cleanup-Stage"
    ensures Performed(p, AsgCleanupBuild(asgardApiEndpoints, asgardToken, awsAccessKeyId, awsSecretAccessKey, manualApproval))
  {
    p.EnsureEnvVars(map["ASGARD_API_ENDPOINTS" := Some(asgardApiEndpoints)]);
    p.EnsureEncryptedEnvVars(map["ASGARD_API_TOKEN" := asgardToken, "AWS_ACCESS_KEY_ID" := awsAccessKeyId,
      "AWS_SECRET_ACCESS_KEY" := awsSecretAccessKey]);
    var ji;
    si, ji := OpenStage(p, "ASG-Cleanup-Stage", manualApproval, "Cleanup-ASGS");
    var ops := RequirementsInstall("tubular");
    ops := ops + [AddOp(CleanupAsgsTask)];
    p.Apply(si, ji, ops);
  }

  /**
   * The clean-up job installs the `tubular` requirements and then runs the
   * clean-up script: exactly those two tasks, in that order.
   */
  lemma AsgCleanupLayout(name: string)
    ensures var ops := AsgCleanupOps();
      && |ops| == 2 && ops[0] == RequirementsInstall("tubular")[0] && ops[1] == AddOp(CleanupAsgsTask)
      && ApplyOps(EmptyJob(name), ops).tasks == [RequirementsInstall("tubular")[0].task, CleanupAsgsTask]
  {
    var ops := AsgCleanupOps();
    assert ops == [ops[0], ops[1]];
    ApplyOpsPair(EmptyJob(name), ops[0], ops[1]);
  }

  // ---------------------------------------------------------------------
  // generate_launch_instance (stages.py:53-125)
  // ---------------------------------------------------------------------

  /** `tasks.generate_launch_instance(job)`: the callee also takes the pipeline and six more arguments. */
  const LaunchCall := CallTask(Call("generate_launch_instance", []))

  function LaunchInstanceEnv(
    ec2VpcSubnetId: string, ec2SecurityGroupId: string, ec2InstanceProfileName: string, baseAmiId: string,
    ec2Region: string, ec2InstanceType: string, ec2Timeout: string, ec2EbsVolumeSize: string): map<string, Option<string>>
  {
    map["EC2_VPC_SUBNET_ID" := Some(ec2VpcSubnetId), "EC2_SECURITY_GROUP_ID" := Some(ec2SecurityGroupId),
        "EC2_ASSIGN_PUBLIC_IP" := Some("no"), "EC2_TIMEOUT" := Some(ec2Timeout), "EC2_REGION" := Some(ec2Region),
        "EBS_VOLUME_SIZE" := Some(ec2EbsVolumeSize), "EC2_INSTANCE_TYPE" := Some(ec2InstanceType),
        "EC2_INSTANCE_PROFILE_NAME" := Some(ec2InstanceProfileName), "NO_REBOOT" := Some("no"),
        "BASE_AMI_ID" := Some(baseAmiId), "ANSIBLE_CONFIG" := Some(AnsibleContinuousDeliveryConfig)]
  }

  function LaunchInstanceOps(): seq<JobOp>
  {
    RequirementsInstall("tubular") + RequirementsInstall("configuration") + [AddOp(LaunchCall)]
  }

  function LaunchInstanceBuild(
    awsAccessKeyId: string, awsSecretAccessKey: string, ec2VpcSubnetId: string, ec2SecurityGroupId: string,
    ec2InstanceProfileName: string, baseAmiId: string, manualApproval: bool := false,
    ec2Region: string := Ec2Region, ec2InstanceType: string := Ec2InstanceType,
    ec2Timeout: string := Ec2LaunchInstanceTimeout, ec2EbsVolumeSize: string := Ec2EbsVolumeSize): StageBuild
  {
    StageBuild(
      LaunchInstanceEnv(ec2VpcSubnetId, ec2SecurityGroupId, ec2InstanceProfileName, baseAmiId,
        ec2Region, ec2InstanceType, ec2Timeout, ec2EbsVolumeSize),
      map["AWS_ACCESS_KEY_ID" := awsAccessKeyId, "AWS_SECRET_ACCESS_KEY" := awsSecretAccessKey],
      LaunchInstanceStageName, manualApproval, LaunchInstanceJobName, LaunchInstanceOps())
  }

  method LaunchInstanceStage(
    p: Pipeline, awsAccessKeyId: string, awsSecretAccessKey: string, ec2VpcSubnetId: string,
    ec2SecurityGroupId: string, ec2InstanceProfileName: string, baseAmiId: string, manualApproval: bool := false,
    ec2Region: string := Ec2Region, ec2InstanceType: string := Ec2InstanceType,
    ec2Timeout: string := Ec2LaunchInstanceTimeout, ec2EbsVolumeSize: string := Ec2EbsVolumeSize) returns (si: nat)
    requires p.Valid()
    modifies p`stages, p`envVars, p`encryptedVars
    ensures p.Valid() && si < |p.stages| && p.stages[si].name == LaunchInstanceStageName
    ensures Performed(p, LaunchInstanceBuild(awsAccessKeyId, awsSecretAccessKey, ec2VpcSubnetId, ec2SecurityGroupId,
      ec2InstanceProfileName, baseAmiId, manualApproval, ec2Region, ec2InstanceType, ec2Timeout, ec2EbsVolumeSize))
  {
    p.EnsureEncryptedEnvVars(map["AWS_ACCESS_KEY_ID" := awsAccessKeyId, "AWS_SECRET_ACCESS_KEY" := awsSecretAccessKey]);
    p.EnsureEnvVars(LaunchInstanceEnv(ec2VpcSubnetId, ec2SecurityGroupId, ec2InstanceProfileName, baseAmiId,
      ec2Region, ec2InstanceType, ec2Timeout, ec2EbsVolumeSize));
    var ji;
    si, ji := OpenStage(p, LaunchInstanceStageName, manualApproval, LaunchInstanceJobName);
    var ops := RequirementsInstall("tubular");
    ops := ops + RequirementsInstall("configuration");
    ops := ops + [AddOp(LaunchCall)];
    p.Apply(si, ji, ops);
  }

  /**
   * The launch stage refuses a public IP address and a reboot, and passes
   * the base AMI and the region on to the launch.
   */
  lemma LaunchInstanceVariables(
    ec2VpcSubnetId: string, ec2SecurityGroupId: string, ec2InstanceProfileName: string, baseAmiId: string,
    ec2Region: string, ec2InstanceType: string, ec2Timeout: string, ec2EbsVolumeSize: string)
    ensures var m := LaunchInstanceEnv(ec2VpcSubnetId, ec2SecurityGroupId, ec2InstanceProfileName, baseAmiId,
        ec2Region, ec2InstanceType, ec2Timeout, ec2EbsVolumeSize);
      && m["EC2_ASSIGN_PUBLIC_IP"] == Some("no") && m["NO_REBOOT"] == Some("no")
      && m["BASE_AMI_ID"] == Some(baseAmiId) && m["EC2_REGION"] == Some(ec2Region)
  {
  }

  /** The launch job installs the `tubular` requirements, then the `configuration` ones, then launches. */
  lemma LaunchInstanceLayout()
    ensures LaunchInstanceOps() == [RequirementsInstall("tubular")[0], RequirementsInstall("configuration")[0], AddOp(LaunchCall)]
  {
    TwoThenOne(RequirementsInstall("tubular"), RequirementsInstall("configuration"), AddOp(LaunchCall));
  }

  // ---------------------------------------------------------------------
  // generate_run_play (stages.py:128-218)
  // ---------------------------------------------------------------------

  /** Fetching one output of this pipeline's launch stage into `target`. */
  function LaunchOutput(pipelineName: string, fileName: string): Task
  {
    FetchTask(pipelineName, LaunchInstanceStageName, LaunchInstanceJobName, FetchFile(fileName), ArtifactPath, Passed)
  }

  function RunPlayEnv(
    play: string, deployment: string, edxEnvironment: string, appRepo: string, hipchatRoom: string): map<string, Option<string>>
  {
    map["PLAY" := Some(play), "DEPLOYMENT" := Some(deployment), "EDX_ENVIRONMENT" := Some(edxEnvironment),
        "APP_REPO" := Some(appRepo), "ARTIFACT_PATH" := Some(ArtifactPath + "/"), "HIPCHAT_ROOM" := Some(hipchatRoom),
        "ANSIBLE_CONFIG" := Some(AnsibleContinuousDeliveryConfig)]
  }

  /** The recorded playbook call: the secure directory and the playbook, then the keyword arguments. */
  function RunAppPlaybookCall(configurationSecureDir: string, playbookWithPath: string, kwargs: seq<(string, string)>): Task
  {
    CallTask(Call("generate_run_app_playbook", [configurationSecureDir, playbookWithPath] + KwargWords(kwargs)))
  }

  /** The job's operations: installs, the target directory, the three launch outputs, then the play. */
  function RunPlayOps(pipelineName: string, playbookWithPath: string, configurationSecureDir: string,
    kwargs: seq<(string, string)>): seq<JobOp>
  {
    RequirementsInstall("tubular") + RequirementsInstall("configuration") + TargetDirectory()
    + [AddOp(LaunchOutput(pipelineName, KeyPemFilename))]
    + [AddOp(LaunchOutput(pipelineName, LaunchInstanceFilename))]
    + [AddOp(LaunchOutput(pipelineName, AnsibleInventoryFilename))]
    + [AddOp(RunAppPlaybookCall(configurationSecureDir, playbookWithPath, kwargs))]
  }

  function RunPlayBuild(
    pipelineName: string, playbookWithPath: string, play: string, deployment: string, edxEnvironment: string,
    appRepo: string, privateGithubKey: string := "", hipchatToken: string := "", hipchatRoom: string := HipchatRoom,
    manualApproval: bool := false, configurationSecureDir: string := PrivateConfigurationLocalDir,
    kwargs: seq<(string, string)> := []): StageBuild
  {
    StageBuild(
      RunPlayEnv(play, deployment, edxEnvironment, appRepo, hipchatRoom),
      map["HIPCHAT_TOKEN" := hipchatToken, "PRIVATE_GITHUB_KEY" := privateGithubKey],
      RunPlayStageName, manualApproval, RunPlayJobName,
      RunPlayOps(pipelineName, playbookWithPath, configurationSecureDir, kwargs))
  }

  method RunPlay(
    p: Pipeline, playbookWithPath: string, play: string, deployment: string, edxEnvironment: string,
    appRepo: string, privateGithubKey: string := "", hipchatToken: string := "", hipchatRoom: string := HipchatRoom,
    manualApproval: bool := false, configurationSecureDir: string := PrivateConfigurationLocalDir,
    kwargs: seq<(string, string)> := []) returns (si: nat)
    requires p.Valid()
    modifies p`stages, p`envVars, p`encryptedVars
    ensures p.Valid() && si < |p.stages| && p.stages[si].name == RunPlayStageName
    ensures Performed(p, RunPlayBuild(p.name, playbookWithPath, play, deployment, edxEnvironment, appRepo,
      privateGithubKey, hipchatToken, hipchatRoom, manualApproval, configurationSecureDir, kwargs))
  {
    p.EnsureEncryptedEnvVars(map["HIPCHAT_TOKEN" := hipchatToken, "PRIVATE_GITHUB_KEY" := privateGithubKey]);
    p.EnsureEnvVars(RunPlayEnv(play, deployment, edxEnvironment, appRepo, hipchatRoom));
    var ji;
    si, ji := OpenStage(p, RunPlayStageName, manualApproval, RunPlayJobName);
    var ops := RequirementsInstall("tubular");
    ops := ops + RequirementsInstall("configuration");
    ops := ops + TargetDirectory();
    ops := ops + [AddOp(LaunchOutput(p.name, KeyPemFilename))];
    ops := ops + [AddOp(LaunchOutput(p.name, LaunchInstanceFilename))];
    ops := ops + [AddOp(LaunchOutput(p.name, AnsibleInventoryFilename))];
    ops := ops + [AddOp(RunAppPlaybookCall(configurationSecureDir, playbookWithPath, kwargs))];
    p.Apply(si, ji, ops);
  }

  /**
   * The play's job fetches the key, the launch information and the
   * inventory, in that order, from this pipeline's launch job into
   * `target`, after ensuring that directory, and runs the play last.
   */
  lemma RunPlayLayout(pipelineName: string, playbookWithPath: string, configurationSecureDir: string,
    kwargs: seq<(string, string)>)
    ensures var ops := RunPlayOps(pipelineName, playbookWithPath, configurationSecureDir, kwargs);
      && |ops| == 7
      && ops[3..] == [
        AddOp(FetchTask(pipelineName, LaunchInstanceStageName, LaunchInstanceJobName, FetchFile(KeyPemFilename), ArtifactPath, Passed)),
        AddOp(FetchTask(pipelineName, LaunchInstanceStageName, LaunchInstanceJobName, FetchFile(LaunchInstanceFilename), ArtifactPath, Passed)),
        AddOp(FetchTask(pipelineName, LaunchInstanceStageName, LaunchInstanceJobName, FetchFile(AnsibleInventoryFilename), ArtifactPath, Passed)),
        AddOp(CallTask(Call("generate_run_app_playbook", [configurationSecureDir, playbookWithPath] + KwargWords(kwargs))))]
  {
    LastFour(RequirementsInstall("tubular") + RequirementsInstall("configuration") + TargetDirectory(),
      AddOp(LaunchOutput(pipelineName, KeyPemFilename)), AddOp(LaunchOutput(pipelineName, LaunchInstanceFilename)),
      AddOp(LaunchOutput(pipelineName, AnsibleInventoryFilename)),
      AddOp(RunAppPlaybookCall(configurationSecureDir, playbookWithPath, kwargs)));
  }

  // ---------------------------------------------------------------------
  // generate_create_ami_from_instance (stages.py:221-314)
  // ---------------------------------------------------------------------

  function CreateAmiEnv(
    play: string, deployment: string, edxEnvironment: string, appRepo: string, configurationSecureRepo: string,
    configurationRepo: string, amiCreationTimeout: string, amiWait: string, cacheId: string,
    artifactPath: string, hipchatRoom: string): map<string, Option<string>>
  {
    map["PLAY" := Some(play), "DEPLOYMENT" := Some(deployment), "EDX_ENVIRONMENT" := Some(edxEnvironment),
        "APP_REPO" := Some(appRepo), "CONFIGURATION_REPO" := Some(configurationRepo),
        "CONFIGURATION_SECURE_REPO" := Some(configurationSecureRepo),
        "AMI_CREATION_TIMEOUT" := Some(amiCreationTimeout), "AMI_WAIT" := Some(amiWait),
        "CACHE_ID" := Some(cacheId), "ARTIFACT_PATH" := Some(artifactPath), "HIPCHAT_ROOM" := Some(hipchatRoom),
        "ANSIBLE_CONFIG" := Some(AnsibleContinuousDeliveryConfig)]
  }

  /** The recorded AMI-creation call, with the keyword arguments. */
  function CreateAmiCall(kwargs: seq<(string, string)>): Task
  {
    CallTask(Call("generate_create_ami", KwargWords(kwargs)))
  }

  function CreateAmiOps(pipelineName: string, kwargs: seq<(string, string)>): seq<JobOp>
  {
    RequirementsInstall("tubular") + RequirementsInstall("configuration") + TargetDirectory()
    + [AddOp(LaunchOutput(pipelineName, LaunchInstanceFilename))]
    + [AddOp(CreateAmiCall(kwargs))]
  }

  function CreateAmiBuild(
    pipelineName: string, play: string, deployment: string, edxEnvironment: string, appRepo: string,
    configurationSecureRepo: string, awsAccessKeyId: string, awsSecretAccessKey: string,
    configurationRepo: string := PublicConfigurationRepoUrl, amiCreationTimeout: string := "3600",
    amiWait: string := "yes", cacheId: string := "", artifactPath: string := ArtifactPath,
    hipchatRoom: string := HipchatRoom, manualApproval: bool := false,
    kwargs: seq<(string, string)> := []): StageBuild
  {
    StageBuild(
      CreateAmiEnv(play, deployment, edxEnvironment, appRepo, configurationSecureRepo, configurationRepo,
        amiCreationTimeout, amiWait, cacheId, artifactPath, hipchatRoom),
      map["AWS_ACCESS_KEY_ID" := awsAccessKeyId, "AWS_SECRET_ACCESS_KEY" := awsSecretAccessKey],
      BuildAmiStageName, manualApproval, BuildAmiJobName,
      CreateAmiOps(pipelineName, kwargs))
  }

  method CreateAmiFromInstance(
    p: Pipeline, play: string, deployment: string, edxEnvironment: string, appRepo: string,
    configurationSecureRepo: string, awsAccessKeyId: string, awsSecretAccessKey: string,
    configurationRepo: string := PublicConfigurationRepoUrl, amiCreationTimeout: string := "3600",
    amiWait: string := "yes", cacheId: string := "", artifactPath: string := ArtifactPath,
    hipchatRoom: string := HipchatRoom, manualApproval: bool := false,
    kwargs: seq<(string, string)> := []) returns (si: nat)
    requires p.Valid()
    modifies p`stages, p`envVars, p`encryptedVars
    ensures p.Valid() && si < |p.stages| && p.stages[si].name == BuildAmiStageName
    ensures Performed(p, CreateAmiBuild(p.name, play, deployment, edxEnvironment, appRepo, configurationSecureRepo,
      awsAccessKeyId, awsSecretAccessKey, configurationRepo, amiCreationTimeout, amiWait, cacheId, artifactPath,
      hipchatRoom, manualApproval, kwargs))
  {
    var ji;
    si, ji := OpenStage(p, BuildAmiStageName, manualApproval, BuildAmiJobName);
    p.EnsureEncryptedEnvVars(map["AWS_ACCESS_KEY_ID" := awsAccessKeyId, "AWS_SECRET_ACCESS_KEY" := awsSecretAccessKey]);
    p.EnsureEnvVars(CreateAmiEnv(play, deployment, edxEnvironment, appRepo, configurationSecureRepo, configurationRepo,
      amiCreationTimeout, amiWait, cacheId, artifactPath, hipchatRoom));
    var ops := RequirementsInstall("tubular");
    ops := ops + RequirementsInstall("configuration");
    ops := ops + TargetDirectory();
    ops := ops + [AddOp(LaunchOutput(p.name, LaunchInstanceFilename))];
    ops := ops + [AddOp(CreateAmiCall(kwargs))];
    p.Apply(si, ji, ops);
  }

  /** The AMI job fetches only the launch information, after ensuring the target directory, and then creates the AMI. */
  lemma CreateAmiLayout(pipelineName: string, kwargs: seq<(string, string)>)
    ensures var ops := CreateAmiOps(pipelineName, kwargs);
      && |ops| == 5
      && ops[3..] == [
        AddOp(FetchTask(pipelineName, LaunchInstanceStageName, LaunchInstanceJobName, FetchFile(LaunchInstanceFilename), ArtifactPath, Passed)),
        AddOp(CallTask(Call("generate_create_ami", KwargWords(kwargs))))]
  {
    LastTwo(RequirementsInstall("tubular") + RequirementsInstall("configuration") + TargetDirectory(),
      AddOp(LaunchOutput(pipelineName, LaunchInstanceFilename)), AddOp(CreateAmiCall(kwargs)));
  }

  // ---------------------------------------------------------------------
  // generate_deploy_ami (stages.py:317-404)
  // ---------------------------------------------------------------------

  const DeployAmiArtifact := ArtifactPath + "/" + DeployAmiOutFilename

  lemma DeployAmiArtifactValue()
    ensures DeployAmiArtifact == "target/ami_deploy_info.yml"
  {
  }

  const MkdirArtifactPath := ExecTask(["/bin/bash", "-c", "mkdir -p ../" + ArtifactPath], Some("tubular"), Passed)

  /** What the deployment script is told about the AMI: an upstream file, or the `AMI_ID` variable. */
  function AmiSourceArgs(upstreamAmiArtifact: Option<Utils.ArtifactLocation>): seq<string>
  {
    match upstreamAmiArtifact
    case Some(a) => ["--config-file", a.fileName]
    case None => ["--ami_id", "$AMI_ID"]
  }

  const DeployCommandHead := ["/usr/bin/python", "scripts/asgard-deploy.py", "--out_file", "../" + DeployAmiArtifact]

  /** The deployment command: the output file, then where the AMI to deploy comes from. */
  function DeployCommand(upstreamAmiArtifact: Option<Utils.ArtifactLocation>): seq<string>
  {
    DeployCommandHead + AmiSourceArgs(upstreamAmiArtifact)
  }

  /** The fetch of the upstream file, when there is one. */
  function UpstreamFetch(upstreamAmiArtifact: Option<Utils.ArtifactLocation>): seq<JobOp>
  {
    match upstreamAmiArtifact
    case Some(a) => [AddOp(Fetch(a, "tubular"))]
    case None => []
  }

  function DeployAmiOps(upstreamAmiArtifact: Option<Utils.ArtifactLocation>): seq<JobOp>
  {
    RequirementsInstall("tubular") + [ArtifactsOp({DeployAmiArtifact})]
    + UpstreamFetch(upstreamAmiArtifact)
    + [AddOp(MkdirArtifactPath), AddOp(ExecTask(DeployCommand(upstreamAmiArtifact), Some("tubular"), Passed))]
  }

  const DeployAmiBaseEnv: map<string, Option<string>> := map["WAIT_SLEEP_TIME" := Some(TubularSleepWaitTime)]

  function DeployAmiEnv(asgardApiEndpoints: string, upstreamAmiArtifact: Option<Utils.ArtifactLocation>): map<string, Option<string>>
  {
    DeployAmiBaseEnv["ASGARD_API_ENDPOINTS" := Some(asgardApiEndpoints)]
    + (if upstreamAmiArtifact.None? then map["AMI_ID" := None] else map[])
  }

  function DeployAmiBuild(
    asgardApiEndpoints: string, asgardToken: string, awsAccessKeyId: string, awsSecretAccessKey: string,
    upstreamAmiArtifact: Option<Utils.ArtifactLocation> := None, manualApproval: bool := true): StageBuild
  {
    StageBuild(
      DeployAmiEnv(asgardApiEndpoints, upstreamAmiArtifact),
      map["ASGARD_API_TOKEN" := asgardToken, "AWS_ACCESS_KEY_ID" := awsAccessKeyId,
          "AWS_SECRET_ACCESS_KEY" := awsSecretAccessKey],
      DeployAmiStageName, manualApproval, DeployAmiJobName,
      DeployAmiOps(upstreamAmiArtifact))
  }

  method DeployAmi(
    p: Pipeline, asgardApiEndpoints: string, asgardToken: string, awsAccessKeyId: string, awsSecretAccessKey: string,
    upstreamAmiArtifact: Option<Utils.ArtifactLocation> := None, manualApproval: bool := true) returns (si: nat)
    requires p.Valid()
    modifies p`stages, p`envVars, p`encryptedVars
    ensures p.Valid() && si < |p.stages| && p.stages[si].name == DeployAmiStageName
    ensures Performed(p, DeployAmiBuild(asgardApiEndpoints, asgardToken, awsAccessKeyId, awsSecretAccessKey,
      upstreamAmiArtifact, manualApproval))
  {
    var env := DeployAmiBaseEnv["ASGARD_API_ENDPOINTS" := Some(asgardApiEndpoints)];
    p.EnsureEnvVars(env);
    p.EnsureEncryptedEnvVars(map["ASGARD_API_TOKEN" := asgardToken, "AWS_ACCESS_KEY_ID" := awsAccessKeyId,
      "AWS_SECRET_ACCESS_KEY" := awsSecretAccessKey]);
    var ji;
    si, ji := OpenStage(p, DeployAmiStageName, manualApproval, DeployAmiJobName);
    if upstreamAmiArtifact.None? {
      p.EnsureEnvVars(map["AMI_ID" := None]);
      MapUnionAssoc(old(p.envVars), env, map["AMI_ID" := None]);
    } else {
      assert env + map[] == env;
    }
    DeployAmiJob(p, si, ji, upstreamAmiArtifact);
  }

  /** The deployment job's tasks: the upstream file decides both a fetch and the command's last two words. */
  method DeployAmiJob(p: Pipeline, si: nat, ji: nat, upstreamAmiArtifact: Option<Utils.ArtifactLocation>)
    requires p.Valid() && p.HasJob(si, ji)
    modifies p`stages
    ensures p.Valid() && |p.stages| == |old(p.stages)| && p.stages[si].name == old(p.stages[si].name)
    ensures p.stages == WithJob(old(p.stages), si, ji, ApplyOps(old(p.JobAt(si, ji)), DeployAmiOps(upstreamAmiArtifact)))
  {
    var ops := RequirementsInstall("tubular");
    ops := ops + [ArtifactsOp({DeployAmiArtifact})];
    var command := DeployCommandHead;
    if upstreamAmiArtifact.Some? {
      ops := ops + [AddOp(Fetch(upstreamAmiArtifact.value, "tubular"))];
      command := command + ["--config-file", upstreamAmiArtifact.value.fileName];
    } else {
      command := command + ["--ami_id", "$AMI_ID"];
      assert ops + [] == ops;
    }
    assert command == DeployCommand(upstreamAmiArtifact);
    ops := ops + [AddOp(MkdirArtifactPath), AddOp(ExecTask(command, Some("tubular"), Passed))];
    p.Apply(si, ji, ops);
  }

  /**
   * The deployment always installs the `tubular` requirements and declares
   * its output file first. With an upstream artifact it then fetches that
   * file into `tubular`; in both cases it creates the artifact directory
   * and runs the deployment last.
   */
  lemma DeployAmiLayout(upstreamAmiArtifact: Option<Utils.ArtifactLocation>)
    ensures var ops := DeployAmiOps(upstreamAmiArtifact);
      var exec := AddOp(ExecTask(DeployCommand(upstreamAmiArtifact), Some("tubular"), Passed));
      && |ops| == (if upstreamAmiArtifact.Some? then 5 else 4)
      && ops[1..] == (if upstreamAmiArtifact.Some?
                      then [ArtifactsOp({DeployAmiArtifact}), AddOp(Fetch(upstreamAmiArtifact.value, "tubular")), AddOp(MkdirArtifactPath), exec]
                      else [ArtifactsOp({DeployAmiArtifact}), AddOp(MkdirArtifactPath), exec])
  {
    var exec := AddOp(ExecTask(DeployCommand(upstreamAmiArtifact), Some("tubular"), Passed));
    AfterPrefix(RequirementsInstall("tubular"), ArtifactsOp({DeployAmiArtifact}), UpstreamFetch(upstreamAmiArtifact),
      AddOp(MkdirArtifactPath), exec);
  }

  /**
   * The deployment passes its output file as `--out_file`, and then either
   * the upstream file as `--config-file` or the variable `$AMI_ID` as
   * `--ami_id`.
   */
  lemma DeployCommandArgs(upstreamAmiArtifact: Option<Utils.ArtifactLocation>)
    ensures var c := DeployCommand(upstreamAmiArtifact);
      && |c| == 6 && c[2..4] == ["--out_file", "../" + DeployAmiArtifact]
      && c[4..] == (if upstreamAmiArtifact.Some? then ["--config-file", upstreamAmiArtifact.value.fileName]
                    else ["--ami_id", "$AMI_ID"])
  {
    var c := DeployCommand(upstreamAmiArtifact);
    assert c[4..] == AmiSourceArgs(upstreamAmiArtifact);
  }

  /**
   * The pipeline gets the `AMI_ID` variable, with no value, exactly when no
   * upstream artifact names the AMI; the stage waits for approval unless
   * the caller says otherwise.
   */
  lemma DeployAmiVariables(
    asgardApiEndpoints: string, asgardToken: string, awsAccessKeyId: string, awsSecretAccessKey: string,
    upstreamAmiArtifact: Option<Utils.ArtifactLocation>)
    ensures var m := DeployAmiEnv(asgardApiEndpoints, upstreamAmiArtifact);
      && ("AMI_ID" in m <==> upstreamAmiArtifact.None?)
      && (upstreamAmiArtifact.None? ==> m["AMI_ID"] == None)
      && m["ASGARD_API_ENDPOINTS"] == Some(asgardApiEndpoints)
    ensures DeployAmiBuild(asgardApiEndpoints, asgardToken, awsAccessKeyId, awsSecretAccessKey, upstreamAmiArtifact).manual
  {
    var m := DeployAmiEnv(asgardApiEndpoints, upstreamAmiArtifact);
    if upstreamAmiArtifact.Some? {
      assert m.Keys == {"WAIT_SLEEP_TIME", "ASGARD_API_ENDPOINTS"};
      assert "AMI_ID" != "WAIT_SLEEP_TIME" by { assert "AMI_ID"[0] != "WAIT_SLEEP_TIME"[0]; }
      assert "AMI_ID" != "ASGARD_API_ENDPOINTS" by { assert "AMI_ID"[1] != "ASGARD_API_ENDPOINTS"[1]; }
    }
  }

  // ---------------------------------------------------------------------
  // generate_edp_validation (stages.py:407-471)
  // ---------------------------------------------------------------------

  const ValidateEdpTask := ExecTask(["/usr/bin/python", "scripts/validate_edp.py"], Some("tubular"), Passed)

  const NotifyMismatch :=
    "/usr/bin/python scripts/submit_hipchat_msg.py -m "
    + "\"${AMI_ID} is not tagged for ${AMI_ENVIRONMENT}-${AMI_DEPLOYMENT}-${AMI_PLAY}. "
    + "Are you sure you're deploying the right AMI to the right app?\" --color \"red\""

  const NotifyMismatchTask := ExecTask(["/bin/bash", "-c", NotifyMismatch], Some("tubular"), Failed)

  function EdpValidationOps(): seq<JobOp>
  {
    RequirementsInstall("tubular") + [AddOp(ValidateEdpTask)] + [AddOp(NotifyMismatchTask)]
  }

  function EdpValidationBuild(
    hipchatAuthToken: string, hipchatChannels: string, asgardApiEndpoints: string, amiDeployment: string,
    amiEnvironment: string, amiPlay: string, manualApproval: bool := false): StageBuild
  {
    StageBuild(
      map["AMI_ID" := None, "AMI_DEPLOYMENT" := Some(amiDeployment), "HIPCHAT_CHANNELS" := Some(hipchatChannels),
          "ASGARD_API_ENDPOINTS" := Some(asgardApiEndpoints), "AMI_ENVIRONMENT" := Some(amiEnvironment),
          "AMI_PLAY" := Some(amiPlay)],
      map["HIPCHAT_TOKEN" := hipchatAuthToken],
      "Validation", manualApproval, "EDPValidation", EdpValidationOps())
  }

  method EdpValidation(
    p: Pipeline, hipchatAuthToken: string, hipchatChannels: string, asgardApiEndpoints: string,
    amiDeployment: string, amiEnvironment: string, amiPlay: string, manualApproval: bool := false) returns (si: nat)
    requires p.Valid()
    modifies p`stages, p`envVars, p`encryptedVars
    ensures p.Valid() && si < |p.stages| && p.stages[si].name == "Validation"
    ensures Performed(p, EdpValidationBuild(hipchatAuthToken, hipchatChannels, asgardApiEndpoints, amiDeployment,
      amiEnvironment, amiPlay, manualApproval))
  {
    p.EnsureEnvVars(map["AMI_ID" := None, "AMI_DEPLOYMENT" := Some(amiDeployment),
      "HIPCHAT_CHANNELS" := Some(hipchatChannels), "ASGARD_API_ENDPOINTS" := Some(asgardApiEndpoints),
      "AMI_ENVIRONMENT" := Some(amiEnvironment), "AMI_PLAY" := Some(amiPlay)]);
    p.EnsureEncryptedEnvVars(map["HIPCHAT_TOKEN" := hipchatAuthToken]);
    var ji;
    si, ji := OpenStage(p, "Validation", manualApproval, "EDPValidation");
    var ops := RequirementsInstall("tubular");
    ops := ops + [AddOp(ValidateEdpTask)];
    ops := ops + [AddOp(NotifyMismatchTask)];
    p.Apply(si, ji, ops);
  }

  /**
   * Of the validation job's three tasks only the chat notification, the
   * last, runs when the stage has failed; the other two run when the tasks
   * before them passed.
   */
  lemma EdpValidationNotifiesOnFailure()
    ensures var ops := EdpValidationOps();
      && |ops| == 3 && ops[0].AddOp? && ops[1].AddOp? && ops[2].AddOp?
      && ops[0].task.runif == Passed && ops[1].task.runif == Passed && ops[2].task.runif == Failed
      && ops[1].task == ValidateEdpTask && ops[2].task.command == ["/bin/bash", "-c", NotifyMismatch]
  {
    var ops := EdpValidationOps();
    assert ops[0] == RequirementsInstall("tubular")[0];
  }

  // ---------------------------------------------------------------------
  // generate_run_migrations (stages.py:474-576)
  // ---------------------------------------------------------------------

  /** `apply_migrations`, or `apply_migrations_<sub>` for a sub-application. */
  function MigrationsStageName(subApplicationName: Option<string>): string
  {
    match subApplicationName
    case None => ApplyMigrationsStage
    case Some(s) => ApplyMigrationsStage + "_" + s
  }

  /** Different sub-applications get different stages, and none shares the plain stage's name. */
  lemma MigrationsStageNameInjective(x: Option<string>, y: Option<string>)
    ensures MigrationsStageName(None) == "apply_migrations"
    ensures x.Some? ==> MigrationsStageName(x) == "apply_migrations_" + x.value
    ensures MigrationsStageName(x) == MigrationsStageName(y) ==> x == y
  {
    if MigrationsStageName(x) == MigrationsStageName(y) && x.Some? && y.Some? {
      var n := |ApplyMigrationsStage + "_"|;
      assert x.value == MigrationsStageName(x)[n..];
      assert y.value == MigrationsStageName(y)[n..];
    }
  }

  function RunMigrationsEnv(applicationUser: string, applicationName: string, applicationPath: string): map<string, Option<string>>
  {
    map["APPLICATION_USER" := Some(applicationUser), "APPLICATION_NAME" := Some(applicationName),
        "APPLICATION_PATH" := Some(applicationPath), "DB_MIGRATION_USER" := Some("migrate"),
        "ARTIFACT_PATH" := Some(ArtifactPath), "ANSIBLE_CONFIG" := Some(AnsibleContinuousDeliveryConfig)]
  }

  /** Fetch the inventory and key, ensure `target`, fetch the launch information, fix the key's mode, install, migrate. */
  function RunMigrationsOps(
    inventoryLocation: Utils.ArtifactLocation, instanceKeyLocation: Utils.ArtifactLocation,
    launchInfoLocation: Utils.ArtifactLocation, subApplicationName: Option<string>): seq<JobOp>
  {
    [AddOp(Fetch(inventoryLocation, ArtifactPath))]
    + [AddOp(Fetch(instanceKeyLocation, ArtifactPath))]
    + TargetDirectory()
    + [AddOp(Fetch(launchInfoLocation, ArtifactPath))]
    + [AddOp(ChmodKey(instanceKeyLocation.fileName, ArtifactPath))]
    + RequirementsInstall("configuration")
    + RunMigrations(subApplicationName)
  }

  function RunMigrationsBuild(
    dbMigrationPass: string, inventoryLocation: Utils.ArtifactLocation, instanceKeyLocation: Utils.ArtifactLocation,
    launchInfoLocation: Utils.ArtifactLocation, applicationUser: string, applicationName: string,
    applicationPath: string, subApplicationName: Option<string> := None, manualApproval: bool := false): StageBuild
  {
    StageBuild(
      RunMigrationsEnv(applicationUser, applicationName, applicationPath),
      map["DB_MIGRATION_PASS" := dbMigrationPass],
      MigrationsStageName(subApplicationName), manualApproval, ApplyMigrationsJob,
      RunMigrationsOps(inventoryLocation, instanceKeyLocation, launchInfoLocation, subApplicationName))
  }

  method RunMigrationsStage(
    p: Pipeline, dbMigrationPass: string, inventoryLocation: Utils.ArtifactLocation,
    instanceKeyLocation: Utils.ArtifactLocation, launchInfoLocation: Utils.ArtifactLocation,
    applicationUser: string, applicationName: string, applicationPath: string,
    subApplicationName: Option<string> := None, manualApproval: bool := false) returns (si: nat)
    requires p.Valid()
    modifies p`stages, p`envVars, p`encryptedVars
    ensures p.Valid() && si < |p.stages| && p.stages[si].name == MigrationsStageName(subApplicationName)
    ensures Performed(p, RunMigrationsBuild(dbMigrationPass, inventoryLocation, instanceKeyLocation, launchInfoLocation,
      applicationUser, applicationName, applicationPath, subApplicationName, manualApproval))
  {
    p.EnsureEnvVars(RunMigrationsEnv(applicationUser, applicationName, applicationPath));
    p.EnsureEncryptedEnvVars(map["DB_MIGRATION_PASS" := dbMigrationPass]);
    var stageName;
    if subApplicationName.Some? {
      stageName := ApplyMigrationsStage + "_" + subApplicationName.value;
    } else {
      stageName := ApplyMigrationsStage;
    }
    assert stageName == MigrationsStageName(subApplicationName);
    var ji;
    si, ji := OpenStage(p, stageName, manualApproval, ApplyMigrationsJob);
    RunMigrationsJob(p, si, ji, inventoryLocation, instanceKeyLocation, launchInfoLocation, subApplicationName);
  }

  /** The migration job's tasks, appended to job `ji` of stage `si`. */
  method RunMigrationsJob(
    p: Pipeline, si: nat, ji: nat, inventoryLocation: Utils.ArtifactLocation,
    instanceKeyLocation: Utils.ArtifactLocation, launchInfoLocation: Utils.ArtifactLocation,
    subApplicationName: Option<string>)
    requires p.Valid() && p.HasJob(si, ji)
    modifies p`stages
    ensures p.Valid() && |p.stages| == |old(p.stages)| && p.stages[si].name == old(p.stages[si].name)
    ensures p.stages == WithJob(old(p.stages), si, ji, ApplyOps(old(p.JobAt(si, ji)),
      RunMigrationsOps(inventoryLocation, instanceKeyLocation, launchInfoLocation, subApplicationName)))
  {
    var ops := [AddOp(Fetch(inventoryLocation, ArtifactPath))];
    ops := ops + [AddOp(Fetch(instanceKeyLocation, ArtifactPath))];
    ops := ops + TargetDirectory();
    ops := ops + [AddOp(Fetch(launchInfoLocation, ArtifactPath))];
    ops := ops + [AddOp(ChmodKey(instanceKeyLocation.fileName, ArtifactPath))];
    ops := ops + RequirementsInstall("configuration");
    ops := ops + RunMigrations(subApplicationName);
    p.Apply(si, ji, ops);
  }

  /**
   * The migration job fetches the inventory, then the key, into `target`,
   * ensures that directory, fetches the launch information, makes the key
   * readable by its owner only, installs the requirements and only then
   * runs the migrations, passing the sub-application on.
   */
  lemma RunMigrationsLayout(
    inventoryLocation: Utils.ArtifactLocation, instanceKeyLocation: Utils.ArtifactLocation,
    launchInfoLocation: Utils.ArtifactLocation, subApplicationName: Option<string>)
    ensures var ops := RunMigrationsOps(inventoryLocation, instanceKeyLocation, launchInfoLocation, subApplicationName);
      && |ops| == 8 && ops[6..] == RunMigrations(subApplicationName)
      && ops[..6] == [AddOp(Fetch(inventoryLocation, ArtifactPath)), AddOp(Fetch(instanceKeyLocation, ArtifactPath)),
                      TargetDirectory()[0], AddOp(Fetch(launchInfoLocation, ArtifactPath)),
                      AddOp(ChmodKey(instanceKeyLocation.fileName, ArtifactPath)), RequirementsInstall("configuration")[0]]
  {
    var x, y, c := AddOp(Fetch(inventoryLocation, ArtifactPath)), AddOp(Fetch(instanceKeyLocation, ArtifactPath)), TargetDirectory();
    var z, w, f := AddOp(Fetch(launchInfoLocation, ArtifactPath)), AddOp(ChmodKey(instanceKeyLocation.fileName, ArtifactPath)),
      RequirementsInstall("configuration");
    SixSteps(x, y, c, z, w, f);
    SuffixOf([x] + [y] + c + [z] + [w] + f, RunMigrations(subApplicationName));
  }

  // ---------------------------------------------------------------------
  // generate_terminate_instance (stages.py:579-634)
  // ---------------------------------------------------------------------

  function TerminateInstanceOps(instanceInfoLocation: Utils.ArtifactLocation, runif: RunIf): seq<JobOp>
  {
    RequirementsInstall("configuration") + [AddOp(Fetch(instanceInfoLocation, ArtifactPath))] + AmiCleanup(runif)
  }

  function TerminateInstanceBuild(
    instanceInfoLocation: Utils.ArtifactLocation, awsAccessKeyId: string, awsSecretAccessKey: string,
    hipchatAuthToken: string, ec2Region: string := Ec2Region, artifactPath: string := ArtifactPath,
    runif: RunIf := Any, manualApproval: bool := false): StageBuild
  {
    StageBuild(
      map["ARTIFACT_PATH" := Some(artifactPath), "EC2_REGION" := Some(ec2Region), "HIPCHAT_ROOM" := Some(HipchatRoom)],
      map["AWS_ACCESS_KEY_ID" := awsAccessKeyId, "AWS_SECRET_ACCESS_KEY" := awsSecretAccessKey,
          "HIPCHAT_TOKEN" := hipchatAuthToken],
      TerminateInstanceStageName, manualApproval, TerminateInstanceJobName,
      TerminateInstanceOps(instanceInfoLocation, runif))
  }

  method TerminateInstance(
    p: Pipeline, instanceInfoLocation: Utils.ArtifactLocation, awsAccessKeyId: string, awsSecretAccessKey: string,
    hipchatAuthToken: string, ec2Region: string := Ec2Region, artifactPath: string := ArtifactPath,
    runif: RunIf := Any, manualApproval: bool := false) returns (si: nat)
    requires p.Valid()
    modifies p`stages, p`envVars, p`encryptedVars
    ensures p.Valid() && si < |p.stages| && p.stages[si].name == TerminateInstanceStageName
    ensures Performed(p, TerminateInstanceBuild(instanceInfoLocation, awsAccessKeyId, awsSecretAccessKey,
      hipchatAuthToken, ec2Region, artifactPath, runif, manualApproval))
  {
    p.EnsureEncryptedEnvVars(map["AWS_ACCESS_KEY_ID" := awsAccessKeyId, "AWS_SECRET_ACCESS_KEY" := awsSecretAccessKey,
      "HIPCHAT_TOKEN" := hipchatAuthToken]);
    p.EnsureEnvVars(map["ARTIFACT_PATH" := Some(artifactPath), "EC2_REGION" := Some(ec2Region),
      "HIPCHAT_ROOM" := Some(HipchatRoom)]);
    var ji;
    si, ji := OpenStage(p, TerminateInstanceStageName, manualApproval, TerminateInstanceJobName);
    var ops := RequirementsInstall("configuration");
    ops := ops + [AddOp(Fetch(instanceInfoLocation, ArtifactPath))];
    ops := ops + AmiCleanup(runif);
    p.Apply(si, ji, ops);
  }

  /**
   * The clean-up task comes last and runs under the caller's condition,
   * by default whatever the earlier tasks did; the instance information is
   * fetched into `target` even when another artifact path is configured.
   */
  lemma TerminateInstanceCleanup(instanceInfoLocation: Utils.ArtifactLocation, runif: RunIf,
    awsAccessKeyId: string, awsSecretAccessKey: string, hipchatAuthToken: string)
    ensures var ops := TerminateInstanceOps(instanceInfoLocation, runif);
      && |ops| == 3 && ops[1] == AddOp(Fetch(instanceInfoLocation, ArtifactPath))
      && ops[2] == AmiCleanup(runif)[0] && ops[2].task.runif == runif
    ensures TerminateInstanceBuild(instanceInfoLocation, awsAccessKeyId, awsSecretAccessKey, hipchatAuthToken).ops
      == TerminateInstanceOps(instanceInfoLocation, Any)
  {
  }

  // ---------------------------------------------------------------------
  // generate_rollback_asg_stage (stages.py:637-718)
  // ---------------------------------------------------------------------

  const RollbackArtifact := ArtifactPath + "/" + RollbackAmiOutFilename

  const MkdirTargetTask := ExecTask(["/bin/bash", "-c", "mkdir -p ../target"], Some("tubular"), Passed)

  function RollbackAsgCommand(deployFile: string): seq<string>
  {
    ["/usr/bin/python", "scripts/rollback_asg.py", "--config_file", deployFile, "--out_file", "../" + RollbackArtifact]
  }

  function RollbackAsgOps(deployFileLocation: Utils.ArtifactLocation): seq<JobOp>
  {
    RequirementsInstall("tubular")
    + [AddOp(Fetch(deployFileLocation, "tubular")), AddOp(MkdirTargetTask)]
    + [ArtifactsOp({RollbackArtifact})]
    + [AddOp(ExecTask(RollbackAsgCommand(deployFileLocation.fileName), Some("tubular"), Passed))]
  }

  function RollbackAsgBuild(
    asgardApiEndpoints: string, asgardToken: string, awsAccessKeyId: string, awsSecretAccessKey: string,
    hipchatAuthToken: string, hipchatRoom: string, deployFileLocation: Utils.ArtifactLocation): StageBuild
  {
    StageBuild(
      map["ASGARD_API_ENDPOINTS" := Some(asgardApiEndpoints), "HIPCHAT_ROOM" := Some(hipchatRoom)],
      map["ASGARD_API_TOKEN" := asgardToken, "AWS_ACCESS_KEY_ID" := awsAccessKeyId,
          "AWS_SECRET_ACCESS_KEY" := awsSecretAccessKey, "HIPCHAT_TOKEN" := hipchatAuthToken],
      RollbackAsgsStageName, true, RollbackAsgsJobName,
      RollbackAsgOps(deployFileLocation))
  }

  method RollbackAsg(
    p: Pipeline, asgardApiEndpoints: string, asgardToken: string, awsAccessKeyId: string, awsSecretAccessKey: string,
    hipchatAuthToken: string, hipchatRoom: string, deployFileLocation: Utils.ArtifactLocation) returns (si: nat)
    requires p.Valid()
    modifies p`stages, p`envVars, p`encryptedVars
    ensures p.Valid() && si < |p.stages| && p.stages[si].name == RollbackAsgsStageName
    ensures Performed(p, RollbackAsgBuild(asgardApiEndpoints, asgardToken, awsAccessKeyId, awsSecretAccessKey,
      hipchatAuthToken, hipchatRoom, deployFileLocation))
  {
    p.EnsureEnvVars(map["ASGARD_API_ENDPOINTS" := Some(asgardApiEndpoints), "HIPCHAT_ROOM" := Some(hipchatRoom)]);
    p.EnsureEncryptedEnvVars(map["ASGARD_API_TOKEN" := asgardToken, "AWS_ACCESS_KEY_ID" := awsAccessKeyId,
      "AWS_SECRET_ACCESS_KEY" := awsSecretAccessKey, "HIPCHAT_TOKEN" := hipchatAuthToken]);
    var ji;
    si, ji := OpenStage(p, RollbackAsgsStageName, true, RollbackAsgsJobName);
    var ops := RequirementsInstall("tubular");
    ops := ops + [AddOp(Fetch(deployFileLocation, "tubular")), AddOp(MkdirTargetTask)];
    ops := ops + [ArtifactsOp({RollbackArtifact})];
    ops := ops + [AddOp(ExecTask(RollbackAsgCommand(deployFileLocation.fileName), Some("tubular"), Passed))];
    p.Apply(si, ji, ops);
  }

  /**
   * Whatever the inputs and whatever stage list it starts from, the
   * rollback stage ends up requiring manual approval.
   */
  lemma RollbackAsgAlwaysManual(
    stages: seq<Stage>, asgardApiEndpoints: string, asgardToken: string, awsAccessKeyId: string,
    awsSecretAccessKey: string, hipchatAuthToken: string, hipchatRoom: string, deployFileLocation: Utils.ArtifactLocation)
    requires WellFormed(stages)
    ensures var r := Built(stages, RollbackAsgBuild(asgardApiEndpoints, asgardToken, awsAccessKeyId,
        awsSecretAccessKey, hipchatAuthToken, hipchatRoom, deployFileLocation));
      forall k | 0 <= k < |r| && r[k].name == RollbackAsgsStageName :: r[k].manualApproval
  {
    var b := RollbackAsgBuild(asgardApiEndpoints, asgardToken, awsAccessKeyId,
      awsSecretAccessKey, hipchatAuthToken, hipchatRoom, deployFileLocation);
    assert b.manual && b.stage == RollbackAsgsStageName;
    BuiltManual(stages, b);
  }

  /**
   * The rollback job fetches the earlier deployment's file into `tubular`,
   * declares its own output file and passes both to the rollback script.
   */
  lemma RollbackAsgLayout(deployFileLocation: Utils.ArtifactLocation)
    ensures RollbackAsgOps(deployFileLocation) == [
      RequirementsInstall("tubular")[0], AddOp(Fetch(deployFileLocation, "tubular")), AddOp(MkdirTargetTask),
      ArtifactsOp({RollbackArtifact}),
      AddOp(ExecTask(RollbackAsgCommand(deployFileLocation.fileName), Some("tubular"), Passed))]
  {
    OneThenFour(RequirementsInstall("tubular"), AddOp(Fetch(deployFileLocation, "tubular")), AddOp(MkdirTargetTask),
      ArtifactsOp({RollbackArtifact}),
      AddOp(ExecTask(RollbackAsgCommand(deployFileLocation.fileName), Some("tubular"), Passed)));
  }

  /** The rollback script reads the earlier deployment's file and writes its own output file. */
  lemma RollbackAsgCommandArgs(deployFile: string)
    ensures var c := RollbackAsgCommand(deployFile);
      && c[2..4] == ["--config_file", deployFile] && c[4..] == ["--out_file", "../" + RollbackArtifact]
  {
  }

  // ---------------------------------------------------------------------
  // generate_ansible_stage and its two uses (stages.py:721-912)
  // ---------------------------------------------------------------------

  /**
   * The job's operations; `task` is what the task builder passed in does
   * to the job, after the fetches, the key's mode and the requirements.
   */
  function AnsibleStageOps(
    task: seq<JobOp>, inventoryLocation: Utils.ArtifactLocation, instanceKeyLocation: Utils.ArtifactLocation,
    launchInfoLocation: Utils.ArtifactLocation): seq<JobOp>
  {
    [AddOp(Fetch(inventoryLocation, "configuration"))]
    + [AddOp(Fetch(instanceKeyLocation, "configuration"))]
    + TargetDirectory()
    + [AddOp(Fetch(launchInfoLocation, "target"))]
    + [AddOp(ChmodKey(instanceKeyLocation.fileName, "configuration"))]
    + RequirementsInstall("configuration")
    + task
  }

  function AnsibleStageBuild(
    stageName: string, task: seq<JobOp>, inventoryLocation: Utils.ArtifactLocation,
    instanceKeyLocation: Utils.ArtifactLocation, launchInfoLocation: Utils.ArtifactLocation,
    applicationUser: string, applicationName: string, applicationPath: string, hipchatAuthToken: string,
    hipchatRoom: string := HipchatRoom, manualApproval: bool := false): StageBuild
  {
    StageBuild(
      map["APPLICATION_USER" := Some(applicationUser), "APPLICATION_NAME" := Some(applicationName),
          "APPLICATION_PATH" := Some(applicationPath), "HIPCHAT_ROOM" := Some(hipchatRoom)],
      map["HIPCHAT_TOKEN" := hipchatAuthToken],
      stageName, manualApproval, stageName + "_job",
      AnsibleStageOps(task, inventoryLocation, instanceKeyLocation, launchInfoLocation))
  }

  method AnsibleStage(
    p: Pipeline, stageName: string, task: seq<JobOp>, inventoryLocation: Utils.ArtifactLocation,
    instanceKeyLocation: Utils.ArtifactLocation, launchInfoLocation: Utils.ArtifactLocation,
    applicationUser: string, applicationName: string, applicationPath: string, hipchatAuthToken: string,
    hipchatRoom: string := HipchatRoom, manualApproval: bool := false) returns (si: nat)
    requires p.Valid()
    modifies p`stages, p`envVars, p`encryptedVars
    ensures p.Valid() && si < |p.stages| && p.stages[si].name == stageName
    ensures Performed(p, AnsibleStageBuild(stageName, task, inventoryLocation, instanceKeyLocation, launchInfoLocation,
      applicationUser, applicationName, applicationPath, hipchatAuthToken, hipchatRoom, manualApproval))
  {
    p.EnsureEnvVars(map["APPLICATION_USER" := Some(applicationUser), "APPLICATION_NAME" := Some(applicationName),
      "APPLICATION_PATH" := Some(applicationPath), "HIPCHAT_ROOM" := Some(hipchatRoom)]);
    p.EnsureEncryptedEnvVars(map["HIPCHAT_TOKEN" := hipchatAuthToken]);
    var ji;
    si, ji := OpenStage(p, stageName, manualApproval, stageName + "_job");
    var ops := [AddOp(Fetch(inventoryLocation, "configuration"))];
    ops := ops + [AddOp(Fetch(instanceKeyLocation, "configuration"))];
    ops := ops + TargetDirectory();
    ops := ops + [AddOp(Fetch(launchInfoLocation, "target"))];
    ops := ops + [AddOp(ChmodKey(instanceKeyLocation.fileName, "configuration"))];
    ops := ops + RequirementsInstall("configuration");
    ops := ops + task;
    p.Apply(si, ji, ops);
  }

  /**
   * The stage's job is `<stage>_job`. The inventory and key go to
   * `configuration`, the launch information to `target`; the task builder
   * passed in runs last.
   */
  lemma AnsibleStageLayout(
    task: seq<JobOp>, inventoryLocation: Utils.ArtifactLocation, instanceKeyLocation: Utils.ArtifactLocation,
    launchInfoLocation: Utils.ArtifactLocation)
    ensures var ops := AnsibleStageOps(task, inventoryLocation, instanceKeyLocation, launchInfoLocation);
      && |ops| == 6 + |task| && ops[6..] == task
      && ops[..6] == [AddOp(Fetch(inventoryLocation, "configuration")), AddOp(Fetch(instanceKeyLocation, "configuration")),
                      TargetDirectory()[0], AddOp(Fetch(launchInfoLocation, "target")),
                      AddOp(ChmodKey(instanceKeyLocation.fileName, "configuration")), RequirementsInstall("configuration")[0]]
  {
    var x, y, c := AddOp(Fetch(inventoryLocation, "configuration")), AddOp(Fetch(instanceKeyLocation, "configuration")), TargetDirectory();
    var z, w, f := AddOp(Fetch(launchInfoLocation, "target")), AddOp(ChmodKey(instanceKeyLocation.fileName, "configuration")),
      RequirementsInstall("configuration");
    SixSteps(x, y, c, z, w, f);
    SuffixOf([x] + [y] + c + [z] + [w] + f, task);
  }

  function RefreshMetadataBuild(
    inventoryLocation: Utils.ArtifactLocation, instanceKeyLocation: Utils.ArtifactLocation,
    launchInfoLocation: Utils.ArtifactLocation, applicationUser: string, applicationName: string,
    applicationPath: string, hipchatAuthToken: string := "", hipchatRoom: string := HipchatRoom,
    manualApproval: bool := false): StageBuild
  {
    AnsibleStageBuild("refresh_metadata", RefreshMetadata(), inventoryLocation, instanceKeyLocation, launchInfoLocation,
      applicationUser, applicationName, applicationPath, hipchatAuthToken, hipchatRoom, manualApproval)
  }

  method RefreshMetadataStage(
    p: Pipeline, inventoryLocation: Utils.ArtifactLocation, instanceKeyLocation: Utils.ArtifactLocation,
    launchInfoLocation: Utils.ArtifactLocation, applicationUser: string, applicationName: string,
    applicationPath: string, hipchatAuthToken: string := "", hipchatRoom: string := HipchatRoom,
    manualApproval: bool := false) returns (si: nat)
    requires p.Valid()
    modifies p`stages, p`envVars, p`encryptedVars
    ensures p.Valid() && si < |p.stages| && p.stages[si].name == "refresh_metadata"
    ensures Performed(p, RefreshMetadataBuild(inventoryLocation, instanceKeyLocation, launchInfoLocation,
      applicationUser, applicationName, applicationPath, hipchatAuthToken, hipchatRoom, manualApproval))
  {
    si := AnsibleStage(p, "refresh_metadata", RefreshMetadata(), inventoryLocation, instanceKeyLocation,
      launchInfoLocation, applicationUser, applicationName, applicationPath, hipchatAuthToken, hipchatRoom,
      manualApproval);
  }

  function UpdateIndexBuild(
    inventoryLocation: Utils.ArtifactLocation, instanceKeyLocation: Utils.ArtifactLocation,
    launchInfoLocation: Utils.ArtifactLocation, applicationUser: string, applicationName: string,
    applicationPath: string, hipchatAuthToken: string := "", hipchatRoom: string := HipchatRoom,
    manualApproval: bool := false): StageBuild
  {
    AnsibleStageBuild("update_index", UpdateIndex(), inventoryLocation, instanceKeyLocation, launchInfoLocation,
      applicationUser, applicationName, applicationPath, hipchatAuthToken, hipchatRoom, manualApproval)
  }

  method UpdateIndexStage(
    p: Pipeline, inventoryLocation: Utils.ArtifactLocation, instanceKeyLocation: Utils.ArtifactLocation,
    launchInfoLocation: Utils.ArtifactLocation, applicationUser: string, applicationName: string,
    applicationPath: string, hipchatAuthToken: string := "", hipchatRoom: string := HipchatRoom,
    manualApproval: bool := false) returns (si: nat)
    requires p.Valid()
    modifies p`stages, p`envVars, p`encryptedVars
    ensures p.Valid() && si < |p.stages| && p.stages[si].name == "update_index"
    ensures Performed(p, UpdateIndexBuild(inventoryLocation, instanceKeyLocation, launchInfoLocation,
      applicationUser, applicationName, applicationPath, hipchatAuthToken, hipchatRoom, manualApproval))
  {
    si := AnsibleStage(p, "update_index", UpdateIndex(), inventoryLocation, instanceKeyLocation,
      launchInfoLocation, applicationUser, applicationName, applicationPath, hipchatAuthToken, hipchatRoom,
      manualApproval);
  }

  // ---------------------------------------------------------------------
  // generate_armed_stage (stages.py:915-945)
  // ---------------------------------------------------------------------

  const ArmedEcho := ExecTask(
    ["/bin/bash", "-c", "echo Pipeline run number $GO_PIPELINE_COUNTER armed by $GO_TRIGGER_USER"], None, Passed)

  function ArmedBuild(stageName: string): StageBuild
  {
    StageBuild(map[], map[], stageName, false, ArmedJobName, [AddOp(ArmedEcho)])
  }

  method ArmedStage(p: Pipeline, stageName: string) returns (si: nat)
    requires p.Valid()
    modifies p`stages
    ensures p.Valid() && si < |p.stages| && p.stages[si].name == stageName
    ensures p.stages == Built(old(p.stages), ArmedBuild(stageName))
  {
    var ji;
    si, ji := OpenStage(p, stageName, false, ArmedJobName);
    p.Apply(si, ji, [AddOp(ArmedEcho)]);
  }

  /**
   * On a pipeline without that stage, arming appends a stage that does not
   * wait for approval, with the one job `armed_job` holding only the echo.
   */
  lemma ArmedStageLayout(stages: seq<Stage>, stageName: string)
    requires stageName !in StageNames(stages)
    ensures Built(stages, ArmedBuild(stageName)) ==
      stages + [Stage(stageName, false, [Job(ArmedJobName, [ArmedEcho], {}, map[], map[])], [])]
  {
    BuiltFresh(stages, ArmedBuild(stageName));
    assert [AddOp(ArmedEcho)][..0] == [];
    assert ApplyOps(EmptyJob(ArmedJobName), [AddOp(ArmedEcho)]) == ApplyOp(EmptyJob(ArmedJobName), AddOp(ArmedEcho));
    assert [] + [ArmedEcho] == [ArmedEcho];
  }
}
