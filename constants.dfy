/**
 * Names and fixed values shared by the pipeline builders
 * (edxpipelines/constants.py): stage and job names, file names, the name
 * templates, the release statuses and the pipeline step permutations.
 */
module Constants {
  import opened Wrappers
  import opened Strings

  /** An environment/deployment/play triple, the unit a pipeline deploys to. */
  datatype EDP = EDP(environment: string, deployment: string, play: string)

  // Stage and job names.
  const ArmPrereleaseStage := "arm_prerelease"
  const DeployAmiStageName := "deploy_ami"
  const DeployAmiJobName := "deploy_ami_job"
  const RunMigrationsStageName := "apply_migrations"
  const RunMigrationsJobName := "apply_migrations_job"
  const BuildAmiStageName := "build_ami"
  const BuildAmiJobName := "build_ami_job"
  const TerminateInstanceStageName := "cleanup_ami_Instance"
  const TerminateInstanceJobName := "cleanup_ami_instance_job"
  const LaunchInstanceStageName := "launch_instance"
  const LaunchInstanceJobName := "launch_instance_job"
  const RunPlayStageName := "run_play"
  const RunPlayJobName := "run_play_job"
  const ApplyMigrationsStage := "apply_migrations"
  const ApplyMigrationsJob := "apply_migrations_job"
  const InitialVerificationStageName := "initial_verification"
  const InitialVerificationJobName := "initial_verification_job"
  const JenkinsVerificationStageName := "jenkins_verification"
  const ManualVerificationStageName := "manual_verification"
  const ManualVerificationJobName := "manual_verification_job"
  const RollbackAsgsStageName := "rollback_asgs"
  const RollbackAsgsJobName := "rollback_asgs_job"
  const RollbackMigrationsStageName := "rollback_migrations"
  const ArmedStageName := "armed_stage"
  const ArmedJobName := "armed_job"
  const BaseAmiSelectionStageName := "select_base_ami"
  const BaseAmiSelectionJobName := "select_base_ami_job"

  // File and directory names.
  const ArtifactPath := "target"
  const PublicConfigurationRepoUrl := "https://github.com/edx/configuration.git"
  const PublicConfigurationDir := "configuration"
  const AnsibleContinuousDeliveryConfig := "playbooks/continuous_delivery/ansible.cfg"
  const PrivateConfigurationLocalDir := "edx-secure"
  const InternalConfigurationLocalDir := "edx-internal"
  const HipchatRoom := "release"
  const BuildAmiFilename := "ami.yml"
  const DeployAmiOutFilename := "ami_deploy_info.yml"
  const RollbackAmiOutFilename := "rollback_info.yml"
  const LaunchInstanceFilename := "launch_info.yml"
  const KeyPemFilename := "key.pem"
  const AnsibleInventoryFilename := "ansible_inventory"
  const BaseAmiOverrideFilename := "ami_override.yml"
  const PrivateRcFilename := "private_rc.yaml"
  const PrivatePublicPrFilename := "priv_pub_pr.yml"
  const PublicPrivatePushFilename := "pub_priv_push.yml"
  const ReleaseWikiPageIdFilename := "release_page_id.yml"
  const CreateBranchFilename := "branch.yml"
  const MergeBranchFilename := "merge_branch_sha.yml"
  const CreateBranchPrFilename := "create_branch_pr.yml"
  const TubularSleepWaitTime := "20"
  const DbMigrationUser := "migrate"
  const MigrationOutputDirName := "migrations"

  // AWS defaults.
  const Ec2Region := "us-east-1"
  const Ec2InstanceType := "t2.large"
  const Ec2LaunchInstanceTimeout := "300"
  const Ec2EbsVolumeSize := "50"

  /**
   * `'{0.environment}_{0.deployment}'.format`: the template shared by
   * DEPLOY_AMI_JOB_NAME_TPL, BUILD_AMI_JOB_NAME_TPL,
   * ROLLBACK_ASGS_JOB_NAME_TPL and ROLLBACK_MIGRATIONS_JOB_NAME_TPL.
   */
  function EnvDeploymentName(edp: EDP): string
  {
    edp.environment + "_" + edp.deployment
  }

  /** `BASE_AMI_SELECTION_EDP_JOB_NAME`. */
  function BaseAmiSelectionEdpJobName(edp: EDP): string
  {
    edp.environment + "_" + edp.deployment + "_" + edp.play
  }

  /** `ENVIRONMENT_PIPELINE_NAME_TPL(environment=…, play=…)`. */
  function EnvironmentPipelineName(environment: string, play: string): string
  {
    environment + "-" + play
  }

  /** `DEPLOYMENT_PIPELINE_LABEL_TPL(material)`: the material's revision cut to seven characters, then the run count. */
  function DeploymentPipelineLabel(materialName: string): string
  {
    "${" + materialName + "[:7]}-${COUNT}"
  }

  /** `PLAYBOOK_PATH_TPL(edp)`. */
  function PlaybookPath(play: string): string
  {
    "playbooks/edx-east/" + play + ".yml"
  }

  /** `EDX_REPO_TPL(name)`. */
  function EdxRepo(name: string): string
  {
    "https://github.com/edx/" + name + ".git"
  }

  /** `GIT_TAG_SHA_JOB_NAME_TPL(name)`. */
  function GitTagShaJobName(name: string): string
  {
    "tag_deployed_commit_" + name + "_job"
  }

  /**
   * Two strings joined by a separator the first does not hold give back
   * both parts: the separator is the first one in the result.
   */
  lemma SeparatedParts(a1: string, b1: string, a2: string, b2: string, c: char)
    requires c !in a1 && c !in a2 && a1 + [c] + b1 == a2 + [c] + b2
    ensures a1 == a2 && b1 == b2
  {
    SplitAround(a1, c, b1);
    SplitAround(a2, c, b2);
    SplitFree(a1, c);
    SplitFree(a2, c);
    assert a1 == Split(a1 + [c] + b1, c)[0];
    assert a2 == Split(a2 + [c] + b2, c)[0];
    assert b1 == (a1 + [c] + b1)[|a1| + 1..];
    assert b2 == (a2 + [c] + b2)[|a2| + 1..];
  }

  /**
   * A job name made from an environment without `_` names exactly one
   * environment and deployment.
   */
  lemma EnvDeploymentNameInjective(x: EDP, y: EDP)
    requires '_' !in x.environment && '_' !in y.environment
    requires EnvDeploymentName(x) == EnvDeploymentName(y)
    ensures x.environment == y.environment && x.deployment == y.deployment
  {
    SeparatedParts(x.environment, x.deployment, y.environment, y.deployment, '_');
  }

  /** The base-AMI selection job name extends the deploy job name with the play. */
  lemma BaseAmiSelectionExtendsJobName(edp: EDP)
    ensures BaseAmiSelectionEdpJobName(edp) == EnvDeploymentName(edp) + "_" + edp.play
    ensures '_' !in edp.environment && '_' !in edp.deployment ==>
      Split(BaseAmiSelectionEdpJobName(edp), '_') == [edp.environment, edp.deployment] + Split(edp.play, '_')
  {
    var e, d, p := edp.environment, edp.deployment, edp.play;
    if '_' !in e && '_' !in d {
      assert BaseAmiSelectionEdpJobName(edp) == e + ['_'] + (d + ['_'] + p);
      SplitAround(e, '_', d + ['_'] + p);
      SplitAround(d, '_', p);
      SplitFree(e, '_');
      SplitFree(d, '_');
    }
  }

  /** A pipeline name made from an environment without `-` names exactly one environment and play. */
  lemma EnvironmentPipelineNameInjective(e1: string, p1: string, e2: string, p2: string)
    requires '-' !in e1 && '-' !in e2
    requires EnvironmentPipelineName(e1, p1) == EnvironmentPipelineName(e2, p2)
    ensures e1 == e2 && p1 == p2
  {
    SeparatedParts(e1, p1, e2, p2, '-');
  }

  /** The playbook path and the repository URL give back the name they were made from. */
  lemma PathTemplatesRoundTrip(play: string, name: string)
    ensures PlaybookPath(play)[19..|PlaybookPath(play)| - 4] == play
    ensures EdxRepo(name)[23..|EdxRepo(name)| - 4] == name
    ensures DeploymentPipelineLabel(name)[2..|DeploymentPipelineLabel(name)| - 14] == name
  {
  }

  /** The release statuses (`ReleaseStatus`). */
  datatype ReleaseStatus = Staged | Deployed | RolledBack

  /** The value of a status, and so the name a status is looked up by. */
  function StatusValue(s: ReleaseStatus): string
  {
    match s
    case Staged => "STAGED"
    case Deployed => "DEPLOYED"
    case RolledBack => "ROLLED_BACK"
  }

  /**
   * `ReleaseStatus[name]`: the three names and the aliases `stage`, `prod`
   * and `rollback`, which the enumeration binds to the same members.
   */
  function StatusByName(name: string): Option<ReleaseStatus>
  {
    if name == "STAGED" || name == "stage" then Some(Staged)
    else if name == "DEPLOYED" || name == "prod" then Some(Deployed)
    else if name == "ROLLED_BACK" || name == "rollback" then Some(RolledBack)
    else None
  }

  /** `ReleaseStatus(value)`: the status with that value. */
  function StatusByValue(value: string): (r: Option<ReleaseStatus>)
    ensures r.None? ==> forall s :: StatusValue(s) != value
    ensures r.Some? ==> StatusValue(r.value) == value
  {
    if value == "STAGED" then Some(Staged)
    else if value == "DEPLOYED" then Some(Deployed)
    else if value == "ROLLED_BACK" then Some(RolledBack)
    else None
  }

  /** Each alias names the same member as its value, and each member is found by its value. */
  lemma StatusAliases(s: ReleaseStatus)
    ensures StatusByName("stage") == StatusByName("STAGED") == Some(Staged)
    ensures StatusByName("prod") == StatusByName("DEPLOYED") == Some(Deployed)
    ensures StatusByName("rollback") == StatusByName("ROLLED_BACK") == Some(RolledBack)
    ensures StatusByValue(StatusValue(s)) == StatusByName(StatusValue(s)) == Some(s)
  {
  }

  /** `VALID_PIPELINE_STEP_PERMUTATIONS`: build/migrate/deploy step codes to pipeline-name suffixes. */
  const StepPermutations: map<string, string> := map["bmd" := "B-M-D", "md" := "M-D", "b" := "B"]

  /** The upper-case letter of a step code. */
  function StepLetter(c: char): char
  {
    match c
    case 'b' => 'B'
    case 'm' => 'M'
    case 'd' => 'D'
    case _ => c
  }

  /** Every valid code is an ordered selection of `b`, `m`, `d`, and its suffix is its letters upper-cased and joined by `-`. */
  lemma StepPermutationSuffixes(code: string)
    requires code in StepPermutations
    ensures forall i, j | 0 <= i < j < |code| :: IndexOfStep(code[i]) < IndexOfStep(code[j])
    ensures StepPermutations[code] == Join(seq(|code|, i requires 0 <= i < |code| => [StepLetter(code[i])]), "-")
  {
    var parts := seq(|code|, i requires 0 <= i < |code| => [StepLetter(code[i])]);
    if code == "bmd" {
      assert parts == ["B", "M", "D"];
      assert parts[1..] == ["M", "D"];
      assert Join(parts[1..], "-") == "M-D";
    } else if code == "md" {
      assert parts == ["M", "D"];
      assert Join(parts, "-") == "M" + "-" + "D";
    } else {
      assert parts == ["B"];
    }
  }

  /** The position of a step in the build, migrate, deploy order. */
  function IndexOfStep(c: char): nat
  {
    match c
    case 'b' => 0
    case 'm' => 1
    case _ => 2
  }
}
