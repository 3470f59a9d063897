/**
 * The task builders of edxpipelines/patterns/tasks.py.
 *
 * `ansible_task`, `tubular_task` and `bash_task` build one `ExecTask` each:
 * a command handed to `/bin/bash -c`. The `generate_*` builders change a
 * job (ensure a task, add a task, declare artifacts) and the environment
 * variables of the job's pipeline; each is modelled as the `Effects` it
 * has, which `Pipeline.Run` applies in order. A builder that raises
 * `ValueError` before changing anything returns `Err(ValueError)`.
 *
 * `bash_task` formats its script with `str.format(**kwargs)` first; here
 * every caller passes the script already formatted.
 */
module Tasks {
  import opened Wrappers
  import opened Strings
  import opened Shell
  import opened GoCD
  import opened Constants
  import Utils
  import Sorting

  /** Python truthiness of an optional string: present and not empty. */
  predicate Truthy(s: Option<string>)
  {
    s.Some? && s.value != ""
  }

  /** The exception a builder raises on inconsistent arguments. */
  datatype TaskError = ValueError

  /** `str(i)` for an integer. */
  function Str(i: int): (r: string)
    ensures |r| > 0
  {
    if i < 0 then "-" + Digits(-i) else Digits(i)
  }

  function Digits(n: nat): (r: string)
    ensures |r| > 0
  {
    if n < 10 then [DigitChar(n)] else Digits(n / 10) + [DigitChar(n % 10)]
  }

  function DigitChar(d: nat): char
    requires d < 10
  {
    "0123456789"[d]
  }

  /** `c * n`. */
  function Repeat(c: char, n: nat): (r: string)
    ensures |r| == n && forall i | 0 <= i < n :: r[i] == c
  {
    if n == 0 then "" else Repeat(c, n - 1) + [c]
  }

  // ---------------------------------------------------------------------
  // ansible_task (edxpipelines/patterns/tasks.py:28-95)
  // ---------------------------------------------------------------------

  /** A variable override: a file of overrides (a string) or a `(name, value)` pair. */
  datatype AnsibleVar = VarsFile(path: string) | Var(name: string, value: string)

  function VarWord(v: AnsibleVar): string
  {
    match v
    case VarsFile(p) => " -e @../" + p + " "
    case Var(n, x) => "-e " + n + "=" + x
  }

  function VarWords(vs: seq<AnsibleVar>): (r: seq<string>)
    ensures |r| == |vs| && forall i | 0 <= i < |vs| :: r[i] == VarWord(vs[i])
  {
    seq(|vs|, i requires 0 <= i < |vs| => VarWord(vs[i]))
  }

  /** `-v` repeated `verbosity` times as one word, and nothing when `verbosity` is not positive. */
  function VerbosityWords(verbosity: int): seq<string>
  {
    if verbosity > 0 then ["-" + Repeat('v', verbosity)] else []
  }

  /** No inventory means local mode. */
  function InventoryWords(inventory: Option<string>): seq<string>
  {
    match inventory
    case None => ["-i", "\"localhost,\"", "-c", "local"]
    case Some(i) => ["-i", i]
  }

  /** The words of the ansible command line, in order. */
  function AnsibleWords(
    variables: seq<AnsibleVar>, playbook: string, inventory: Option<string>,
    prefix: seq<string>, extraOptions: seq<string>, verbosity: int): seq<string>
  {
    prefix + ["ansible-playbook"] + VerbosityWords(verbosity) + InventoryWords(inventory)
      + extraOptions + VarWords(variables) + [playbook]
  }

  /** The task `ansible_task` returns. */
  function AnsibleTaskOf(
    variables: seq<AnsibleVar>, playbook: string, runif: RunIf := Passed,
    workingDir: Option<string> := Some(PublicConfigurationDir), inventory: Option<string> := None,
    prefix: seq<string> := [], extraOptions: seq<string> := [], verbosity: int := 3): Task
  {
    ExecTask(["/bin/bash", "-c", Join(AnsibleWords(variables, playbook, inventory, prefix, extraOptions, verbosity), " ")],
      workingDir, runif)
  }

  /** `ansible_task`, building the command list step by step. */
  method AnsibleTask(
    variables: seq<AnsibleVar>, playbook: string, runif: RunIf := Passed,
    workingDir: Option<string> := Some(PublicConfigurationDir), inventory: Option<string> := None,
    prefix: seq<string> := [], extraOptions: seq<string> := [], verbosity: int := 3)
    returns (t: Task)
    ensures t == AnsibleTaskOf(variables, playbook, runif, workingDir, inventory, prefix, extraOptions, verbosity)
  {
    var inventoryWords: seq<string>;
    if inventory.None? {
      inventoryWords := ["-i", "\"localhost,\"", "-c", "local"];
    } else {
      inventoryWords := ["-i", inventory.value];
    }
    var command := prefix + ["ansible-playbook"];
    if verbosity > 0 {
      command := command + ["-" + Repeat('v', verbosity)];
    }
    command := command + inventoryWords;
    command := command + extraOptions;
    ghost var head := command;
    assert head == prefix + ["ansible-playbook"] + VerbosityWords(verbosity) + InventoryWords(inventory) + extraOptions;
    var k := 0;
    while k < |variables|
      invariant 0 <= k <= |variables|
      invariant command == head + VarWords(variables[..k])
    {
      assert VarWords(variables[..k + 1]) == VarWords(variables[..k]) + [VarWord(variables[k])];
      match variables[k] {
        case VarsFile(p) => command := command + [" -e @../" + p + " "];
        case Var(n, x) => command := command + ["-e " + n + "=" + x];
      }
      k := k + 1;
    }
    assert variables[..k] == variables;
    command := command + [playbook];
    assert command == AnsibleWords(variables, playbook, inventory, prefix, extraOptions, verbosity);
    t := ExecTask(["/bin/bash", "-c", Join(command, " ")], workingDir, runif);
  }

  /**
   * The layout of the ansible command: the prefix, `ansible-playbook`, the
   * verbosity flag, the inventory, the extra options, one word per variable
   * in input order, and the playbook last.
   */
  lemma AnsibleLayout(
    variables: seq<AnsibleVar>, playbook: string, inventory: Option<string>,
    prefix: seq<string>, extraOptions: seq<string>, verbosity: int)
    ensures var w := AnsibleWords(variables, playbook, inventory, prefix, extraOptions, verbosity);
      var n := |prefix| + 1 + |VerbosityWords(verbosity)| + |InventoryWords(inventory)| + |extraOptions|;
      && |w| == n + |variables| + 1
      && w[..|prefix|] == prefix
      && w[|prefix|] == "ansible-playbook"
      && w[|prefix| + 1 + |VerbosityWords(verbosity)|..|prefix| + 1 + |VerbosityWords(verbosity)| + |InventoryWords(inventory)|] == InventoryWords(inventory)
      && (forall i | 0 <= i < |variables| :: w[n + i] == VarWord(variables[i]))
      && w[|w| - 1] == playbook
  {
    var w := AnsibleWords(variables, playbook, inventory, prefix, extraOptions, verbosity);
    var v := VerbosityWords(verbosity);
    var inv := InventoryWords(inventory);
    var n := |prefix| + 1 + |v| + |inv| + |extraOptions|;
    assert w == (prefix + ["ansible-playbook"] + v + inv + extraOptions) + VarWords(variables) + [playbook];
    assert w[|prefix| + 1 + |v|..|prefix| + 1 + |v| + |inv|] == inv;
    forall i | 0 <= i < |variables| ensures w[n + i] == VarWord(variables[i]) {
      assert w[n + i] == VarWords(variables)[i];
    }
  }

  /** The verbosity word appears iff `verbosity` is positive, and then holds exactly `verbosity` letters `v`. */
  lemma VerbosityFlag(verbosity: int)
    ensures |VerbosityWords(verbosity)| == (if verbosity > 0 then 1 else 0)
    ensures verbosity > 0 ==> var f := VerbosityWords(verbosity)[0];
      |f| == verbosity + 1 && f[0] == '-' && forall i | 1 <= i < |f| :: f[i] == 'v'
  {
  }

  /** A variable word for a pair is `-e name=value`; for a file, `@../path` padded with spaces. */
  lemma VarWordShape(v: AnsibleVar)
    ensures v.Var? ==> (VarWord(v)[..3] == "-e " && VarWord(v)[3..3 + |v.name|] == v.name && VarWord(v)[3 + |v.name|] == '='
      && VarWord(v)[4 + |v.name|..] == v.value)
    ensures v.VarsFile? ==> VarWord(v)[..7] == " -e @.." && VarWord(v)[8..|VarWord(v)| - 1] == v.path
  {
    var w := VarWord(v);
    match v
    case Var(n, x) =>
      assert w == "-e " + n + "=" + x;
      assert w[3..3 + |n|] == n;
      assert w[4 + |n|..] == x;
    case VarsFile(p) =>
      assert w == " -e @../" + p + " ";
      assert w[8..|w| - 1] == p;
  }

  // ---------------------------------------------------------------------
  // tubular_task and bash_task (edxpipelines/patterns/tasks.py:98-166)
  // ---------------------------------------------------------------------

  /** `tubular_task`: the space-join of `prefix + [script] + arguments`, run from `tubular` by default. */
  function TubularTask(
    script: string, arguments: seq<string>, prefix: seq<string> := [],
    runif: RunIf := Passed, workingDir: Option<string> := Some("tubular")): Task
  {
    ExecTask(["/bin/bash", "-c", Join(prefix + [script] + arguments, " ")], workingDir, runif)
  }

  /** When no word holds a space, splitting the command on spaces gives back exactly the words. */
  lemma TubularWords(script: string, arguments: seq<string>, prefix: seq<string>, runif: RunIf, workingDir: Option<string>)
    requires forall w | w in prefix + [script] + arguments :: ' ' !in w
    ensures TubularTask(script, arguments, prefix, runif, workingDir).command[..2] == ["/bin/bash", "-c"]
    ensures Split(TubularTask(script, arguments, prefix, runif, workingDir).command[2], ' ') == prefix + [script] + arguments
  {
    var words := prefix + [script] + arguments;
    assert forall i | 0 <= i < |words| :: words[i] in words;
    SplitJoinFree(words, ' ');
  }

  /** `bash_task` on an already formatted script. */
  function BashTask(script: string, workingDir: Option<string> := None, runif: RunIf := Passed): Task
  {
    ExecTask(["/bin/bash", "-c", BashScript(script)], workingDir, runif)
  }

  // ---------------------------------------------------------------------
  // Target directory and artifact retrieval (tasks.py:169-186, 644-657)
  // ---------------------------------------------------------------------

  /** `generate_target_directory`: ensure a `mkdir -p` task. */
  function TargetDirectory(directoryName: string := ArtifactPath, runif: RunIf := Passed): seq<JobOp>
  {
    [EnsureOp(BashTask("mkdir -p " + directoryName, None, runif))]
  }

  /** For a plain directory name the task runs exactly `mkdir -p <name>`. */
  lemma TargetDirectoryCommand(directoryName: string, runif: RunIf)
    requires directoryName != [] && '\n' !in directoryName && !IsSpace(directoryName[|directoryName| - 1])
    ensures TargetDirectory(directoryName, runif)[0].task.command[2] == "mkdir -p " + directoryName
  {
    var s := "mkdir -p " + directoryName;
    assert s[|s| - 1] == directoryName[|directoryName| - 1];
    assert '\n' !in s by {
      forall i | 0 <= i < |s| ensures s[i] != '\n' {
        if i >= 9 {
          assert s[i] == directoryName[i - 9];
        }
      }
    }
    PlainScript(s);
  }

  /** `retrieve_artifact`: ensure the destination exists, then ensure the fetch. */
  function RetrieveArtifact(loc: Utils.ArtifactLocation, dest: string := ArtifactPath, runif: RunIf := Passed): (ops: seq<JobOp>)
  {
    TargetDirectory(dest, runif) + [EnsureOp(Utils.AsFetchTask(loc, dest))]
  }

  /**
   * After `retrieve_artifact` the job holds the directory task and a fetch
   * of exactly that location into `dest`, a directory iff `is_dir`; the
   * call changes no artifact or variable.
   */
  lemma RetrieveArtifactEffect(j: Job, loc: Utils.ArtifactLocation, dest: string, runif: RunIf)
    ensures var r := ApplyOps(j, RetrieveArtifact(loc, dest, runif));
      && TargetDirectory(dest, runif)[0].task in r.tasks
      && Utils.AsFetchTask(loc, dest) in r.tasks
      && r.artifacts == j.artifacts && r.envVars == j.envVars && r.secureVars == j.secureVars
    ensures RetrieveArtifact(loc, dest, runif)[1].task.src.FetchDir? <==> loc.isDir
    ensures Utils.FetchedLocation(RetrieveArtifact(loc, dest, runif)[1].task) == loc
  {
    var ops := RetrieveArtifact(loc, dest, runif);
    var t0, t1 := ops[0].task, ops[1].task;
    assert ops[..1][..0] == [];
    var j1 := ApplyOp(j, ops[0]);
    assert ApplyOps(j, ops[..1]) == j1;
    assert ops[..1] == ops[..|ops| - 1];
    var r := ApplyOp(j1, ops[1]);
    assert ApplyOps(j, ops) == r;
    EnsureTaskInIdempotent(j.tasks, t0);
    EnsureTaskInIdempotent(j1.tasks, t1);
    assert j1.tasks == r.tasks[..|j1.tasks|];
    var k :| 0 <= k < |j1.tasks| && j1.tasks[k] == t0;
    assert r.tasks[k] == t0;
    Utils.AsFetchTaskRoundTrip(loc, dest);
  }

  /** `retrieve_artifact` is idempotent: a second identical call adds nothing. */
  lemma RetrieveArtifactTwice(j: Job, loc: Utils.ArtifactLocation, dest: string, runif: RunIf)
    ensures var ops := RetrieveArtifact(loc, dest, runif);
      ApplyOps(ApplyOps(j, ops), ops) == ApplyOps(j, ops)
  {
    RepeatableIdempotent(j, RetrieveArtifact(loc, dest, runif));
  }

  // ---------------------------------------------------------------------
  // Installs, launch, AMI creation and cleanup (tasks.py:189-410)
  // ---------------------------------------------------------------------

  function RequirementsInstall(workingDir: string, runif: RunIf := Passed): seq<JobOp>
  {
    [AddOp(BashTask("sudo pip install -r requirements.txt", Some(workingDir), runif))]
  }

  function PackageInstall(workingDir: string, runif: RunIf := Passed, pip: string := "pip3"): seq<JobOp>
  {
    [AddOp(BashTask("sudo " + pip + " install --upgrade .", Some(workingDir), runif))]
  }

  const ModulePathOption := "--module-path=playbooks/library"

  /** An optional extra element, present iff the value is truthy. */
  function IfTruthy<T>(v: Option<string>, x: T): seq<T>
  {
    if Truthy(v) then [x] else []
  }

  function LaunchVariables(variableOverridePath: Option<string>): seq<AnsibleVar>
  {
    [ Var("artifact_path", "`/bin/pwd`/../" + ArtifactPath + " "),
      Var("base_ami_id", "$BASE_AMI_ID"),
      Var("ec2_vpc_subnet_id", "$EC2_VPC_SUBNET_ID"),
      Var("ec2_security_group_id", "$EC2_SECURITY_GROUP_ID"),
      Var("ec2_instance_type", "$EC2_INSTANCE_TYPE"),
      Var("ec2_instance_profile_name", "$EC2_INSTANCE_PROFILE_NAME"),
      Var("ebs_volume_size", "$EBS_VOLUME_SIZE"),
      Var("hipchat_token", "$HIPCHAT_TOKEN"),
      Var("hipchat_room", "\"$HIPCHAT_ROOM\""),
      Var("ec2_timeout", "900") ]
    + IfTruthy(variableOverridePath, VarsFile(if variableOverridePath.Some? then variableOverridePath.value else ""))
  }

  const LaunchArtifacts: set<string> :=
    {ArtifactPath + "/key.pem", ArtifactPath + "/ansible_inventory", ArtifactPath + "/launch_info.yml"}

  /** `generate_launch_instance`. */
  function LaunchInstance(
    awsAccessKeyId: string, awsSecretAccessKey: string,
    ec2VpcSubnetId: string, ec2SecurityGroupId: string, ec2InstanceProfileName: string,
    baseAmiId: string, ec2Region: string := Ec2Region, ec2InstanceType: string := Ec2InstanceType,
    ec2Timeout: string := Ec2LaunchInstanceTimeout, ec2EbsVolumeSize: string := Ec2EbsVolumeSize,
    variableOverridePath: Option<string> := None, runif: RunIf := Passed): Effects
  {
    Effects(
      map["EC2_VPC_SUBNET_ID" := Some(ec2VpcSubnetId), "EC2_SECURITY_GROUP_ID" := Some(ec2SecurityGroupId),
          "EC2_ASSIGN_PUBLIC_IP" := Some("no"), "EC2_TIMEOUT" := Some(ec2Timeout), "EC2_REGION" := Some(ec2Region),
          "EBS_VOLUME_SIZE" := Some(ec2EbsVolumeSize), "EC2_INSTANCE_TYPE" := Some(ec2InstanceType),
          "EC2_INSTANCE_PROFILE_NAME" := Some(ec2InstanceProfileName), "NO_REBOOT" := Some("no"),
          "BASE_AMI_ID" := Some(baseAmiId), "ANSIBLE_CONFIG" := Some(AnsibleContinuousDeliveryConfig)],
      map["AWS_ACCESS_KEY_ID" := awsAccessKeyId, "AWS_SECRET_ACCESS_KEY" := awsSecretAccessKey],
      map[],
      [ ArtifactsOp(LaunchArtifacts),
        AddOp(AnsibleTaskOf(LaunchVariables(variableOverridePath), "playbooks/continuous_delivery/launch_instance.yml",
          runif := runif, extraOptions := [ModulePathOption])) ])
  }

  /**
   * The launch declares its three outputs and adds one task, whose last
   * variable before any override is the fixed timeout; the override file
   * is passed, as the last variable, iff its path is truthy.
   */
  lemma LaunchInstanceOverride(
    awsAccessKeyId: string, awsSecretAccessKey: string,
    ec2VpcSubnetId: string, ec2SecurityGroupId: string, ec2InstanceProfileName: string,
    baseAmiId: string, ec2Region: string, ec2InstanceType: string,
    ec2Timeout: string, ec2EbsVolumeSize: string,
    variableOverridePath: Option<string>, runif: RunIf)
    ensures var e := LaunchInstance(awsAccessKeyId, awsSecretAccessKey, ec2VpcSubnetId, ec2SecurityGroupId,
        ec2InstanceProfileName, baseAmiId, ec2Region, ec2InstanceType, ec2Timeout, ec2EbsVolumeSize,
        variableOverridePath, runif);
      && |e.ops| == 2 && e.ops[0] == ArtifactsOp(LaunchArtifacts) && e.ops[1].AddOp?
      && e.envVars["BASE_AMI_ID"] == Some(baseAmiId)
    ensures var vs := LaunchVariables(variableOverridePath);
      && |vs| == (if Truthy(variableOverridePath) then 11 else 10)
      && vs[9] == Var("ec2_timeout", "900")
      && (Truthy(variableOverridePath) ==> vs[|vs| - 1] == VarsFile(variableOverridePath.value))
  {
  }

  function KwargKey(p: (string, string)): Sorting.Key
  {
    [Some(p.0), Some(p.1)]
  }

  /** `sorted(kwargs.items())`. */
  function SortedKwargs(kwargs: seq<(string, string)>): seq<(string, string)>
  {
    Sorting.SortBy(kwargs, KwargKey)
  }

  function KwargVars(pairs: seq<(string, string)>): (r: seq<AnsibleVar>)
    ensures |r| == |pairs| && forall i | 0 <= i < |pairs| :: r[i] == Var(pairs[i].0, pairs[i].1)
  {
    seq(|pairs|, i requires 0 <= i < |pairs| => Var(pairs[i].0, pairs[i].1))
  }

  /** Keyword arguments: distinct names. */
  predicate DistinctNames(kwargs: seq<(string, string)>)
  {
    forall i, j | 0 <= i < j < |kwargs| :: kwargs[i].0 != kwargs[j].0
  }

  /**
   * The keyword arguments are passed in ascending order of name, each
   * exactly once, and the result does not depend on the order in which the
   * dictionary yields them.
   */
  lemma SortedKwargsProperties(kwargs: seq<(string, string)>, other: seq<(string, string)>)
    requires DistinctNames(kwargs) && DistinctNames(other) && multiset(kwargs) == multiset(other)
    ensures var s := SortedKwargs(kwargs);
      multiset(s) == multiset(kwargs) && forall i, j | 0 <= i < j < |s| :: Sorting.StrLe(s[i].0, s[j].0)
    ensures SortedKwargs(kwargs) == SortedKwargs(other)
  {
    Sorting.SortByProperties(kwargs, KwargKey);
    var s := SortedKwargs(kwargs);
    assert Sorting.DistinctKeys(kwargs, KwargKey);
    assert Sorting.DistinctKeys(other, KwargKey);
    Sorting.SortByPermutation(kwargs, other, KwargKey);
    forall i, j | 0 <= i < j < |s| ensures Sorting.StrLe(s[i].0, s[j].0) {
      var a, b := KwargKey(s[i]), KwargKey(s[j]);
      assert Sorting.KeyLe(a, b);
      if a[0] == b[0] {
        Sorting.StrLeTotal(s[i].0, s[i].0);
      } else {
        assert Sorting.OptLe(a[0], b[0]);
      }
    }
  }

  /** The sixteen fixed variables of the AMI creation play, the launch information file first. */
  function CreateAmiFixedVariables(launchInfoPath: string): (r: seq<AnsibleVar>)
    ensures |r| == 16 && r[0] == VarsFile(launchInfoPath)
  {
    [ VarsFile(launchInfoPath),
      Var("play", "$PLAY"),
      Var("deployment", "$DEPLOYMENT"),
      Var("edx_environment", "$EDX_ENVIRONMENT"),
      Var("app_repo", "$APP_REPO"),
      Var("configuration_repo", "$CONFIGURATION_REPO"),
      Var("configuration_version", "$GO_REVISION_CONFIGURATION"),
      Var("configuration_secure_repo", "$CONFIGURATION_SECURE_REPO"),
      Var("cache_id", "$GO_PIPELINE_COUNTER"),
      Var("ec2_region", "$EC2_REGION"),
      Var("artifact_path", "`/bin/pwd`/../" + ArtifactPath),
      Var("hipchat_token", "$HIPCHAT_TOKEN"),
      Var("hipchat_room", "\"$HIPCHAT_ROOM\""),
      Var("ami_wait", "$AMI_WAIT"),
      Var("no_reboot", "$NO_REBOOT"),
      Var("extra_name_identifier", "$GO_PIPELINE_COUNTER") ]
  }

  function CreateAmiVariables(launchInfoPath: string, kwargs: seq<(string, string)>): seq<AnsibleVar>
  {
    CreateAmiFixedVariables(launchInfoPath) + KwargVars(SortedKwargs(kwargs))
  }

  /** `generate_create_ami`; `kwargs` are the extra keyword arguments, as the dictionary yields them. */
  function CreateAmi(
    play: string, deployment: string, edxEnvironment: string, appRepo: string,
    configurationSecureRepo: string, awsAccessKeyId: string, awsSecretAccessKey: string,
    launchInfoPath: string, configurationRepo: string := PublicConfigurationRepoUrl,
    amiCreationTimeout: string := "3600", amiWait: string := "yes", cacheId: string := "",
    artifactPath: string := ArtifactPath, hipchatToken: string := "", hipchatRoom: string := HipchatRoom,
    runif: RunIf := Passed, kwargs: seq<(string, string)> := []): Effects
  {
    Effects(
      map["PLAY" := Some(play), "DEPLOYMENT" := Some(deployment), "EDX_ENVIRONMENT" := Some(edxEnvironment),
          "APP_REPO" := Some(appRepo), "CONFIGURATION_REPO" := Some(configurationRepo),
          "CONFIGURATION_SECURE_REPO" := Some(configurationSecureRepo),
          "AMI_CREATION_TIMEOUT" := Some(amiCreationTimeout), "AMI_WAIT" := Some(amiWait),
          "CACHE_ID" := Some(cacheId), "ARTIFACT_PATH" := Some(artifactPath), "HIPCHAT_ROOM" := Some(hipchatRoom),
          "ANSIBLE_CONFIG" := Some(AnsibleContinuousDeliveryConfig)],
      map["AWS_ACCESS_KEY_ID" := awsAccessKeyId, "AWS_SECRET_ACCESS_KEY" := awsSecretAccessKey,
          "HIPCHAT_TOKEN" := hipchatToken],
      map[],
      [ ArtifactsOp({ArtifactPath + "/" + BuildAmiFilename}),
        AddOp(AnsibleTaskOf(CreateAmiVariables(launchInfoPath, kwargs), "playbooks/continuous_delivery/create_ami.yml",
          runif := runif, extraOptions := [ModulePathOption])) ])
  }

  /** The launch information file is the first variable; the sorted keyword arguments follow the sixteen fixed ones. */
  lemma CreateAmiVariablesLayout(launchInfoPath: string, kwargs: seq<(string, string)>)
    ensures var vs := CreateAmiVariables(launchInfoPath, kwargs);
      && |vs| == 16 + |kwargs|
      && vs[0] == VarsFile(launchInfoPath)
      && forall i | 0 <= i < |kwargs| :: vs[16 + i] == Var(SortedKwargs(kwargs)[i].0, SortedKwargs(kwargs)[i].1)
  {
    var fixed, sorted := CreateAmiFixedVariables(launchInfoPath), SortedKwargs(kwargs);
    var kv := KwargVars(sorted);
    assert CreateAmiVariables(launchInfoPath, kwargs) == fixed + kv;
    forall i | 0 <= i < |kwargs| ensures (fixed + kv)[16 + i] == Var(sorted[i].0, sorted[i].1) {
      assert (fixed + kv)[16 + i] == kv[i];
    }
  }

  function AmiCleanup(runif: RunIf := Passed): seq<JobOp>
  {
    [AddOp(AnsibleTaskOf(
      [ VarsFile(ArtifactPath + "/launch_info.yml"),
        Var("ec2_region", "$EC2_REGION"),
        Var("hipchat_token", "$HIPCHAT_TOKEN"),
        Var("hipchat_room", "\"$HIPCHAT_ROOM\"") ],
      "playbooks/continuous_delivery/cleanup.yml", runif := runif, extraOptions := [ModulePathOption]))]
  }

  // ---------------------------------------------------------------------
  // Migrations (tasks.py:413-583)
  // ---------------------------------------------------------------------

  const SshPrefix: seq<string> := [
    "export ANSIBLE_HOST_KEY_CHECKING=False;",
    "export ANSIBLE_SSH_ARGS=\"-o ControlMaster=auto -o ControlPersist=30m\";"]

  function MigrationVariables(subApplicationName: Option<string>): seq<AnsibleVar>
  {
    [ Var("APPLICATION_PATH", "$APPLICATION_PATH"),
      Var("APPLICATION_NAME", "$APPLICATION_NAME"),
      Var("APPLICATION_USER", "$APPLICATION_USER"),
      Var("ARTIFACT_PATH", "`/bin/pwd`/../" + ArtifactPath + "/migrations"),
      Var("DB_MIGRATION_USER", "$DB_MIGRATION_USER"),
      Var("DB_MIGRATION_PASS", "$DB_MIGRATION_PASS") ]
    + (match subApplicationName case None => [] case Some(s) => [Var("SUB_APPLICATION_NAME", s)])
  }

  /** `generate_run_migrations`. */
  function RunMigrations(subApplicationName: Option<string> := None, runif: RunIf := Passed): seq<JobOp>
  {
    [ ArtifactsOp({ArtifactPath + "/migrations"}),
      AddOp(AnsibleTaskOf(MigrationVariables(subApplicationName), "playbooks/continuous_delivery/run_migrations.yml",
        runif := runif,
        inventory := Some("../" + ArtifactPath + "/ansible_inventory "),
        prefix := ["mkdir -p " + ArtifactPath + "/migrations;"] + SshPrefix
                  + ["PRIVATE_KEY=`/bin/pwd`/../" + ArtifactPath + "/key.pem;"],
        extraOptions := ["--private-key=$PRIVATE_KEY", "--user=ubuntu", ModulePathOption])) ]
  }

  /** The sub-application variable is passed, last, iff a sub-application is named (even an empty one). */
  lemma RunMigrationsSubApplication(subApplicationName: Option<string>)
    ensures var vs := MigrationVariables(subApplicationName);
      (exists i | 0 <= i < |vs| :: vs[i].Var? && vs[i].name == "SUB_APPLICATION_NAME") <==> subApplicationName.Some?
    ensures subApplicationName.Some? ==>
      MigrationVariables(subApplicationName)[6] == Var("SUB_APPLICATION_NAME", subApplicationName.value)
  {
    var vs := MigrationVariables(subApplicationName);
    if subApplicationName.Some? {
      assert vs[6].Var? && vs[6].name == "SUB_APPLICATION_NAME";
    } else {
      forall i | 0 <= i < |vs| ensures !(vs[i].Var? && vs[i].name == "SUB_APPLICATION_NAME") {
        assert |vs[i].name| <= 17;
      }
    }
  }

  /** `[flag, v]` for each `v`, in order: the pairs of a repeated option. */
  function Flagged(flag: string, values: seq<string>): seq<string>
  {
    FlatMap(values, v => [flag, v])
  }

  lemma FlaggedShape(flag: string, values: seq<string>)
    ensures |Flagged(flag, values)| == 2 * |values|
    ensures forall i | 0 <= i < |values| :: Flagged(flag, values)[2 * i] == flag && Flagged(flag, values)[2 * i + 1] == values[i]
  {
    var f := v => [flag, v];
    FlatMapLength(values, f, 2);
    forall i | 0 <= i < |values| ensures Flagged(flag, values)[2 * i] == flag && Flagged(flag, values)[2 * i + 1] == values[i] {
      FlatMapBlock(values, f, i);
      FlatMapLength(values[..i], f, 2);
      assert Flagged(flag, values)[2 * i..2 * i + 2] == f(values[i]);
    }
  }

  /** `[flag, v]` if `v` is truthy, otherwise nothing. */
  function OptionArgs(flag: string, v: Option<string>): seq<string>
  {
    if Truthy(v) then [flag, v.value] else []
  }

  const InstanceDataUrl := "${GO_SERVER_URL/:8154/}pipelines/${GO_PIPELINE_NAME}/${GO_PIPELINE_COUNTER}/${GO_STAGE_NAME}/${GO_STAGE_COUNTER}"

  function MigrationDurationArgsOf(
    inputFile: string, durationThreshold: int, fromAddress: string, toAddresses: seq<string>, sesRegion: Option<string>): seq<string>
  {
    [ "--migration_file", "../" + ArtifactPath + "/migrations/" + inputFile,
      "--duration_threshold", Str(durationThreshold),
      "--instance_data", InstanceDataUrl,
      "--from_address", fromAddress ]
    + OptionArgs("--aws_ses_region", sesRegion)
    + Flagged("--alert_email", toAddresses)
  }

  /** The argument list of `generate_check_migration_duration`, built as the source builds it. */
  method MigrationDurationArgs(
    inputFile: string, durationThreshold: int, fromAddress: string, toAddresses: seq<string>, sesRegion: Option<string>)
    returns (args: seq<string>)
    ensures args == MigrationDurationArgsOf(inputFile, durationThreshold, fromAddress, toAddresses, sesRegion)
  {
    args := [
      "--migration_file", "../" + ArtifactPath + "/migrations/" + inputFile,
      "--duration_threshold", Str(durationThreshold),
      "--instance_data", InstanceDataUrl,
      "--from_address", fromAddress ];
    if sesRegion.Some? && sesRegion.value != "" {
      args := args + ["--aws_ses_region", sesRegion.value];
    }
    ghost var head := args;
    var k := 0;
    while k < |toAddresses|
      invariant 0 <= k <= |toAddresses|
      invariant args == head + Flagged("--alert_email", toAddresses[..k])
    {
      assert toAddresses[..k + 1][..k] == toAddresses[..k];
      args := args + ["--alert_email", toAddresses[k]];
      k := k + 1;
    }
    assert toAddresses[..k] == toAddresses;
  }

  /** `generate_check_migration_duration`. */
  function CheckMigrationDuration(
    inputFile: string, durationThreshold: int, fromAddress: string, toAddresses: seq<string>,
    sesRegion: Option<string> := None, runif: RunIf := Passed): seq<JobOp>
  {
    [AddOp(TubularTask("check_migrate_duration.py",
      MigrationDurationArgsOf(inputFile, durationThreshold, fromAddress, toAddresses, sesRegion), runif := runif))]
  }

  /** Every address gets its own `--alert_email`, after the fixed arguments and the optional region. */
  lemma MigrationDurationAlerts(
    inputFile: string, durationThreshold: int, fromAddress: string, toAddresses: seq<string>, sesRegion: Option<string>)
    ensures var a := MigrationDurationArgsOf(inputFile, durationThreshold, fromAddress, toAddresses, sesRegion);
      var n := 8 + (if Truthy(sesRegion) then 2 else 0);
      && |a| == n + 2 * |toAddresses|
      && (Truthy(sesRegion) ==> a[8..n] == ["--aws_ses_region", sesRegion.value])
      && forall i | 0 <= i < |toAddresses| :: a[n + 2 * i] == "--alert_email" && a[n + 2 * i + 1] == toAddresses[i]
  {
    var a := MigrationDurationArgsOf(inputFile, durationThreshold, fromAddress, toAddresses, sesRegion);
    var n := 8 + (if Truthy(sesRegion) then 2 else 0);
    var f := Flagged("--alert_email", toAddresses);
    FlaggedShape("--alert_email", toAddresses);
    assert a[n..] == f;
    forall i | 0 <= i < |toAddresses| ensures a[n + 2 * i] == "--alert_email" && a[n + 2 * i + 1] == toAddresses[i] {
      assert a[n + 2 * i] == f[2 * i];
      assert a[n + 2 * i + 1] == f[2 * i + 1];
    }
  }

  const MigrationRollbackPath := ArtifactPath + "/rollback/migrations"

  /** The words of the rollback loop up to the optional sub-application, joined by spaces. */
  const RollbackLoopHead := Join([
      "for migration_input_file in ../" + MigrationRollbackPath + "/*_migration_plan.yml do",
      "export ANSIBLE_HOST_KEY_CHECKING=False;",
      "export ANSIBLE_SSH_ARGS=\"-o ControlMaster=auto -o ControlPersist=30m\";",
      "PRIVATE_KEY=`/bin/pwd`/../" + ArtifactPath + "/key.pem;",
      "ansible-playbook",
      "-vvvv",
      "-i ../" + ArtifactPath + "/ansible_inventory",
      "--private-key=$PRIVATE_KEY",
      "--module-path=playbooks/library",
      "--user=ubuntu",
      "-e APPLICATION_PATH=$APPLICATION_PATH",
      "-e APPLICATION_NAME=$APPLICATION_NAME",
      "-e APPLICATION_USER=$APPLICATION_USER",
      "-e ARTIFACT_PATH=`/bin/pwd`/../" + ArtifactPath + "/migrations",
      "-e DB_MIGRATION_USER=$DB_MIGRATION_USER",
      "-e DB_MIGRATION_PASS=$DB_MIGRATION_PASS",
      "-e ../" + ArtifactPath + "/${migration_input_file}"], " ")

  const RollbackLoopTail := " playbooks/continuous_delivery/rollback_migrations.yml done || exit"

  /** The shell loop of `generate_migration_rollback`. */
  function RollbackCommand(subApplicationName: Option<string>): string
  {
    RollbackLoopHead
    + (match subApplicationName case None => "" case Some(s) => " -e SUB_APPLICATION_NAME=" + s + " ")
    + RollbackLoopTail
  }

  /** `generate_migration_rollback`. */
  function MigrationRollback(subApplicationName: Option<string> := None, runif: RunIf := Passed): seq<JobOp>
  {
    TargetDirectory(MigrationRollbackPath)
    + [ ArtifactsOp({MigrationRollbackPath}),
        AddOp(ExecTask(["/bin/bash", "-c", RollbackCommand(subApplicationName)], Some(PublicConfigurationDir), runif)) ]
  }

  /**
   * The rollback job creates its input directory before declaring it and
   * running the loop, and the loop's command differs from the one without a
   * sub-application exactly by the inserted `-e SUB_APPLICATION_NAME=<s>`.
   */
  lemma MigrationRollbackLayout(subApplicationName: Option<string>, runif: RunIf)
    ensures var ops := MigrationRollback(subApplicationName, runif);
      && |ops| == 3 && ops[0] == TargetDirectory(MigrationRollbackPath)[0]
      && ops[1] == ArtifactsOp({MigrationRollbackPath}) && ops[2].AddOp?
      && ops[0].task.runif == Passed && ops[2].task.runif == runif
  {
  }

  /**
   * The loop with a sub-application is the loop without one with
   * `-e SUB_APPLICATION_NAME=<name>` inserted just before the playbook.
   */
  lemma RollbackCommandSub(subApplicationName: Option<string>)
    ensures var base := RollbackCommand(None);
      var k := |base| - |RollbackLoopTail|;
      && base[k..] == " playbooks/continuous_delivery/rollback_migrations.yml done || exit"
      && (subApplicationName.Some? ==>
           RollbackCommand(subApplicationName) == base[..k] + " -e SUB_APPLICATION_NAME=" + subApplicationName.value + " " + base[k..])
  {
    var base := RollbackCommand(None);
    assert base == RollbackLoopHead + RollbackLoopTail;
  }

  // ---------------------------------------------------------------------
  // Fixed-argument builders (tasks.py:586-681, 781-980)
  // ---------------------------------------------------------------------

  function FormatRsaKey(outputPath: string, key: string): seq<JobOp>
  {
    [AddOp(TubularTask("format_rsa_key.py", ["--key", "\"" + key + "\"", "--output-file", outputPath],
      prefix := ["touch " + outputPath + " &&", "chmod 600 " + outputPath + " &&"]))]
  }

  /** `_fetch_secure_repo`, with the script formatted. */
  function FetchSecureRepo(
    secureDir: string, secureRepoEnvvar: string, secureVersionEnvvar: string, secureRepoName: string,
    runif: RunIf := Passed): seq<JobOp>
  {
    var script := Join([
      "            touch github_key.pem &&",
      "            chmod 600 github_key.pem &&",
      "            format_rsa_key.py --key \"$PRIVATE_GITHUB_KEY\" --output-file github_key.pem &&",
      "            GIT_SSH_COMMAND='/usr/bin/ssh -o StrictHostKeyChecking=no -i github_key.pem'",
      "            /usr/bin/git clone $" + secureRepoEnvvar + " " + secureDir + " &&",
      "            cd " + secureDir + " &&",
      "            /usr/bin/git checkout $" + secureVersionEnvvar + " &&",
      "            [ -d ../" + ArtifactPath + "/ ] && echo \"Target Directory Exists\" || mkdir ../" + ArtifactPath + "/ &&",
      "            /usr/bin/git rev-parse HEAD > ../" + ArtifactPath + "/" + secureRepoName + "_sha",
      "        "], "\n");
    [AddOp(BashTask(script, runif := runif))]
  }

  function FetchEdxMktg(secureDir: string, runif: RunIf := Passed): seq<JobOp>
  {
    FetchSecureRepo(secureDir, "PRIVATE_MARKETING_REPOSITORY_URL", "MARKETING_REPOSITORY_VERSION", "edx-mktg", runif)
  }

  const AcquiaCredentials: seq<string> := ["--username $PRIVATE_ACQUIA_USERNAME", "--password $PRIVATE_ACQUIA_PASSWORD"]

  function BackupDrupalDatabase(siteEnv: string): seq<JobOp>
  {
    [AddOp(TubularTask("drupal_backup_database.py", ["--env", siteEnv] + AcquiaCredentials))]
  }

  function FlushDrupalCaches(siteEnv: string): seq<JobOp>
  {
    [AddOp(BashTask("drush -y @edx." + siteEnv + " cc all", Some("edx-mktg/docroot")))]
  }

  function ClearVarnishCache(siteEnv: string): seq<JobOp>
  {
    [AddOp(TubularTask("drupal_clear_varnish.py", ["--env", siteEnv] + AcquiaCredentials))]
  }

  function DrupalDeploy(siteEnv: string, tagFile: string): seq<JobOp>
  {
    [AddOp(TubularTask("drupal_deploy.py",
      ["--env", siteEnv] + AcquiaCredentials + ["--tag $(cat ../" + ArtifactPath + "/" + tagFile + ")"]))]
  }

  function FetchTag(siteEnv: string, pathName: string): seq<JobOp>
  {
    [AddOp(TubularTask("drupal_fetch_deployed_tag.py", ["--env", siteEnv] + AcquiaCredentials + ["--path_name", pathName]))]
  }

  const ContinuousDeliveryDir := "configuration/playbooks/continuous_delivery/"

  const RemoteVariables: seq<AnsibleVar> := [
    Var("APPLICATION_PATH", "$APPLICATION_PATH"),
    Var("APPLICATION_NAME", "$APPLICATION_NAME"),
    Var("APPLICATION_USER", "$APPLICATION_USER"),
    Var("HIPCHAT_TOKEN", "$HIPCHAT_TOKEN"),
    Var("HIPCHAT_ROOM", "\"$HIPCHAT_ROOM\"")]

  /** A catalog-service management play run over ssh from the continuous-delivery directory. */
  function RemotePlay(playbook: string, runif: RunIf): Task
  {
    AnsibleTaskOf(RemoteVariables, playbook, runif, Some(ContinuousDeliveryDir), Some("../../ansible_inventory"),
      SshPrefix + ["PRIVATE_KEY=`/bin/pwd`/../../key.pem;"], ["--private-key=$PRIVATE_KEY", "--user=ubuntu"])
  }

  function RefreshMetadata(runif: RunIf := Passed): seq<JobOp>
  {
    [AddOp(RemotePlay("discovery_refresh_metadata.yml", runif))]
  }

  function UpdateIndex(runif: RunIf := Passed): seq<JobOp>
  {
    [AddOp(RemotePlay("haystack_update_index.yml", runif))]
  }

  /** A builder whose only change is to append one task. */
  predicate SingleAdd(ops: seq<JobOp>)
  {
    |ops| == 1 && ops[0].AddOp?
  }

  /** Such a builder appends its task and nothing else, so calling it twice runs the task twice. */
  lemma SingleAddEffect(j: Job, ops: seq<JobOp>)
    requires SingleAdd(ops)
    ensures ApplyOps(j, ops) == j.(tasks := j.tasks + [ops[0].task])
    ensures ApplyOps(ApplyOps(j, ops), ops).tasks == j.tasks + [ops[0].task, ops[0].task]
  {
    assert ops[..0] == [];
    assert ApplyOps(j, ops) == ApplyOp(j, ops[0]);
    assert ApplyOps(ApplyOps(j, ops), ops) == ApplyOp(ApplyOps(j, ops), ops[0]);
  }

  /** The Drupal, key, catalog and cleanup builders each append exactly one task. */
  lemma FixedBuildersAddOneTask(siteEnv: string, tagFile: string, pathName: string, outputPath: string, key: string, runif: RunIf)
    ensures SingleAdd(BackupDrupalDatabase(siteEnv)) && SingleAdd(FlushDrupalCaches(siteEnv))
    ensures SingleAdd(ClearVarnishCache(siteEnv)) && SingleAdd(DrupalDeploy(siteEnv, tagFile))
    ensures SingleAdd(FetchTag(siteEnv, pathName)) && SingleAdd(FormatRsaKey(outputPath, key))
    ensures SingleAdd(RefreshMetadata(runif)) && SingleAdd(UpdateIndex(runif)) && SingleAdd(AmiCleanup(runif))
  {
  }

  // ---------------------------------------------------------------------
  // Playbook run (tasks.py:685-778)
  // ---------------------------------------------------------------------

  function RunAppPlaybookVariables(
    base: string, configurationSecureDir: string, configurationInternalDir: string,
    kwargs: seq<(string, string)>): seq<AnsibleVar>
  {
    [ VarsFile(base + "/launch_info.yml"),
      VarsFile(configurationInternalDir + "/ansible/vars/${DEPLOYMENT}.yml"),
      VarsFile(configurationInternalDir + "/ansible/vars/${EDX_ENVIRONMENT}-${DEPLOYMENT}.yml"),
      VarsFile(configurationSecureDir + "/ansible/vars/${DEPLOYMENT}.yml"),
      VarsFile(configurationSecureDir + "/ansible/vars/${EDX_ENVIRONMENT}-${DEPLOYMENT}.yml") ]
    + KwargVars(SortedKwargs(kwargs))
  }

  /** The directory holding the launch outputs: the given one if truthy, else `target`. */
  function LaunchBase(launchArtifactsBasePath: Option<string>): string
  {
    if Truthy(launchArtifactsBasePath) then launchArtifactsBasePath.value else ArtifactPath
  }

  /** `generate_run_app_playbook`. */
  function RunAppPlaybook(
    playbookWithPath: string, edp: EDP, appRepo: string,
    launchArtifactsBasePath: Option<string> := None, privateGithubKey: string := "",
    hipchatToken: string := "", hipchatRoom: string := HipchatRoom,
    configurationSecureDir: string := PrivateConfigurationLocalDir,
    configurationInternalDir: string := InternalConfigurationLocalDir,
    runif: RunIf := Passed, kwargs: seq<(string, string)> := []): Effects
  {
    var base := LaunchBase(launchArtifactsBasePath);
    Effects(
      map["PLAY" := Some(edp.play), "DEPLOYMENT" := Some(edp.deployment), "EDX_ENVIRONMENT" := Some(edp.environment),
          "APP_REPO" := Some(appRepo), "ARTIFACT_PATH" := Some(ArtifactPath + "/"), "HIPCHAT_ROOM" := Some(hipchatRoom),
          "ANSIBLE_CONFIG" := Some(AnsibleContinuousDeliveryConfig)],
      map["HIPCHAT_TOKEN" := hipchatToken, "PRIVATE_GITHUB_KEY" := privateGithubKey],
      map[],
      [AddOp(AnsibleTaskOf(
        RunAppPlaybookVariables(base, configurationSecureDir, configurationInternalDir, kwargs),
        playbookWithPath, runif,
        inventory := Some("../" + base + "/ansible_inventory "),
        prefix := ["chmod 600 ../" + base + "/key.pem;"] + SshPrefix + ["PRIVATE_KEY=$(/bin/pwd)/../" + base + "/key.pem;"],
        extraOptions := ["--private-key=$PRIVATE_KEY", "--user=ubuntu", ModulePathOption]))])
  }

  /** A falsy launch directory means `target`; the play reads the key and inventory from that directory. */
  lemma RunAppPlaybookBase(
    playbookWithPath: string, edp: EDP, appRepo: string, launchArtifactsBasePath: Option<string>, runif: RunIf)
    ensures LaunchBase(launchArtifactsBasePath) == (if Truthy(launchArtifactsBasePath) then launchArtifactsBasePath.value else "target")
    ensures LaunchBase(None) == LaunchBase(Some("")) == ArtifactPath
    ensures var e := RunAppPlaybook(playbookWithPath, edp, appRepo, launchArtifactsBasePath, runif := runif);
      && e.envVars["PLAY"] == Some(edp.play) && e.envVars["DEPLOYMENT"] == Some(edp.deployment)
      && e.envVars["EDX_ENVIRONMENT"] == Some(edp.environment)
      && |e.ops| == 1 && e.ops[0].AddOp?
  {
  }

  // ---------------------------------------------------------------------
  // Git and release builders (tasks.py:983-1376)
  // ---------------------------------------------------------------------

  function CreateReleaseCandidateBranchAndPr(
    org: string, repo: string, sourceBranch: string, targetBranch: string, prTargetBranch: string,
    runif: RunIf := Passed): seq<JobOp>
  {
    [AddOp(TubularTask("create_release_candidate.py",
      ["--org", org, "--repo", repo, "--source_branch", sourceBranch, "--target_branch", targetBranch,
       "--pr_target_branch", prTargetBranch, "--token $GIT_TOKEN"], runif := runif))]
  }

  function CreateBranchArgs(org: string, repo: string, targetBranch: string, sourceBranch: Option<string>, sha: Option<string>): seq<string>
  {
    ["--org", org, "--repo", repo, "--target_branch", targetBranch, "--token", "$GIT_TOKEN",
     "--output_file", "../" + ArtifactPath + "/" + CreateBranchFilename]
    + OptionArgs("--source_branch", sourceBranch) + OptionArgs("--sha", sha)
  }

  /** `generate_create_branch`. */
  function CreateBranch(
    token: string, org: string, repo: string, targetBranch: string, runif: RunIf := Passed,
    sourceBranch: Option<string> := None, sha: Option<string> := None): Effects
  {
    Effects(map[], map[], map["GIT_TOKEN" := token],
      TargetDirectory() + [AddOp(TubularTask("cut_branch.py", CreateBranchArgs(org, repo, targetBranch, sourceBranch, sha), runif := runif))])
  }

  /** `--source_branch` and `--sha` appear, in that order and after the fixed ten, iff their values are truthy. */
  lemma CreateBranchOptions(org: string, repo: string, targetBranch: string, sourceBranch: Option<string>, sha: Option<string>)
    ensures var a := CreateBranchArgs(org, repo, targetBranch, sourceBranch, sha);
      var s := if Truthy(sourceBranch) then 2 else 0;
      && |a| == 10 + s + (if Truthy(sha) then 2 else 0)
      && a[9] == "../target/branch.yml"
      && (Truthy(sourceBranch) ==> a[10..10 + s] == ["--source_branch", sourceBranch.value])
      && (Truthy(sha) ==> a[10 + s..] == ["--sha", sha.value])
  {
  }

  function CreatePr(
    org: string, repo: string, sourceBranch: string, targetBranch: string, title: string, body: string,
    runif: RunIf := Passed): seq<JobOp>
  {
    var output := ArtifactPath + "/" + CreateBranchPrFilename;
    [ ArtifactsOp({output}),
      AddOp(TubularTask("create_pr.py",
        ["--org", org, "--repo", repo, "--source_branch", sourceBranch, "--target_branch", targetBranch,
         "--title \"" + title + "\"", "--body \"" + body + "\"", "--token $GIT_TOKEN", "--output_file ../" + output],
        runif := runif)) ]
  }

  function MergeBranchArgs(org: string, repo: string, sourceBranch: string, targetBranch: string, fastForwardOnly: bool): seq<string>
  {
    ["--org", org, "--repo", repo, "--source_branch", sourceBranch, "--target_branch", targetBranch,
     "--output_file ../" + ArtifactPath + "/" + MergeBranchFilename]
    + (if fastForwardOnly then ["--fast_forward_only"] else [])
  }

  /** `generate_merge_branch`. */
  function MergeBranch(
    token: string, org: string, repo: string, sourceBranch: string, targetBranch: string,
    fastForwardOnly: bool, runif: RunIf := Passed): Effects
  {
    Effects(map[], map[], map["GIT_TOKEN" := token],
      [ ArtifactsOp({ArtifactPath + "/" + MergeBranchFilename}),
        AddOp(TubularTask("merge_branch.py", MergeBranchArgs(org, repo, sourceBranch, targetBranch, fastForwardOnly), runif := runif)) ])
  }

  /** The merge writes its output where it declares the artifact; `--fast_forward_only` is last iff requested. */
  lemma MergeBranchOutput(org: string, repo: string, sourceBranch: string, targetBranch: string, fastForwardOnly: bool)
    ensures var a := MergeBranchArgs(org, repo, sourceBranch, targetBranch, fastForwardOnly);
      && a[8] == "--output_file ../" + ArtifactPath + "/" + MergeBranchFilename
      && (fastForwardOnly <==> |a| == 10)
      && (fastForwardOnly ==> a[9] == "--fast_forward_only")
  {
  }

  /** The arguments shared by the pull-request scripts that read a PR file from `target`. */
  function PrFileArgs(org: string, repo: string, inputFile: string): seq<string>
  {
    ["--org", org, "--repo", repo, "--input_file ../" + ArtifactPath + "/" + inputFile, "--token $GIT_TOKEN"]
  }

  function MergePr(org: string, repo: string, inputFile: string, runif: RunIf := Passed): seq<JobOp>
  {
    [AddOp(TubularTask("merge_pr.py", PrFileArgs(org, repo, inputFile), runif := runif))]
  }

  function CheckPrTests(org: string, repo: string, inputFile: string, runif: RunIf := Passed): seq<JobOp>
  {
    [AddOp(TubularTask("check_pr_tests_status.py", PrFileArgs(org, repo, inputFile), runif := runif))]
  }

  function PollPrTests(org: string, repo: string, inputFile: string, runif: RunIf := Passed): seq<JobOp>
  {
    [AddOp(TubularTask("poll_pr_tests_status.py", PrFileArgs(org, repo, inputFile), runif := runif))]
  }

  /** `<flag> ../target/<file>` as one word if the file name is truthy. */
  function TargetFileArg(flag: string, file: Option<string>): seq<string>
  {
    if Truthy(file) then [flag + " ../" + ArtifactPath + "/" + file.value] else []
  }

  /** The options between the fixed arguments and the deploy artifact: sha, branch, tag name, tag message. */
  function TagOptions(commitSha: Option<string>, branchName: Option<string>, tagName: Option<string>, tagMessage: Option<string>): seq<string>
  {
    OptionArgs("--commit_sha", commitSha) + OptionArgs("--branch_name", branchName)
    + OptionArgs("--tag_name", tagName) + OptionArgs("--tag_message", tagMessage)
  }

  function TagCommitArgs(
    org: string, repo: string, inputFile: Option<string>, commitSha: Option<string>, branchName: Option<string>,
    deployArtifactFilename: Option<string>, tagName: Option<string>, tagMessage: Option<string>): seq<string>
  {
    TagCommitFront(org, repo, inputFile, commitSha, branchName, tagName, tagMessage)
    + TargetFileArg("--deploy_artifact", deployArtifactFilename)
  }

  /** `generate_tag_commit`. */
  function TagCommit(
    org: string, repo: string, inputFile: Option<string> := None, commitSha: Option<string> := None,
    branchName: Option<string> := None, deployArtifactFilename: Option<string> := None,
    tagName: Option<string> := None, tagMessage: Option<string> := None, runif: RunIf := Passed): seq<JobOp>
  {
    [AddOp(TubularTask("create_tag.py",
      TagCommitArgs(org, repo, inputFile, commitSha, branchName, deployArtifactFilename, tagName, tagMessage), runif := runif))]
  }

  /** Each of the four options takes two words iff its value is truthy. */
  lemma TagOptionsCount(commitSha: Option<string>, branchName: Option<string>, tagName: Option<string>, tagMessage: Option<string>)
    ensures |TagOptions(commitSha, branchName, tagName, tagMessage)|
      == 2 * (|IfTruthy(commitSha, 0)| + |IfTruthy(branchName, 0)| + |IfTruthy(tagName, 0)| + |IfTruthy(tagMessage, 0)|)
  {
  }

  /** The input-file and deploy-artifact words name files under `target`. */
  lemma TargetFileArgShape(flag: string, file: Option<string>)
    ensures |TargetFileArg(flag, file)| == |IfTruthy(file, 0)|
    ensures Truthy(file) ==> TargetFileArg(flag, file) == [flag + " ../target/" + file.value]
  {
    assert flag + " ../" + ArtifactPath + "/" == flag + " ../target/";
  }

  /** The tag command starts with the five fixed words, followed by one slot per option. */
  lemma TagCommitLayout(
    org: string, repo: string, inputFile: Option<string>, commitSha: Option<string>, branchName: Option<string>,
    deployArtifactFilename: Option<string>, tagName: Option<string>, tagMessage: Option<string>)
    ensures var a := TagCommitArgs(org, repo, inputFile, commitSha, branchName, deployArtifactFilename, tagName, tagMessage);
      && a[..5] == ["--org", org, "--repo", repo, "--token $GIT_TOKEN"]
      && |a| == 5 + |IfTruthy(inputFile, 0)| + |TagOptions(commitSha, branchName, tagName, tagMessage)| + |IfTruthy(deployArtifactFilename, 0)|
  {
    TargetFileArgShape("--input_file", inputFile);
    TargetFileArgShape("--deploy_artifact", deployArtifactFilename);
  }

  /**
   * The input file comes right after the fixed words iff truthy, and the
   * deploy artifact last iff truthy, each read from `target`.
   */
  lemma TagCommitFiles(
    org: string, repo: string, inputFile: Option<string>, commitSha: Option<string>, branchName: Option<string>,
    deployArtifactFilename: Option<string>, tagName: Option<string>, tagMessage: Option<string>)
    ensures var a := TagCommitArgs(org, repo, inputFile, commitSha, branchName, deployArtifactFilename, tagName, tagMessage);
      && (Truthy(inputFile) ==> a[5] == "--input_file ../target/" + inputFile.value)
      && (Truthy(deployArtifactFilename) ==> a[|a| - 1] == "--deploy_artifact ../target/" + deployArtifactFilename.value)
  {
    var front := TagCommitFront(org, repo, inputFile, commitSha, branchName, tagName, tagMessage);
    var d := TargetFileArg("--deploy_artifact", deployArtifactFilename);
    if Truthy(inputFile) {
      TagCommitInputFile(org, repo, inputFile, commitSha, branchName, tagName, tagMessage);
      assert (front + d)[5] == front[5];
    }
    if Truthy(deployArtifactFilename) {
      DeployArtifactWord(deployArtifactFilename.value);
      assert (front + d)[|front + d| - 1] == d[0];
    }
  }

  /** The words before the deploy artifact. */
  function TagCommitFront(
    org: string, repo: string, inputFile: Option<string>, commitSha: Option<string>, branchName: Option<string>,
    tagName: Option<string>, tagMessage: Option<string>): (r: seq<string>)
    ensures |r| >= 5
  {
    ["--org", org, "--repo", repo, "--token $GIT_TOKEN"]
    + TargetFileArg("--input_file", inputFile)
    + TagOptions(commitSha, branchName, tagName, tagMessage)
  }

  lemma TagCommitInputFile(
    org: string, repo: string, inputFile: Option<string>, commitSha: Option<string>, branchName: Option<string>,
    tagName: Option<string>, tagMessage: Option<string>)
    requires Truthy(inputFile)
    ensures TagCommitFront(org, repo, inputFile, commitSha, branchName, tagName, tagMessage)[5]
      == "--input_file ../target/" + inputFile.value
  {
    var head: seq<string> := ["--org", org, "--repo", repo, "--token $GIT_TOKEN"];
    var i := TargetFileArg("--input_file", inputFile);
    assert i == ["--input_file" + " ../" + ArtifactPath + "/" + inputFile.value];
    assert "--input_file" + " ../" + ArtifactPath + "/" == "--input_file ../target/";
    assert (head + i)[5] == i[0];
  }

  lemma DeployArtifactWord(file: string)
    requires file != ""
    ensures TargetFileArg("--deploy_artifact", Some(file)) == ["--deploy_artifact ../target/" + file]
  {
    assert "--deploy_artifact" + " ../" + ArtifactPath + "/" == "--deploy_artifact ../target/";
  }



  /** `trigger_jenkins_build`; `jenkinsParams` are the parameters as the dictionary yields them. */
  function TriggerJenkinsBuild(
    jenkinsUrl: string, jenkinsUserName: string, jenkinsJobName: string,
    jenkinsParams: seq<(string, string)>, timeout: int := 30 * 60): seq<JobOp>
  {
    [AddOp(TubularTask("jenkins_trigger_build.py",
      ["--url", jenkinsUrl, "--user_name", jenkinsUserName, "--job", jenkinsJobName,
       "--cause \"Triggered by GoCD Pipeline ${GO_PIPELINE_NAME} build ${GO_PIPELINE_LABEL}\"",
       "--timeout", Str(timeout)]
      + seq(|jenkinsParams|, i requires 0 <= i < |jenkinsParams| => "--param " + jenkinsParams[i].0 + " " + jenkinsParams[i].1)))]
  }

  // ---------------------------------------------------------------------
  // Pull-request messages (tasks.py:1382-1445)
  // ---------------------------------------------------------------------

  /** `flag_for_release_status`. */
  function StatusFlag(s: ReleaseStatus): string
  {
    match s
    case Staged => "release_stage"
    case Deployed => "release_prod"
    case RolledBack => "release_rollback"
  }

  /** `generate_message_pull_requests_in_commit_range`: the job operations, or the error it raises. */
  function MessagePrs(
    org: string, repo: string, token: string, headSha: string, releaseStatus: ReleaseStatus,
    runif: RunIf := Passed, baseSha: Option<string> := None,
    baseAmiArtifact: Option<Utils.ArtifactLocation> := None, amiTagApp: Option<string> := None): Result<seq<JobOp>, TaskError>
  {
    var both := baseAmiArtifact.Some? && Truthy(amiTagApp);
    if !both && (baseAmiArtifact.Some? || Truthy(amiTagApp)) then Err(ValueError)
    else
      var args := ["--org", org, "--token", token, "--repo", repo, "--head_sha", headSha, "--" + StatusFlag(releaseStatus)]
        + OptionArgs("--base_sha", baseSha)
        + (if both then ["--base_ami_tags", "../" + ArtifactPath + "/" + baseAmiArtifact.value.fileName,
                         "--ami_tag_app", amiTagApp.value] else []);
      var fetch := if both then RetrieveArtifact(baseAmiArtifact.value, ArtifactPath) else [];
      Ok(fetch + [AddOp(TubularTask("message_prs_in_range.py", args, runif := runif))])
  }

  /**
   * The builder raises iff exactly one of the base AMI artifact and the tag
   * app is given. Otherwise it adds one task (after retrieving the artifact
   * when both are given), whose command carries the flag of the status.
   */
  lemma MessagePrsErrors(
    org: string, repo: string, token: string, headSha: string, releaseStatus: ReleaseStatus,
    runif: RunIf, baseSha: Option<string>, baseAmiArtifact: Option<Utils.ArtifactLocation>, amiTagApp: Option<string>)
    ensures var r := MessagePrs(org, repo, token, headSha, releaseStatus, runif, baseSha, baseAmiArtifact, amiTagApp);
      && (r.Err? <==> baseAmiArtifact.Some? != Truthy(amiTagApp))
      && (r.Ok? ==> var ops := r.value;
           && ops[|ops| - 1].AddOp?
           && (baseAmiArtifact.Some? <==> |ops| == 3)
           && (baseAmiArtifact.Some? ==> ops[..2] == RetrieveArtifact(baseAmiArtifact.value, ArtifactPath)))
  {
  }

  // ---------------------------------------------------------------------
  // Release wiki page (tasks.py:1448-1526)
  // ---------------------------------------------------------------------

  /** Where an artifact is retrieved to: `target/<pipeline>`. */
  function ArtifactFolder(a: Utils.ArtifactLocation): string
  {
    ArtifactPath + "/" + a.pipeline
  }

  function FetchedPath(a: Utils.ArtifactLocation): string
  {
    ArtifactFolder(a) + "/" + a.fileName
  }

  /** The `--compare base new` group of one pair. */
  function CompareWords(p: (Utils.ArtifactLocation, Utils.ArtifactLocation)): (r: seq<string>)
    ensures |r| == 3
  {
    ["--compare", FetchedPath(p.0), FetchedPath(p.1)]
  }

  /** One `--compare` group per pair, in order. */
  function CompareArgs(pairs: seq<(Utils.ArtifactLocation, Utils.ArtifactLocation)>): seq<string>
  {
    FlatMap(pairs, CompareWords)
  }

  /** Retrieving an artifact into its own folder under `target`. */
  function RetrieveToFolder(a: Utils.ArtifactLocation): (ops: seq<JobOp>)
    ensures |ops| == 2
  {
    RetrieveArtifact(a, ArtifactFolder(a))
  }

  /** The retrievals of one pair, base before new. */
  function PairOps(p: (Utils.ArtifactLocation, Utils.ArtifactLocation)): (ops: seq<JobOp>)
    ensures |ops| == 4
  {
    RetrieveToFolder(p.0) + RetrieveToFolder(p.1)
  }

  /** The retrievals of each pair, in order. */
  function CompareOps(pairs: seq<(Utils.ArtifactLocation, Utils.ArtifactLocation)>): seq<JobOp>
  {
    FlatMap(pairs, PairOps)
  }

  /** The comparison loop of the builder, building the arguments and the retrievals together. */
  method Comparisons(pairs: seq<(Utils.ArtifactLocation, Utils.ArtifactLocation)>) returns (args: seq<string>, ops: seq<JobOp>)
    ensures args == CompareArgs(pairs) && ops == CompareOps(pairs)
  {
    args, ops := [], [];
    var k := 0;
    while k < |pairs|
      invariant 0 <= k <= |pairs|
      invariant args == CompareArgs(pairs[..k]) && ops == CompareOps(pairs[..k])
    {
      var (base, current) := pairs[k];
      var option := ["--compare"];
      option := option + [FetchedPath(base)];
      var fetched := RetrieveToFolder(base);
      option := option + [FetchedPath(current)];
      fetched := fetched + RetrieveToFolder(current);
      CompareStep(pairs, k);
      args, ops := args + option, ops + fetched;
      k := k + 1;
    }
    assert pairs[..k] == pairs;
  }

  /** One more pair adds its `--compare` group and its two retrievals. */
  lemma CompareStep(pairs: seq<(Utils.ArtifactLocation, Utils.ArtifactLocation)>, k: nat)
    requires k < |pairs|
    ensures CompareArgs(pairs[..k + 1]) == CompareArgs(pairs[..k]) + ["--compare", FetchedPath(pairs[k].0), FetchedPath(pairs[k].1)]
    ensures CompareOps(pairs[..k + 1]) == CompareOps(pairs[..k]) + (RetrieveToFolder(pairs[k].0) + RetrieveToFolder(pairs[k].1))
  {
    FlatMapSnoc(pairs, CompareWords, k);
    FlatMapSnoc(pairs, PairOps, k);
  }

  /** Three arguments per pair, in order: `--compare`, the base's fetched path, the new one's. */
  lemma CompareArgsShape(pairs: seq<(Utils.ArtifactLocation, Utils.ArtifactLocation)>)
    ensures |CompareArgs(pairs)| == 3 * |pairs|
    ensures forall i | 0 <= i < |pairs| ::
      CompareArgs(pairs)[3 * i..3 * i + 3] == ["--compare", FetchedPath(pairs[i].0), FetchedPath(pairs[i].1)]
  {
    FlatMapLength(pairs, CompareWords, 3);
    forall i | 0 <= i < |pairs|
      ensures CompareArgs(pairs)[3 * i..3 * i + 3] == ["--compare", FetchedPath(pairs[i].0), FetchedPath(pairs[i].1)]
    {
      FlatMapBlock(pairs, CompareWords, i);
      FlatMapLength(pairs[..i], CompareWords, 3);
      assert CompareArgs(pairs)[3 * i..3 * i + 3] == CompareWords(pairs[i]);
    }
  }

  /** Four operations per pair, in order: the base's retrieval, then the new one's. */
  lemma CompareOpsShape(pairs: seq<(Utils.ArtifactLocation, Utils.ArtifactLocation)>)
    ensures |CompareOps(pairs)| == 4 * |pairs|
    ensures forall i | 0 <= i < |pairs| ::
      CompareOps(pairs)[4 * i..4 * i + 4] == RetrieveToFolder(pairs[i].0) + RetrieveToFolder(pairs[i].1)
  {
    FlatMapLength(pairs, PairOps, 4);
    forall i | 0 <= i < |pairs|
      ensures CompareOps(pairs)[4 * i..4 * i + 4] == RetrieveToFolder(pairs[i].0) + RetrieveToFolder(pairs[i].1)
    {
      FlatMapBlock(pairs, PairOps, i);
      FlatMapLength(pairs[..i], PairOps, 4);
      assert CompareOps(pairs)[4 * i..4 * i + 4] == PairOps(pairs[i]);
    }
  }

  const WikiId := ArtifactPath + "/" + ReleaseWikiPageIdFilename

  /** The page arguments: the page to update, or where to create one. */
  function PageArgs(parentTitle: Option<string>, space: Option<string>, title: Option<string>, inputArtifact: Option<Utils.ArtifactLocation>): seq<string>
  {
    match inputArtifact
    case Some(a) => ["--in-file", FetchedPath(a)]
    case None => OptionArgs("--parent-title", parentTitle) + OptionArgs("--space", space) + OptionArgs("--title", title)
  }

  /** `generate_release_wiki_page`: its effects, or the error it raises. */
  function ReleaseWikiPage(
    confluenceUser: string, confluencePassword: string, githubToken: string, releaseStatus: ReleaseStatus,
    amiPairs: seq<(Utils.ArtifactLocation, Utils.ArtifactLocation)>, parentTitle: Option<string> := None,
    space: Option<string> := None, title: Option<string> := None,
    inputArtifact: Option<Utils.ArtifactLocation> := None): Result<Effects, TaskError>
  {
    if inputArtifact.Some? && (Truthy(parentTitle) || Truthy(space) || Truthy(title)) then Err(ValueError)
    else
      var args := ["--user", confluenceUser, "--password", "$CONFLUENCE_PASSWORD", "--github-token", "$GITHUB_TOKEN",
                   "--status", StatusValue(releaseStatus), "--out-file", WikiId]
        + PageArgs(parentTitle, space, title, inputArtifact) + CompareArgs(amiPairs);
      Ok(Effects(map[], map[], map["CONFLUENCE_PASSWORD" := confluencePassword, "GITHUB_TOKEN" := githubToken],
        WikiOps(amiPairs, inputArtifact) + [AddOp(TubularTask("update_release_page.py", args, workingDir := None))]))
  }

  /** The operations before the page update: declare the page-id file, retrieve the input page, retrieve the pairs. */
  function WikiOps(amiPairs: seq<(Utils.ArtifactLocation, Utils.ArtifactLocation)>, inputArtifact: Option<Utils.ArtifactLocation>): seq<JobOp>
  {
    [ArtifactsOp({WikiId})] + (match inputArtifact case None => [] case Some(a) => RetrieveToFolder(a)) + CompareOps(amiPairs)
  }

  /**
   * The input page and any of parent title, space or title exclude each
   * other; otherwise the page update is the last operation, run from the
   * working directory of the job, after the operations `WikiOps` lists.
   */
  lemma ReleaseWikiPageErrors(
    confluenceUser: string, confluencePassword: string, githubToken: string, releaseStatus: ReleaseStatus,
    amiPairs: seq<(Utils.ArtifactLocation, Utils.ArtifactLocation)>, parentTitle: Option<string>,
    space: Option<string>, title: Option<string>, inputArtifact: Option<Utils.ArtifactLocation>)
    ensures var r := ReleaseWikiPage(confluenceUser, confluencePassword, githubToken, releaseStatus, amiPairs,
        parentTitle, space, title, inputArtifact);
      && (r.Err? <==> inputArtifact.Some? && (Truthy(parentTitle) || Truthy(space) || Truthy(title)))
      && (r.Ok? ==> var ops := r.value.ops;
           && ops[..|ops| - 1] == WikiOps(amiPairs, inputArtifact)
           && ops[|ops| - 1].AddOp? && ops[|ops| - 1].task.workingDir.None?
           && r.value.secureVars.Keys == {"CONFLUENCE_PASSWORD", "GITHUB_TOKEN"})
  {
  }

  /** The page-id file is declared first, the input page retrieved next if any, then each pair base-then-new. */
  lemma WikiOpsLayout(amiPairs: seq<(Utils.ArtifactLocation, Utils.ArtifactLocation)>, inputArtifact: Option<Utils.ArtifactLocation>)
    ensures var ops := WikiOps(amiPairs, inputArtifact); var n := if inputArtifact.Some? then 2 else 0;
      && |ops| == 1 + n + 4 * |amiPairs|
      && ops[0] == ArtifactsOp({WikiId})
      && (inputArtifact.Some? ==> ops[1..3] == RetrieveToFolder(inputArtifact.value))
      && ops[1 + n..] == CompareOps(amiPairs)
  {
    CompareOpsShape(amiPairs);
  }

  // ---------------------------------------------------------------------
  // Base AMI selection (tasks.py:1529-1593)
  // ---------------------------------------------------------------------

  const BaseAmiOverrideArtifact := ArtifactPath + "/" + BaseAmiOverrideFilename

  /** The selection script, formatted. */
  const BaseAmiScript := Join([
    "            mkdir -p ../" + ArtifactPath + ";",
    "            if [[ $BASE_AMI_ID_OVERRIDE != 'yes' ]];",
    "                then echo \"Finding base AMI ID from active ELB/ASG in EDP.\";",
    "                retrieve_base_ami.py",
    "                    --environment $EDX_ENVIRONMENT",
    "                    --deployment $DEPLOYMENT",
    "                    --play $PLAY",
    "                    --out_file ../" + BaseAmiOverrideArtifact + ";",
    "            elif [[ -n $BASE_AMI_ID ]];",
    "                then echo \"Using specified base AMI ID of '$BASE_AMI_ID'\";",
    "                retrieve_base_ami.py --override $BASE_AMI_ID --out_file ../" + BaseAmiOverrideArtifact + ";",
    "            else echo \"Using environment base AMI ID\";",
    "                echo \"{}\" > ../" + BaseAmiOverrideArtifact + "; fi;",
    "        "], "\n")

  /** `generate_base_ami_selection`. */
  function BaseAmiSelection(
    awsAccessKeyId: string, awsSecretAccessKey: string, play: Option<string> := None,
    deployment: Option<string> := None, edxEnvironment: Option<string> := None,
    baseAmiId: Option<string> := None): Effects
  {
    Effects(
      map["PLAY" := play, "DEPLOYMENT" := deployment, "EDX_ENVIRONMENT" := edxEnvironment, "BASE_AMI_ID" := baseAmiId,
          "BASE_AMI_ID_OVERRIDE" := Some(if baseAmiId.Some? then "yes" else "no")],
      map["AWS_ACCESS_KEY_ID" := awsAccessKeyId, "AWS_SECRET_ACCESS_KEY" := awsSecretAccessKey],
      map[],
      [ArtifactsOp({BaseAmiOverrideArtifact}), AddOp(BashTask(BaseAmiScript, Some("tubular"), Passed))])
  }

  /** The override flag is `yes` iff a base AMI id is given, even an empty one; the override file is declared. */
  lemma BaseAmiOverrideFlag(
    awsAccessKeyId: string, awsSecretAccessKey: string, play: Option<string>, deployment: Option<string>,
    edxEnvironment: Option<string>, baseAmiId: Option<string>)
    ensures var e := BaseAmiSelection(awsAccessKeyId, awsSecretAccessKey, play, deployment, edxEnvironment, baseAmiId);
      && (e.envVars["BASE_AMI_ID_OVERRIDE"] == Some("yes") <==> baseAmiId.Some?)
      && e.envVars["BASE_AMI_ID"] == baseAmiId
      && e.ops[0] == ArtifactsOp({"target/ami_override.yml"})
  {
    assert BaseAmiOverrideArtifact == "target/ami_override.yml";
  }
}
