/**
 * An abstract model of the part of the external GoCD configuration library
 * (gomatic) that the pipeline builders use. A configuration is a list of
 * pipeline groups; a group holds pipelines; a pipeline holds ordered stages,
 * materials, a label template and three environment-variable maps; a stage
 * holds ordered jobs and a manual-approval flag; a job holds a task sequence,
 * an artifact set and environment variables.
 *
 * The stated assumptions about the library are:
 *  - every `ensure_*` returns the existing child with the same name, or
 *    appends a new one and returns that;
 *  - `add_task` always appends; `ensure_task` appends only if the task is
 *    not already present;
 *  - the `ensure_*environment_variables` calls add or overwrite entries.
 *
 * Stages and jobs are values inside a `Pipeline` object, and the builders
 * refer to them by index. Stages and jobs are only ever appended, so an
 * index stays valid for the life of the pipeline.
 */
module GoCD {
  import opened Wrappers

  /** When a task runs, relative to the outcome of the earlier tasks of its job. */
  datatype RunIf = Passed | Failed | Any

  /** The source of a fetch-artifact task: a single file or a directory. */
  datatype FetchSource = FetchFile(file: string) | FetchDir(dir: string)

  /**
   * A call into a builder whose own model is not invoked at that point (the
   * call site and the callee disagree, or the callee is not part of this
   * model): the callee's name and the arguments passed, rendered as strings.
   */
  datatype Call = Call(callee: string, args: seq<string>)

  datatype Task =
    | ExecTask(command: seq<string>, workingDir: Option<string>, runif: RunIf)
    | FetchTask(pipeline: string, stage: string, job: string, src: FetchSource, dest: string, runif: RunIf)
    | CallTask(call: Call)

  datatype Job = Job(
    name: string,
    tasks: seq<Task>,
    artifacts: set<string>,
    envVars: map<string, Option<string>>,
    secureVars: map<string, string>)

  datatype Stage = Stage(name: string, manualApproval: bool, jobs: seq<Job>, calls: seq<Call>)

  datatype Material =
    | ScmMaterial(url: string, materialName: Option<string>, dest: Option<string>)
    | PipelineMaterial(pipelineName: string, stageName: string, materialName: Option<string>)

  /** The element of a permission kind under a group's `authorization` element. */
  datatype XmlChild = XmlChild(tag: string, text: string)
  datatype PermissionElement = PermissionElement(tag: string, children: seq<XmlChild>)

  function EmptyJob(name: string): Job
  {
    Job(name, [], {}, map[], map[])
  }

  function EmptyStage(name: string): Stage
  {
    Stage(name, false, [], [])
  }

  /** The index of the first occurrence of `n` in `names`, if any. */
  function IndexOf(names: seq<string>, n: string): (r: Option<nat>)
    ensures r.Some? ==> r.value < |names| && names[r.value] == n
    ensures r.Some? ==> forall i :: 0 <= i < r.value ==> names[i] != n
    ensures r.None? <==> n !in names
  {
    if |names| == 0 then None
    else if names[0] == n then Some(0)
    else match IndexOf(names[1..], n)
      case None => None
      case Some(i) => Some(i + 1)
  }

  predicate Distinct(names: seq<string>)
  {
    forall i, j :: 0 <= i < j < |names| ==> names[i] != names[j]
  }

  /** The names of a list of named things (stages, jobs, pipelines, groups), in order. */
  function Names<T>(xs: seq<T>, nameOf: T -> string): (r: seq<string>)
    ensures |r| == |xs| && forall i :: 0 <= i < |xs| ==> r[i] == nameOf(xs[i])
  {
    seq(|xs|, i requires 0 <= i < |xs| => nameOf(xs[i]))
  }

  /** The elements of `xs` whose name is not `n`, in order: what removing everything named `n` leaves. */
  function WithoutNamed<T>(xs: seq<T>, n: string, nameOf: T -> string): (r: seq<T>)
    ensures forall i :: 0 <= i < |r| ==> r[i] in xs && nameOf(r[i]) != n
    ensures forall i :: 0 <= i < |xs| && nameOf(xs[i]) != n ==> xs[i] in r
  {
    if |xs| == 0 then []
    else (if nameOf(xs[0]) == n then [] else [xs[0]]) + WithoutNamed(xs[1..], n, nameOf)
  }

  function StageName(s: Stage): string { s.name }
  function JobName(j: Job): string { j.name }

  function StageNames(stages: seq<Stage>): seq<string>
  {
    Names(stages, StageName)
  }

  function JobNames(jobs: seq<Job>): seq<string>
  {
    Names(jobs, JobName)
  }

  /** The structural invariant: stage names are unique in a pipeline, job names in a stage. */
  predicate WellFormed(stages: seq<Stage>)
  {
    Distinct(StageNames(stages)) &&
    forall i :: 0 <= i < |stages| ==> Distinct(JobNames(stages[i].jobs))
  }

  /** `ensure_stage`: the existing stage of that name, or a new one appended. */
  function EnsureStageIn(stages: seq<Stage>, name: string): (r: (seq<Stage>, nat))
    ensures r.1 < |r.0| && r.0[r.1].name == name
  {
    match IndexOf(StageNames(stages), name)
    case Some(i) => (stages, i)
    case None => (stages + [EmptyStage(name)], |stages|)
  }

  /** `ensure_job` inside one stage. */
  function EnsureJobIn(stage: Stage, name: string): (r: (Stage, nat))
    ensures r.1 < |r.0.jobs| && r.0.jobs[r.1].name == name
  {
    match IndexOf(JobNames(stage.jobs), name)
    case Some(i) => (stage, i)
    case None => (stage.(jobs := stage.jobs + [EmptyJob(name)]), |stage.jobs|)
  }

  /** `ensure_task`: append unless an equal task is already present. */
  function EnsureTaskIn(tasks: seq<Task>, t: Task): (r: seq<Task>)
  {
    if t in tasks then tasks else tasks + [t]
  }

  /** `ensure_material`: append unless an equal material is already present. */
  function EnsureMaterialIn(materials: seq<Material>, m: Material): (r: seq<Material>)
  {
    if m in materials then materials else materials + [m]
  }

  /** The stage list with job `ji` of stage `si` replaced by `j`. */
  function WithJob(stages: seq<Stage>, si: nat, ji: nat, j: Job): (r: seq<Stage>)
    requires si < |stages| && ji < |stages[si].jobs|
  {
    stages[si := stages[si].(jobs := stages[si].jobs[ji := j])]
  }

  lemma {:induction false} EnsureStageInKeepsOthers(stages: seq<Stage>, name: string)
    ensures var (r, i) := EnsureStageIn(stages, name);
      |stages| <= |r| && r[..|stages|] == stages &&
      (name in StageNames(stages) ==> r == stages) &&
      (name !in StageNames(stages) ==> r == stages + [EmptyStage(name)] && i == |stages|)
  {
  }

  /**
   * `ensure_stage` keeps the names unique, returns the unique stage of that
   * name, and a second call with the same name changes nothing.
   */
  lemma {:induction false} EnsureStageInProperties(stages: seq<Stage>, name: string)
    requires WellFormed(stages)
    ensures var (r, i) := EnsureStageIn(stages, name);
      WellFormed(r) &&
      (forall k :: 0 <= k < |r| && r[k].name == name ==> k == i) &&
      EnsureStageIn(r, name) == (r, i)
  {
    var (r, i) := EnsureStageIn(stages, name);
    if name !in StageNames(stages) {
      assert StageNames(r) == StageNames(stages) + [name];
      assert forall k :: 0 <= k < |r| - 1 ==> r[k] == stages[k];
    }
  }

  /** The same three facts for `ensure_job`. */
  lemma {:induction false} EnsureJobInProperties(stage: Stage, name: string)
    requires Distinct(JobNames(stage.jobs))
    ensures var (s, i) := EnsureJobIn(stage, name);
      Distinct(JobNames(s.jobs)) && s.name == stage.name && s.manualApproval == stage.manualApproval &&
      s.calls == stage.calls && s.jobs[..|stage.jobs|] == stage.jobs &&
      (forall k :: 0 <= k < |s.jobs| && s.jobs[k].name == name ==> k == i) &&
      EnsureJobIn(s, name) == (s, i)
  {
    var (s, i) := EnsureJobIn(stage, name);
    if name !in JobNames(stage.jobs) {
      assert JobNames(s.jobs) == JobNames(stage.jobs) + [name];
    }
  }

  /** `ensure_task` is idempotent and never removes a task. */
  lemma EnsureTaskInIdempotent(tasks: seq<Task>, t: Task)
    ensures t in EnsureTaskIn(tasks, t)
    ensures EnsureTaskIn(EnsureTaskIn(tasks, t), t) == EnsureTaskIn(tasks, t)
    ensures EnsureTaskIn(tasks, t)[..|tasks|] == tasks
  {
  }

  /** Replacing the same job twice keeps only the second replacement. */
  lemma WithJobTwice(orig: seq<Stage>, si: nat, ji: nat, a: Job, b: Job)
    requires si < |orig| && ji < |orig[si].jobs|
    ensures WithJob(WithJob(orig, si, ji, a), si, ji, b) == WithJob(orig, si, ji, b)
  {
    assert orig[si].jobs[ji := a][ji := b] == orig[si].jobs[ji := b];
  }

  /** Replacing one job's contents keeps names, and so the structural invariant. */
  lemma WithJobWellFormed(stages: seq<Stage>, si: nat, ji: nat, j: Job)
    requires si < |stages| && ji < |stages[si].jobs|
    requires WellFormed(stages) && j.name == stages[si].jobs[ji].name
    ensures WellFormed(WithJob(stages, si, ji, j))
  {
    var r := WithJob(stages, si, ji, j);
    assert StageNames(r) == StageNames(stages);
    assert JobNames(r[si].jobs) == JobNames(stages[si].jobs);
  }

  /**
   * One change a task builder makes to a job: `add_task`, `ensure_task`,
   * `ensure_artifacts`, or adding environment variables (plain or
   * unencrypted-secure) to the job.
   */
  datatype JobOp =
    | AddOp(task: Task)
    | EnsureOp(task: Task)
    | ArtifactsOp(artifacts: set<string>)
    | EnvOp(vars: map<string, Option<string>>)
    | SecureOp(secure: map<string, string>)

  function ApplyOp(j: Job, op: JobOp): (r: Job)
    ensures r.name == j.name
  {
    match op
    case AddOp(t) => j.(tasks := j.tasks + [t])
    case EnsureOp(t) => j.(tasks := EnsureTaskIn(j.tasks, t))
    case ArtifactsOp(a) => j.(artifacts := j.artifacts + a)
    case EnvOp(m) => j.(envVars := j.envVars + m)
    case SecureOp(m) => j.(secureVars := j.secureVars + m)
  }

  /** The job after the operations `ops`, applied in order. */
  function ApplyOps(j: Job, ops: seq<JobOp>): (r: Job)
    ensures r.name == j.name
  {
    if |ops| == 0 then j else ApplyOp(ApplyOps(j, ops[..|ops| - 1]), ops[|ops| - 1])
  }

  /** Applying two lists of operations is applying their concatenation. */
  lemma {:induction false} ApplyOpsAppend(j: Job, a: seq<JobOp>, b: seq<JobOp>)
    ensures ApplyOps(j, a + b) == ApplyOps(ApplyOps(j, a), b)
    decreases |b|
  {
    if |b| == 0 {
      assert a + b == a;
    } else {
      assert (a + b)[..|a + b| - 1] == a + b[..|b| - 1];
      ApplyOpsAppend(j, a, b[..|b| - 1]);
    }
  }

  /** Applying two operations is applying the first, then the second. */
  lemma ApplyOpsPair(j: Job, x: JobOp, y: JobOp)
    ensures ApplyOps(j, [x, y]) == ApplyOp(ApplyOp(j, x), y)
  {
    assert [x, y][..1] == [x];
    assert ApplyOps(j, [x]) == ApplyOp(j, x) by {
      assert [x][..0] == [];
    }
  }


  /** Operations never remove a task: the old task list is a prefix of the new one. */
  lemma {:induction false} ApplyOpsKeepsTasks(j: Job, ops: seq<JobOp>)
    ensures j.tasks <= ApplyOps(j, ops).tasks
    ensures j.artifacts <= ApplyOps(j, ops).artifacts
  {
    if |ops| > 0 {
      ApplyOpsKeepsTasks(j, ops[..|ops| - 1]);
    }
  }

  /** `op` has already had its effect on `j`: applying it again changes nothing. */
  predicate Absorbs(j: Job, op: JobOp)
  {
    match op
    case AddOp(_) => false
    case EnsureOp(t) => t in j.tasks
    case ArtifactsOp(a) => a <= j.artifacts
    case EnvOp(m) => forall k | k in m :: k in j.envVars && j.envVars[k] == m[k]
    case SecureOp(m) => forall k | k in m :: k in j.secureVars && j.secureVars[k] == m[k]
  }

  /** Two operations that never set the same variable to different values. */
  predicate Compatible(x: JobOp, y: JobOp)
  {
    (x.EnvOp? && y.EnvOp? ==> forall k | k in x.vars && k in y.vars :: x.vars[k] == y.vars[k]) &&
    (x.SecureOp? && y.SecureOp? ==> forall k | k in x.secure && k in y.secure :: x.secure[k] == y.secure[k])
  }

  /** Operations that can be repeated: only `ensure_*` and variable updates, none conflicting. */
  predicate Repeatable(ops: seq<JobOp>)
  {
    (forall i | 0 <= i < |ops| :: !ops[i].AddOp?) &&
    (forall i, k | 0 <= i < |ops| && 0 <= k < |ops| :: Compatible(ops[i], ops[k]))
  }

  lemma AbsorbedIsNoOp(j: Job, op: JobOp)
    requires Absorbs(j, op)
    ensures ApplyOp(j, op) == j
  {
    match op
    case EnvOp(m) =>
      assert j.envVars + m == j.envVars;
    case SecureOp(m) =>
      assert j.secureVars + m == j.secureVars;
    case _ =>
  }

  lemma AbsorbsAfter(j: Job, op: JobOp, other: JobOp)
    requires Absorbs(j, op) && Compatible(op, other)
    ensures Absorbs(ApplyOp(j, other), op)
  {
  }

  /** After `ops`, every operation of `ops` from index `from` on has had its effect. */
  lemma {:induction false} ApplyOpsAbsorbs(j: Job, ops: seq<JobOp>, i: nat)
    requires Repeatable(ops) && i < |ops|
    ensures Absorbs(ApplyOps(j, ops), ops[i])
    decreases |ops|
  {
    var init := ops[..|ops| - 1];
    if i == |ops| - 1 {
      var before := ApplyOps(j, init);
      match ops[i]
      case EnsureOp(t) =>
      case ArtifactsOp(a) =>
      case EnvOp(m) =>
        assert forall k | k in m :: (before.envVars + m)[k] == m[k];
      case SecureOp(m) =>
        assert forall k | k in m :: (before.secureVars + m)[k] == m[k];
    } else {
      assert Repeatable(init) by {
        assert forall x | 0 <= x < |init| :: init[x] == ops[x];
      }
      ApplyOpsAbsorbs(j, init, i);
      assert init[i] == ops[i];
      AbsorbsAfter(ApplyOps(j, init), ops[i], ops[|ops| - 1]);
    }
  }

  lemma {:induction false} AbsorbedOpsAreNoOps(r: Job, ops: seq<JobOp>)
    requires forall i | 0 <= i < |ops| :: Absorbs(r, ops[i])
    ensures ApplyOps(r, ops) == r
  {
    if |ops| > 0 {
      AbsorbedOpsAreNoOps(r, ops[..|ops| - 1]);
      AbsorbedIsNoOp(r, ops[|ops| - 1]);
    }
  }

  /**
   * Repeatable operations are idempotent: running them a second time
   * changes nothing, so a builder made only of `ensure_*` calls adds its
   * tasks once however often it is called.
   */
  lemma RepeatableIdempotent(j: Job, ops: seq<JobOp>)
    requires Repeatable(ops)
    ensures ApplyOps(ApplyOps(j, ops), ops) == ApplyOps(j, ops)
  {
    forall i | 0 <= i < |ops|
      ensures Absorbs(ApplyOps(j, ops), ops[i])
    {
      ApplyOpsAbsorbs(j, ops, i);
    }
    AbsorbedOpsAreNoOps(ApplyOps(j, ops), ops);
  }

  /**
   * Everything one task builder changes: the environment variables it
   * ensures on the job's pipeline (plain, encrypted and unencrypted-secure)
   * and the operations it performs on the job, in order.
   */
  datatype Effects = Effects(
    envVars: map<string, Option<string>>,
    encryptedVars: map<string, string>,
    secureVars: map<string, string>,
    ops: seq<JobOp>)

  /** The effects of a builder that only changes its job. */
  function JobOnly(ops: seq<JobOp>): Effects
  {
    Effects(map[], map[], map[], ops)
  }

  /** Running `a` and then `b`: later variables win, operations run in order. */
  function Then(a: Effects, b: Effects): Effects
  {
    Effects(a.envVars + b.envVars, a.encryptedVars + b.encryptedVars, a.secureVars + b.secureVars, a.ops + b.ops)
  }

  /** Running the builders `es` one after the other. */
  function Combine(es: seq<Effects>): (r: Effects)
  {
    if |es| == 0 then JobOnly([]) else Then(Combine(es[..|es| - 1]), es[|es| - 1])
  }

  lemma CombineOne(e: Effects)
    ensures Combine([e]).ops == e.ops
  {
    assert [e][..0] == [];
  }

  lemma MapUnionAssoc<K, V>(a: map<K, V>, b: map<K, V>, c: map<K, V>)
    ensures a + b + c == a + (b + c)
  {
  }

  /**
   * A pipeline. Its name is fixed when it is created; everything else is
   * updated in place by the builders.
   */
  class Pipeline {
    const name: string
    var stages: seq<Stage>
    var materials: seq<Material>
    var labelTemplate: Option<string>
    var envVars: map<string, Option<string>>
    var encryptedVars: map<string, string>
    var secureVars: map<string, string>

    ghost predicate Valid()
      reads this
    {
      WellFormed(stages)
    }

    /** Job `ji` of stage `si`. */
    ghost function JobAt(si: nat, ji: nat): Job
      reads this
      requires si < |stages| && ji < |stages[si].jobs|
    {
      stages[si].jobs[ji]
    }

    ghost predicate HasJob(si: nat, ji: nat)
      reads this
    {
      si < |stages| && ji < |stages[si].jobs|
    }

    constructor(name: string)
      ensures this.name == name && stages == [] && materials == [] && labelTemplate == None
      ensures envVars == map[] && encryptedVars == map[] && secureVars == map[]
      ensures Valid()
    {
      this.name := name;
      stages := [];
      materials := [];
      labelTemplate := None;
      envVars := map[];
      encryptedVars := map[];
      secureVars := map[];
    }

    method EnsureStage(stageName: string) returns (si: nat)
      requires Valid()
      modifies this`stages
      ensures Valid()
      ensures (stages, si) == EnsureStageIn(old(stages), stageName)
      ensures si < |stages| && stages[si].name == stageName
      ensures |old(stages)| <= |stages| && stages[..|old(stages)|] == old(stages)
    {
      EnsureStageInProperties(stages, stageName);
      EnsureStageInKeepsOthers(stages, stageName);
      var r := EnsureStageIn(stages, stageName);
      stages, si := r.0, r.1;
    }

    /** `set_has_manual_approval`. */
    method SetHasManualApproval(si: nat)
      requires Valid() && si < |stages|
      modifies this`stages
      ensures Valid()
      ensures stages == old(stages)[si := old(stages)[si].(manualApproval := true)]
    {
      stages := stages[si := stages[si].(manualApproval := true)];
      assert StageNames(stages) == StageNames(old(stages));
    }

    method EnsureJob(si: nat, jobName: string) returns (ji: nat)
      requires Valid() && si < |stages|
      modifies this`stages
      ensures Valid()
      ensures var (s, i) := EnsureJobIn(old(stages)[si], jobName); stages == old(stages)[si := s] && ji == i
      ensures ji < |stages[si].jobs| && stages[si].jobs[ji].name == jobName
    {
      EnsureJobInProperties(stages[si], jobName);
      var (s, i) := EnsureJobIn(stages[si], jobName);
      stages := stages[si := s];
      ji := i;
      assert StageNames(stages) == StageNames(old(stages));
    }

    /** Applies `ops` to job `ji` of stage `si`, one operation at a time. */
    method Apply(si: nat, ji: nat, ops: seq<JobOp>)
      requires Valid() && HasJob(si, ji)
      modifies this`stages
      ensures Valid() && HasJob(si, ji)
      ensures stages == WithJob(old(stages), si, ji, ApplyOps(old(JobAt(si, ji)), ops))
    {
      ghost var j0 := JobAt(si, ji);
      assert stages == WithJob(old(stages), si, ji, j0) by {
        assert stages[si].jobs[ji := j0] == stages[si].jobs;
      }
      var k := 0;
      while k < |ops|
        invariant 0 <= k <= |ops|
        invariant Valid() && HasJob(si, ji)
        invariant stages == WithJob(old(stages), si, ji, ApplyOps(j0, ops[..k]))
      {
        ghost var done := ApplyOps(j0, ops[..k]);
        assert ops[..k + 1][..k] == ops[..k];
        match ops[k] {
          case AddOp(t) => AddTask(si, ji, t);
          case EnsureOp(t) => EnsureTask(si, ji, t);
          case ArtifactsOp(a) => EnsureArtifacts(si, ji, a);
          case EnvOp(m) => EnsureJobEnvVars(si, ji, m);
          case SecureOp(m) => EnsureJobSecureVars(si, ji, m);
        }
        WithJobTwice(old(stages), si, ji, done, ApplyOp(done, ops[k]));
        k := k + 1;
      }
      assert ops[..k] == ops;
    }

    /** Runs one task builder against job `ji` of stage `si`. */
    method Run(si: nat, ji: nat, e: Effects)
      requires Valid() && HasJob(si, ji)
      modifies this`stages, this`envVars, this`encryptedVars, this`secureVars
      ensures Valid() && HasJob(si, ji)
      ensures envVars == old(envVars) + e.envVars
      ensures encryptedVars == old(encryptedVars) + e.encryptedVars
      ensures secureVars == old(secureVars) + e.secureVars
      ensures stages == WithJob(old(stages), si, ji, ApplyOps(old(JobAt(si, ji)), e.ops))
    {
      EnsureEncryptedEnvVars(e.encryptedVars);
      EnsureEnvVars(e.envVars);
      EnsureUnencryptedSecureEnvVars(e.secureVars);
      Apply(si, ji, e.ops);
    }

    /** Runs the task builders `es`, in order, against job `ji` of stage `si`. */
    method RunAll(si: nat, ji: nat, es: seq<Effects>)
      requires Valid() && HasJob(si, ji)
      modifies this`stages, this`envVars, this`encryptedVars, this`secureVars
      ensures Valid() && HasJob(si, ji)
      ensures envVars == old(envVars) + Combine(es).envVars
      ensures encryptedVars == old(encryptedVars) + Combine(es).encryptedVars
      ensures secureVars == old(secureVars) + Combine(es).secureVars
      ensures stages == WithJob(old(stages), si, ji, ApplyOps(old(JobAt(si, ji)), Combine(es).ops))
    {
      var k := 0;
      assert es[..0] == [];
      assert stages[si].jobs[ji := JobAt(si, ji)] == stages[si].jobs;
      assert stages[si := stages[si]] == stages;
      while k < |es|
        invariant 0 <= k <= |es| && Valid() && HasJob(si, ji)
        invariant envVars == old(envVars) + Combine(es[..k]).envVars
        invariant encryptedVars == old(encryptedVars) + Combine(es[..k]).encryptedVars
        invariant secureVars == old(secureVars) + Combine(es[..k]).secureVars
        invariant stages == WithJob(old(stages), si, ji, ApplyOps(old(JobAt(si, ji)), Combine(es[..k]).ops))
      {
        ghost var before := Combine(es[..k]);
        Run(si, ji, es[k]);
        assert es[..k + 1][..k] == es[..k];
        MapUnionAssoc(old(envVars), before.envVars, es[k].envVars);
        MapUnionAssoc(old(encryptedVars), before.encryptedVars, es[k].encryptedVars);
        MapUnionAssoc(old(secureVars), before.secureVars, es[k].secureVars);
        ApplyOpsAppend(old(JobAt(si, ji)), before.ops, es[k].ops);
        WithJobTwice(old(stages), si, ji, ApplyOps(old(JobAt(si, ji)), before.ops),
          ApplyOps(old(JobAt(si, ji)), before.ops + es[k].ops));
        k := k + 1;
      }
      assert es[..k] == es;
    }

    /** `add_task`: always appends. */
    method AddTask(si: nat, ji: nat, t: Task)
      requires Valid() && HasJob(si, ji)
      modifies this`stages
      ensures Valid() && HasJob(si, ji)
      ensures stages == WithJob(old(stages), si, ji, old(JobAt(si, ji)).(tasks := old(JobAt(si, ji)).tasks + [t]))
    {
      var j := stages[si].jobs[ji];
      WithJobWellFormed(stages, si, ji, j.(tasks := j.tasks + [t]));
      stages := WithJob(stages, si, ji, j.(tasks := j.tasks + [t]));
    }

    /** `ensure_task`: appends only if an equal task is not already there. */
    method EnsureTask(si: nat, ji: nat, t: Task)
      requires Valid() && HasJob(si, ji)
      modifies this`stages
      ensures Valid() && HasJob(si, ji)
      ensures stages == WithJob(old(stages), si, ji, old(JobAt(si, ji)).(tasks := EnsureTaskIn(old(JobAt(si, ji)).tasks, t)))
    {
      var j := stages[si].jobs[ji];
      WithJobWellFormed(stages, si, ji, j.(tasks := EnsureTaskIn(j.tasks, t)));
      stages := WithJob(stages, si, ji, j.(tasks := EnsureTaskIn(j.tasks, t)));
    }

    /** `ensure_artifacts`: adds build artifacts to the job's set. */
    method EnsureArtifacts(si: nat, ji: nat, artifacts: set<string>)
      requires Valid() && HasJob(si, ji)
      modifies this`stages
      ensures Valid() && HasJob(si, ji)
      ensures stages == WithJob(old(stages), si, ji, old(JobAt(si, ji)).(artifacts := old(JobAt(si, ji)).artifacts + artifacts))
    {
      var j := stages[si].jobs[ji];
      WithJobWellFormed(stages, si, ji, j.(artifacts := j.artifacts + artifacts));
      stages := WithJob(stages, si, ji, j.(artifacts := j.artifacts + artifacts));
    }

    /** A job's `ensure_environment_variables`: adds or overwrites entries. */
    method EnsureJobEnvVars(si: nat, ji: nat, vars: map<string, Option<string>>)
      requires Valid() && HasJob(si, ji)
      modifies this`stages
      ensures Valid() && HasJob(si, ji)
      ensures stages == WithJob(old(stages), si, ji, old(JobAt(si, ji)).(envVars := old(JobAt(si, ji)).envVars + vars))
    {
      var j := stages[si].jobs[ji];
      WithJobWellFormed(stages, si, ji, j.(envVars := j.envVars + vars));
      stages := WithJob(stages, si, ji, j.(envVars := j.envVars + vars));
    }

    /** A job's `ensure_unencrypted_secure_environment_variables`. */
    method EnsureJobSecureVars(si: nat, ji: nat, vars: map<string, string>)
      requires Valid() && HasJob(si, ji)
      modifies this`stages
      ensures Valid() && HasJob(si, ji)
      ensures stages == WithJob(old(stages), si, ji, old(JobAt(si, ji)).(secureVars := old(JobAt(si, ji)).secureVars + vars))
    {
      var j := stages[si].jobs[ji];
      WithJobWellFormed(stages, si, ji, j.(secureVars := j.secureVars + vars));
      stages := WithJob(stages, si, ji, j.(secureVars := j.secureVars + vars));
    }

    /** Records a call into a builder that adds jobs to stage `si`. */
    method AddStageCall(si: nat, c: Call)
      requires Valid() && si < |stages|
      modifies this`stages
      ensures Valid()
      ensures stages == old(stages)[si := old(stages)[si].(calls := old(stages)[si].calls + [c])]
    {
      stages := stages[si := stages[si].(calls := stages[si].calls + [c])];
      assert StageNames(stages) == StageNames(old(stages));
    }

    method EnsureEnvVars(vars: map<string, Option<string>>)
      modifies this`envVars
      ensures envVars == old(envVars) + vars
    {
      envVars := envVars + vars;
    }

    method EnsureEncryptedEnvVars(vars: map<string, string>)
      modifies this`encryptedVars
      ensures encryptedVars == old(encryptedVars) + vars
    {
      encryptedVars := encryptedVars + vars;
    }

    method EnsureUnencryptedSecureEnvVars(vars: map<string, string>)
      modifies this`secureVars
      ensures secureVars == old(secureVars) + vars
    {
      secureVars := secureVars + vars;
    }

    method EnsureMaterial(m: Material)
      modifies this`materials
      ensures materials == EnsureMaterialIn(old(materials), m)
    {
      materials := EnsureMaterialIn(materials, m);
    }

    method SetLabelTemplate(t: string)
      modifies this`labelTemplate
      ensures labelTemplate == Some(t)
    {
      labelTemplate := Some(t);
    }
  }

  /** The pipelines of `ps` whose name is not `n`, in order. */
  function PipelineName(p: Pipeline): string { p.name }

  function WithoutPipeline(ps: seq<Pipeline>, n: string): seq<Pipeline>
  {
    WithoutNamed(ps, n, PipelineName)
  }

  class PipelineGroup {
    const name: string
    var pipelines: seq<Pipeline>
    /** The group's `authorization` child element, when it has one. */
    var authorization: Option<seq<PermissionElement>>

    constructor(name: string)
      ensures this.name == name && pipelines == [] && authorization == None
    {
      this.name := name;
      pipelines := [];
      authorization := None;
    }

    /** `ensure_replacement_of_pipeline`: drop any same-named pipeline, append a new empty one. */
    method EnsureReplacementOfPipeline(pipelineName: string) returns (p: Pipeline)
      modifies this`pipelines
      ensures fresh(p) && p.Valid()
      ensures p.name == pipelineName && p.stages == [] && p.materials == [] && p.labelTemplate == None
      ensures p.envVars == map[] && p.encryptedVars == map[] && p.secureVars == map[]
      ensures pipelines == WithoutPipeline(old(pipelines), pipelineName) + [p]
    {
      p := new Pipeline(pipelineName);
      pipelines := WithoutPipeline(pipelines, pipelineName) + [p];
    }
  }

  /** The groups of `gs` whose name is not `n`, in order. */
  function GroupName(g: PipelineGroup): string { g.name }

  function WithoutGroup(gs: seq<PipelineGroup>, n: string): seq<PipelineGroup>
  {
    WithoutNamed(gs, n, GroupName)
  }

  function GroupNames(gs: seq<PipelineGroup>): seq<string>
  {
    Names(gs, GroupName)
  }

  /** The whole configuration: its pipeline groups. */
  class Configurator {
    var groups: seq<PipelineGroup>

    constructor()
      ensures groups == []
    {
      groups := [];
    }

    method EnsureRemovalOfPipelineGroup(groupName: string)
      modifies this`groups
      ensures groups == WithoutGroup(old(groups), groupName)
    {
      groups := WithoutGroup(groups, groupName);
    }

    /** `ensure_pipeline_group`: the existing group of that name, or a new empty one appended. */
    method EnsurePipelineGroup(groupName: string) returns (g: PipelineGroup)
      modifies this`groups
      ensures g.name == groupName && g in groups
      ensures groupName !in GroupNames(old(groups)) ==>
        fresh(g) && g.pipelines == [] && g.authorization == None && groups == old(groups) + [g]
      ensures groupName in GroupNames(old(groups)) ==> groups == old(groups) && g == old(groups)[IndexOf(GroupNames(old(groups)), groupName).value]
    {
      match IndexOf(GroupNames(groups), groupName)
      case Some(i) =>
        g := groups[i];
      case None =>
        g := new PipelineGroup(groupName);
        groups := groups + [g];
    }
  }
}
