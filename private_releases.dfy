/**
 * The three private-release task builders: creating a private release
 * candidate, opening a private-to-public pull request, and pushing a public
 * branch to the private repository. Each sets the GitHub token as an
 * unencrypted secure variable of the job, ensures the `target` directory,
 * builds a `tubular` script's arguments (an optional reference checkout
 * last) and ensures the script task; two of them declare the script's
 * output file as a build artifact.
 */
module PrivateReleases {
  import opened Wrappers
  import opened GoCD
  import opened Constants
  import opened Tasks

  /** The git identity the release-candidate merge commits under. */
  const GitIdentity: map<string, Option<string>> := map[
    "GIT_AUTHOR_NAME" := Some("edx-pipeline-bot"),
    "GIT_AUTHOR_EMAIL" := Some("admin+edx-pipeline-bot@edx.org"),
    "GIT_COMMITTER_NAME" := Some("edx-pipeline-bot"),
    "GIT_COMMITTER_EMAIL" := Some("admin+edx-pipeline-bot@edx.org")]

  /** The job variable holding the GitHub token. */
  function TokenVar(gitToken: string): map<string, string>
  {
    map["GIT_TOKEN" := gitToken]
  }

  /** The `mkdir -p target` task every builder ensures first. */
  function MkdirTarget(): Task
  {
    TargetDirectory()[0].task
  }

  /** `['--flag', value]` when `value` is truthy, else nothing. */
  function ReferenceArgs(flag: string, value: Option<string>): (r: seq<string>)
    ensures Truthy(value) ==> r == [flag, value.value]
    ensures !Truthy(value) ==> r == []
  {
    if Truthy(value) then [flag, value.value] else []
  }

  // ---------------------------------------------------------------------
  // generate_create_private_release_candidate (private_releases.py:11-80)

  const ReleaseCandidateFile := ArtifactPath + "/" + PrivateRcFilename

  /** The output files, written out. */
  lemma OutputFiles()
    ensures ReleaseCandidateFile == "target/private_rc.yaml"
    ensures PrivatePublicPrFile == "target/priv_pub_pr.yml"
    ensures PublicPrivatePushFile == "target/pub_priv_push.yml"
  {
  }

  function ReleaseCandidateArgs(
    sourceRepo: (string, string), sourceBaseBranch: string, sourceBranch: string,
    targetRepo: (string, string), targetBaseBranch: string, targetBranch: string,
    targetReferenceRepo: Option<string>): seq<string>
  {
    [ "--token", "$GIT_TOKEN",
      "--target-repo", targetRepo.0, targetRepo.1,
      "--target-base-branch", targetBaseBranch,
      "--source-repo", sourceRepo.0, sourceRepo.1,
      "--source-base-branch", sourceBaseBranch,
      "--target-branch", targetBranch,
      "--source-branch", sourceBranch,
      "--out-file", ReleaseCandidateFile,
      "--sha-variable", "edx_platform_version",
      "--repo-variable", "edx_platform_repo" ]
    + ReferenceArgs("--target-reference-repo", targetReferenceRepo)
  }

  function ReleaseCandidateOps(
    gitToken: string, sourceRepo: (string, string), sourceBaseBranch: string, sourceBranch: string,
    targetRepo: (string, string), targetBaseBranch: string, targetBranch: string,
    targetReferenceRepo: Option<string>): seq<JobOp>
  {
    [SecureOp(TokenVar(gitToken)), EnvOp(GitIdentity), EnsureOp(MkdirTarget()),
     EnsureOp(ReleaseCandidateTask(sourceRepo, sourceBaseBranch, sourceBranch, targetRepo, targetBaseBranch, targetBranch, targetReferenceRepo)),
     ArtifactsOp({ReleaseCandidateFile})]
  }

  /** The script task of the release-candidate builder, run from the job's top directory. */
  function ReleaseCandidateTask(
    sourceRepo: (string, string), sourceBaseBranch: string, sourceBranch: string,
    targetRepo: (string, string), targetBaseBranch: string, targetBranch: string,
    targetReferenceRepo: Option<string>): Task
  {
    TubularTask("merge-approved-prs",
      ReleaseCandidateArgs(sourceRepo, sourceBaseBranch, sourceBranch, targetRepo, targetBaseBranch, targetBranch, targetReferenceRepo),
      workingDir := None)
  }

  /** `generate_create_private_release_candidate` on job `ji` of stage `si`. */
  method CreatePrivateReleaseCandidate(
    p: Pipeline, si: nat, ji: nat, gitToken: string, sourceRepo: (string, string), sourceBaseBranch: string,
    sourceBranch: string, targetRepo: (string, string), targetBaseBranch: string, targetBranch: string,
    targetReferenceRepo: Option<string> := None)
    requires p.Valid() && p.HasJob(si, ji)
    modifies p`stages
    ensures p.Valid() && p.HasJob(si, ji)
    ensures p.stages == WithJob(old(p.stages), si, ji, ApplyOps(old(p.JobAt(si, ji)),
      ReleaseCandidateOps(gitToken, sourceRepo, sourceBaseBranch, sourceBranch, targetRepo, targetBaseBranch, targetBranch, targetReferenceRepo)))
  {
    var args := [
      "--token", "$GIT_TOKEN",
      "--target-repo", targetRepo.0, targetRepo.1,
      "--target-base-branch", targetBaseBranch,
      "--source-repo", sourceRepo.0, sourceRepo.1,
      "--source-base-branch", sourceBaseBranch,
      "--target-branch", targetBranch,
      "--source-branch", sourceBranch,
      "--out-file", ReleaseCandidateFile,
      "--sha-variable", "edx_platform_version",
      "--repo-variable", "edx_platform_repo"];
    if Truthy(targetReferenceRepo) {
      args := args + ["--target-reference-repo", targetReferenceRepo.value];
    }
    assert args == ReleaseCandidateArgs(sourceRepo, sourceBaseBranch, sourceBranch, targetRepo, targetBaseBranch, targetBranch, targetReferenceRepo);
    p.Apply(si, ji, [SecureOp(TokenVar(gitToken)), EnvOp(GitIdentity), EnsureOp(MkdirTarget()),
                     EnsureOp(TubularTask("merge-approved-prs", args, workingDir := None)),
                     ArtifactsOp({ReleaseCandidateFile})]);
  }

  /**
   * The arguments: each repository tuple is split into an organisation and
   * a repository argument right after its flag; the script writes to the
   * declared artifact; the reference checkout is last, present iff given.
   */
  lemma ReleaseCandidateArgsLayout(
    sourceRepo: (string, string), sourceBaseBranch: string, sourceBranch: string,
    targetRepo: (string, string), targetBaseBranch: string, targetBranch: string,
    targetReferenceRepo: Option<string>)
    ensures var a := ReleaseCandidateArgs(sourceRepo, sourceBaseBranch, sourceBranch, targetRepo, targetBaseBranch, targetBranch, targetReferenceRepo);
      && |a| == 22 + (if Truthy(targetReferenceRepo) then 2 else 0)
      && a[2] == "--target-repo" && a[3] == targetRepo.0 && a[4] == targetRepo.1
      && a[7] == "--source-repo" && a[8] == sourceRepo.0 && a[9] == sourceRepo.1
      && a[16] == "--out-file" && a[17] == ReleaseCandidateFile
      && (Truthy(targetReferenceRepo) ==> a[22..] == ["--target-reference-repo", targetReferenceRepo.value])
  {
  }

  // ---------------------------------------------------------------------
  // generate_private_public_create_pr (private_releases.py:83-139)

  const PrivatePublicPrFile := ArtifactPath + "/" + PrivatePublicPrFilename

  function PrivatePublicPrArgs(
    privateRepo: (string, string), privateSourceBranch: string, publicRepo: (string, string),
    publicTargetBranch: string, privateReferenceRepo: Option<string>): seq<string>
  {
    [ "--token", "$GIT_TOKEN",
      "--private_org", privateRepo.0,
      "--private_repo", privateRepo.1,
      "--private_source_branch", privateSourceBranch,
      "--public_org", publicRepo.0,
      "--public_repo", publicRepo.1,
      "--public_source_branch", publicTargetBranch,
      "--output_file", PrivatePublicPrFile ]
    + ReferenceArgs("--reference_repo", privateReferenceRepo)
  }

  function PrivatePublicPrOps(
    gitToken: string, privateRepo: (string, string), privateSourceBranch: string, publicRepo: (string, string),
    publicTargetBranch: string, privateReferenceRepo: Option<string>): seq<JobOp>
  {
    [SecureOp(TokenVar(gitToken)), EnsureOp(MkdirTarget()),
     EnsureOp(PrivatePublicPrTask(privateRepo, privateSourceBranch, publicRepo, publicTargetBranch, privateReferenceRepo)),
     ArtifactsOp({PrivatePublicPrFile})]
  }

  function PrivatePublicPrTask(
    privateRepo: (string, string), privateSourceBranch: string, publicRepo: (string, string),
    publicTargetBranch: string, privateReferenceRepo: Option<string>): Task
  {
    TubularTask("create_private_to_public_pr.py",
      PrivatePublicPrArgs(privateRepo, privateSourceBranch, publicRepo, publicTargetBranch, privateReferenceRepo),
      workingDir := None)
  }

  /** `generate_private_public_create_pr` on job `ji` of stage `si`. */
  method PrivatePublicCreatePr(
    p: Pipeline, si: nat, ji: nat, gitToken: string, privateRepo: (string, string), privateSourceBranch: string,
    publicRepo: (string, string), publicTargetBranch: string, privateReferenceRepo: Option<string> := None)
    requires p.Valid() && p.HasJob(si, ji)
    modifies p`stages
    ensures p.Valid() && p.HasJob(si, ji)
    ensures p.stages == WithJob(old(p.stages), si, ji, ApplyOps(old(p.JobAt(si, ji)),
      PrivatePublicPrOps(gitToken, privateRepo, privateSourceBranch, publicRepo, publicTargetBranch, privateReferenceRepo)))
  {
    var args := [
      "--token", "$GIT_TOKEN",
      "--private_org", privateRepo.0,
      "--private_repo", privateRepo.1,
      "--private_source_branch", privateSourceBranch,
      "--public_org", publicRepo.0,
      "--public_repo", publicRepo.1,
      "--public_source_branch", publicTargetBranch,
      "--output_file", PrivatePublicPrFile];
    if Truthy(privateReferenceRepo) {
      args := args + ["--reference_repo", privateReferenceRepo.value];
    }
    assert args == PrivatePublicPrArgs(privateRepo, privateSourceBranch, publicRepo, publicTargetBranch, privateReferenceRepo);
    p.Apply(si, ji, [SecureOp(TokenVar(gitToken)), EnsureOp(MkdirTarget()),
                     EnsureOp(TubularTask("create_private_to_public_pr.py", args, workingDir := None)),
                     ArtifactsOp({PrivatePublicPrFile})]);
  }

  /** Each repository tuple becomes an organisation and a repository flag; the output file is the declared artifact. */
  lemma PrivatePublicPrArgsLayout(
    privateRepo: (string, string), privateSourceBranch: string, publicRepo: (string, string),
    publicTargetBranch: string, privateReferenceRepo: Option<string>)
    ensures var a := PrivatePublicPrArgs(privateRepo, privateSourceBranch, publicRepo, publicTargetBranch, privateReferenceRepo);
      && |a| == 16 + (if Truthy(privateReferenceRepo) then 2 else 0)
      && a[2] == "--private_org" && a[3] == privateRepo.0 && a[4] == "--private_repo" && a[5] == privateRepo.1
      && a[8] == "--public_org" && a[9] == publicRepo.0 && a[10] == "--public_repo" && a[11] == publicRepo.1
      && a[14] == "--output_file" && a[15] == PrivatePublicPrFile
      && (Truthy(privateReferenceRepo) ==> a[16..] == ["--reference_repo", privateReferenceRepo.value])
  {
  }

  // ---------------------------------------------------------------------
  // generate_public_private_merge (private_releases.py:142-196)

  const PublicPrivatePushFile := ArtifactPath + "/" + PublicPrivatePushFilename

  function PublicPrivateMergeArgs(
    privateRepo: (string, string), privateTargetBranch: string, publicRepo: (string, string),
    publicSourceBranch: string, publicReferenceRepo: Option<string>): seq<string>
  {
    [ "--token", "$GIT_TOKEN",
      "--private_org", privateRepo.0,
      "--private_repo", privateRepo.1,
      "--private_target_branch", privateTargetBranch,
      "--public_org", publicRepo.0,
      "--public_repo", publicRepo.1,
      "--public_source_branch", publicSourceBranch,
      "--output_file", PublicPrivatePushFile ]
    + ReferenceArgs("--reference_repo", publicReferenceRepo)
  }

  function PublicPrivateMergeOps(
    gitToken: string, privateRepo: (string, string), privateTargetBranch: string, publicRepo: (string, string),
    publicSourceBranch: string, publicReferenceRepo: Option<string>): seq<JobOp>
  {
    [SecureOp(TokenVar(gitToken)), EnsureOp(MkdirTarget()),
     EnsureOp(PublicPrivateMergeTask(privateRepo, privateTargetBranch, publicRepo, publicSourceBranch, publicReferenceRepo))]
  }

  function PublicPrivateMergeTask(
    privateRepo: (string, string), privateTargetBranch: string, publicRepo: (string, string),
    publicSourceBranch: string, publicReferenceRepo: Option<string>): Task
  {
    TubularTask("push_public_to_private.py",
      PublicPrivateMergeArgs(privateRepo, privateTargetBranch, publicRepo, publicSourceBranch, publicReferenceRepo),
      workingDir := None)
  }

  /** `generate_public_private_merge` on job `ji` of stage `si`. */
  method PublicPrivateMerge(
    p: Pipeline, si: nat, ji: nat, gitToken: string, privateRepo: (string, string), privateTargetBranch: string,
    publicRepo: (string, string), publicSourceBranch: string, publicReferenceRepo: Option<string> := None)
    requires p.Valid() && p.HasJob(si, ji)
    modifies p`stages
    ensures p.Valid() && p.HasJob(si, ji)
    ensures p.stages == WithJob(old(p.stages), si, ji, ApplyOps(old(p.JobAt(si, ji)),
      PublicPrivateMergeOps(gitToken, privateRepo, privateTargetBranch, publicRepo, publicSourceBranch, publicReferenceRepo)))
  {
    var args := [
      "--token", "$GIT_TOKEN",
      "--private_org", privateRepo.0,
      "--private_repo", privateRepo.1,
      "--private_target_branch", privateTargetBranch,
      "--public_org", publicRepo.0,
      "--public_repo", publicRepo.1,
      "--public_source_branch", publicSourceBranch,
      "--output_file", PublicPrivatePushFile];
    if Truthy(publicReferenceRepo) {
      args := args + ["--reference_repo", publicReferenceRepo.value];
    }
    assert args == PublicPrivateMergeArgs(privateRepo, privateTargetBranch, publicRepo, publicSourceBranch, publicReferenceRepo);
    p.Apply(si, ji, [SecureOp(TokenVar(gitToken)), EnsureOp(MkdirTarget()),
                     EnsureOp(TubularTask("push_public_to_private.py", args, workingDir := None))]);
  }

  lemma PublicPrivateMergeArgsLayout(
    privateRepo: (string, string), privateTargetBranch: string, publicRepo: (string, string),
    publicSourceBranch: string, publicReferenceRepo: Option<string>)
    ensures var a := PublicPrivateMergeArgs(privateRepo, privateTargetBranch, publicRepo, publicSourceBranch, publicReferenceRepo);
      && |a| == 16 + (if Truthy(publicReferenceRepo) then 2 else 0)
      && a[2] == "--private_org" && a[3] == privateRepo.0 && a[4] == "--private_repo" && a[5] == privateRepo.1
      && a[8] == "--public_org" && a[9] == publicRepo.0 && a[10] == "--public_repo" && a[11] == publicRepo.1
      && a[14] == "--output_file" && a[15] == PublicPrivatePushFile
      && (Truthy(publicReferenceRepo) ==> a[16..] == ["--reference_repo", publicReferenceRepo.value])
  {
  }

  // ---------------------------------------------------------------------
  // What the builders do to the job

  /**
   * The job after the release-candidate builder: the token is added to its
   * secure variables and the git identity to its variables, the `mkdir`
   * task and then the script task are ensured, the output file is declared
   * as an artifact, and nothing else changes.
   */
  lemma ReleaseCandidateJob(
    j: Job, gitToken: string, sourceRepo: (string, string), sourceBaseBranch: string, sourceBranch: string,
    targetRepo: (string, string), targetBaseBranch: string, targetBranch: string, targetReferenceRepo: Option<string>)
    ensures ApplyOps(j, ReleaseCandidateOps(gitToken, sourceRepo, sourceBaseBranch, sourceBranch, targetRepo, targetBaseBranch, targetBranch, targetReferenceRepo))
      == j.(secureVars := j.secureVars + map["GIT_TOKEN" := gitToken],
            envVars := j.envVars + GitIdentity,
            tasks := EnsureTaskIn(EnsureTaskIn(j.tasks, MkdirTarget()),
                       ReleaseCandidateTask(sourceRepo, sourceBaseBranch, sourceBranch, targetRepo, targetBaseBranch, targetBranch, targetReferenceRepo)),
            artifacts := j.artifacts + {ReleaseCandidateFile})
  {
    var t := ReleaseCandidateTask(sourceRepo, sourceBaseBranch, sourceBranch, targetRepo, targetBaseBranch, targetBranch, targetReferenceRepo);
    ApplyFive(j, TokenVar(gitToken), GitIdentity, MkdirTarget(), t, {ReleaseCandidateFile});
  }

  /** The private-to-public builder: token, `mkdir`, script task and artifact; nothing else changes. */
  lemma PrivatePublicPrJob(
    j: Job, gitToken: string, privateRepo: (string, string), privateSourceBranch: string,
    publicRepo: (string, string), publicTargetBranch: string, privateReferenceRepo: Option<string>)
    ensures ApplyOps(j, PrivatePublicPrOps(gitToken, privateRepo, privateSourceBranch, publicRepo, publicTargetBranch, privateReferenceRepo))
      == j.(secureVars := j.secureVars + map["GIT_TOKEN" := gitToken],
            tasks := EnsureTaskIn(EnsureTaskIn(j.tasks, MkdirTarget()),
                       PrivatePublicPrTask(privateRepo, privateSourceBranch, publicRepo, publicTargetBranch, privateReferenceRepo)),
            artifacts := j.artifacts + {PrivatePublicPrFile})
  {
    var t := PrivatePublicPrTask(privateRepo, privateSourceBranch, publicRepo, publicTargetBranch, privateReferenceRepo);
    ApplyFour(j, TokenVar(gitToken), MkdirTarget(), t, {PrivatePublicPrFile});
  }

  /**
   * The public-to-private builder: token, `mkdir` and script task; its
   * output file is not declared, so the artifacts are unchanged.
   */
  lemma PublicPrivateMergeJob(
    j: Job, gitToken: string, privateRepo: (string, string), privateTargetBranch: string,
    publicRepo: (string, string), publicSourceBranch: string, publicReferenceRepo: Option<string>)
    ensures ApplyOps(j, PublicPrivateMergeOps(gitToken, privateRepo, privateTargetBranch, publicRepo, publicSourceBranch, publicReferenceRepo))
      == j.(secureVars := j.secureVars + map["GIT_TOKEN" := gitToken],
            tasks := EnsureTaskIn(EnsureTaskIn(j.tasks, MkdirTarget()),
                       PublicPrivateMergeTask(privateRepo, privateTargetBranch, publicRepo, publicSourceBranch, publicReferenceRepo)))
  {
    var t := PublicPrivateMergeTask(privateRepo, privateTargetBranch, publicRepo, publicSourceBranch, publicReferenceRepo);
    ApplyThree(j, TokenVar(gitToken), MkdirTarget(), t);
  }

  lemma ApplyFive(j: Job, secure: map<string, string>, env: map<string, Option<string>>, t1: Task, t2: Task, a: set<string>)
    ensures ApplyOps(j, [SecureOp(secure), EnvOp(env), EnsureOp(t1), EnsureOp(t2), ArtifactsOp(a)])
         == j.(secureVars := j.secureVars + secure, envVars := j.envVars + env,
               tasks := EnsureTaskIn(EnsureTaskIn(j.tasks, t1), t2), artifacts := j.artifacts + a)
  {
    var x, y, z := [SecureOp(secure), EnvOp(env)], [EnsureOp(t1), EnsureOp(t2)], [ArtifactsOp(a)];
    assert [SecureOp(secure), EnvOp(env), EnsureOp(t1), EnsureOp(t2), ArtifactsOp(a)] == (x + y) + z;
    ApplyOpsAppend(j, x + y, z);
    ApplyOpsAppend(j, x, y);
    ApplyOpsPair(j, x[0], x[1]);
    ApplyOpsPair(ApplyOps(j, x), y[0], y[1]);
    assert z[..0] == [];
  }

  lemma ApplyFour(j: Job, secure: map<string, string>, t1: Task, t2: Task, a: set<string>)
    ensures ApplyOps(j, [SecureOp(secure), EnsureOp(t1), EnsureOp(t2), ArtifactsOp(a)])
         == j.(secureVars := j.secureVars + secure, tasks := EnsureTaskIn(EnsureTaskIn(j.tasks, t1), t2),
               artifacts := j.artifacts + a)
  {
    var x, y := [SecureOp(secure), EnsureOp(t1)], [EnsureOp(t2), ArtifactsOp(a)];
    assert [SecureOp(secure), EnsureOp(t1), EnsureOp(t2), ArtifactsOp(a)] == x + y;
    ApplyOpsAppend(j, x, y);
    ApplyOpsPair(j, x[0], x[1]);
    ApplyOpsPair(ApplyOps(j, x), y[0], y[1]);
  }

  lemma ApplyThree(j: Job, secure: map<string, string>, t1: Task, t2: Task)
    ensures ApplyOps(j, [SecureOp(secure), EnsureOp(t1), EnsureOp(t2)])
         == j.(secureVars := j.secureVars + secure, tasks := EnsureTaskIn(EnsureTaskIn(j.tasks, t1), t2))
  {
    var x, y := [SecureOp(secure), EnsureOp(t1)], [EnsureOp(t2)];
    assert [SecureOp(secure), EnsureOp(t1), EnsureOp(t2)] == x + y;
    ApplyOpsAppend(j, x, y);
    ApplyOpsPair(j, x[0], x[1]);
    assert y[..0] == [];
  }

  /** Every operation of the three builders is an `ensure_*` or a variable update, and no two conflict. */
  lemma BuildersRepeatable(
    gitToken: string, r1: (string, string), r2: (string, string), b1: string, b2: string, b3: string, b4: string,
    reference: Option<string>)
    ensures Repeatable(ReleaseCandidateOps(gitToken, r1, b1, b2, r2, b3, b4, reference))
    ensures Repeatable(PrivatePublicPrOps(gitToken, r1, b1, r2, b2, reference))
    ensures Repeatable(PublicPrivateMergeOps(gitToken, r1, b1, r2, b2, reference))
  {
    RepeatableShape([SecureOp(TokenVar(gitToken)), EnvOp(GitIdentity), EnsureOp(MkdirTarget()),
      EnsureOp(ReleaseCandidateTask(r1, b1, b2, r2, b3, b4, reference)), ArtifactsOp({ReleaseCandidateFile})]);
    RepeatableShape([SecureOp(TokenVar(gitToken)), EnsureOp(MkdirTarget()),
      EnsureOp(PrivatePublicPrTask(r1, b1, r2, b2, reference)), ArtifactsOp({PrivatePublicPrFile})]);
    RepeatableShape([SecureOp(TokenVar(gitToken)), EnsureOp(MkdirTarget()),
      EnsureOp(PublicPrivateMergeTask(r1, b1, r2, b2, reference))]);
  }

  /** Operations with no `add_task` and at most one update of each variable kind can be repeated. */
  lemma RepeatableShape(ops: seq<JobOp>)
    requires forall i | 0 <= i < |ops| :: !ops[i].AddOp?
    requires forall i, k | 0 <= i < k < |ops| :: !(ops[i].EnvOp? && ops[k].EnvOp?) && !(ops[i].SecureOp? && ops[k].SecureOp?)
    ensures Repeatable(ops)
  {
    forall i, k | 0 <= i < |ops| && 0 <= k < |ops| ensures Compatible(ops[i], ops[k]) {
      if i == k {
      } else if i < k {
        assert !(ops[i].EnvOp? && ops[k].EnvOp?) && !(ops[i].SecureOp? && ops[k].SecureOp?);
      } else {
        assert !(ops[k].EnvOp? && ops[i].EnvOp?) && !(ops[k].SecureOp? && ops[i].SecureOp?);
      }
    }
  }

  /** Running a builder a second time with the same arguments changes nothing: its script task is added once. */
  lemma BuildersIdempotent(
    j: Job, gitToken: string, r1: (string, string), r2: (string, string), b1: string, b2: string, b3: string, b4: string,
    reference: Option<string>)
    ensures var ops := ReleaseCandidateOps(gitToken, r1, b1, b2, r2, b3, b4, reference);
      ApplyOps(ApplyOps(j, ops), ops) == ApplyOps(j, ops)
    ensures var ops := PrivatePublicPrOps(gitToken, r1, b1, r2, b2, reference);
      ApplyOps(ApplyOps(j, ops), ops) == ApplyOps(j, ops)
    ensures var ops := PublicPrivateMergeOps(gitToken, r1, b1, r2, b2, reference);
      ApplyOps(ApplyOps(j, ops), ops) == ApplyOps(j, ops)
  {
    BuildersRepeatable(gitToken, r1, r2, b1, b2, b3, b4, reference);
    RepeatableIdempotent(j, ReleaseCandidateOps(gitToken, r1, b1, b2, r2, b3, b4, reference));
    RepeatableIdempotent(j, PrivatePublicPrOps(gitToken, r1, b1, r2, b2, reference));
    RepeatableIdempotent(j, PublicPrivateMergeOps(gitToken, r1, b1, r2, b2, reference));
  }
}
