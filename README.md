# edx-gomatic core, modelled in Dafny

edx-gomatic generates the GoCD continuous-delivery configuration of the edX
services. Install scripts call pattern builders (pipelines, stages, jobs,
tasks), which drive the external gomatic library to add pipelines, stages,
jobs, tasks, materials and environment variables to a GoCD configuration.
Around that sit a configuration deep merge, a canonical form and a
dependency topology of the generated XML, the driver that runs the install
scripts, and the helpers of the script test-suite.

This project models those cores and proves what they promise. One Dafny
module stands for each source file:

- `Utils` (`utils.dfy`): configuration values as leaves and dictionaries;
  `_deep_dict_merge`, `dict_merge`, `merge_files_and_dicts` and
  `ArtifactLocation.as_fetch_task`. The merge is proved to be the least
  upper bound of its arguments under containment, failing with
  `MergeConflict` exactly when none exists.
- `Topology` and `TopologyRender` (`topology.dfy`, `topology_render.dfy`):
  the selection of pipelines, their grouping into connected components of
  the trigger graph, the layered phases within a group, `indent`,
  `sort_key` and the ordering and collapsing rules of `Container.render`.
- `Canonicalize` and `Sorting` (`canonicalize.dfy`, `sorting.dfy`): the
  per-tag canonicalization rules over Python 2's ordering of sort keys and
  a stable sort.
- `Constants` (`constants.dfy`): the name templates, `ReleaseStatus` and
  the pipeline step permutations.
- `Tasks`, `Shell`, `Strings` and `PrivateReleases` (`tasks.dfy`,
  `shell.dfy`, `strings.dfy`, `private_releases.dfy`): the command lines and
  job changes of the task builders, including the text normalisation of
  `bash_task`.
- `Stages` and `Jobs` (`stages.dfy`, `jobs.dfy`): the stage and job
  builders, stated as the exact stages, jobs, tasks, artifacts and
  variables they leave behind.
- `Authz` (`authz.dfy`): `ensure_permissions` on a pipeline group.
- `Pipelines` and `Apros` (`pipelines.dfy`, `apros.dfy`): the service
  group and the continuous-deployment (CD) and manual deployment pipelines
  of a service, for ordinary services and for McKinsey Academy.
- `Deploy` and `DeployPipelines` (`deploy.dfy`, `deploy_pipelines.dfy`):
  the command line of an install script and the driver that selects and
  runs the enabled scripts of an environment.
- `TestUtilities`, `TestScripts` and `Conftest` (`test_utilities.dfy`,
  `test_scripts.dfy`, `conftest.dfy`): `ContextSet`, the consistency checks
  of the script tests and their fixtures.
- `GoCD` (`gocd.dfy`): an abstract model of the part of gomatic the
  builders use. Every `ensure_*` returns the existing child of that name or
  appends a new one; `add_task` always appends; `ensure_task` appends only
  a task that is not already there; the `ensure_*environment_variables`
  calls add or overwrite entries. `Wrappers` (`wrappers.dfy`) holds the
  `Option` and `Result` types that stand for `None` and raised exceptions.

Code that updates state in place is modelled by classes and methods: the
gomatic objects (`GoCD.Pipeline`, `GoCD.PipelineGroup`,
`GoCD.Configurator`), `ContextSet`, `MirrorDict`, and every builder that
changes them. Each such method is proved against a specification function,
and the lemmas beside that function state what the source promises.

The snapshot is mid-refactor, and several call sites do not match the
function they call. Some calls leave out required parameters and raise
`TypeError` (`tasks.generate_launch_instance`, `tasks.generate_run_app_playbook`
and `tasks.generate_create_ami` at edxpipelines/patterns/stages.py:122, 217
and 312). Some name a callee jobs.py does not define (`generate_deploy_ami`,
`generate_rollback_asgs`, `generate_rollback_migrations`,
`generate_run_jenkins_job`). One binds its arguments positionally to the
wrong parameters: `jobs.generate_build_ami` takes `pipeline` first, so the
stage binds as `pipeline` and the application URL as `edp`, and reading
`edp.environment` raises `AttributeError`. Such a call is recorded on its
stage or job as a `Call` with the arguments the call site passes, rather
than run through a model of the callee. Each of them raises in the source,
so the builders that make them describe the layout the code is written to
produce past those calls (see "Left out").

Two proved facts about the layout the Apros builder is written to produce,
under that convention:

- `Apros.MigrationInfoStageAbsent`: the migration rollbacks of the Apros
  pipelines fetch their migration output from stage `deploy_ami_<sub-app>`
  (edxpipelines/patterns/apros.py:315), and neither Apros pipeline has a stage of that name.
- `Apros.BuildLoopSucceeds`: the Apros AMI build loop reads the second EDP of
  every environment (edxpipelines/patterns/apros.py:266), so, with the build call recorded
  rather than run and `MCKA_PLAYBOOK_PATH` a parameter, the loop gets past
  that index exactly when every environment has at least two EDPs. As
  written, the first loop iteration raises before that: its arguments are
  evaluated in order, so the undefined `constants.MCKA_PLAYBOOK_PATH`
  (edxpipelines/patterns/apros.py:262) raises `AttributeError` before the
  `[1]` index (edxpipelines/patterns/apros.py:266) is reached. Were that
  constant defined, the first environment in dictionary order with a single
  EDP would raise `IndexError` while the arguments are evaluated, and only
  when that first environment has two EDPs would the call itself raise, at
  `edp.environment` (edxpipelines/patterns/jobs.py:48).

## Model

| member | source | states |
|---|---|---|
| Utils.DeepDictMerge | edxpipelines/utils.py:71-105 | returns exactly the reference deep merge: `TypeError` unless both are dicts, `MergeConflict` on differing leaves, the merged dict otherwise |
| Utils.ContainsReflexive | edxpipelines/utils.py:71-105 | every value contains itself (the order under which the merge is a least upper bound) |
| Utils.ContainsTransitive | edxpipelines/utils.py:71-105 | containment is transitive |
| Utils.ContainsAntisymmetric | edxpipelines/utils.py:71-105 | values that contain each other are equal |
| Utils.JoinContainsBoth | edxpipelines/utils.py:89-105 | the join of two compatible values contains both |
| Utils.JoinIsLeast | edxpipelines/utils.py:89-105 | values with a common extension are compatible, and their join is contained in every common extension |
| Utils.DeepMergeIsLeastUpperBound | edxpipelines/utils.py:71-105 | two dicts merge iff some value contains both; the merge contains both and is contained in every such value; otherwise the error is `MergeConflict` |
| Utils.DeepMergeKeys | edxpipelines/utils.py:89-105 | the merge's keys are both sides' keys; a one-sided key keeps its value, two dicts under one key are merged, and equal leaves are kept |
| Utils.DeepMergeIdempotentSymmetric | edxpipelines/utils.py:71-105 | merging a dict with itself gives it back, and the merge does not depend on the argument order |
| Utils.DictMerge | edxpipelines/utils.py:63-66 | no arguments give `{}`, one argument is returned as is |
| Utils.FoldMergeIsLeast | edxpipelines/utils.py:68 | the fold succeeds iff the values have a common extension, and then gives the least one |
| Utils.DictMergeIsLeastUpperBound | edxpipelines/utils.py:50-68 | several dicts merge iff they have a common extension; the result is the least such |
| Utils.PairsToMapKeys | edxpipelines/utils.py:141-143 | the dict built from pairs has exactly the pairs' keys |
| Utils.PairsToMapLastWins | edxpipelines/utils.py:141-143 | for a repeated key, the last pair's value wins |
| Utils.ConvertArgs | edxpipelines/utils.py:139-147 | one dict per argument |
| Utils.MergeFilesAndDicts | edxpipelines/utils.py:122-150 | `ValueError` iff some argument is neither a dict nor a list of pairs; otherwise the merge of the files' values followed by the converted arguments |
| Utils.FoldMergeNeverValueError | edxpipelines/utils.py:68 | the fold never raises `ValueError` |
| Utils.FoldMergeErrors | edxpipelines/utils.py:50-68 | the merge never raises `ValueError` |
| Utils.AsFetchTask | edxpipelines/utils.py:28-44 | a fetch into `dest` that runs when passed, fetching a directory iff the location is one |
| Utils.AsFetchTaskRoundTrip | edxpipelines/utils.py:28-47 | the fetch names the location back; a location built without `is_dir` fetches a file |
| Topology.SelectContents | edxpipelines/topology.py:23-27 | a pipeline is selected iff some definition carries its name and the filter is empty or names it; the last definition of that name wins |
| Topology.MaterialSelectedAsPipeline | edxpipelines/topology.py:23-27 | with an empty filter, the selection as written holds an unnamed pipeline material under the key None, which the corrected selection leaves out |
| Topology.SelectIsNamedPartOfAsWritten | edxpipelines/topology.py:23-27 | the corrected selection is exactly the named part of the selection as written |
| Topology.BuildOnlyAfter | edxpipelines/topology.py:28-32 | the loops raise `KeyError` iff some trigger is not a selected pipeline; otherwise `only_after` maps each pipeline with triggers to its trigger set |
| Topology.AddTriggers | edxpipelines/topology.py:29-32 | one pipeline's materials raise iff one names an unselected pipeline; otherwise its triggers are recorded, and a pipeline without triggers gets no entry |
| Topology.OnlyAfterOfAdd | edxpipelines/topology.py:28-32 | adding one pipeline's triggers extends the partial `only_after` by that pipeline's entry, if it has triggers |
| Topology.LinkedIffConnected | edxpipelines/topology.py:34-52 | being linked by the merged trigger edges is being connected in the trigger graph taken in either direction |
| Topology.GroupPipelines | edxpipelines/topology.py:34-52 | the groups partition the selected pipelines, and two pipelines share a group iff they are connected by triggers in either direction |
| Topology.MergeTriggers | edxpipelines/topology.py:40-52 | handling one pipeline's triggers keeps the grouping invariant and accounts for exactly those edges |
| Topology.MergeStep | edxpipelines/topology.py:42-52 | handling one edge, whether already grouped or merged, keeps the grouping invariant |
| Topology.MergeKeepsPartition | edxpipelines/topology.py:49-52 | merging the trigger's group into the pipeline's keeps a partition |
| Topology.GroupsAreComponents | edxpipelines/topology.py:34-52 | once every edge is handled, the groups are exactly the connected components |
| Topology.PhasesOf | edxpipelines/topology.py:57-87 | the phases of a group are its phase split, and `only_after` afterwards no longer mentions the group |
| Topology.PhaseRound | edxpipelines/topology.py:60-87 | one round places a non-empty phase and strictly shrinks what remains |
| Topology.NextPhase | edxpipelines/topology.py:62-66 | the next phase holds, once each, exactly the remaining members whose triggers are all placed |
| Topology.Untriggered | edxpipelines/topology.py:62-66 | the phase holds, once each, exactly the remaining pipelines without an `only_after` entry |
| Topology.DiscardPhase | edxpipelines/topology.py:81-87 | discarding the phase's pipelines leaves the trigger sets less everything placed, empty sets deleted |
| Topology.DiscardEverywhere | edxpipelines/topology.py:83-87 | discarding one pipeline removes it from every trigger set and deletes the sets that become empty |
| Topology.ReadyIsUntriggered | edxpipelines/topology.py:62-66 | a remaining member has no `only_after` entry iff all its triggers are placed |
| Topology.SomeReady | edxpipelines/topology.py:60-66 | when triggers are ranked (acyclic), some remaining member is ready, so every round makes progress |
| Topology.PhasesRespectTriggers | edxpipelines/topology.py:57-87 | every trigger of a pipeline is placed in an earlier phase |
| Topology.PhasesDisjoint | edxpipelines/topology.py:57-87 | no pipeline is placed in two phases |
| Topology.PhasesAsEarlyAsPossible | edxpipelines/topology.py:57-87 | a pipeline after the first phase has a trigger in the phase just before its own |
| Topology.PhasesUnique | edxpipelines/topology.py:57-87 | the phase split is unique up to the order within each phase |
| Topology.CycleNeverReady | edxpipelines/topology.py:60-66 | members of a trigger cycle are never ready, so on a cycle the loop finds an empty phase forever |
| Topology.CycleUnranked | edxpipelines/topology.py:60-66 | a trigger graph with a cycle has no ranking |
| Topology.Pipelines | edxpipelines/topology.py:21-90 | raises `KeyError` iff a trigger is not selected; otherwise every group is a connected component split into its phases, groups are disjoint and cover every selected pipeline |
| TopologyRender.IndentLines | edxpipelines/topology.py:97-102 | the lines of the indented text are exactly the lines of all blocks, in order, each prefixed with the indentation |
| TopologyRender.FirstLeast | edxpipelines/topology.py:105-114 | the first position of a least key: what `sorted(...)[0]` picks |
| TopologyRender.SortKeyIsHeadOfSorted | edxpipelines/topology.py:108-110 | the key of an element-less concurrent container is the key of the head of its sorted tasks |
| TopologyRender.HeadIsLeast | edxpipelines/topology.py:110 | the head of the sorted tasks has a key no greater than any task's |
| TopologyRender.Ordered | edxpipelines/topology.py:129-132 | serial tasks keep their order; concurrent ones fail iff some task's key fails, and otherwise come out as a stable sorted permutation |
| TopologyRender.NonEmpty | edxpipelines/topology.py:137-141 | no empty rendering is kept |
| TopologyRender.Combine | edxpipelines/topology.py:134-141 | the renderings combine iff every task rendered |
| TopologyRender.NonEmptyConcat | edxpipelines/topology.py:137-151 | dropping the empty renderings does not change the concatenated lines |
| TopologyRender.ConcurrentOrderIndependent | edxpipelines/topology.py:129-171 | with distinct keys, a concurrent container renders the same whatever the order of its tasks |
| TopologyRender.OrderedPermutation | edxpipelines/topology.py:129-130 | with distinct keys, the sorted order of concurrent tasks does not depend on their input order |
| TopologyRender.SameKeyErrors | edxpipelines/topology.py:105-114 | two orderings of the same tasks fail to sort alike |
| TopologyRender.SerialFlattens | edxpipelines/topology.py:126-151 | an unnamed serial container at the head of a serial container renders as if its tasks were spliced in |
| TopologyRender.Renders | edxpipelines/topology.py:134-136 | each task renders in the container's mode and context |
| TopologyRender.RenderSerial | edxpipelines/topology.py:120-171 | a serial container renders its tasks in order within its context, fails iff one fails, and frames the lines for the caller's mode |
| TopologyRender.CombineFlattens | edxpipelines/topology.py:134-151 | combining a combined prefix with more renderings is combining them all at once |
| Canonicalize.CanonicalizeElement | edxpipelines/canonicalize.py:86-90 | dispatching on the tag gives the canonical form of the element |
| Canonicalize.Canonicalizer | edxpipelines/canonicalize.py:28-40 | copying, clearing the tail, canonicalizing each child in a loop and sorting by the tag's key gives the canonical form |
| Canonicalize.CanonicalShape | edxpipelines/canonicalize.py:35-57 | the canonical form keeps tag, attributes and text, drops the tail, holds exactly the canonicalized children, sorted stably by the tag's `RULES` key or in document order for other tags |
| Canonicalize.CanonicalHasNoTails | edxpipelines/canonicalize.py:36-37 | no element of the canonical tree has a tail |
| Canonicalize.CanonicalChildOf | edxpipelines/canonicalize.py:37 | each child of the canonical form is the canonical form of a child of the input |
| Canonicalize.CanonicalIdempotent | edxpipelines/canonicalize.py:20-90 | canonicalizing a canonical tree changes nothing |
| Canonicalize.CanonicalizeGocdCanonical | edxpipelines/canonicalize.py:73-83 | the document `canonicalize_gocd` returns has no tails anywhere and canonicalizing it again changes nothing |
| Sorting.KeyLeTotal | edxpipelines/canonicalize.py:44-57 | the Python 2 order on the rule keys (`None`, strings and tuples of them) is total and antisymmetric |
| Sorting.KeyLeTrans | edxpipelines/canonicalize.py:44-57 | the same order is transitive |
| Sorting.SortByProperties | edxpipelines/canonicalize.py:38-39 | `sorted(..., key=...)` returns a sorted permutation of its input that keeps the input order among equal keys |
| Sorting.SortBySorted | edxpipelines/canonicalize.py:38-39 | sorting an already sorted list leaves it unchanged |
| Sorting.SortedUnique | edxpipelines/canonicalize.py:38-39 | two sorted lists with the same members under every key, in the same order, are equal: the stable sort is unique |
| Sorting.SortByMap | edxpipelines/canonicalize.py:37-39 | sorting commutes with a map that keeps the keys |
| Sorting.SortByPermutation | edxpipelines/patterns/tasks.py:378 | with distinct keys the sorted list does not depend on the input order (a dictionary's items) |
| Constants.EnvDeploymentNameInjective | edxpipelines/constants.py:11-34 | `{environment}_{deployment}` job names of two EDPs coincide only when environment and deployment coincide (environment without `_`) |
| Constants.BaseAmiSelectionExtendsJobName | edxpipelines/constants.py:41 | the base-AMI selection job name is the deploy job name followed by `_` and the play, and splits back into environment, deployment and play |
| Constants.EnvironmentPipelineNameInjective | edxpipelines/constants.py:76 | `{environment}-{play}` names exactly one environment and play (environment without `-`) |
| Constants.PathTemplatesRoundTrip | edxpipelines/constants.py:135-139 | the playbook path, the edx repository URL and the deployment label each give back the name they were built from |
| Constants.StatusByValue | edxpipelines/constants.py:184-190 | `ReleaseStatus(value)` finds the member with that value and fails for any other text |
| Constants.StatusAliases | edxpipelines/constants.py:184-193 | the aliases `stage`, `prod`, `rollback` name the same members as `STAGED`, `DEPLOYED`, `ROLLED_BACK`; each member is found by its value |
| Constants.StepPermutationSuffixes | edxpipelines/constants.py:177-181 | every valid step code lists build, migrate, deploy in order, and its suffix is its letters upper-cased and joined by `-` |
| Tasks.AnsibleTask | edxpipelines/patterns/tasks.py:28-95 | builds exactly the task that the reference definition of the ansible command describes |
| Tasks.AnsibleLayout | edxpipelines/patterns/tasks.py:69-85 | the command is the prefix, `ansible-playbook`, the optional verbosity flag, the inventory words, the extra options, one word per variable in input order, and the playbook last |
| Tasks.VerbosityFlag | edxpipelines/patterns/tasks.py:72-73 | the verbosity word is present iff the verbosity is positive, and is then `-` followed by that many `v` |
| Tasks.VarWordShape | edxpipelines/patterns/tasks.py:78-83 | a name/value variable becomes `-e name=value`; a variables file becomes ` -e @../<path> ` |
| Tasks.TubularWords | edxpipelines/patterns/tasks.py:98-125 | the task runs `/bin/bash -c`, and when no word holds a space, splitting the command on spaces gives back the prefix, the script and the arguments |
| Tasks.TargetDirectoryCommand | edxpipelines/patterns/tasks.py:644-657 | for a plain directory name the task runs exactly `mkdir -p <name>` |
| Tasks.RetrieveArtifactEffect | edxpipelines/patterns/tasks.py:169-186 | afterwards the job holds the directory task and a fetch of exactly that location, a directory fetch iff the location is one; variables and artifacts are unchanged |
| Tasks.RetrieveArtifactTwice | edxpipelines/patterns/tasks.py:169-186 | a second identical retrieval changes nothing |
| Tasks.LaunchInstanceOverride | edxpipelines/patterns/tasks.py:231-305 | the launch declares its outputs and adds one task; the fixed timeout variable comes before the override file, which is passed last iff given |
| Tasks.SortedKwargsProperties | edxpipelines/patterns/tasks.py:378 | keyword arguments are passed in ascending name order, each once, independently of the dictionary's iteration order |
| Tasks.CreateAmiFixedVariables | edxpipelines/patterns/tasks.py:361-376 | sixteen fixed variables, the launch information file first |
| Tasks.CreateAmiVariablesLayout | edxpipelines/patterns/tasks.py:361-378 | the launch information file is first and the sorted keyword arguments follow the sixteen fixed variables |
| Tasks.RunMigrationsSubApplication | edxpipelines/patterns/tasks.py:413-463 | the `SUB_APPLICATION_NAME` variable is passed, last, iff a sub-application is named, even an empty one |
| Tasks.MigrationDurationArgs | edxpipelines/patterns/tasks.py:489-504 | builds exactly the argument list of the reference definition |
| Tasks.MigrationDurationAlerts | edxpipelines/patterns/tasks.py:489-504 | the optional region follows the eight fixed arguments; then every address gets its own `--alert_email`, in order |
| Tasks.MigrationRollbackLayout | edxpipelines/patterns/tasks.py:534-583 | three operations: the input directory is created, then declared, then the loop runs under the caller's condition |
| Tasks.RollbackCommandSub | edxpipelines/patterns/tasks.py:542-571 | with a sub-application the loop is the one without, with `-e SUB_APPLICATION_NAME=<name>` inserted just before the playbook |
| Tasks.SingleAddEffect | edxpipelines/patterns/tasks.py:781-803 | a single-task builder appends its task and changes nothing else, so calling it twice runs the task twice |
| Tasks.FixedBuildersAddOneTask | edxpipelines/patterns/tasks.py:388-980 | the Drupal, tag, key, metadata, index and clean-up builders each append exactly one task |
| Tasks.RunAppPlaybookBase | edxpipelines/patterns/tasks.py:685-778 | a falsy launch directory means `target`; the play, deployment and environment are set as variables and one task is added |
| Tasks.CreateBranchOptions | edxpipelines/patterns/tasks.py:1021-1078 | `--source_branch` and `--sha` follow the ten fixed arguments, in that order, each iff its value is truthy; the output is `../target/branch.yml` |
| Tasks.MergeBranchOutput | edxpipelines/patterns/tasks.py:1130-1176 | the merge writes where it declares its artifact; `--fast_forward_only` is present, last, iff requested |
| Tasks.TagOptionsCount | edxpipelines/patterns/tasks.py:1212-1275 | each of the four tag options contributes two words iff its value is truthy |
| Tasks.TargetFileArgShape | edxpipelines/patterns/tasks.py:1212-1275 | an input-file or deploy-artifact word names a file under `target`, present iff the value is truthy |
| Tasks.TagCommitLayout | edxpipelines/patterns/tasks.py:1212-1275 | the tag command starts with the five fixed words, followed by one slot per option |
| Tasks.TagCommitFiles | edxpipelines/patterns/tasks.py:1212-1275 | the input file comes right after the fixed words and the deploy artifact last, each iff truthy |
| Tasks.MessagePrsErrors | edxpipelines/patterns/tasks.py:1382-1445 | the builder raises iff exactly one of the base AMI artifact and the tag app is given; otherwise the message task is last, after the artifact's retrieval iff there is one |
| Tasks.Comparisons | edxpipelines/patterns/tasks.py:1513-1519 | the comparison loop builds exactly the reference argument list and retrievals |
| Tasks.CompareStep | edxpipelines/patterns/tasks.py:1513-1519 | one more pair adds its `--compare` group and its two retrievals |
| Tasks.CompareArgsShape | edxpipelines/patterns/tasks.py:1513-1519 | three arguments per pair, in order: `--compare`, the base's fetched path, the new one's |
| Tasks.CompareOpsShape | edxpipelines/patterns/tasks.py:1513-1519 | four operations per pair: the base's retrieval, then the new one's |
| Tasks.ReleaseWikiPageErrors | edxpipelines/patterns/tasks.py:1448-1526 | an input page excludes parent title, space and title (raises otherwise); on success the page update is the last operation and two secure variables are set |
| Tasks.WikiOpsLayout | edxpipelines/patterns/tasks.py:1448-1526 | the page-id file is declared first, the input page retrieved next if any, then each pair base-then-new |
| Tasks.BaseAmiOverrideFlag | edxpipelines/patterns/tasks.py:1529-1592 | the override flag is `yes` iff a base AMI id is given, even an empty one; the override file is declared first |
| Shell.Margin | edxpipelines/patterns/tasks.py:159 | the margin `textwrap.dedent` removes is spaces and tabs, a prefix of every non-blank line's indentation; there is none only when every line is blank |
| Shell.DedentLine | edxpipelines/patterns/tasks.py:159 | a dedented line is the original line less some of its leading spaces and tabs |
| Shell.CollapseNoNewline | edxpipelines/patterns/tasks.py:156-161 | after the `$\s+` substitution no newline is left |
| Shell.CollapseAfterNewline | edxpipelines/patterns/tasks.py:156-161 | whitespace right after a newline makes no difference to the substituted text |
| Shell.BashScriptShape | edxpipelines/patterns/tasks.py:153-162 | the command handed to `/bin/bash -c` is one line with no whitespace at either end |
| Shell.DedentIrrelevant | edxpipelines/patterns/tasks.py:156-162 | the dedent never changes the command: substitution and strip alone give the same text, so the script's source indentation does not matter |
| Shell.PlainScript | edxpipelines/patterns/tasks.py:153-162 | a one-line script with no surrounding whitespace is run exactly as written |
| Strings.SplitPiecesFree | edxpipelines/topology.py:97-102 | no piece of `s.split(c)` holds the separator |
| Strings.JoinSplit | edxpipelines/topology.py:97-102 | joining the pieces of a split with the separator gives back the string |
| Strings.SplitJoin | edxpipelines/topology.py:97-102 | splitting a joined list splits each part on its own |
| Strings.SplitJoinFree | edxpipelines/topology.py:97-102 | joining pieces without the separator and splitting again gives back the pieces |
| PrivateReleases.ReferenceArgs | edxpipelines/patterns/tasks/private_releases.py:71-72 | the reference-checkout flag and its value are appended iff the value is truthy |
| PrivateReleases.OutputFiles | edxpipelines/patterns/tasks/private_releases.py:53-56 | the three scripts write `target/private_rc.yaml`, `target/priv_pub_pr.yml` and `target/pub_priv_push.yml` |
| PrivateReleases.CreatePrivateReleaseCandidate | edxpipelines/patterns/tasks/private_releases.py:11-80 | the job gets the token, the git identity, the target directory, the `merge-approved-prs` task and the output artifact; no other job of the pipeline changes |
| PrivateReleases.ReleaseCandidateArgsLayout | edxpipelines/patterns/tasks/private_releases.py:58-72 | 22 arguments (24 with a reference checkout); each repository tuple is split into organisation and name after its flag; `--out-file` names the declared artifact |
| PrivateReleases.PrivatePublicCreatePr | edxpipelines/patterns/tasks/private_releases.py:83-139 | the job gets the token, the target directory, the `create_private_to_public_pr.py` task and the output artifact |
| PrivateReleases.PrivatePublicPrArgsLayout | edxpipelines/patterns/tasks/private_releases.py:119-131 | 16 arguments (18 with a reference checkout); organisation and repository flags carry the tuples' parts; `--output_file` names the declared artifact |
| PrivateReleases.PublicPrivateMerge | edxpipelines/patterns/tasks/private_releases.py:142-196 | the job gets the token, the target directory and the `push_public_to_private.py` task |
| PrivateReleases.PublicPrivateMergeArgsLayout | edxpipelines/patterns/tasks/private_releases.py:178-190 | 16 arguments (18 with a reference checkout); organisation and repository flags carry the tuples' parts; `--output_file` names the push file |
| PrivateReleases.ReleaseCandidateJob | edxpipelines/patterns/tasks/private_releases.py:39-80 | the job afterwards: token added to the secure variables, git identity to the variables, `mkdir` then the script task ensured, output declared as artifact, nothing else changed |
| PrivateReleases.PrivatePublicPrJob | edxpipelines/patterns/tasks/private_releases.py:107-139 | the job afterwards: token, `mkdir`, script task and artifact; variables unchanged |
| PrivateReleases.PublicPrivateMergeJob | edxpipelines/patterns/tasks/private_releases.py:166-196 | the job afterwards: token, `mkdir` and script task; the artifacts are unchanged |
| PrivateReleases.BuildersRepeatable | edxpipelines/patterns/tasks/private_releases.py:39-80 | every operation of the three builders is an `ensure_*` or a variable update and no two of them conflict |
| PrivateReleases.BuildersIdempotent | edxpipelines/patterns/tasks/private_releases.py:11-196 | running a builder twice with the same arguments gives the same job as running it once |
| Stages.Opened | edxpipelines/patterns/stages.py:36-40 | after `ensure_stage`, the optional approval and `ensure_job`, the returned stage and job indices are in range |
| Stages.OpenStage | edxpipelines/patterns/stages.py:36-40 | the pipeline's stages become the opened stage list and the method returns the opened stage and job |
| Stages.BuiltFromOpened | edxpipelines/patterns/stages.py:36-48 | a stage builder is the opening steps followed by its operations applied to the opened job |
| Stages.BuiltFresh | edxpipelines/patterns/stages.py:36-40 | on a pipeline without the stage, a new stage is appended after the existing ones; it is manual iff asked and holds only the builder's job |
| Stages.BuiltExisting | edxpipelines/patterns/stages.py:36-40 | on a pipeline that has the stage, only that stage changes: same place, name and calls; it becomes manual if asked; the job is present |
| Stages.BuiltWellFormed | edxpipelines/patterns/stages.py:36-40 | stage names stay unique, and so do job names within each stage |
| Stages.BuiltManual | edxpipelines/patterns/stages.py:37-38 | a builder that asks for approval leaves its stage manual, whatever was there before |
| Stages.AsgCleanup | edxpipelines/patterns/stages.py:7-50 | the pipeline performs the clean-up build: its variables are set and the `ASG-Cleanup-Stage` stage holds the `Cleanup-ASGS` job |
| Stages.AsgCleanupLayout | edxpipelines/patterns/stages.py:40-48 | the clean-up job installs the `tubular` requirements, then runs the clean-up script: exactly those two tasks |
| Stages.LaunchInstanceStage | edxpipelines/patterns/stages.py:53-125 | the pipeline performs the launch build under the launch stage's name |
| Stages.LaunchInstanceVariables | edxpipelines/patterns/stages.py:98-112 | the launch refuses a public IP address and a reboot, and passes on the base AMI and the region |
| Stages.LaunchInstanceLayout | edxpipelines/patterns/stages.py:120-123 | the launch job installs the `tubular` requirements, then the `configuration` ones, then launches |
| Stages.RunPlay | edxpipelines/patterns/stages.py:128-218 | the pipeline performs the play build under the play stage's name |
| Stages.RunPlayLayout | edxpipelines/patterns/stages.py:194-216 | seven operations; the key, the launch information and the inventory are fetched from this pipeline's launch job into `target`, in that order, then the play runs |
| Stages.CreateAmiFromInstance | edxpipelines/patterns/stages.py:221-314 | the pipeline performs the AMI-creation build under the build stage's name |
| Stages.CreateAmiLayout | edxpipelines/patterns/stages.py:295-312 | five operations; the last two fetch the launch information from the launch job and create the AMI |
| Stages.DeployAmiArtifactValue | edxpipelines/patterns/stages.py:364-368 | the deployment writes `target/ami_deploy_info.yml` |
| Stages.DeployAmi | edxpipelines/patterns/stages.py:317-404 | the pipeline performs the deployment build under the deployment stage's name |
| Stages.DeployAmiJob | edxpipelines/patterns/stages.py:361-403 | the deployment job receives exactly the deployment operations; no other stage changes |
| Stages.DeployAmiLayout | edxpipelines/patterns/stages.py:361-403 | after the requirements, the output file is declared; with an upstream artifact that file is then fetched into `tubular`; then `mkdir` and the deploy command |
| Stages.DeployCommandArgs | edxpipelines/patterns/stages.py:371-390 | the command writes `--out_file ../target/ami_deploy_info.yml` and ends with either `--config-file <upstream file>` or `--ami_id $AMI_ID` |
| Stages.DeployAmiVariables | edxpipelines/patterns/stages.py:345-390 | `AMI_ID` (without a value) is added iff there is no upstream artifact; the endpoints are set; the stage is manual by default |
| Stages.EdpValidation | edxpipelines/patterns/stages.py:407-471 | the pipeline performs the validation build in the `Validation` stage |
| Stages.EdpValidationNotifiesOnFailure | edxpipelines/patterns/stages.py:443-469 | three tasks; the first two run when the earlier ones passed; only the final chat notification runs on failure |
| Stages.MigrationsStageNameInjective | edxpipelines/patterns/stages.py:518-521 | the stage is `apply_migrations`, or `apply_migrations_<sub-application>`; different sub-applications give different names |
| Stages.RunMigrationsStage | edxpipelines/patterns/stages.py:474-576 | the pipeline performs the migration build under the name chosen for the sub-application |
| Stages.RunMigrationsJob | edxpipelines/patterns/stages.py:526-574 | the migration job receives exactly the migration operations; no other stage changes |
| Stages.RunMigrationsLayout | edxpipelines/patterns/stages.py:526-574 | eight operations: inventory and key fetched into `target`, target directory, launch information fetched, key made readable, `configuration` requirements, then the migration tasks |
| Stages.TerminateInstance | edxpipelines/patterns/stages.py:579-634 | the pipeline performs the termination build under the termination stage's name |
| Stages.TerminateInstanceCleanup | edxpipelines/patterns/stages.py:586-632 | three operations; the instance information is fetched, then the clean-up runs under the caller's condition, by default `any` |
| Stages.RollbackAsg | edxpipelines/patterns/stages.py:637-718 | the pipeline performs the rollback build under the rollback stage's name |
| Stages.RollbackAsgAlwaysManual | edxpipelines/patterns/stages.py:679-681 | whatever the inputs and the earlier stages, the rollback stage ends up manual |
| Stages.RollbackAsgLayout | edxpipelines/patterns/stages.py:682-717 | requirements, the earlier deployment's file fetched into `tubular`, `mkdir`, the output declared, then the rollback command |
| Stages.RollbackAsgCommandArgs | edxpipelines/patterns/stages.py:709-716 | the rollback reads the earlier deployment's file and writes its own output file |
| Stages.AnsibleStage | edxpipelines/patterns/stages.py:721-820 | the pipeline performs the ansible-stage build under the given stage name |
| Stages.AnsibleStageLayout | edxpipelines/patterns/stages.py:774-818 | inventory and key into `configuration`, target directory, launch information into `target`, key made readable, requirements, then the caller's task last |
| Stages.RefreshMetadataStage | edxpipelines/patterns/stages.py:823-866 | the ansible stage `refresh_metadata` with the metadata task |
| Stages.UpdateIndexStage | edxpipelines/patterns/stages.py:869-912 | the ansible stage `update_index` with the index task |
| Stages.ArmedStage | edxpipelines/patterns/stages.py:915-945 | the stages become the armed build applied to the old stages |
| Stages.ArmedStageLayout | edxpipelines/patterns/stages.py:933-943 | on a pipeline without the stage, a stage with no approval and the single `armed_job` holding only the echo is appended |
| Jobs.BuildAmiJobNameInjective | edxpipelines/patterns/jobs.py:47-51 | two EDPs share a build job name iff they share the environment |
| Jobs.EnsureJobAndRun | edxpipelines/patterns/jobs.py:51-119 | the named job is ensured in the stage and the steps' operations are applied to it in order; the pipeline's variables gain what the steps set |
| Jobs.BuildAmi | edxpipelines/patterns/jobs.py:23-121 | the environment's build job holds the requirements and package installs, the target directory, base AMI selection, launch, play, AMI creation and cleanup, in that order |
| Jobs.BuildAmiCleanupLast | edxpipelines/patterns/jobs.py:119 | the job's last task is the AMI cleanup and it runs whatever the earlier tasks did (`runif='any'`) |
| Jobs.BuildAmiLaunchReadsOverride | edxpipelines/patterns/jobs.py:58-83 | the base AMI selection publishes the override file and marks the override as given; the launch reads that same file as its last variable |
| Jobs.BuildAmiLaunchInfoFlow | edxpipelines/patterns/jobs.py:70-119 | the launch publishes the instance information file; the AMI creation and the cleanup read it as their first variable |
| Jobs.RollbackMigrationJobNameSuffix | edxpipelines/patterns/jobs.py:144-146 | the job name is the base name iff no sub-application is given, and different sub-applications give different names |
| Jobs.RollbackMigration | edxpipelines/patterns/jobs.py:124-172 | the named job is ensured and receives the retrievals, the target directory, the key's permission change, the requirements install and the migration rollback |
| Jobs.EnsureAroundFetches | edxpipelines/patterns/jobs.py:150-167 | ensuring the directory task around three distinct ensured fetches on a fresh job leaves the directory task once, then the fetches and the added task |
| Jobs.RollbackMigrationOpsLayout | edxpipelines/patterns/jobs.py:150-170 | the operations are the three retrievals (each ensuring the target directory, then fetching), the directory again, the permission change, then the installs and the rollback |
| Jobs.RollbackMigrationFreshJob | edxpipelines/patterns/jobs.py:147-167 | on a fresh job with three distinct locations, the first five tasks are the target directory, the three fetches in call order and the permission change |
| Authz.RoleChildrenExact | edxpipelines/patterns/authz.py:32-34 | the loop appends one `role` child per role, whose texts are exactly the roles in order |
| Authz.WithRolesEffect | edxpipelines/patterns/authz.py:29-34 | the kind's element is reused when present and appended otherwise, holds exactly the given roles, and every other element stays where and as it was |
| Authz.WithRolesIdempotent | edxpipelines/patterns/authz.py:19-34 | ensuring the same permission and roles twice gives the same element as ensuring them once |
| Authz.WithNoRoles | edxpipelines/patterns/authz.py:31 | with no roles the kind's element is present and emptied |
| Authz.WithRolesOtherKind | edxpipelines/patterns/authz.py:30-31 | granting one kind leaves another kind's element unchanged at its position |
| Authz.EnsurePermissions | edxpipelines/patterns/authz.py:19-34 | the group's `authorization` element exists afterwards and is the old one (or empty) with the kind's element holding exactly the roles |
| Pipelines.GroupAuthorizationLayout | edxpipelines/patterns/pipelines.py:213-219 | a fresh group's authorization is exactly: admins `<play>-admin`, operate `<play>-operator`, view `<play>-operator` |
| Pipelines.NoGroupNamed | edxpipelines/patterns/pipelines.py:210 | after the removal no group bears the play's name |
| Pipelines.ServicePipelineGroupAsWritten | edxpipelines/patterns/pipelines.py:209-215 | as written the first `ensure_permissions` call passes four arguments to a three-parameter function and fails, leaving a fresh, unauthorized group in place of any same-named one |
| Pipelines.ServicePipelineGroup | edxpipelines/patterns/pipelines.py:205-221 | any same-named group is replaced by a fresh empty group at the end, which grants `<play>-admin` admins and `<play>-operator` operate and view |
| Pipelines.EnsureManualIn | edxpipelines/patterns/pipelines.py:242-245 | the named stage exists afterwards and requires manual approval; no stage is lost |
| Pipelines.DeploymentStagesIn | edxpipelines/patterns/pipelines.py:227-257 | all returned stage positions are in range; a migration rollback stage is returned iff the service has migrations, an e2e stage iff one is asked for |
| Pipelines.DeploymentStages | edxpipelines/patterns/pipelines.py:227-257 | the pipeline's new stages and the returned positions are those of the deployment-stage reference |
| Pipelines.DeploymentStagesLayout | edxpipelines/patterns/pipelines.py:233-255 | on a pipeline without them the stages appended are, in order, `deploy_ami`, the e2e stage when asked, manual `rollback_asgs` and, iff migrations, manual `rollback_migrations`, with their positions returned |
| Pipelines.ServiceNamesOutcome | edxpipelines/patterns/pipelines.py:312-332 | no EDPs, several plays, several continuous environments without a CD name, and no continuous EDP without a CD name are the only failures; otherwise the play is the single play and the CD name is the given one or `<env>-<play>` |
| Pipelines.ManualNameOutcome | edxpipelines/patterns/pipelines.py:341-349 | without a manual name, manual EDPs from several environments are an error and otherwise the name is `<env>-<play>` |
| Pipelines.CdFrame | edxpipelines/patterns/pipelines.py:337-338 | the CD frame holds the build stage and deployment stages whose positions are in range; migration and e2e stages exist iff asked for |
| Pipelines.ManualFrame | edxpipelines/patterns/pipelines.py:368-371 | the manual frame's positions are in range; a migration rollback stage exists iff the service has migrations |
| Pipelines.CdFrameLayout | edxpipelines/patterns/pipelines.py:337-338 | the CD stages are `build_ami`, `deploy_ami`, optional e2e, manual `rollback_asgs`, and manual `rollback_migrations` iff migrations |
| Pipelines.ManualFrameLayout | edxpipelines/patterns/pipelines.py:366-371 | the manual stages are the armed stage (one job, no approval), then manual `deploy_ami`, manual `rollback_asgs` and, iff migrations, manual `rollback_migrations` |
| Pipelines.BuildCalls | edxpipelines/patterns/pipelines.py:405-430 | one AMI build per EDP, in EDP order |
| Pipelines.DeployCalls | edxpipelines/patterns/pipelines.py:447-462 | one AMI deployment per EDP, in order |
| Pipelines.RollbackAsgsCalls | edxpipelines/patterns/pipelines.py:464-476 | one ASG rollback per EDP, in order |
| Pipelines.RollbackMigrationsCalls | edxpipelines/patterns/pipelines.py:478-499 | one migration rollback per EDP, in order |
| Pipelines.JenkinsCallsSelect | edxpipelines/patterns/pipelines.py:432-440 | an EDP gets a Jenkins job iff it is a continuous EDP whose configuration holds both the job token and the job name |
| Pipelines.WireOneEffect | edxpipelines/patterns/pipelines.py:447-499 | one EDP adds a deploy job, an ASG rollback job and, only with migrations, a migration rollback job to the right stages; nothing else changes |
| Pipelines.WireDeployShape | edxpipelines/patterns/pipelines.py:443-499 | the deployment loop only adds jobs, and only to the deploy and rollback stages |
| Pipelines.WireDeployCalls | edxpipelines/patterns/pipelines.py:443-499 | the deployment loop appends exactly one job per EDP, in order, to each of the deploy, ASG rollback and (with migrations) migration rollback stages |
| Pipelines.CdStagesLayout | edxpipelines/patterns/pipelines.py:335-499 | the finished CD pipeline: `build_ami` with one build per EDP, `deploy_ami` with one deployment per continuous EDP, optional e2e stage with the opted-in Jenkins jobs, manual rollback stages with one job per continuous EDP |
| Pipelines.ManualStagesLayout | edxpipelines/patterns/pipelines.py:341-499 | the finished manual pipeline: armed stage, manual `deploy_ami` with one deployment per manual EDP fetching from the CD build, manual rollback stages with one job per manual EDP |
| Pipelines.EnsureAllInContents | edxpipelines/patterns/pipelines.py:389-402 | ensuring materials keeps the existing ones first and in place, adds each missing one once, and introduces no duplicate |
| Pipelines.SecureMaterials | edxpipelines/patterns/pipelines.py:379-382 | one secure material per EDP, from its deployment |
| Pipelines.InternalMaterials | edxpipelines/patterns/pipelines.py:383-386 | one internal material per EDP, from its deployment and the configuration branch |
| Pipelines.MaterialsContents | edxpipelines/patterns/pipelines.py:354-402 | the CD pipeline holds exactly the common materials and the app material, once each; the manual pipeline starts with the CD build-stage material and holds exactly it and the common materials, once each |
| Pipelines.AddCalls | edxpipelines/patterns/pipelines.py:405-440 | appends the jobs to the given stage and changes nothing else |
| Pipelines.E2eJobs | edxpipelines/patterns/pipelines.py:432-440 | the e2e loop appends exactly the opted-in Jenkins jobs to the e2e stage |
| Pipelines.DeployJobs | edxpipelines/patterns/pipelines.py:447-499 | the deployment loop's stages are those of the reference wiring |
| Pipelines.DeployEdp | edxpipelines/patterns/pipelines.py:448-499 | one EDP's deployment jobs are those of the reference wiring |
| Pipelines.CdJobs | edxpipelines/patterns/pipelines.py:404-499 | the CD pipeline's jobs are builds, then opted-in e2e jobs, then deployment jobs as specified |
| Pipelines.EnsureMaterials | edxpipelines/patterns/pipelines.py:389-402 | the materials loop gives the reference ensure-all result |
| Pipelines.FrameCd | edxpipelines/patterns/pipelines.py:334-338 | the CD pipeline replaces any same-named one at the group's end, carries the label template and exactly the CD frame, with no materials or variables yet |
| Pipelines.FrameManual | edxpipelines/patterns/pipelines.py:351-371 | the manual pipeline replaces any same-named one, holds only the CD build-stage material, is labelled `${<cd name>}` and holds exactly the manual frame |
| Pipelines.AddCdJobs | edxpipelines/patterns/pipelines.py:377-499 | a framed CD pipeline ends with the specified stages and materials |
| Pipelines.BuildCd | edxpipelines/patterns/pipelines.py:334-499 | without manual EDPs the single CD pipeline is built as specified and replaces any same-named pipeline |
| Pipelines.BuildManual | edxpipelines/patterns/pipelines.py:351-499 | the manual pipeline is built as specified and replaces any same-named pipeline |
| Pipelines.FrameCdFor | edxpipelines/patterns/pipelines.py:334-338 | the CD pipeline replaces any same-named one at the group's end, labelled from the application material, with only its frame stages and no materials |
| Pipelines.FillCdBuildManual | edxpipelines/patterns/pipelines.py:350-499 | past a good manual name, the framed CD pipeline ends as specified and a distinct manual pipeline, built as specified, replaces any same-named one at the group's end |
| Pipelines.BuildCdAndManual | edxpipelines/patterns/pipelines.py:334-499 | with manual EDPs: a failed manual naming fails with the CD pipeline left framed only (label and frame stages, no materials, no jobs); otherwise both pipelines are built as specified, distinct, at the group's end |
| Pipelines.ServiceDeploymentPipelines | edxpipelines/patterns/pipelines.py:260-499 | validation errors leave the group untouched; a manual-naming error leaves the CD pipeline framed only, with its label and frame stages and no materials or jobs; on success the CD pipeline is as specified and a manual pipeline exists iff manual EDPs were given, built as specified |
| Apros.Names | edxpipelines/patterns/apros.py:167-175 | no EDP is an error, an unnamed CD pipeline without CD EDPs pops an empty set, and nothing else fails; the play is some play of the EDPs (several are accepted) and the CD name is the given one or `<env>-<play>` for some CD environment |
| Apros.InEnvironment | edxpipelines/patterns/apros.py:164-165 | an environment's group is no longer than the input |
| Apros.InEnvironmentMembers | edxpipelines/patterns/apros.py:164-165 | an environment's group holds exactly the EDPs of that environment |
| Apros.InEnvironmentAppend | edxpipelines/patterns/apros.py:164-165 | grouping keeps input order: the group of a concatenation is the concatenation of the groups |
| Apros.GroupsNonEmpty | edxpipelines/patterns/apros.py:162-165 | every environment key holds at least one EDP, the first of which is of that environment |
| Apros.GroupingStep | edxpipelines/patterns/apros.py:164-165 | appending the next EDP to its environment's list keeps the dictionary a grouping of the longer input |
| Apros.GroupByEnvironment | edxpipelines/patterns/apros.py:161-165 | the dictionary's keys are exactly the EDPs' environments and each holds that environment's EDPs in input order |
| Apros.EdpsWords | edxpipelines/patterns/apros.py:256-258 | a list of EDPs is passed as three words per EDP |
| Apros.BuildLoopSucceeds | edxpipelines/patterns/apros.py:246-272 | the build loop succeeds iff every environment has at least two EDPs |
| Apros.BuildLoopCalls | edxpipelines/patterns/apros.py:246-272 | when it succeeds, the loop adds exactly one build per environment, in iteration order, from that environment's EDPs |
| Apros.BuildLoopFailure | edxpipelines/patterns/apros.py:253-266 | a failing loop stops at the first environment with fewer than two EDPs, after the builds of the environments before it |
| Apros.BuildLoopStep | edxpipelines/patterns/apros.py:246-272 | one more environment either repeats an earlier failure, fails on a missing second EDP, or appends its build |
| Apros.BuildJobs | edxpipelines/patterns/apros.py:246-272 | the environments are visited once each in some order; the stages get exactly the builds of the reference loop and the error is the loop's; on success every environment was visited |
| Apros.Pairs | edxpipelines/patterns/apros.py:279-280 | one iteration per sub-application, in order, each with the same EDP |
| Apros.FanoutLayout | edxpipelines/patterns/apros.py:275-280 | three iterations per EDP, in order; iteration `3i+j` deploys sub-application `j` (`cms`, `lms`, `apros`) of EDP `i` |
| Apros.DeployCalls | edxpipelines/patterns/apros.py:281-296 | one deployment per iteration, of that iteration's EDP and sub-application |
| Apros.RollbackAsgsCalls | edxpipelines/patterns/apros.py:298-310 | one ASG rollback per iteration, of that iteration's EDP |
| Apros.RollbackMigrationsCalls | edxpipelines/patterns/apros.py:312-333 | one migration rollback per iteration, of that iteration's EDP and sub-application |
| Apros.FanoutCalls | edxpipelines/patterns/apros.py:275-333 | over a pipeline's EDPs the deploy and migration stages get one job per EDP and sub-application and the ASG rollback stage gets each EDP's job three times |
| Apros.WirePairEffect | edxpipelines/patterns/apros.py:281-333 | one iteration adds a deployment, an ASG rollback and, only with migrations, a migration rollback to the right stages; nothing else changes |
| Apros.WirePairsShape | edxpipelines/patterns/apros.py:275-333 | the deploy loop only adds jobs, and only to the deploy and rollback stages |
| Apros.WirePairsCalls | edxpipelines/patterns/apros.py:275-333 | the deploy loop appends exactly the iterations' jobs, in order, to each of the deploy and rollback stages |
| Apros.DeployIndices | edxpipelines/patterns/apros.py:92-117 | the deploy and rollback stages are different stages |
| Apros.CdFrameLaidOut | edxpipelines/patterns/apros.py:92-117 | the CD frame is `build_ami`, `deploy_ami`, manual `rollback_asgs` and, iff migrations, manual `rollback_migrations`; there is no e2e stage |
| Apros.ManualFrameLaidOut | edxpipelines/patterns/apros.py:207-214 | the manual frame is the armed stage, manual `deploy_ami`, manual rollbacks as for the CD frame |
| Apros.FrameCdPipeline | edxpipelines/patterns/apros.py:177-181 | the CD pipeline replaces any same-named one at the group's end, with its label and exactly the CD frame, no materials or variables |
| Apros.FrameManualPipeline | edxpipelines/patterns/apros.py:194-214 | the manual pipeline replaces any same-named one, holds only the CD build-stage material, is labelled `${<cd name>}` and holds exactly the manual frame |
| Apros.CdStagesLayout | edxpipelines/patterns/apros.py:177-333 | the finished CD pipeline: `build_ami` with the builds of the loop, `deploy_ami` with one deployment per continuous EDP and sub-application, manual rollback stages with the matching jobs |
| Apros.ManualStagesLayout | edxpipelines/patterns/apros.py:194-333 | the finished manual pipeline: armed stage, manual `deploy_ami` with one deployment per manual EDP and sub-application, manual rollback stages with the matching jobs |
| Apros.SubAppStageNotFramed | edxpipelines/patterns/apros.py:315 | `deploy_ami_<sub-app>` is none of the stage names the framing creates |
| Apros.CdStagesFramed | edxpipelines/patterns/apros.py:177-181 | every stage of the finished CD pipeline bears a framing name |
| Apros.ManualStagesFramed | edxpipelines/patterns/apros.py:207-214 | every stage of the finished manual pipeline bears a framing name |
| Apros.MigrationInfoStageAbsent | edxpipelines/patterns/apros.py:313-319 | the migration-info location's stage `deploy_ami_<sub-app>` is a stage of neither pipeline |
| Apros.MaterialsContents | edxpipelines/patterns/apros.py:194-243 | the CD pipeline holds exactly the common materials and the app material, once each; the manual pipeline starts with the CD build-stage material and holds exactly it and the common materials, once each |
| Apros.DeployPair | edxpipelines/patterns/apros.py:281-333 | one iteration's jobs are those of the reference wiring |
| Apros.DeployEdp | edxpipelines/patterns/apros.py:280-333 | the sub-application loop for one EDP gives the reference wiring of its iterations |
| Apros.DeployJobs | edxpipelines/patterns/apros.py:275-333 | the deploy loop for a pipeline gives the reference wiring of all its EDP and sub-application iterations |
| Apros.CdContents | edxpipelines/patterns/apros.py:220-333 | the CD pipeline gets its materials; its error is the build loop's; when every build succeeds the CD pipeline is complete as specified |
| Apros.CdJobs | edxpipelines/patterns/apros.py:246-333 | builds, then, when every build succeeds, deployments: the CD stages as specified |
| Apros.ManualContents | edxpipelines/patterns/apros.py:220-333 | the manual pipeline gets its materials and, when the builds succeeded, its deployments, completing it as specified |
| Apros.BuildOutcomeMeaning | edxpipelines/patterns/apros.py:246-272 | a complete successful loop means every environment has two EDPs; a failure names an environment that has fewer |
| Apros.BuildCdOnly | edxpipelines/patterns/apros.py:177-333 | without manual EDPs: the error is the build loop's, or the CD pipeline is complete and replaces any same-named one |
| Apros.BuildBoth | edxpipelines/patterns/apros.py:177-333 | with manual EDPs: a bad manual name fails with the CD pipeline left framed only (label and frame stages, no materials, no jobs) at the group's end; a build failure is the loop's; otherwise both pipelines are complete, distinct, at the group's end |
| Apros.BothContents | edxpipelines/patterns/apros.py:220-333 | both pipelines get their materials; with every build done both are complete as specified |
| Apros.FrameAndFillBoth | edxpipelines/patterns/apros.py:194-333 | the manual pipeline replaces any same-named one; the error is the build loop's; on success both pipelines are complete |
| Apros.ServiceDeploymentPipelines | edxpipelines/patterns/apros.py:120-333 | fails with exactly: no EDP, an empty-set pop, several manual environments without a name, or an environment lacking a second EDP; the first two leave the group untouched; several manual environments leave a CD pipeline, named as the CD pipeline is named, framed only at the group's end; on success the CD pipeline and, iff manual EDPs were given, the manual pipeline are complete and at the group's end |
| Deploy.DiffAfterCases | edxpipelines/deploy.py:52-56 | the diff follows iff the run is a dry run that saves the configuration, and simplifies iff `topology` is asked for (canonicalizes otherwise) |
| Deploy.BuildScriptArgs | edxpipelines/deploy.py:32-47 | the flags and then the sorted keyword arguments' options are the arguments the script gets |
| Deploy.AppendKwargs | edxpipelines/deploy.py:40-47 | the outer loop appends each keyword argument's options in the given order |
| Deploy.AppendOptions | edxpipelines/deploy.py:41-47 | the inner loop appends the option before each element of the value, splicing in list elements |
| Deploy.EnsurePipeline | edxpipelines/deploy.py:13-63 | the command is `python`, the script and its arguments, and the diff that follows is the one the flags choose |
| Deploy.FlagsFirst | edxpipelines/deploy.py:34-38 | the arguments start with `--dry-run` iff a dry run and `--save-config` iff saving, in that order |
| Deploy.SingleValueWords | edxpipelines/deploy.py:41-47 | a single value gives `--key value` |
| Deploy.WordListWords | edxpipelines/deploy.py:22-30 | a list of words gives the option once before each word: `--key a --key b` |
| Deploy.NestedListSpliced | edxpipelines/deploy.py:45-47 | a list element that is itself a list is spliced in whole after one option |
| Deploy.SortedKwargsOrder | edxpipelines/deploy.py:40 | the keyword arguments are emitted once each, in strictly increasing name order |
| DeployPipelines.ParseConfig | deploy_pipelines.py:18-39 | a missing environment raises `KeyError`; otherwise the loop gives the entries the selection function defines, or the `KeyError` of a missing `enabled` (or `script` when filtering) |
| DeployPipelines.SelectedErrPropagates | deploy_pipelines.py:35-38 | an entry that raises stops the walk: the whole result is that error |
| DeployPipelines.SelectedIsFilter | deploy_pipelines.py:35-39 | with every key present, the result is exactly the enabled (and, when filtering, matching) entries without `enabled`, in file order |
| DeployPipelines.KeptEntries | deploy_pipelines.py:36-38 | kept entries no longer hold `enabled` and are no more than the input |
| DeployPipelines.KeptEntriesMembers | deploy_pipelines.py:36-38 | an entry is kept iff it is some enabled, matching input entry with `enabled` removed |
| DeployPipelines.RunPipelines | deploy_pipelines.py:94-127 | no scripts exits 1 before any call; otherwise the entries before the first one naming `dry_run` or `save_config_locally` each make one `ensure_pipeline` call in order (the `Invocations` of those entries, with both flags), successes and failures are listed in order, with `script` removed from the failure's arguments; a colliding entry ends the command with `TypeError` and no exit code, and otherwise the exit code is 1 iff something failed, 0 iff nothing did |
| DeployPipelines.FirstCollision | deploy_pipelines.py:105-110 | the index of the first entry whose keys would pass `dry_run` or `save_config_locally` a second time, or the number of entries when none does |
| DeployPipelines.InvocationsPopScript | deploy_pipelines.py:102-110 | each entry makes exactly one call: `script` is popped as the script name, both flags are passed on, an entry's `topology` key sets `ensure_pipeline`'s own `topology` parameter by its truthiness, and the keyword arguments are exactly the entry's other keys with their values |
| DeployPipelines.FailuresAreCalls | deploy_pipelines.py:112-118 | every reported failure carries the script name of a call that raised and its keyword arguments, together with the entry's `topology` key when it has one |
| DeployPipelines.RunPartition | deploy_pipelines.py:100-118 | every script lands in exactly one of successes and failures |
| DeployPipelines.RunNoFailures | deploy_pipelines.py:120-127 | there is no failure iff every run passed |
| TestUtilities.AddToEffect | edxpipelines/tests/utilities.py:24-28 | `add` appends the context to the item's list, keeping every earlier one, and leaves every other item alone |
| TestUtilities.FromPairsContexts | edxpipelines/tests/utilities.py:15-22 | after adding the pairs, an item is present iff some pair names it, and its contexts are exactly that item's contexts in the pairs, in order |
| TestUtilities.FromPairsDeterminedByContexts | edxpipelines/tests/utilities.py:15-22 | the contents are determined by each item's contexts, so any pair order with the same per-item contexts builds the same set |
| TestUtilities.ContextsOfAppend | edxpipelines/tests/utilities.py:30-36 | an item's contexts in two concatenated pair lists are those of the first then those of the second |
| TestUtilities.ContextsOfPairs | edxpipelines/tests/utilities.py:34-36 | one item's pairs hold exactly its contexts and none of any other item |
| TestUtilities.MeetEffect | edxpipelines/tests/utilities.py:78-88 | the intersection holds exactly the shared items, each with all contexts of both sides |
| TestUtilities.FlattenStep | edxpipelines/tests/utilities.py:34-36 | yielding one more item's pairs adds exactly that item's contexts |
| TestUtilities.Flatten | edxpipelines/tests/utilities.py:34-36 | the pairs yielded hold, for every item, exactly its recorded contexts in order |
| TestUtilities.ContextSet.constructor | edxpipelines/tests/utilities.py:15-22 | the set holds what adding every pair in order to an empty set gives |
| TestUtilities.ContextSet.Add | edxpipelines/tests/utilities.py:24-28 | the contexts become those of `add`, and every item keeps at least one context |
| TestUtilities.ContextSet.Iteritems | edxpipelines/tests/utilities.py:30-36 | every (item, context) pair once per `add`, each item's contexts in the order added |
| TestUtilities.ContextSet.Compare | edxpipelines/tests/utilities.py:38-72 | the four comparisons relate the item sets only, against a set or another context set; any other operand gives `NotImplemented` |
| TestUtilities.ContextSet.Intersect | edxpipelines/tests/utilities.py:74-88 | a fresh set named `<a> & <b>` holding the shared items with both sides' contexts, prefixed by the side's name |
| TestScripts.Prefixes | edxpipelines/tests/scripts/test_scripts.py:83-93 | yields one list per prefix, from the empty one to the whole input: the k-th is the first k items |
| TestScripts.StagesUpToHit | edxpipelines/tests/scripts/test_scripts.py:105-109 | the walk stops early iff the target stage is present; otherwise it yields every stage name |
| TestScripts.StagesUpToPrefix | edxpipelines/tests/scripts/test_scripts.py:105-109 | when it stops, it has yielded the stage names up to and including the first stage of that name |
| TestScripts.AvailableStagesOfUnique | edxpipelines/tests/scripts/test_scripts.py:96-109 | for a pipeline whose name is unique, the available stages are its stages up to the target |
| TestScripts.NoneNamed | edxpipelines/tests/scripts/test_scripts.py:101-103 | no pipeline of that name yields no stages |
| TestScripts.Basename | edxpipelines/tests/scripts/test_scripts.py:22-49 | `os.path.basename`: the part of the path after its last `/`, which holds no `/` |
| TestScripts.UpstreamArtifactsDeclared | edxpipelines/tests/scripts/test_scripts.py:22-49 | when the check passes, every fetch names a pipeline and a file, and some job of that pipeline, stage and job declares an artifact of that base name |
| TestScripts.UpstreamStagesOkIff | edxpipelines/tests/scripts/test_scripts.py:52-76 | the check passes iff every pipeline material names a pipeline and stage of the result |
| TestScripts.EarlierStageAvailable | edxpipelines/tests/scripts/test_scripts.py:149-158 | every earlier stage of a pipeline is available to each later stage of it |
| TestScripts.EarlierStagesAreEarlier | edxpipelines/tests/scripts/test_scripts.py:149-158 | the prefixes contribute only (later stage, earlier stage) pairs of the same pipeline |
| TestScripts.NoDuplicatesIffDistinct | edxpipelines/tests/scripts/test_scripts.py:163-224 | no identifier is counted twice iff all identifiers are distinct |
| TestScripts.SameMaterialNameIsDuplicate | edxpipelines/tests/scripts/test_scripts.py:163-179 | two materials of one pipeline with the same name make the duplicate check fail |
| TestScripts.MaterialIdsOffset | edxpipelines/tests/scripts/test_scripts.py:163-179 | a pipeline's material identifiers appear contiguously, in order, in the list of all identifiers |
| TestScripts.ScmSuffix | edxpipelines/tests/scripts/test_scripts.py:233-238 | no material name gives an empty suffix; a name gives `_` plus one environment-name character per character |
| TestScripts.ScmEnvVars | edxpipelines/tests/scripts/test_scripts.py:240-242 | the three revision variables, each with the material's suffix |
| TestScripts.ScmEnvVarsDistinct | edxpipelines/tests/scripts/test_scripts.py:240-242 | the three variables of one material are distinct |
| Conftest.MirrorDict.constructor | edxpipelines/tests/scripts/conftest.py:45-50 | a new dictionary holds no entries |
| Conftest.MirrorDict.Get | edxpipelines/tests/scripts/conftest.py:49-50 | a lookup answers the stored value, or `dummy_<key>` for a missing key, and stores nothing |
| Conftest.MirrorDict.Update | edxpipelines/tests/scripts/conftest.py:67-70 | `update` adds the new values over the old ones |
| Conftest.SelectScripts | edxpipelines/tests/scripts/conftest.py:29-34 | the comprehension over environments gives the scripts the selection function defines, or its error |
| Conftest.SelectedScriptsErr | edxpipelines/tests/scripts/conftest.py:29-34 | once one environment's scripts fail to select (a script without `enabled`), the whole selection fails with that error |
| Conftest.EnvSelection | edxpipelines/tests/scripts/conftest.py:33 | one environment contributes exactly its enabled scripts, with their `enabled` key removed |
| Conftest.SelectedScriptsMembers | edxpipelines/tests/scripts/conftest.py:29-34 | when every script outside `anchors` has `enabled`, the selection succeeds and holds exactly the enabled scripts of the environments other than `anchors` |
| Conftest.SplitTestConfig | edxpipelines/tests/scripts/conftest.py:60-70 | `global-config` fills `config`; every other section fills its own fresh dictionary in `env_configs`, distinct from `config` and from every other section's |
| Conftest.EnvLookup | edxpipelines/tests/scripts/conftest.py:60 | an environment without a section answers every key with its dummy value |
| GoCD.IndexOf | edxpipelines/patterns/authz.py:31 | the first index holding the name, or none exactly when the name is absent |
| GoCD.EnsureStageInKeepsOthers | edxpipelines/patterns/pipelines.py:233 | `ensure_stage` keeps every existing stage in place; it returns the existing stage of that name, or appends an empty one at the end |
| GoCD.EnsureStageInProperties | edxpipelines/patterns/pipelines.py:233-250 | `ensure_stage` keeps stage names unique, the returned stage is the only one of that name, and a second call changes nothing |
| GoCD.EnsureJobInProperties | edxpipelines/patterns/stages.py:40 | `ensure_job` keeps job names unique and existing jobs in place, leaves the stage's other fields alone, and is idempotent |
| GoCD.EnsureTaskInIdempotent | edxpipelines/patterns/tasks.py:180 | `ensure_task` leaves the task present, never removes one, and a second call changes nothing |
| GoCD.WithJobTwice | edxpipelines/patterns/stages.py:40-50 | replacing the same job twice keeps only the second replacement |
| GoCD.WithJobWellFormed | edxpipelines/patterns/stages.py:40-50 | replacing one job's contents under its own name keeps stage and job names unique |
| GoCD.ApplyOpsAppend | edxpipelines/patterns/stages.py:361-403 | running two lists of job operations in turn is running their concatenation |
| GoCD.ApplyOpsKeepsTasks | edxpipelines/patterns/stages.py:361-403 | job operations never remove a task or an artifact: the old task list is a prefix of the new one |
| GoCD.RepeatableIdempotent | edxpipelines/patterns/tasks.py:180 | a builder made only of `ensure_*` operations is idempotent: running it twice is running it once |
| GoCD.Pipeline.EnsureStage | edxpipelines/patterns/pipelines.py:233 | the pipeline's stages become those of `ensure_stage`; existing stages stay in place and the returned stage bears the name |
| GoCD.Pipeline.SetHasManualApproval | edxpipelines/patterns/pipelines.py:245 | only the given stage changes, and it now requires manual approval |
| GoCD.Pipeline.EnsureJob | edxpipelines/patterns/stages.py:40 | only the given stage changes, as `ensure_job` specifies, and the returned job bears the name |
| GoCD.Pipeline.AddTask | edxpipelines/patterns/stages.py:42 | `add_task` appends the task to the job's tasks, whatever they hold |
| GoCD.Pipeline.EnsureTask | edxpipelines/patterns/tasks.py:180 | `ensure_task` appends the task only when an equal one is not there |
| GoCD.Pipeline.EnsureArtifacts | edxpipelines/patterns/stages.py:369 | the artifacts are added to the job's set |
| GoCD.Pipeline.EnsureEnvVars | edxpipelines/patterns/stages.py:27 | the new variables are added, overwriting same-named ones |
| GoCD.Pipeline.EnsureEncryptedEnvVars | edxpipelines/patterns/stages.py:28 | the new encrypted variables are added, overwriting same-named ones |
| GoCD.Pipeline.EnsureUnencryptedSecureEnvVars | edxpipelines/patterns/tasks.py:1049 | the new secure variables are added, overwriting same-named ones |
| GoCD.Pipeline.EnsureMaterial | edxpipelines/patterns/pipelines.py:395 | the material is appended unless an equal one is already there |
| GoCD.WithoutNamed | edxpipelines/patterns/pipelines.py:335 | removing everything named `n` (`ensure_replacement_of_pipeline`'s pipelines, `ensure_removal_of_pipeline_group`'s groups) keeps exactly the elements not bearing that name |
| GoCD.PipelineGroup.EnsureReplacementOfPipeline | edxpipelines/patterns/pipelines.py:335 | any same-named pipeline is dropped and a fresh empty pipeline of that name appended |
| GoCD.Configurator.EnsureRemovalOfPipelineGroup | edxpipelines/patterns/pipelines.py:210 | every group of that name is removed and the others kept in order |
| GoCD.Configurator.EnsurePipelineGroup | edxpipelines/patterns/pipelines.py:211 | the first existing group of that name is returned unchanged, or a fresh empty group is appended |

## Left out

- gomatic itself (the GoCD configurator, its task, artifact and material classes, the REST client) is not part of this model. `GoCD` states the assumptions the builders rely on, and its rows cite the call sites that rely on them.
- Reading and writing files, YAML loading, lxml parsing and serialisation, the click command lines, subprocesses, the `git diff` of `ensure_pipeline`, logging and `exit` are I/O. Configurations and parsed trees are parameters, and the outcome of each script run is a parameter of `DeployPipelines.RunPipelines`.
- `load_yaml_from_file`, `canonicalize_file`, `simplify_file`, `simplify_gocd`, `simplify_element` and the `cli` functions are I/O wrappers and are not modelled.
- `print_success_report` and `print_failure_report` only print, and the `script_result` and `script_name` fixtures run a script and read its output; none is modelled.
- edxpipelines/materials.py is not part of this model. The material factories (`deployment_secure`, `deployment_internal`, `CONFIGURATION`, `TUBULAR`, ...) are the fields of a `MaterialSource` parameter. As written, that file defines neither `material_envvar_bash` nor `EDX_APROS` (nor `deployment_secure` and `deployment_internal`), so the imports at edxpipelines/patterns/pipelines.py:19 and edxpipelines/patterns/apros.py:19 raise `ImportError` and neither module loads; the model describes both modules as if those names were defined.
- `E2E_TESTS_STAGE_NAME`, `MIGRATION_OUTPUT_DIR_NAME_WITH_APP`, `MCKA_PLAYBOOK_PATH` and `ROLLBACK_MIGRATIONS_JOB_NAME` are read but not defined by constants.py; each is a string (or string function) parameter.
- Every recorded `Call` raises in the source: `TypeError` for the calls that leave out required parameters (edxpipelines/patterns/stages.py:122, 217, 312), `AttributeError` for the missing `jobs.*` callees (edxpipelines/patterns/pipelines.py:440, 454, 471, 488; edxpipelines/patterns/apros.py:288, 305, 321) and for `jobs.generate_build_ami`, whose `edp` parameter receives the application URL (edxpipelines/patterns/pipelines.py:415, edxpipelines/patterns/apros.py:256). So the source's stage builders that make such calls, and `generate_service_deployment_pipelines` of both files, never return normally. The model's `Ok` outcomes describe these builders as intended, past those calls; the exceptions themselves are not modelled.
- A mismatched call is recorded as a `Call` on its stage or job. Only the arguments that fix names, artifact locations and file paths are recorded. The per-EDP `config`, `version_tags`, the `overrides` and `additional_migrations` are not.
- Python 2 dictionaries and sets iterate in hash order. Where that order reaches the output, a method picks an arbitrary element (`set.pop`, the environments of `ed_dict`), or the model fixes one order and says so: the secure and internal materials are ensured in EDP order, and `Pipelines.MaterialsContents` and `Apros.MaterialsContents` state their contents without relying on that order.
- A missing key in the per-EDP configuration (`KeyError`) is not modelled: configuration lookups are total, as with the test suite's `MirrorDict`.
- The source's `generate_service_deployment_pipelines` returns `None`; the model also returns the pipelines it built, so that the contracts can name them.
- When there are manual EDPs, the source ensures each common material on the CD pipeline and then on the manual pipeline before moving to the next material; the model ensures all of the CD pipeline's materials first. The two pipelines are distinct objects, so the result is the same.
- Apros.ServiceDeploymentPipelines: after an environment without a second EDP (`IndexError`) the contract names the failing environment but does not state which builds and pipelines were left in the group.
- `generate_ami_deployment_pipeline`, `generate_single_deployment_service_pipelines` and `generate_service_pipelines_with_edge` of pipelines.py, and `generate_single_deployment_service_pipelines` of apros.py, only call the modelled builders with fixed arguments, and are not modelled.
- The group builder of apros.py (edxpipelines/patterns/apros.py:70-86) is the same code as that of pipelines.py and is modelled once, by `Pipelines.ServicePipelineGroupAsWritten` and `Pipelines.ServicePipelineGroup`. The deployment stages of apros.py are those of pipelines.py without an e2e stage (`Apros.CdFrameLaidOut`).
- Jobs.BuildAmi: requires keyword arguments with distinct names that do not collide with the named parameters; a collision raises `TypeError` in Python, which the model does not state.
- Deploy.EnsurePipeline: requires keyword arguments with distinct names, as a Python call always has.
- DeployPipelines.RunPipelines: each call is recorded with its keyword arguments as a dictionary, not as the command line `ensure_pipeline` builds from them (`Deploy.EnsurePipeline` models that construction on a keyword list); a YAML boolean value, which Python would place in the command list as is, has no command-line form in the model.
- DeployPipelines.RunPipelines: requires every selected entry to carry a plain `script` name; an entry without one raises `KeyError` in the source.
- Conftest.EnvLookup: is a pure read; the source's `defaultdict` also stores a new, empty `MirrorDict` under an environment it has no section for, so a script that later walks `env_configs` would see that environment.
- Topology.Pipelines: requires a ranking of the trigger graph (no cycle). On a cycle the source's phase loop never ends; `Topology.CycleNeverReady` and `Topology.CycleUnranked` show why.
- `Exec.render` depends on lxml element truthiness and is not modelled: an `Exec` carries its rendered line.
- `ContextSet.__repr__`, and comparisons or `&` with an operand that is not a `ContextSet`, set or frozenset (`NotImplemented`), are not modelled.
- `test_scripts_are_executable` (file modes), `environment_variables_for_task`, `required_variables_for_task`, `global_environment_variables`, `environment_variables_provided_by`, `extract_labeltemplate_vars` and the tests built on them (`test_environment_variables_defined`, `test_label_templates`, `test_defined_roles`, `test_unnecessary_material_name`) rest on regular expressions over task text and are not modelled.
- `bash_task` formats its script with `str.format(**kwargs)` first; the model takes the script already formatted.
- Integers are unbounded and no operation overflows; strings are sequences of characters with no encoding.

## Findings

| source | as written | input that shows it | evidently intended | confidence | as-written member | corrected member |
|---|---|---|---|---|---|---|
| edxpipelines/topology.py:23-27 | `element.iter('pipeline')` also meets the `pipeline` materials, which have no `name`; with no filter they are selected under the key `None` | a pipeline `b` with a pipeline material on `a`, and no filter | only pipeline definitions are selected | not executed | Topology.SelectAsWritten (shown by Topology.MaterialSelectedAsPipeline) | Topology.Select (Topology.SelectContents) |
| edxpipelines/patterns/pipelines.py:215 | `ensure_permissions(configurator, pipeline_group, Permission.ADMINS, [admin_role])` passes four arguments to a function of three parameters (edxpipelines/patterns/authz.py:19), which raises `TypeError` | any play, e.g. `generate_service_pipeline_group(configurator, "ecommerce")` | `ensure_permissions(pipeline_group, ...)` for each of the three permissions | not executed | Pipelines.ServicePipelineGroupAsWritten | Pipelines.ServicePipelineGroup (Pipelines.GroupAuthorizationLayout) |
