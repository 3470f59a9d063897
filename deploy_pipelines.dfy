/**
 * Running every enabled install script of one environment
 * (deploy_pipelines.py).
 *
 * `parse_config` walks the environment's script entries in file order,
 * pops each entry's `enabled` key and keeps the entries whose flag is
 * truthy and, when a filter is given, whose `script` is the filter.
 * `run_pipelines` exits 1 when nothing was selected; otherwise it pops
 * each entry's `script`, runs it with the remaining keys as keyword
 * arguments (a `topology` key binding `ensure_pipeline`'s own parameter)
 * and files it under successes or failures; it exits 1 iff some run
 * failed. An entry that names `dry_run` or `save_config_locally` passes
 * that keyword twice, and the `TypeError` ends the command there. Loading the YAML file, running the scripts and the
 * reports are I/O: the configuration and each run's outcome are
 * parameters.
 */
module DeployPipelines {
  import opened Wrappers
  import Deploy

  /** A value in a script entry: a YAML boolean or a script argument. */
  datatype ConfigValue = Flag(b: bool) | Arg(v: Deploy.ArgValue)

  /** Python truthiness of an entry's value. */
  predicate Truthy(v: ConfigValue)
  {
    match v
    case Flag(b) => b
    case Arg(Single(s)) => s != ""
    case Arg(Many(items)) => items != []
  }

  /** One script entry of the configuration file. */
  type ScriptEntry = map<string, ConfigValue>

  /** The exceptions the two functions let escape. */
  datatype Error = KeyError(key: string)

  /** `script_filter == script['script']`, for an entry that has a `script` key. */
  predicate MatchesFilter(entry: ScriptEntry, scriptFilter: string)
    requires "script" in entry
  {
    entry["script"] == Arg(Deploy.Single(scriptFilter))
  }

  /**
   * What `parse_config` returns for the environment's entries: the
   * selected entries, each without its `enabled` key, in file order; a
   * missing `enabled`, or a missing `script` when filtering, raises.
   */
  function Selected(entries: seq<ScriptEntry>, scriptFilter: Option<string>): Result<seq<ScriptEntry>, Error>
  {
    if |entries| == 0 then Ok([])
    else
      var init := Selected(entries[..|entries| - 1], scriptFilter);
      var entry := entries[|entries| - 1];
      if init.Err? then init
      else if "enabled" !in entry then Err(KeyError("enabled"))
      else
        var rest := entry - {"enabled"};
        if !Truthy(entry["enabled"]) then init
        else if scriptFilter.None? then Ok(init.value + [rest])
        else if "script" !in rest then Err(KeyError("script"))
        else if MatchesFilter(rest, scriptFilter.value) then Ok(init.value + [rest])
        else init
  }

  /** The entries `parse_config` keeps: enabled and, when filtering, running the filtered script. */
  predicate Keeps(entry: ScriptEntry, scriptFilter: Option<string>)
    requires "enabled" in entry
  {
    var rest := entry - {"enabled"};
    Truthy(entry["enabled"]) && (scriptFilter.None? || ("script" in rest && MatchesFilter(rest, scriptFilter.value)))
  }

  /**
   * `parse_config`: the environment's entries are looked up (a missing
   * environment raises), then examined in order.
   */
  method ParseConfig(config: map<string, seq<ScriptEntry>>, environment: string, scriptFilter: Option<string>)
    returns (result: Result<seq<ScriptEntry>, Error>)
    ensures environment !in config ==> result == Err(KeyError(environment))
    ensures environment in config ==> result == Selected(config[environment], scriptFilter)
  {
    if environment !in config {
      return Err(KeyError(environment));
    }
    var entries := config[environment];
    var kept: seq<ScriptEntry> := [];
    var i := 0;
    while i < |entries|
      invariant 0 <= i <= |entries|
      invariant Selected(entries[..i], scriptFilter) == Ok(kept)
    {
      assert entries[..i + 1][..i] == entries[..i];
      var entry := entries[i];
      if "enabled" !in entry {
        SelectedErrPropagates(entries, scriptFilter, i + 1);
        return Err(KeyError("enabled"));
      }
      var enabled := entry["enabled"];
      entry := entry - {"enabled"};
      if Truthy(enabled) {
        if scriptFilter.None? {
          kept := kept + [entry];
        } else {
          if "script" !in entry {
            SelectedErrPropagates(entries, scriptFilter, i + 1);
            return Err(KeyError("script"));
          }
          if entry["script"] == Arg(Deploy.Single(scriptFilter.value)) {
            kept := kept + [entry];
          }
        }
      }
      i := i + 1;
    }
    assert entries[..i] == entries;
    result := Ok(kept);
  }

  /** A prefix that raises makes the whole walk raise the same way. */
  lemma {:induction false} SelectedErrPropagates(entries: seq<ScriptEntry>, scriptFilter: Option<string>, k: nat)
    requires k <= |entries| && Selected(entries[..k], scriptFilter).Err?
    ensures Selected(entries, scriptFilter) == Selected(entries[..k], scriptFilter)
    decreases |entries| - k
  {
    if k < |entries| {
      assert entries[..k + 1][..k] == entries[..k];
      SelectedErrPropagates(entries, scriptFilter, k + 1);
    } else {
      assert entries[..k] == entries;
    }
  }

  /**
   * When every entry has its `enabled` key (and, when filtering, every
   * enabled entry its `script` key), `parse_config` succeeds and keeps, in
   * order, exactly the kept entries, each without `enabled`.
   */
  lemma {:induction false} SelectedIsFilter(entries: seq<ScriptEntry>, scriptFilter: Option<string>)
    requires forall i :: 0 <= i < |entries| ==> "enabled" in entries[i]
    requires scriptFilter.Some? ==> forall i :: 0 <= i < |entries| && Truthy(entries[i]["enabled"]) ==> "script" in entries[i]
    ensures Selected(entries, scriptFilter).Ok?
    ensures Selected(entries, scriptFilter).value
      == KeptEntries(entries, scriptFilter)
  {
    if |entries| > 0 {
      SelectedIsFilter(entries[..|entries| - 1], scriptFilter);
    }
  }

  /** The kept entries without their `enabled` key, in order. */
  function KeptEntries(entries: seq<ScriptEntry>, scriptFilter: Option<string>): (r: seq<ScriptEntry>)
    requires forall i :: 0 <= i < |entries| ==> "enabled" in entries[i]
    ensures forall e :: e in r ==> "enabled" !in e
    ensures |r| <= |entries|
  {
    if |entries| == 0 then []
    else
      var last := entries[|entries| - 1];
      KeptEntries(entries[..|entries| - 1], scriptFilter) + (if Keeps(last, scriptFilter) then [last - {"enabled"}] else [])
  }

  /** An entry is in the result iff some kept entry, without `enabled`, is that entry. */
  lemma {:induction false} KeptEntriesMembers(entries: seq<ScriptEntry>, scriptFilter: Option<string>, e: ScriptEntry)
    requires forall i :: 0 <= i < |entries| ==> "enabled" in entries[i]
    ensures e in KeptEntries(entries, scriptFilter)
      <==> exists i :: 0 <= i < |entries| && Keeps(entries[i], scriptFilter) && e == entries[i] - {"enabled"}
  {
    if |entries| > 0 {
      var n := |entries| - 1;
      KeptEntriesMembers(entries[..n], scriptFilter, e);
      if e in KeptEntries(entries, scriptFilter) && e !in KeptEntries(entries[..n], scriptFilter) {
        assert Keeps(entries[n], scriptFilter) && e == entries[n] - {"enabled"};
      }
      if exists i :: 0 <= i < |entries| && Keeps(entries[i], scriptFilter) && e == entries[i] - {"enabled"} {
        var i :| 0 <= i < |entries| && Keeps(entries[i], scriptFilter) && e == entries[i] - {"enabled"};
        if i < n {
          assert entries[..n][i] == entries[i];
        }
      }
    }
  }

  // ---------------------------------------------------------------------
  // run_pipelines (deploy_pipelines.py:79-127)
  // ---------------------------------------------------------------------

  /** A failed run: the script's name and the keyword arguments it was given (the failing command line and its output are I/O). */
  datatype Failure = Failure(script: string, args: ScriptEntry)

  /**
   * One `ensure_pipeline(script_name, dry_run=..., save_config_locally=...,
   * **deploy_script)` call as the parameters of `ensure_pipeline`
   * (edxpipelines/deploy.py:13) bind it: the popped script name, the two
   * flags, `topology` from the entry's own `topology` key (false when it
   * has none), and every other key of the entry as a keyword argument.
   */
  datatype Invocation = Invocation(script: string, dryRun: bool, saveConfigLocally: bool, topology: bool, kwargs: ScriptEntry)

  /**
   * How `run_pipelines` ends: the calls it made, in order, what it
   * collected, and its exit code, or `None` when a call raised
   * `TypeError`, which ends the command before any report or exit.
   */
  datatype Run = Run(calls: seq<Invocation>, success: seq<string>, failures: seq<Failure>, exitCode: Option<int>)

  /** An entry whose `script` is a plain name, as `ensure_pipeline` needs. */
  predicate Runnable(entry: ScriptEntry)
  {
    "script" in entry && entry["script"].Arg? && entry["script"].v.Single?
  }

  function ScriptName(entry: ScriptEntry): string
    requires Runnable(entry)
  {
    entry["script"].v.value
  }

  /**
   * An entry that also names `dry_run` or `save_config_locally`: the call
   * passes that keyword twice and raises `TypeError`.
   */
  predicate Collides(entry: ScriptEntry)
  {
    "dry_run" in entry || "save_config_locally" in entry
  }

  /** The index of the first colliding entry, or the number of entries when none collides. */
  function FirstCollision(scripts: seq<ScriptEntry>): (k: nat)
    ensures k <= |scripts|
    ensures k < |scripts| ==> Collides(scripts[k])
    ensures forall i :: 0 <= i < k ==> !Collides(scripts[i])
  {
    if |scripts| == 0 || Collides(scripts[0]) then 0
    else 1 + FirstCollision(scripts[1..])
  }

  /** The names of the entries whose run succeeded, in order. */
  function Succeeded(scripts: seq<ScriptEntry>, passed: seq<bool>): (r: seq<string>)
    requires |passed| == |scripts| && forall i :: 0 <= i < |scripts| ==> Runnable(scripts[i])
  {
    if |scripts| == 0 then []
    else
      var n := |scripts| - 1;
      Succeeded(scripts[..n], passed[..n]) + (if passed[n] then [ScriptName(scripts[n])] else [])
  }

  /** The failures of the entries whose run raised, in order, with their remaining keys. */
  function Failed(scripts: seq<ScriptEntry>, passed: seq<bool>): (r: seq<Failure>)
    requires |passed| == |scripts| && forall i :: 0 <= i < |scripts| ==> Runnable(scripts[i])
  {
    if |scripts| == 0 then []
    else
      var n := |scripts| - 1;
      Failed(scripts[..n], passed[..n])
      + (if passed[n] then [] else [Failure(ScriptName(scripts[n]), scripts[n] - {"script"})])
  }

  /** The call one entry makes. */
  function CallOf(entry: ScriptEntry, dryRun: bool, saveConfigLocally: bool): Invocation
    requires Runnable(entry)
  {
    var rest := entry - {"script"};
    Invocation(ScriptName(entry), dryRun, saveConfigLocally,
               "topology" in rest && Truthy(rest["topology"]), rest - {"topology"})
  }

  /** The `ensure_pipeline` calls the entries make, in order. */
  function Invocations(scripts: seq<ScriptEntry>, dryRun: bool, saveConfigLocally: bool): (r: seq<Invocation>)
    requires forall i :: 0 <= i < |scripts| ==> Runnable(scripts[i])
    ensures |r| == |scripts|
  {
    if |scripts| == 0 then []
    else
      var n := |scripts| - 1;
      Invocations(scripts[..n], dryRun, saveConfigLocally) + [CallOf(scripts[n], dryRun, saveConfigLocally)]
  }

  /**
   * `run_pipelines` after `parse_config`: `passed[i]` is whether the i-th
   * script's run returned (rather than raising `CalledProcessError`).
   * The entries before the first colliding one run; that one raises
   * `TypeError`, which the loop does not catch.
   */
  method RunPipelines(scripts: seq<ScriptEntry>, dryRun: bool, saveConfigLocally: bool, passed: seq<bool>) returns (run: Run)
    requires |passed| == |scripts| && forall i :: 0 <= i < |scripts| ==> Runnable(scripts[i])
    ensures |scripts| == 0 ==> run == Run([], [], [], Some(1))
    ensures |scripts| > 0 ==>
      var k := FirstCollision(scripts);
      && run.calls == Invocations(scripts[..k], dryRun, saveConfigLocally)
      && run.success == Succeeded(scripts[..k], passed[..k])
      && run.failures == Failed(scripts[..k], passed[..k])
      && (run.exitCode.None? <==> k < |scripts|)
      && (run.exitCode == Some(1) <==> k == |scripts| && run.failures != [])
      && (run.exitCode == Some(0) <==> k == |scripts| && run.failures == [])
  {
    if |scripts| == 0 {
      return Run([], [], [], Some(1));
    }
    var calls: seq<Invocation> := [];
    var success: seq<string> := [];
    var failures: seq<Failure> := [];
    var i := 0;
    while i < |scripts|
      invariant 0 <= i <= |scripts|
      invariant forall j :: 0 <= j < i ==> !Collides(scripts[j])
      invariant calls == Invocations(scripts[..i], dryRun, saveConfigLocally)
      invariant success == Succeeded(scripts[..i], passed[..i])
      invariant failures == Failed(scripts[..i], passed[..i])
    {
      assert scripts[..i + 1][..i] == scripts[..i];
      assert passed[..i + 1][..i] == passed[..i];
      var deployScript := scripts[i];
      var scriptName := deployScript["script"].v.value;
      deployScript := deployScript - {"script"};
      if "dry_run" in deployScript || "save_config_locally" in deployScript {
        return Run(calls, success, failures, None);
      }
      var topology := "topology" in deployScript && Truthy(deployScript["topology"]);
      calls := calls + [Invocation(scriptName, dryRun, saveConfigLocally, topology, deployScript - {"topology"})];
      if passed[i] {
        success := success + [scriptName];
      } else {
        failures := failures + [Failure(scriptName, deployScript)];
      }
      i := i + 1;
    }
    assert scripts[..i] == scripts && passed[..i] == passed;
    run := Run(calls, success, failures, Some(if failures != [] then 1 else 0));
  }

  /**
   * Each entry makes one call: its `script` is popped as the script name,
   * the flags are passed on, its `topology` key, when present, sets the
   * `topology` parameter, and every other key of the entry, with its
   * value, is a keyword argument.
   */
  lemma {:induction false} InvocationsPopScript(scripts: seq<ScriptEntry>, dryRun: bool, saveConfigLocally: bool)
    requires forall i :: 0 <= i < |scripts| ==> Runnable(scripts[i])
    ensures var calls := Invocations(scripts, dryRun, saveConfigLocally);
      && |calls| == |scripts|
      && forall i :: 0 <= i < |scripts| ==>
           && calls[i].script == scripts[i]["script"].v.value
           && calls[i].dryRun == dryRun && calls[i].saveConfigLocally == saveConfigLocally
           && (calls[i].topology <==> "topology" in scripts[i] && Truthy(scripts[i]["topology"]))
           && calls[i].kwargs.Keys == scripts[i].Keys - {"script", "topology"}
           && forall k :: k in calls[i].kwargs ==> calls[i].kwargs[k] == scripts[i][k]
  {
    if |scripts| > 0 {
      var n := |scripts| - 1;
      InvocationsPopScript(scripts[..n], dryRun, saveConfigLocally);
      forall i | 0 <= i < n ensures scripts[..n][i] == scripts[i] {}
    }
  }

  /**
   * A failure reports the script name of the call that raised and the
   * entry's remaining keys: the call's keyword arguments and, when the
   * entry has one, its `topology` key.
   */
  lemma {:induction false} FailuresAreCalls(scripts: seq<ScriptEntry>, dryRun: bool, saveConfigLocally: bool, passed: seq<bool>)
    requires |passed| == |scripts| && forall i :: 0 <= i < |scripts| ==> Runnable(scripts[i])
    ensures forall f :: f in Failed(scripts, passed) ==>
      exists i :: 0 <= i < |scripts| && !passed[i]
        && var c := Invocations(scripts, dryRun, saveConfigLocally)[i];
           f.script == c.script && f.args - {"topology"} == c.kwargs
  {
    if |scripts| > 0 {
      var n := |scripts| - 1;
      FailuresAreCalls(scripts[..n], dryRun, saveConfigLocally, passed[..n]);
      InvocationsPopScript(scripts, dryRun, saveConfigLocally);
      InvocationsPopScript(scripts[..n], dryRun, saveConfigLocally);
      var calls := Invocations(scripts, dryRun, saveConfigLocally);
      assert Invocations(scripts[..n], dryRun, saveConfigLocally) == calls[..n];
      forall f | f in Failed(scripts, passed)
        ensures exists i :: 0 <= i < |scripts| && !passed[i] && f.script == calls[i].script && f.args - {"topology"} == calls[i].kwargs
      {
        if f in Failed(scripts[..n], passed[..n]) {
          var i :| 0 <= i < n && !passed[..n][i]
            && var c := Invocations(scripts[..n], dryRun, saveConfigLocally)[i];
               f.script == c.script && f.args - {"topology"} == c.kwargs;
          assert !passed[i] && f.script == calls[i].script && f.args - {"topology"} == calls[i].kwargs;
        } else {
          assert !passed[n] && f.script == calls[n].script && f.args - {"topology"} == calls[n].kwargs;
        }
      }
    }
  }

  /** Every script ends up in exactly one of the two lists. */
  lemma {:induction false} RunPartition(scripts: seq<ScriptEntry>, passed: seq<bool>)
    requires |passed| == |scripts| && forall i :: 0 <= i < |scripts| ==> Runnable(scripts[i])
    ensures |Succeeded(scripts, passed)| + |Failed(scripts, passed)| == |scripts|
    ensures forall f :: f in Failed(scripts, passed) ==> "script" !in f.args
  {
    if |scripts| > 0 {
      var n := |scripts| - 1;
      RunPartition(scripts[..n], passed[..n]);
    }
  }

  /** No run is reported failed iff every run passed. */
  lemma {:induction false} RunNoFailures(scripts: seq<ScriptEntry>, passed: seq<bool>)
    requires |passed| == |scripts| && forall i :: 0 <= i < |scripts| ==> Runnable(scripts[i])
    ensures Failed(scripts, passed) == [] <==> forall i :: 0 <= i < |passed| ==> passed[i]
  {
    if |scripts| > 0 {
      var n := |scripts| - 1;
      RunNoFailures(scripts[..n], passed[..n]);
      if Failed(scripts, passed) == [] {
        forall i | 0 <= i < |passed| ensures passed[i] {
          if i < n {
            assert passed[..n][i] == passed[i];
          }
        }
      }
    }
  }
}
