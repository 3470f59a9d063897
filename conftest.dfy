/**
 * Fixtures of the script tests (edxpipelines/tests/scripts/conftest.py):
 * which scripts are tested, the configuration dictionaries that stand in
 * for the secure configuration, and how the test configuration is split
 * between them. Reading the YAML files, loading and running the scripts
 * and parsing their output are I/O and are not part of this model.
 */
module Conftest {
  import opened Wrappers
  import DeployPipelines

  /** A dictionary that answers `dummy_<key>` for every key it lacks. */
  class MirrorDict {
    var entries: map<string, string>

    constructor()
      ensures entries == map[]
    {
      entries := map[];
    }

    /**
     * `d[key]`: the stored value, or `dummy_<key>` from `__missing__`. A
     * lookup reads the dictionary and stores nothing.
     */
    function Get(key: string): (r: string)
      reads this
      ensures key in entries ==> r == entries[key]
      ensures key !in entries ==> r == "dummy_" + key
    {
      if key in entries then entries[key] else "dummy_" + key
    }

    /** `d.update(values)`: the new values win. */
    method Update(values: map<string, string>)
      modifies this
      ensures entries == old(entries) + values
    {
      entries := entries + values;
    }
  }

  // ---------------------------------------------------------------------
  // pytest_generate_tests (conftest.py:17-42)
  // ---------------------------------------------------------------------

  /**
   * The scripts under test, environment by environment in `order` (the
   * dictionary's iteration order): every environment but `anchors`, each
   * filtered as `parse_config` filters without a script filter.
   */
  function SelectedScripts(config: map<string, seq<DeployPipelines.ScriptEntry>>, order: seq<string>)
    : Result<seq<DeployPipelines.ScriptEntry>, DeployPipelines.Error>
    requires forall i :: 0 <= i < |order| ==> order[i] in config
  {
    if |order| == 0 then Ok([])
    else
      var init := SelectedScripts(config, order[..|order| - 1]);
      var env := order[|order| - 1];
      if init.Err? || env == "anchors" then init
      else
        var more := DeployPipelines.Selected(config[env], None);
        if more.Err? then Err(more.error) else Ok(init.value + more.value)
  }

  /** `order` lists every environment once. */
  predicate IsOrder(config: map<string, seq<DeployPipelines.ScriptEntry>>, order: seq<string>)
  {
    (forall i :: 0 <= i < |order| ==> order[i] in config)
    && (forall e :: e in config ==> e in order)
    && (forall i, j :: 0 <= i < j < |order| ==> order[i] != order[j])
  }

  /** The list comprehension of `pytest_generate_tests`, walking the environments in `order`. */
  method SelectScripts(config: map<string, seq<DeployPipelines.ScriptEntry>>, order: seq<string>)
    returns (result: Result<seq<DeployPipelines.ScriptEntry>, DeployPipelines.Error>)
    requires IsOrder(config, order)
    ensures result == SelectedScripts(config, order)
  {
    var scripts: seq<DeployPipelines.ScriptEntry> := [];
    var k := 0;
    while k < |order|
      invariant 0 <= k <= |order|
      invariant SelectedScripts(config, order[..k]) == Ok(scripts)
    {
      assert order[..k + 1][..k] == order[..k];
      var env := order[k];
      if env != "anchors" {
        var more := DeployPipelines.ParseConfig(config, env, None);
        if more.Err? {
          SelectedScriptsErr(config, order, k + 1);
          return Err(more.error);
        }
        scripts := scripts + more.value;
      }
      k := k + 1;
    }
    assert order[..k] == order;
    result := Ok(scripts);
  }

  lemma {:induction false} SelectedScriptsErr(config: map<string, seq<DeployPipelines.ScriptEntry>>, order: seq<string>, k: nat)
    requires forall i :: 0 <= i < |order| ==> order[i] in config
    requires k <= |order| && SelectedScripts(config, order[..k]).Err?
    ensures SelectedScripts(config, order) == SelectedScripts(config, order[..k])
    decreases |order| - k
  {
    if k < |order| {
      assert order[..k + 1][..k] == order[..k];
      SelectedScriptsErr(config, order, k + 1);
    } else {
      assert order[..k] == order;
    }
  }

  /** `e` is, without its `enabled` key, an enabled script of an environment other than `anchors`. */
  predicate SelectableFrom(config: map<string, seq<DeployPipelines.ScriptEntry>>, env: string, e: DeployPipelines.ScriptEntry)
  {
    env in config && env != "anchors"
    && exists i :: 0 <= i < |config[env]| && "enabled" in config[env][i]
         && DeployPipelines.Keeps(config[env][i], None) && e == config[env][i] - {"enabled"}
  }

  /** One environment's contribution: its enabled scripts. */
  lemma EnvSelection(config: map<string, seq<DeployPipelines.ScriptEntry>>, env: string, e: DeployPipelines.ScriptEntry)
    requires env in config && env != "anchors"
    requires forall i :: 0 <= i < |config[env]| ==> "enabled" in config[env][i]
    ensures DeployPipelines.Selected(config[env], None).Ok?
    ensures e in DeployPipelines.Selected(config[env], None).value <==> SelectableFrom(config, env, e)
  {
    DeployPipelines.SelectedIsFilter(config[env], None);
    DeployPipelines.KeptEntriesMembers(config[env], None, e);
  }

  /**
   * When every script outside `anchors` has its `enabled` key, the
   * selection succeeds and holds exactly the enabled scripts of the other
   * environments, without their `enabled` key; `anchors` contributes none.
   */
  lemma {:induction false} SelectedScriptsMembers(config: map<string, seq<DeployPipelines.ScriptEntry>>, order: seq<string>, e: DeployPipelines.ScriptEntry)
    requires forall i :: 0 <= i < |order| ==> order[i] in config
    requires forall env, i :: env in config && env != "anchors" && 0 <= i < |config[env]| ==> "enabled" in config[env][i]
    ensures SelectedScripts(config, order).Ok?
    ensures e in SelectedScripts(config, order).value <==> exists k :: 0 <= k < |order| && SelectableFrom(config, order[k], e)
  {
    if |order| > 0 {
      var n := |order| - 1;
      var init := order[..n];
      var env := order[n];
      SelectedScriptsMembers(config, init, e);
      var here := SelectableFrom(config, env, e);
      if env != "anchors" {
        EnvSelection(config, env, e);
      }
      assert (exists k :: 0 <= k < |order| && SelectableFrom(config, order[k], e))
         <==> (exists k :: 0 <= k < n && SelectableFrom(config, init[k], e)) || here
      by {
        if exists k :: 0 <= k < |order| && SelectableFrom(config, order[k], e) {
          var k :| 0 <= k < |order| && SelectableFrom(config, order[k], e);
          if k < n {
            assert init[k] == order[k];
          }
        }
        if exists k :: 0 <= k < n && SelectableFrom(config, init[k], e) {
          var k :| 0 <= k < n && SelectableFrom(config, init[k], e);
          assert init[k] == order[k];
        }
      }
    }
  }

  // ---------------------------------------------------------------------
  // dummy_ensure_pipeline (conftest.py:53-74)
  // ---------------------------------------------------------------------

  /**
   * The configuration split: `global-config` fills `config`; every other
   * section fills its own `MirrorDict` in `env_configs`. Sections come in
   * the dictionary's (arbitrary) order.
   */
  method SplitTestConfig(testConfig: map<string, map<string, string>>)
    returns (config: MirrorDict, envConfigs: map<string, MirrorDict>)
    ensures fresh(config)
    ensures config.entries == if "global-config" in testConfig then testConfig["global-config"] else map[]
    ensures envConfigs.Keys == testConfig.Keys - {"global-config"}
    ensures forall env :: env in envConfigs ==> fresh(envConfigs[env]) && envConfigs[env].entries == testConfig[env]
    ensures forall env :: env in envConfigs ==> envConfigs[env] != config
    ensures forall e, f :: e in envConfigs && f in envConfigs && e != f ==> envConfigs[e] != envConfigs[f]
  {
    config := new MirrorDict();
    var sections := testConfig;
    if "global-config" in sections {
      config.Update(sections["global-config"]);
      sections := sections - {"global-config"};
    }
    envConfigs := map[];
    var todo := sections.Keys;
    while todo != {}
      invariant todo <= sections.Keys
      invariant fresh(config)
      invariant config.entries == if "global-config" in testConfig then testConfig["global-config"] else map[]
      invariant envConfigs.Keys == sections.Keys - todo
      invariant forall env :: env in envConfigs ==> fresh(envConfigs[env]) && envConfigs[env] != config
      invariant forall env :: env in envConfigs ==> envConfigs[env].entries == testConfig[env]
      invariant forall e, f :: e in envConfigs && f in envConfigs && e != f ==> envConfigs[e] != envConfigs[f]
      decreases todo
    {
      var env :| env in todo;
      var d := new MirrorDict();
      d.Update(sections[env]);
      envConfigs := envConfigs[env := d];
      todo := todo - {env};
    }
  }

  /**
   * `env_configs[env][key]`: an environment without a section answers
   * every key with a dummy. The source's `defaultdict` also stores a new,
   * empty `MirrorDict` under that environment on such a read; this lookup
   * changes nothing.
   */
  function EnvLookup(envConfigs: map<string, MirrorDict>, env: string, key: string): (r: string)
    reads set e | e in envConfigs :: envConfigs[e]
    ensures env !in envConfigs ==> r == "dummy_" + key
    ensures env in envConfigs && key in envConfigs[env].entries ==> r == envConfigs[env].entries[key]
  {
    if env in envConfigs then envConfigs[env].Get(key) else "dummy_" + key
  }
}
