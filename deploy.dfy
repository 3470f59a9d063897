/**
 * Running a pipeline install script (edxpipelines/deploy.py).
 *
 * `ensure_pipeline` turns its flags and keyword arguments into the
 * script's command line: `--dry-run` and `--save-config` first, then one
 * `--key value` option per value, keys in sorted order, a list value
 * giving the option once per element and a list element spliced in after
 * its option. Running the command, the before/after diff and the files it
 * writes are I/O; the model returns the command and which diff, if any,
 * follows it.
 */
module Deploy {
  import opened Wrappers
  import Sorting

  /** One element of a keyword argument's value list: a word, or a list spliced in whole. */
  datatype ArgItem = Word(word: string) | Words(words: seq<string>)

  /** A keyword argument's value: a single word or a list. */
  datatype ArgValue = Single(value: string) | Many(items: seq<ArgItem>)

  /** `if not isinstance(args, list): args = [args]`. */
  function ValueItems(v: ArgValue): seq<ArgItem>
  {
    match v
    case Single(w) => [Word(w)]
    case Many(items) => items
  }

  /** `if not isinstance(arg, list): arg = [arg]`. */
  function ItemWords(item: ArgItem): seq<string>
  {
    match item
    case Word(w) => [w]
    case Words(ws) => ws
  }

  /** The option flag, then the element's words, for each element in turn. */
  function OptionWords(key: string, items: seq<ArgItem>): seq<string>
  {
    if |items| == 0 then []
    else OptionWords(key, items[..|items| - 1]) + (["--" + key] + ItemWords(items[|items| - 1]))
  }

  /** Each keyword argument's options, in the order given. */
  function KwargWords(pairs: seq<(string, ArgValue)>): seq<string>
  {
    if |pairs| == 0 then []
    else KwargWords(pairs[..|pairs| - 1]) + OptionWords(pairs[|pairs| - 1].0, ValueItems(pairs[|pairs| - 1].1))
  }

  function FlagWords(dryRun: bool, saveConfigLocally: bool): seq<string>
  {
    (if dryRun then ["--dry-run"] else []) + (if saveConfigLocally then ["--save-config"] else [])
  }

  function KwargKey(p: (string, ArgValue)): Sorting.Key
  {
    [Some(p.0)]
  }

  /** `sorted(kwargs.items())`: the names are distinct, so the values never decide. */
  function SortedKwargs(kwargs: seq<(string, ArgValue)>): seq<(string, ArgValue)>
  {
    Sorting.SortBy(kwargs, KwargKey)
  }

  /** The arguments `ensure_pipeline` passes to its script. */
  function ScriptArgs(dryRun: bool, saveConfigLocally: bool, kwargs: seq<(string, ArgValue)>): seq<string>
  {
    FlagWords(dryRun, saveConfigLocally) + KwargWords(SortedKwargs(kwargs))
  }

  /** The keyword arguments form a dictionary: no name twice. */
  predicate DistinctNames(kwargs: seq<(string, ArgValue)>)
  {
    forall i, j | 0 <= i < j < |kwargs| :: kwargs[i].0 != kwargs[j].0
  }

  /** The tool that renders the two configurations before they are compared. */
  datatype DiffTool = Simplify | Canonicalize

  /** The diff runs only for a dry run that saves the configuration; `topology` picks the renderer. */
  function DiffAfter(dryRun: bool, saveConfigLocally: bool, topology: bool): (r: Option<DiffTool>)
  {
    if dryRun && saveConfigLocally then Some(if topology then Simplify else Canonicalize) else None
  }

  /** The diff runs iff both flags hold, and simplifies iff `topology` is asked for. */
  lemma DiffAfterCases(dryRun: bool, saveConfigLocally: bool, topology: bool)
    ensures DiffAfter(dryRun, saveConfigLocally, topology).Some? <==> dryRun && saveConfigLocally
    ensures DiffAfter(dryRun, saveConfigLocally, topology) == Some(Simplify) <==> dryRun && saveConfigLocally && topology
  {
  }

  /**
   * The script's arguments, built as `ensure_pipeline` builds them: the
   * two flags, then for each keyword argument in sorted order and each
   * element of its value, the option and the element.
   */
  method BuildScriptArgs(dryRun: bool, saveConfigLocally: bool, kwargs: seq<(string, ArgValue)>)
    returns (scriptArgs: seq<string>)
    ensures scriptArgs == ScriptArgs(dryRun, saveConfigLocally, kwargs)
  {
    scriptArgs := [];
    if dryRun {
      scriptArgs := scriptArgs + ["--dry-run"];
    }
    if saveConfigLocally {
      scriptArgs := scriptArgs + ["--save-config"];
    }
    scriptArgs := AppendKwargs(scriptArgs, SortedKwargs(kwargs));
  }

  /** The outer loop: each keyword argument's options, in the given order. */
  method AppendKwargs(scriptArgs: seq<string>, pairs: seq<(string, ArgValue)>) returns (r: seq<string>)
    ensures r == scriptArgs + KwargWords(pairs)
  {
    r := scriptArgs;
    var k := 0;
    while k < |pairs|
      invariant 0 <= k <= |pairs|
      invariant r == scriptArgs + KwargWords(pairs[..k])
    {
      ghost var done := KwargWords(pairs[..k]);
      r := AppendOptions(r, pairs[k].0, ValueItems(pairs[k].1));
      assert r == scriptArgs + KwargWords(pairs[..k + 1]) by {
        KwargWordsSnoc(pairs[..k + 1], pairs[..k], pairs[k]);
        assert r == scriptArgs + (done + OptionWords(pairs[k].0, ValueItems(pairs[k].1)));
      }
      k := k + 1;
    }
    assert pairs[..k] == pairs;
  }

  /** The inner loop: for each element, append the option and extend with the element's words. */
  method AppendOptions(scriptArgs: seq<string>, key: string, args: seq<ArgItem>) returns (r: seq<string>)
    ensures r == scriptArgs + OptionWords(key, args)
  {
    r := scriptArgs;
    var j := 0;
    while j < |args|
      invariant 0 <= j <= |args|
      invariant r == scriptArgs + OptionWords(key, args[..j])
    {
      ghost var prev := OptionWords(key, args[..j]);
      r := r + ["--" + key];
      var arg := ItemWords(args[j]);
      r := r + arg;
      OptionWordsSnoc(key, args, j);
      assert r == scriptArgs + (prev + ["--" + key] + arg);
      j := j + 1;
    }
    assert args[..j] == args;
  }

  /**
   * `ensure_pipeline`: the command is `python`, the script and its
   * arguments; the result says which diff follows it.
   */
  method EnsurePipeline(script: string, dryRun: bool, saveConfigLocally: bool, topology: bool,
    kwargs: seq<(string, ArgValue)>) returns (command: seq<string>, diff: Option<DiffTool>)
    requires DistinctNames(kwargs)
    ensures |command| >= 2 && command[..2] == ["python", script]
    ensures command[2..] == ScriptArgs(dryRun, saveConfigLocally, kwargs)
    ensures diff == DiffAfter(dryRun, saveConfigLocally, topology)
  {
    var scriptArgs := BuildScriptArgs(dryRun, saveConfigLocally, kwargs);
    command := ["python", script] + scriptArgs;
    diff := None;
    if dryRun && saveConfigLocally {
      diff := Some(if topology then Simplify else Canonicalize);
    }
  }

  /** The flags come first, `--dry-run` iff a dry run and `--save-config` iff saving, in that order. */
  lemma FlagsFirst(dryRun: bool, saveConfigLocally: bool, kwargs: seq<(string, ArgValue)>)
    ensures var flags := FlagWords(dryRun, saveConfigLocally);
      && ScriptArgs(dryRun, saveConfigLocally, kwargs)[..|flags|] == flags
      && ("--dry-run" in flags <==> dryRun)
      && ("--save-config" in flags <==> saveConfigLocally)
      && (dryRun && saveConfigLocally ==> flags == ["--dry-run", "--save-config"])
  {
  }

  /** A single value gives the option once, followed by the value. */
  lemma SingleValueWords(key: string, v: string)
    ensures OptionWords(key, ValueItems(Single(v))) == ["--" + key, v]
  {
    assert [Word(v)][..0] == [];
  }

  /** A list of plain words gives the option before each of them: `--key a --key b`. */
  lemma {:induction false} WordListWords(key: string, words: seq<string>)
    ensures var r := OptionWords(key, seq(|words|, i requires 0 <= i < |words| => Word(words[i])));
      && |r| == 2 * |words|
      && forall i :: 0 <= i < |words| ==> r[2 * i] == "--" + key && r[2 * i + 1] == words[i]
  {
    var items := seq(|words|, i requires 0 <= i < |words| => Word(words[i]));
    if |words| > 0 {
      var n := |words| - 1;
      WordListWords(key, words[..n]);
      assert items[..n] == seq(n, i requires 0 <= i < n => Word(words[..n][i]));
    }
  }

  /** A list element that is itself a list is spliced in after a single option. */
  lemma NestedListSpliced(key: string, words: seq<string>)
    ensures OptionWords(key, ValueItems(Many([Words(words)]))) == ["--" + key] + words
  {
    assert [Words(words)][..0] == [];
  }

  lemma OptionWordsSnoc(key: string, items: seq<ArgItem>, j: nat)
    requires j < |items|
    ensures OptionWords(key, items[..j + 1]) == OptionWords(key, items[..j]) + ["--" + key] + ItemWords(items[j])
  {
    assert items[..j + 1][..j] == items[..j];
  }

  lemma KwargWordsSnoc(s: seq<(string, ArgValue)>, init: seq<(string, ArgValue)>, last: (string, ArgValue))
    requires s == init + [last]
    ensures KwargWords(s) == KwargWords(init) + OptionWords(last.0, ValueItems(last.1))
  {
    assert s[..|s| - 1] == init;
  }

  /**
   * The keyword arguments are emitted in strictly increasing name order,
   * each of them exactly once.
   */
  lemma SortedKwargsOrder(kwargs: seq<(string, ArgValue)>)
    requires DistinctNames(kwargs)
    ensures var s := SortedKwargs(kwargs);
      && multiset(s) == multiset(kwargs)
      && forall i, j | 0 <= i < j < |s| :: Sorting.StrLe(s[i].0, s[j].0) && s[i].0 != s[j].0
  {
    Sorting.SortByProperties(kwargs, KwargKey);
    var s := SortedKwargs(kwargs);
    forall i, j | 0 <= i < j < |s| ensures Sorting.StrLe(s[i].0, s[j].0) && s[i].0 != s[j].0 {
      assert Sorting.KeyLe(KwargKey(s[i]), KwargKey(s[j]));
      assert s[i] in multiset(kwargs) && s[j] in multiset(kwargs);
      DistinctInMultiset(kwargs, s, i, j);
    }
  }

  /** Two positions of a permutation of a dictionary's items hold different names. */
  lemma DistinctInMultiset(kwargs: seq<(string, ArgValue)>, s: seq<(string, ArgValue)>, i: nat, j: nat)
    requires DistinctNames(kwargs) && multiset(s) == multiset(kwargs) && i < j < |s|
    ensures s[i].0 != s[j].0
  {
    if s[i].0 == s[j].0 {
      assert s[i] in multiset(s) && s[j] in multiset(s);
      assert s[i] in multiset(kwargs) && s[j] in multiset(kwargs);
      var a :| 0 <= a < |kwargs| && kwargs[a] == s[i];
      var b :| 0 <= b < |kwargs| && kwargs[b] == s[j];
      if a == b {
        assert s[i] == s[j];
        assert multiset(s)[s[i]] >= 2 by {
          assert s == s[..i] + [s[i]] + s[i + 1..j] + [s[j]] + s[j + 1..];
        }
        MultiplicityOne(kwargs, a);
        assert false;
      }
    }
  }

  /** In a dictionary's items, every item occurs once. */
  lemma {:induction false} MultiplicityOne(kwargs: seq<(string, ArgValue)>, a: nat)
    requires DistinctNames(kwargs) && a < |kwargs|
    ensures multiset(kwargs)[kwargs[a]] == 1
  {
    var n := |kwargs| - 1;
    assert kwargs == kwargs[..n] + [kwargs[n]];
    if a == n {
      assert kwargs[n] !in kwargs[..n];
    } else {
      MultiplicityOne(kwargs[..n], a);
      assert kwargs[n] != kwargs[a];
    }
  }
}
