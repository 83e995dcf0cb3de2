/**
 * The plugin loader `checks.getPlugins`: which files of the plugin directory are plugins,
 * how a plugin class is instantiated, the load-once cache `self.plugins`, and the per-cycle
 * execution that maps class names to the plugins' `run()` results.
 *
 * What the interpreter does on the loader's behalf is an input: the file names `os.walk`
 * yields for each existing path, the outcome of `imp.load_source` for each plugin name, and
 * the outcome of each instance's `run()` in the current cycle.
 */
module Plugins {
  import opened Wrappers
  import opened PyValues
  import opened Text
  import opened DictFill

  // ---------------------------------------------------------------------------------------
  // Which files are plugins
  // ---------------------------------------------------------------------------------------

  /**
   * The plugin name of a file, if it is a plugin: the file name is split once at its first
   * `'.'` and the file is taken when the remainder is exactly `"py"`. A name without any
   * `'.'` has no second part (`split('.', 1)[1]` raises `IndexError`) and is skipped.
   */
  function PluginName(file: string): Option<string> {
    var parts := SplitOnce(file, '.');
    if |parts| == 2 && parts[1] == "py" then Some(parts[0]) else None
  }

  /** In `a + "." + b` with a dot-free `a`, the first dot sits at index `|a|`. */
  lemma DotAfterPrefix(a: string, b: string)
    requires '.' !in a
    ensures (a + ['.'] + b)[|a|] == '.'
    ensures forall i :: 0 <= i < |a| ==> (a + ['.'] + b)[i] != '.'
  {
    forall i | 0 <= i < |a| ensures (a + ['.'] + b)[i] != '.' {
      assert (a + ['.'] + b)[i] == a[i];
    }
  }

  /** Two ways of cutting a string at a dot that is not preceded by another dot coincide. */
  lemma FirstDotUnique(a: string, b: string, c: string, d: string)
    requires a + ['.'] + b == c + ['.'] + d
    requires '.' !in a && '.' !in c
    ensures a == c && b == d
  {
    var s := a + ['.'] + b;
    DotAfterPrefix(a, b);
    DotAfterPrefix(c, d);
    assert |a| == |c|;
    assert a == s[..|a|] == c;
    assert b == s[|a| + 1..] == d;
  }

  /** A file is a plugin exactly when it is a dot-free name followed by `.py`; that name is the plugin's. */
  lemma {:induction false} PluginNameIff(file: string, name: string)
    ensures PluginName(file) == Some(name) <==> file == name + ".py" && '.' !in name
  {
    var parts := SplitOnce(file, '.');
    if file == name + ".py" && '.' !in name {
      assert file == name + ['.'] + "py";
      assert '.' in file by { assert file[|name|] == '.'; }
      FirstDotUnique(parts[0], parts[1], name, "py");
    }
    if PluginName(file) == Some(name) {
      assert file == parts[0] + ['.'] + parts[1];
    }
  }

  /** The file `stem.ext` with a dot-free stem is a plugin exactly when `ext` is `"py"`. */
  lemma PluginNameOfStem(stem: string, ext: string)
    requires '.' !in stem
    ensures PluginName(stem + ['.'] + ext) == if ext == "py" then Some(stem) else None
  {
    var file := stem + ['.'] + ext;
    assert file[|stem|] == '.';
    var parts := SplitOnce(file, '.');
    FirstDotUnique(parts[0], parts[1], stem, ext);
  }

  /** The cases named in the loader's comment: `.py` files are taken, `.pyc` and dotted stems are not. */
  lemma PluginNameExamples()
    ensures PluginName("foo.py") == Some("foo")
    ensures PluginName("foo.pyc") == None
    ensures PluginName("a.b.py") == None
    ensures PluginName("foo") == None
    ensures PluginName(".py") == Some("")
  {
    assert '.' !in "foo";
    PythonFileExamples();
    OtherFileExamples();
  }

  lemma PythonFileExamples()
    ensures PluginName("foo.py") == Some("foo")
    ensures PluginName(".py") == Some("")
  {
    PluginNameOfStem("foo", "py");
    assert "foo" + ['.'] + "py" == "foo.py";
    PluginNameOfStem("", "py");
    assert "" + ['.'] + "py" == ".py";
  }

  lemma OtherFileExamples()
    ensures PluginName("foo.pyc") == None
    ensures PluginName("a.b.py") == None
  {
    PluginNameOfStem("foo", "pyc");
    assert "foo" + ['.'] + "pyc" == "foo.pyc";
    PluginNameOfStem("a", "b.py");
    assert "a" + ['.'] + "b.py" == "a.b.py";
  }

  /** The plugin names found in the directory listing, in listing order. */
  function EligibleNames(files: seq<string>): (names: seq<string>)
    ensures |names| <= |files|
    ensures forall n :: n in names <==> exists f :: f in files && PluginName(f) == Some(n)
  {
    if |files| == 0 then []
    else
      var rest := EligibleNames(files[1..]);
      assert forall f :: f in files <==> f == files[0] || f in files[1..];
      match PluginName(files[0])
      case Some(n) => [n] + rest
      case None => rest
  }

  /** The names of one directory entry: its stem if it is a plugin file, nothing otherwise. */
  function EntryNames(f: string): seq<string> {
    match PluginName(f)
    case Some(n) => [n]
    case None => []
  }

  /** The listing is scanned in order: the names of a concatenation are the concatenation of the names. */
  lemma {:induction false} EligibleNamesAppend(a: seq<string>, b: seq<string>)
    ensures EligibleNames(a + b) == EligibleNames(a) + EligibleNames(b)
  {
    if |a| == 0 {
      assert a + b == b;
    } else {
      assert (a + b)[1..] == a[1..] + b;
      EligibleNamesAppend(a[1..], b);
    }
  }

  /** Each entry contributes its own stem, once, at its own position, and nothing else. */
  lemma EligibleNamesOne(f: string)
    ensures EligibleNames([f]) == EntryNames(f)
  {
    assert [f][1..] == [];
  }

  /** The names are exactly the per-entry stems, laid end to end in listing order. */
  lemma {:induction false} EligibleNamesEntries(files: seq<string>)
    ensures |files| > 0 ==> EligibleNames(files) == EligibleNames(files[..|files| - 1]) + EntryNames(files[|files| - 1])
  {
    if |files| > 0 {
      var last := |files| - 1;
      assert files == files[..last] + [files[last]];
      EligibleNamesAppend(files[..last], [files[last]]);
      EligibleNamesOne(files[last]);
    }
  }

  // ---------------------------------------------------------------------------------------
  // Instantiating a plugin class
  // ---------------------------------------------------------------------------------------

  /** A plugin object; `className` is its `__class__.__name__`. */
  datatype Instance = Instance(id: nat, className: string)

  /** The argument lists the loader tries: `(agentConfig, logger, rawConfig)`, `(agentConfig, logger)`, `()`. */
  datatype Arity = Three | Two | Zero

  /** What calling the attribute named after the plugin does with each argument list. */
  datatype PluginClass = PluginClass(withThree: Result<Instance, Exc>, withTwo: Result<Instance, Exc>, withZero: Result<Instance, Exc>) {
    function Call(a: Arity): Result<Instance, Exc> {
      match a
      case Three => withThree
      case Two => withTwo
      case Zero => withZero
    }
  }

  /** A loaded plugin module: its attributes that can be called. */
  datatype Module = Module(attrs: map<string, PluginClass>)

  /** The constructor calls made, in order, and the outcome of the last one. */
  datatype Construction = Construction(calls: seq<Arity>, result: Result<Instance, Exc>)

  /**
   * The constructor fallback: the three-argument call first; the two-argument call only when
   * that raised `TypeError`; the no-argument call only when the two-argument call raised
   * `TypeError` too. The last call made decides the outcome.
   */
  function Construct(c: PluginClass): (r: Construction)
    ensures |r.calls| >= 1 && r.calls[0] == Three
    ensures Two in r.calls <==> c.withThree == Failure(TypeError)
    ensures Zero in r.calls <==> c.withThree == Failure(TypeError) && c.withTwo == Failure(TypeError)
    ensures r.result == c.Call(r.calls[|r.calls| - 1])
    ensures forall i :: 0 <= i < |r.calls| - 1 ==> c.Call(r.calls[i]) == Failure(TypeError)
  {
    match c.withThree
    case Failure(TypeError) =>
      (match c.withTwo
       case Failure(TypeError) => Construction([Three, Two, Zero], c.withZero)
       case _ => Construction([Three, Two], c.withTwo))
    case _ => Construction([Three], c.withThree)
  }

  /** What happened to one plugin name during discovery. */
  datatype Instantiation = Made(inst: Instance) | Skipped(exc: Exc) | Aborted(exc: Exc)

  /**
   * One plugin: `imp.load_source` is outside the `try`, so its exception escapes the loader;
   * a missing class or a failed construction is caught by `except Exception` and only skips
   * this plugin, unless what was raised is not an `Exception` at all.
   */
  function Instantiate(loaded: Result<Module, Exc>, name: string): (r: Instantiation)
    ensures loaded.Failure? ==> r == Aborted(loaded.error)
    ensures r.Made? <==>
      loaded.Success? && name in loaded.value.attrs && Construct(loaded.value.attrs[name]).result.Success?
    ensures r.Made? ==> r.inst == Construct(loaded.value.attrs[name]).result.value
    ensures loaded.Success? ==>
      (r.Aborted? <==> name in loaded.value.attrs && Construct(loaded.value.attrs[name]).result.Failure?
                        && !IsException(Construct(loaded.value.attrs[name]).result.error))
  {
    match loaded
    case Failure(e) => Aborted(e)
    case Success(m) =>
      if name !in m.attrs then Skipped(AttributeError(name))
      else
        match Construct(m.attrs[name]).result
        case Success(inst) => Made(inst)
        case Failure(e) => if IsException(e) then Skipped(e) else Aborted(e)
  }

  // ---------------------------------------------------------------------------------------
  // Discovery
  // ---------------------------------------------------------------------------------------

  /** Reference: the instances built from `names`, in order, when every plugin is attempted. */
  function MadeInstances(names: seq<string>, load: string -> Result<Module, Exc>): seq<Instance> {
    if |names| == 0 then []
    else
      var rest := MadeInstances(names[1..], load);
      match Instantiate(load(names[0]), names[0])
      case Made(inst) => [inst] + rest
      case _ => rest
  }

  lemma {:induction false} MadeInstancesAppend(a: seq<string>, b: seq<string>, load: string -> Result<Module, Exc>)
    ensures MadeInstances(a + b, load) == MadeInstances(a, load) + MadeInstances(b, load)
    decreases |a|
  {
    if |a| > 0 {
      assert (a + b)[1..] == a[1..] + b;
      assert (a + b)[0] == a[0];
      MadeInstancesAppend(a[1..], b, load);
    } else {
      assert a + b == b;
    }
  }

  /** The instances gathered so far, and the exception that ended discovery early, if any. */
  datatype Loading = Loading(instances: seq<Instance>, aborted: Option<Exc>)

  /** `names[k]` is the first name whose loading escapes the loader. */
  predicate FirstAbort(names: seq<string>, load: string -> Result<Module, Exc>, k: int) {
    && 0 <= k < |names|
    && Instantiate(load(names[k]), names[k]).Aborted?
    && forall j :: 0 <= j < k ==> !Instantiate(load(names[j]), names[j]).Aborted?
  }

  /**
   * The discovery loop. A skipped plugin does not stop the loop; an escaping exception does,
   * and the instances appended before it stay in `self.plugins`.
   */
  function LoadAll(names: seq<string>, load: string -> Result<Module, Exc>): (r: Loading)
    decreases |names|
    ensures r.aborted.None? <==> forall i :: 0 <= i < |names| ==> !Instantiate(load(names[i]), names[i]).Aborted?
    ensures r.aborted.None? ==> r.instances == MadeInstances(names, load)
    ensures r.aborted.Some? ==>
      exists k :: (FirstAbort(names, load, k)
                   && r.aborted.value == Instantiate(load(names[k]), names[k]).exc
                   && r.instances == MadeInstances(names[..k], load))
  {
    if |names| == 0 then Loading([], None)
    else
      var init := names[..|names| - 1];
      var name := names[|names| - 1];
      assert names == init + [name];
      var l := LoadAll(init, load);
      if l.aborted.Some? then
        assert forall k :: FirstAbort(init, load, k) ==> FirstAbort(names, load, k) && names[..k] == init[..k];
        l
      else
        MadeInstancesAppend(init, [name], load);
        assert MadeInstances([name][1..], load) == [];
        match Instantiate(load(name), name)
        case Made(inst) => Loading(l.instances + [inst], None)
        case Skipped(_) => l
        case Aborted(e) =>
          assert FirstAbort(names, load, |names| - 1);
          assert names[..|names| - 1] == init;
          Loading(l.instances, Some(e))
  }

  // ---------------------------------------------------------------------------------------
  // Execution and the load-once cache
  // ---------------------------------------------------------------------------------------

  /** One `output[plugin.__class__.__name__] = plugin.run()` per instance; an exception from `run()` is not caught. */
  function RunSteps(instances: seq<Instance>, run: Instance -> Result<Value, Exc>): (steps: seq<Step>)
    ensures |steps| == |instances|
    ensures forall i :: 0 <= i < |steps| ==>
      steps[i] == (match run(instances[i]) case Success(v) => Put(instances[i].className, v) case Failure(e) => Raise(e))
  {
    seq(|instances|, i requires 0 <= i < |instances| =>
      match run(instances[i]) case Success(v) => Put(instances[i].className, v) case Failure(e) => Raise(e))
  }

  /**
   * The output of one execution of the cached plugins: a dictionary keyed by class name whose
   * value is that of the last instance with that class name; it exists exactly when no `run()` raised.
   */
  function RunPlugins(instances: seq<Instance>, run: Instance -> Result<Value, Exc>): (r: Result<Value, Exc>)
    ensures r.Success? <==> forall i :: 0 <= i < |instances| ==> run(instances[i]).Success?
    ensures r.Success? ==> r.value.Dict?
    ensures r.Success? ==> forall k :: k in r.value.fields <==> exists i :: 0 <= i < |instances| && instances[i].className == k
    ensures r.Success? ==> forall i :: LastOfClass(instances, i) ==> r.value.fields[instances[i].className] == run(instances[i]).value
  {
    RunPluginsFacts(instances, run);
    Populate(EmptyDict, RunSteps(instances, run))
  }

  /** No later instance has the class name of instance `i`. */
  predicate LastOfClass(instances: seq<Instance>, i: int) {
    0 <= i < |instances| && forall j :: i < j < |instances| ==> instances[j].className != instances[i].className
  }

  lemma RunPluginsFacts(instances: seq<Instance>, run: Instance -> Result<Value, Exc>)
    ensures var r := Populate(EmptyDict, RunSteps(instances, run));
      && (r.Success? <==> forall i :: 0 <= i < |instances| ==> run(instances[i]).Success?)
      && (r.Success? ==> r.value.Dict?)
      && (r.Success? ==> forall k :: k in r.value.fields <==> exists i :: 0 <= i < |instances| && instances[i].className == k)
      && (r.Success? ==> forall i :: LastOfClass(instances, i) ==> r.value.fields[instances[i].className] == run(instances[i]).value)
  {
    var steps := RunSteps(instances, run);
    var r := Populate(EmptyDict, steps);
    assert forall i :: 0 <= i < |instances| ==> (steps[i].Raise? <==> run(instances[i]).Failure?);
    if r.Success? {
      forall k ensures k in r.value.fields <==> exists i :: 0 <= i < |instances| && instances[i].className == k {
        if k in r.value.fields {
          var i :| 0 <= i < |steps| && steps[i].Put? && steps[i].key == k;
          assert instances[i].className == k;
        }
        if exists i :: 0 <= i < |instances| && instances[i].className == k {
          var i :| 0 <= i < |instances| && instances[i].className == k;
          assert steps[i].Put?;
        }
      }
      forall i | LastOfClass(instances, i)
        ensures r.value.fields[instances[i].className] == run(instances[i]).value
      {
        assert forall j :: i < j < |steps| ==> !Puts(steps[j], steps[i].key);
        assert LastPut(steps, i);
      }
    }
  }

  /** `self.plugins`: `None` until discovery has run, then the list of instances. */
  datatype PluginCache = Unloaded | Loaded(instances: seq<Instance>)

  /** The new cache and what `getPlugins` returned or raised. */
  datatype PluginsCall = PluginsCall(cache: PluginCache, result: Result<Value, Exc>)

  /**
   * The early return of `getPlugins`: no `pluginDirectory` entry, or a path that does not
   * exist. `fs` maps each existing path to the file names `os.walk` yields below it.
   */
  predicate NoPluginDirectory(config: Fields, fs: map<string, seq<string>>) {
    "pluginDirectory" !in config || (config["pluginDirectory"].Str? && config["pluginDirectory"].s !in fs)
  }

  /** The configured plugin directory exists, so the call reaches the loader. */
  predicate PluginDirectoryReady(config: Fields, fs: map<string, seq<string>>) {
    "pluginDirectory" in config && config["pluginDirectory"].Str? && config["pluginDirectory"].s in fs
  }

  /**
   * One call of `getPlugins`. Discovery (filter, import, construct) runs only while the cache
   * is `Unloaded`; afterwards the cached instances are re-run without looking at the directory.
   */
  function GetPlugins(cache: PluginCache, config: Fields, fs: map<string, seq<string>>,
                      load: string -> Result<Module, Exc>, run: Instance -> Result<Value, Exc>): (r: PluginsCall)
    ensures NoPluginDirectory(config, fs) ==> r == PluginsCall(cache, Success(Bool(false)))
    ensures (r.result.Success? && r.result.value == Bool(false)) <==> NoPluginDirectory(config, fs)
    ensures r.result.Success? ==> r.result.value == Bool(false) || r.result.value.Dict?
    ensures r.result.Success? ==> NoPluginDirectory(config, fs) || PluginDirectoryReady(config, fs)
    ensures !PluginDirectoryReady(config, fs) ==> r.cache == cache
    ensures PluginDirectoryReady(config, fs) ==> r.cache.Loaded?
    ensures cache.Loaded? ==> r.cache == cache
    ensures PluginDirectoryReady(config, fs) && cache.Loaded? ==> r.result == RunPlugins(cache.instances, run)
    ensures PluginDirectoryReady(config, fs) && cache.Unloaded? ==>
      var l := LoadAll(EligibleNames(fs[config["pluginDirectory"].s]), load);
      r.cache == Loaded(l.instances) &&
      r.result == (if l.aborted.Some? then Failure(l.aborted.value) else RunPlugins(l.instances, run))
  {
    if "pluginDirectory" !in config then PluginsCall(cache, Success(Bool(false)))
    else
      match config["pluginDirectory"]
      case Str(dir) =>
        if dir !in fs then PluginsCall(cache, Success(Bool(false)))
        else
          var l := if cache.Loaded? then Loading(cache.instances, None) else LoadAll(EligibleNames(fs[dir]), load);
          if l.aborted.Some? then PluginsCall(Loaded(l.instances), Failure(l.aborted.value))
          else PluginsCall(Loaded(l.instances), RunPlugins(l.instances, run))
      case _ => PluginsCall(cache, Failure(TypeError))
  }
}
