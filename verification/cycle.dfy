/**
 * The `checks` object across collection cycles. The constructor fixes `topIndex` and the
 * list of datadog checks; each call of `doChecks` resolves (once) the OS family, runs the
 * plugins (loading them once), assembles the payload, hands it to the emitter and re-arms
 * itself on the scheduler with `checkFreq` and `firstRun=False`. Everything the cycle reads
 * from the outside world arrives in an `Env`.
 */
module Cycle {
  import opened Wrappers
  import opened PyValues
  import opened DictFill
  import opened Platform
  import opened Plugins
  import opened Payload
  import opened PayloadFacts

  /**
   * The state the `checks` object keeps between cycles. `datadogs` is `self._datadogs`,
   * given by the keys of its checks; the agent configuration is never changed.
   */
  datatype Agent = Agent(
    config: Fields,
    topIndex: int,
    os: Option<OsFamily>,
    plugins: PluginCache,
    datadogs: Option<seq<string>>)

  /** `agentConfig.get('has_datadog', False)` is truthy. */
  predicate HasDatadog(config: Fields) {
    "has_datadog" in config && Truthy(config["has_datadog"])
  }

  /**
   * The constructor. `macRelease` is the first element of `platform.mac_ver()` and `rollupKey`
   * the key of the single datadog rollup check it creates when `has_datadog` is set.
   */
  function Init(config: Fields, sysPlatform: string, macRelease: string, rollupKey: string): (a: Agent)
    ensures a.config == config && a.os.None? && a.plugins.Unloaded?
    ensures a.topIndex == 6 <==> sysPlatform == "darwin" && |macRelease| >= 5 && macRelease[..5] == "10.6."
    ensures a.topIndex == 5 || a.topIndex == 6
    ensures a.datadogs.Some? <==> HasDatadog(config)
    ensures a.datadogs.Some? ==> a.datadogs.value == [rollupKey]
  {
    Agent(config, TopIndex(sysPlatform, macRelease), None, Unloaded,
          if HasDatadog(config) then Some([rollupKey]) else None)
  }

  // ---------------------------------------------------------------------------------------
  // getDatadogData
  // ---------------------------------------------------------------------------------------

  /** One assignment `result[dd.key] = dd.check(...)` per datadog check, `check(i)` being the i-th result. */
  function DatadogSteps(keys: seq<string>, check: nat -> Value): (steps: seq<Step>)
    ensures |steps| == |keys|
    ensures forall i :: 0 <= i < |keys| ==> steps[i] == Put(keys[i], check(i))
  {
    seq(|keys|, i requires 0 <= i < |keys| => Put(keys[i], check(i)))
  }

  /** Datadog check `i` has a key that no later check has: its result is the one that stays. */
  predicate LastOfKey(keys: seq<string>, i: int) {
    0 <= i < |keys| && forall j :: i < j < |keys| ==> keys[j] != keys[i]
  }

  lemma DatadogStepsFacts(keys: seq<string>, check: nat -> Value)
    ensures forall i :: 0 <= i < |DatadogSteps(keys, check)| ==> !DatadogSteps(keys, check)[i].Raise?
    ensures forall k :: k in PutKeys(DatadogSteps(keys, check)) <==> k in keys
    ensures forall i :: LastOfKey(keys, i) ==> LastPut(DatadogSteps(keys, check), i)
  {
    var steps := DatadogSteps(keys, check);
    forall k | k in keys
      ensures k in PutKeys(steps)
    {
      var i :| 0 <= i < |keys| && keys[i] == k;
      assert steps[i].Put? && steps[i].key == k;
    }
    forall i | LastOfKey(keys, i)
      ensures LastPut(steps, i)
    {
      forall j | i < j < |steps|
        ensures !Puts(steps[j], steps[i].key)
      {
        assert keys[j] != keys[i];
      }
    }
  }

  /**
   * `getDatadogData`: a dictionary holding, for each datadog check, its result under its key;
   * when two checks share a key the later result stays. Without datadog checks it is `{}`.
   */
  function GetDatadogData(datadogs: Option<seq<string>>, check: nat -> Value): (r: Value)
    ensures r.Dict?
    ensures datadogs.None? ==> r == EmptyDict
    ensures datadogs.Some? ==> forall k :: k in r.fields <==> k in datadogs.value
    ensures datadogs.Some? ==> forall i :: LastOfKey(datadogs.value, i) ==> r.fields[datadogs.value[i]] == check(i)
  {
    match datadogs
    case None => EmptyDict
    case Some(keys) =>
      DatadogStepsFacts(keys, check);
      var filled := Populate(EmptyDict, DatadogSteps(keys, check));
      if filled.Success? then filled.value else EmptyDict
  }

  // ---------------------------------------------------------------------------------------
  // One cycle
  // ---------------------------------------------------------------------------------------

  /**
   * What one cycle reads from the outside world: `sys.platform`, the built-in probes, the
   * file system below the plugin directory, the plugin import and `run()` oracles, the
   * datadog check results, the clock, the host name (`None` when `gethostname()` raised
   * `socket.error`), the uuid, the event and resource checks, and whether the emitter raises.
   */
  datatype Env = Env(
    sysPlatform: string,
    probes: Probes,
    fs: map<string, seq<string>>,
    load: string -> Result<Module, Exc>,
    run: Instance -> Result<Value, Exc>,
    datadogCheck: nat -> Value,
    timestamp: Value,
    hostname: Option<string>,
    uuid: string,
    events: seq<(string, Value)>,
    resources: seq<ResourceReading>,
    startupTimestamp: int,
    emitterRaises: Option<Exc>)

  /** `sc.enter(delay, priority, self.doChecks, (sc, firstRun))`. */
  datatype Rearm = Rearm(delay: Value, priority: int, firstRun: bool)

  /**
   * `sc.enter(checkFreq, ...)` can schedule the next cycle: `checkFreq` is configured and is a
   * number the scheduler can add to the clock (a boolean counts as one). A string, `None`, a
   * list or a dictionary makes the addition raise `TypeError`.
   */
  predicate DelayReady(config: Fields) {
    "checkFreq" in config && (config["checkFreq"].Num? || config["checkFreq"].Bool?)
  }

  /**
   * The outcome of one `doChecks` call: the state afterwards, the payload handed to the
   * emitter (if the cycle got that far), the re-arm (if the cycle completed) and the
   * exception that escaped (if any).
   */
  datatype CycleResult = CycleResult(agent: Agent, emitted: Option<Fields>, rearm: Option<Rearm>, raised: Option<Exc>)

  /** The record of what the cycle collected, given the cycle's OS family and plugin output. */
  function Collect(a: Agent, os: OsFamily, plugins: Value, firstRun: bool, systemStats: Value, e: Env): (c: Collected)
    ensures c.os == os && c.probes == e.probes && c.plugins == plugins && c.firstRun == firstRun
    ensures c.systemStats == systemStats && c.hostname == e.hostname && c.uuid == e.uuid
    ensures c.datadog == GetDatadogData(a.datadogs, e.datadogCheck)
    ensures c.events == e.events && c.resources == e.resources
  {
    Collected(e.timestamp, os, e.probes, plugins, GetDatadogData(a.datadogs, e.datadogCheck), firstRun,
              systemStats, e.hostname, e.uuid, e.events, e.resources, e.startupTimestamp)
  }

  /** The state after the OS family is resolved and the plugins have run. */
  function Advance(a: Agent, e: Env): (b: Agent)
    ensures b.config == a.config && b.topIndex == a.topIndex && b.datadogs == a.datadogs
    ensures b.os == Some(ResolveOs(a.os, e.sysPlatform))
    ensures a.os.Some? ==> b.os == a.os
    ensures a.plugins.Loaded? ==> b.plugins == a.plugins
    ensures b.plugins.Loaded? <==> a.plugins.Loaded? || PluginDirectoryReady(a.config, e.fs)
  {
    a.(os := Some(ResolveOs(a.os, e.sysPlatform)),
       plugins := GetPlugins(a.plugins, a.config, e.fs, e.load, e.run).cache)
  }

  /**
   * One `doChecks(sc, firstRun, systemStats)`. An exception from `getPlugins`, from the
   * payload assembly, from the emitter, from reading `checkFreq` or from adding it to the clock
   * ends the cycle without a re-arm; the OS family and the plugin list are already stored by then.
   */
  function DoChecks(a: Agent, firstRun: bool, systemStats: Value, e: Env): (r: CycleResult)
    ensures r.agent == Advance(a, e)
    ensures r.rearm.Some? <==> r.raised.None?
    ensures r.rearm.Some? ==> DelayReady(a.config) && r.rearm.value == Rearm(a.config["checkFreq"], 1, false)
    ensures r.raised.None? <==>
      var plugins := GetPlugins(a.plugins, a.config, e.fs, e.load, e.run).result;
      && plugins.Success?
      && BuildPayload(a.config, Collect(a, ResolveOs(a.os, e.sysPlatform), plugins.value, firstRun, systemStats, e)).Success?
      && e.emitterRaises.None?
      && DelayReady(a.config)
    ensures r.emitted.Some? ==>
      var plugins := GetPlugins(a.plugins, a.config, e.fs, e.load, e.run).result;
      && plugins.Success?
      && BuildPayload(a.config, Collect(a, ResolveOs(a.os, e.sysPlatform), plugins.value, firstRun, systemStats, e))
         == Success(r.emitted.value)
    ensures r.rearm.Some? ==> r.emitted.Some?
    ensures e.emitterRaises.Some? && r.emitted.Some? ==> r.raised == e.emitterRaises
    ensures e.emitterRaises.None? && r.emitted.Some? && "checkFreq" !in a.config ==> r.raised == Some(KeyError(Str("checkFreq")))
    ensures e.emitterRaises.None? && r.emitted.Some? && "checkFreq" in a.config && !DelayReady(a.config) ==>
      r.raised == Some(TypeError)
  {
    var os := ResolveOs(a.os, e.sysPlatform);
    var call := GetPlugins(a.plugins, a.config, e.fs, e.load, e.run);
    var b := Advance(a, e);
    match call.result
    case Failure(exc) => CycleResult(b, None, None, Some(exc))
    case Success(plugins) =>
      match BuildPayload(a.config, Collect(a, os, plugins, firstRun, systemStats, e))
      case Failure(exc) => CycleResult(b, None, None, Some(exc))
      case Success(payload) =>
        var raised := EmitAndRearm(a.config, e.emitterRaises);
        CycleResult(b, Some(payload), if raised.None? then Some(Rearm(a.config["checkFreq"], 1, false)) else None, raised)
  }

  /**
   * The exception that escapes the cycle's last two statements, `self.emitter(...)` and
   * `sc.enter(self.agentConfig['checkFreq'], ...)`, if any.
   */
  function EmitAndRearm(config: Fields, emitterRaises: Option<Exc>): (r: Option<Exc>)
    ensures r.None? <==> emitterRaises.None? && DelayReady(config)
    ensures emitterRaises.Some? ==> r == emitterRaises
    ensures emitterRaises.None? && "checkFreq" !in config ==> r == Some(KeyError(Str("checkFreq")))
    ensures emitterRaises.None? && "checkFreq" in config && !DelayReady(config) ==> r == Some(TypeError)
  {
    if emitterRaises.Some? then emitterRaises
    else if "checkFreq" !in config then Some(KeyError(Str("checkFreq")))
    else if !DelayReady(config) then Some(TypeError)
    else None
  }

  /** The plugin output of a cycle that got past `getPlugins`. */
  function PluginOutput(a: Agent, e: Env): Result<Value, Exc> {
    GetPlugins(a.plugins, a.config, e.fs, e.load, e.run).result
  }

  /** `getPlugins` returned and what the cycle collected lets every statement of payload assembly complete. */
  predicate CycleReady(a: Agent, firstRun: bool, systemStats: Value, e: Env) {
    && PluginOutput(a, e).Success?
    && PayloadReady(a.config, Collect(a, ResolveOs(a.os, e.sysPlatform), PluginOutput(a, e).value, firstRun, systemStats, e))
  }

  /**
   * When the CPU check reports only its own fields, a cycle completes (and re-arms) exactly
   * when `getPlugins` returned, the results allow the payload to be built, the emitter
   * returned and `checkFreq` is configured as a number.
   */
  lemma CycleCompletes(a: Agent, firstRun: bool, systemStats: Value, e: Env)
    requires CpuStatsOnly(e.probes.cpu)
    ensures DoChecks(a, firstRun, systemStats, e).rearm.Some? <==>
      CycleReady(a, firstRun, systemStats, e) && e.emitterRaises.None? && DelayReady(a.config)
  {
    if PluginOutput(a, e).Success? {
      PayloadSucceeds(a.config, Collect(a, ResolveOs(a.os, e.sysPlatform), PluginOutput(a, e).value, firstRun, systemStats, e));
    }
  }

  /** A cycle whose plugins ran and whose assembly can complete emits the payload assembled from what it collected. */
  lemma EmitsCollected(a: Agent, firstRun: bool, systemStats: Value, e: Env)
    requires CpuStatsOnly(e.probes.cpu) && CycleReady(a, firstRun, systemStats, e)
    ensures var c := Collect(a, ResolveOs(a.os, e.sysPlatform), PluginOutput(a, e).value, firstRun, systemStats, e);
      && BuildPayload(a.config, c).Success?
      && DoChecks(a, firstRun, systemStats, e).emitted == Some(BuildPayload(a.config, c).value)
  {
    PayloadSucceeds(a.config, Collect(a, ResolveOs(a.os, e.sysPlatform), PluginOutput(a, e).value, firstRun, systemStats, e));
  }

  /** Every emitted payload has `getDatadogData`'s dictionary under `datadog`: `{}` at worst, never `False` or `None`. */
  lemma EmittedDatadog(a: Agent, firstRun: bool, systemStats: Value, e: Env)
    requires CpuStatsOnly(e.probes.cpu) && CycleReady(a, firstRun, systemStats, e)
    ensures DoChecks(a, firstRun, systemStats, e).emitted.Some?
    ensures var payload := DoChecks(a, firstRun, systemStats, e).emitted.value;
      "datadog" in payload && payload["datadog"] == GetDatadogData(a.datadogs, e.datadogCheck)
  {
    var c := Collect(a, ResolveOs(a.os, e.sysPlatform), PluginOutput(a, e).value, firstRun, systemStats, e);
    EmitsCollected(a, firstRun, systemStats, e);
    PayloadDatadog(a.config, c);
  }

  /** The payload reports the OS family the state holds after the cycle, the cached one once it is set. */
  lemma EmittedOs(a: Agent, firstRun: bool, systemStats: Value, e: Env)
    requires CpuStatsOnly(e.probes.cpu) && CycleReady(a, firstRun, systemStats, e)
    ensures DoChecks(a, firstRun, systemStats, e).emitted.Some?
    ensures DoChecks(a, firstRun, systemStats, e).agent.os.Some?
    ensures var payload := DoChecks(a, firstRun, systemStats, e).emitted.value;
      "os" in payload && payload["os"] == Str(DoChecks(a, firstRun, systemStats, e).agent.os.value.Name())
  {
    var c := Collect(a, ResolveOs(a.os, e.sysPlatform), PluginOutput(a, e).value, firstRun, systemStats, e);
    EmitsCollected(a, firstRun, systemStats, e);
    PayloadHeader(a.config, c);
  }

  /** An emitted payload has a `plugins` entry exactly when the configured plugin directory exists, holding the plugins' output. */
  lemma EmittedPlugins(a: Agent, firstRun: bool, systemStats: Value, e: Env)
    requires CpuStatsOnly(e.probes.cpu) && CycleReady(a, firstRun, systemStats, e)
    ensures DoChecks(a, firstRun, systemStats, e).emitted.Some?
    ensures "plugins" in DoChecks(a, firstRun, systemStats, e).emitted.value <==> PluginDirectoryReady(a.config, e.fs)
    ensures PluginDirectoryReady(a.config, e.fs) ==> DoChecks(a, firstRun, systemStats, e).emitted.value["plugins"] == PluginOutput(a, e).value
  {
    var c := Collect(a, ResolveOs(a.os, e.sysPlatform), PluginOutput(a, e).value, firstRun, systemStats, e);
    EmitsCollected(a, firstRun, systemStats, e);
    PayloadPlugins(a.config, c);
  }

  // ---------------------------------------------------------------------------------------
  // The scheduler loop
  // ---------------------------------------------------------------------------------------

  /** A function from the state, `firstRun`, `systemStats` and the environment to the cycle's outcome; the agent's is `DoChecks`. */
  type CycleFn = (Agent, bool, Value, Env) -> CycleResult

  /**
   * The cycle keeps the configuration, leaves the OS family resolved from the platform (or
   * the cached one), and keeps a loaded plugin list as it is.
   */
  ghost predicate AdvancesState(cycle: CycleFn) {
    forall a: Agent, f: bool, s: Value, e: Env {:trigger cycle(a, f, s, e)} ::
      && cycle(a, f, s, e).agent.config == a.config
      && cycle(a, f, s, e).agent.os == Some(ResolveOs(a.os, e.sysPlatform))
      && (a.plugins.Loaded? ==> cycle(a, f, s, e).agent.plugins == a.plugins)
  }

  /** The cycle re-arms exactly when nothing escaped it, with the configured `checkFreq`, priority 1 and `firstRun=False`. */
  ghost predicate RearmsWhenComplete(cycle: CycleFn) {
    forall a: Agent, f: bool, s: Value, e: Env {:trigger cycle(a, f, s, e)} ::
      && (cycle(a, f, s, e).rearm.Some? <==> cycle(a, f, s, e).raised.None?)
      && (cycle(a, f, s, e).rearm.Some? ==>
            DelayReady(a.config) && cycle(a, f, s, e).rearm.value == Rearm(a.config["checkFreq"], 1, false))
  }

  /** A cycle called with `firstRun=False` emits no `systemStats` (when the CPU check reports only its own fields). */
  ghost predicate NoStatsUnlessFirst(cycle: CycleFn) {
    forall a: Agent, s: Value, e: Env {:trigger cycle(a, false, s, e)} ::
      CpuStatsOnly(e.probes.cpu) && cycle(a, false, s, e).emitted.Some? ==>
        "systemStats" !in cycle(a, false, s, e).emitted.value
  }

  lemma DoChecksAdvances()
    ensures AdvancesState(DoChecks)
  {
  }

  lemma DoChecksRearms()
    ensures RearmsWhenComplete(DoChecks)
  {
  }

  lemma DoChecksNoStats()
    ensures NoStatsUnlessFirst(DoChecks)
  {
    forall a: Agent, s: Value, e: Env | CpuStatsOnly(e.probes.cpu) && DoChecks(a, false, s, e).emitted.Some?
      ensures "systemStats" !in DoChecks(a, false, s, e).emitted.value
    {
      var plugins := GetPlugins(a.plugins, a.config, e.fs, e.load, e.run).result;
      var c := Collect(a, ResolveOs(a.os, e.sysPlatform), plugins.value, false, s, e);
      PayloadSucceeds(a.config, c);
      PayloadFirstRun(a.config, c);
    }
  }

  /**
   * The cycles the scheduler runs, starting from `cycle(state, firstRun, systemStats)`: each
   * re-armed cycle is followed by a call with the re-arm's `firstRun` and the default
   * `systemStats=False`, one environment per cycle, until a cycle does not re-arm. The
   * agent's loop is `Run(DoChecks, ...)`.
   */
  function Run(cycle: CycleFn, a: Agent, firstRun: bool, systemStats: Value, envs: seq<Env>): (trace: seq<CycleResult>)
    decreases |envs|
    ensures |trace| <= |envs|
    ensures |envs| > 0 ==> |trace| > 0
    ensures forall i :: 0 <= i < |trace| - 1 ==> trace[i].rearm.Some?
    ensures |trace| > 0 ==> trace[0] == cycle(a, firstRun, systemStats, envs[0])
    ensures 0 < |trace| < |envs| ==> trace[|trace| - 1].rearm.None?
  {
    if |envs| == 0 then []
    else
      var r := cycle(a, firstRun, systemStats, envs[0]);
      if r.rearm.None? then [r]
      else [r] + Run(cycle, r.agent, r.rearm.value.firstRun, Bool(false), envs[1..])
  }

  /** Cycle `i + 1` of a run is the re-armed call after cycle `i`, on the state cycle `i` left. */
  lemma {:induction false} RunStep(cycle: CycleFn, a: Agent, firstRun: bool, systemStats: Value, envs: seq<Env>, i: nat)
    requires RearmsWhenComplete(cycle)
    requires i + 1 < |Run(cycle, a, firstRun, systemStats, envs)|
    ensures i + 1 < |envs|
    ensures Run(cycle, a, firstRun, systemStats, envs)[i + 1]
         == cycle(Run(cycle, a, firstRun, systemStats, envs)[i].agent, false, Bool(false), envs[i + 1])
    decreases i
  {
    var r := cycle(a, firstRun, systemStats, envs[0]);
    var rest := Run(cycle, r.agent, false, Bool(false), envs[1..]);
    assert Run(cycle, a, firstRun, systemStats, envs) == [r] + rest;
    if i > 0 {
      RunStep(cycle, r.agent, false, Bool(false), envs[1..], i - 1);
    }
  }

  /** Every cycle after the first runs with `firstRun=False`, so its payload carries no `systemStats`. */
  lemma NoSystemStatsAfterFirst(cycle: CycleFn, a: Agent, firstRun: bool, systemStats: Value, envs: seq<Env>, i: nat)
    requires RearmsWhenComplete(cycle) && NoStatsUnlessFirst(cycle)
    requires 0 < i < |Run(cycle, a, firstRun, systemStats, envs)|
    requires CpuStatsOnly(envs[i].probes.cpu)
    ensures Run(cycle, a, firstRun, systemStats, envs)[i].emitted.Some? ==>
      "systemStats" !in Run(cycle, a, firstRun, systemStats, envs)[i].emitted.value
  {
    RunStep(cycle, a, firstRun, systemStats, envs, i - 1);
  }

  /** The agent configuration is the same in every cycle of a run. */
  lemma {:induction false} ConfigKept(cycle: CycleFn, a: Agent, firstRun: bool, systemStats: Value, envs: seq<Env>, i: nat)
    requires AdvancesState(cycle) && RearmsWhenComplete(cycle)
    requires i < |Run(cycle, a, firstRun, systemStats, envs)|
    ensures Run(cycle, a, firstRun, systemStats, envs)[i].agent.config == a.config
    decreases i
  {
    if i > 0 {
      ConfigKept(cycle, a, firstRun, systemStats, envs, i - 1);
      RunStep(cycle, a, firstRun, systemStats, envs, i - 1);
    }
  }

  /** The OS family is resolved by the first cycle and every later cycle keeps that family. */
  lemma {:induction false} OsResolvedOnce(cycle: CycleFn, a: Agent, firstRun: bool, systemStats: Value, envs: seq<Env>, i: nat)
    requires AdvancesState(cycle) && RearmsWhenComplete(cycle)
    requires i < |Run(cycle, a, firstRun, systemStats, envs)|
    ensures Run(cycle, a, firstRun, systemStats, envs)[i].agent.os == Some(ResolveOs(a.os, envs[0].sysPlatform))
    decreases i
  {
    if i > 0 {
      OsResolvedOnce(cycle, a, firstRun, systemStats, envs, i - 1);
      RunStep(cycle, a, firstRun, systemStats, envs, i - 1);
    }
  }

  /** Once a cycle has loaded the plugins, every later cycle keeps exactly those instances. */
  lemma {:induction false} PluginsLoadedOnce(cycle: CycleFn, a: Agent, firstRun: bool, systemStats: Value, envs: seq<Env>, i: nat, j: nat)
    requires AdvancesState(cycle) && RearmsWhenComplete(cycle)
    requires i <= j < |Run(cycle, a, firstRun, systemStats, envs)|
    requires Run(cycle, a, firstRun, systemStats, envs)[i].agent.plugins.Loaded?
    ensures Run(cycle, a, firstRun, systemStats, envs)[j].agent.plugins == Run(cycle, a, firstRun, systemStats, envs)[i].agent.plugins
    decreases j - i
  {
    if i < j {
      PluginsLoadedOnce(cycle, a, firstRun, systemStats, envs, i, j - 1);
      RunStep(cycle, a, firstRun, systemStats, envs, j - 1);
    }
  }

  /** Every cycle of a run but the last has re-armed with the configured `checkFreq`, priority 1 and `firstRun=False`. */
  lemma RunRearms(cycle: CycleFn, a: Agent, firstRun: bool, systemStats: Value, envs: seq<Env>, i: nat)
    requires AdvancesState(cycle) && RearmsWhenComplete(cycle)
    requires i + 1 < |Run(cycle, a, firstRun, systemStats, envs)|
    ensures DelayReady(a.config)
    ensures Run(cycle, a, firstRun, systemStats, envs)[i].rearm == Some(Rearm(a.config["checkFreq"], 1, false))
  {
    if i > 0 {
      ConfigKept(cycle, a, firstRun, systemStats, envs, i - 1);
      RunStep(cycle, a, firstRun, systemStats, envs, i - 1);
    }
  }
}
