/**
 * Payload assembly in `checks.doChecks`: the dictionary `checksData` built from the check
 * results of one cycle. The payload is built in the order of `doChecks`: the mandatory core
 * fields, the `cpuStats` merge, the service keys behind their guards, the host identifiers,
 * the `events` and `resources` sub-dictionaries, and the first-run startup event. Every
 * subscript that can raise is modelled, so a payload exists exactly when `doChecks`'s
 * statements all complete.
 */
module Payload {
  import opened Wrappers
  import opened PyValues
  import opened DictFill
  import opened Platform

  /** The results of the built-in checks in one cycle. */
  datatype Probes = Probes(
    apache: Value, disk: Value, load: Value, memory: Value, mysql: Value, network: Value,
    nginx: Value, processes: Value, rabbitmq: Value, mongodb: Value, couchdb: Value,
    io: Value, cpu: Value, ganglia: Value, cassandra: Value)

  /**
   * One resource check in one cycle: its `RESOURCE_KEY`, what `pop_snapshot()` returned,
   * what `describe_format_if_needed()` returned, and `get_format_version()`.
   */
  datatype ResourceReading = ResourceReading(key: string, snapshot: Value, format: Value, version: Value)

  /** Everything the payload is assembled from, apart from the agent configuration. */
  datatype Collected = Collected(
    timestamp: Value,
    os: OsFamily,
    probes: Probes,
    plugins: Value,
    datadog: Value,
    firstRun: bool,
    systemStats: Value,
    hostname: Option<string>,
    uuid: string,
    events: seq<(string, Value)>,
    resources: seq<ResourceReading>,
    startupTimestamp: int)

  // ---------------------------------------------------------------------------------------
  // Subscripting a check result
  // ---------------------------------------------------------------------------------------

  /**
   * The exception raised by evaluating `v[k]` for each key in order, for a `v` on which one of
   * these subscripts fails: `TypeError` when `v` is not a dictionary, else `KeyError` of the first missing key.
   */
  function SubscriptError(v: Value, keys: seq<string>): Exc
    decreases |keys|
  {
    if !v.Dict? then TypeError
    else if |keys| == 0 then KeyError(Null)
    else if keys[0] !in v.fields then KeyError(Str(keys[0]))
    else SubscriptError(v, keys[1..])
  }

  // ---------------------------------------------------------------------------------------
  // Stage 1: the mandatory core fields
  // ---------------------------------------------------------------------------------------

  /** The keys of the dictionary literal that starts every payload. */
  predicate CoreKey(k: string) {
    HeaderKey(k) || MetricKey(k)
  }

  /** The keys of the literal that describe the agent and the cycle. */
  predicate HeaderKey(k: string) {
    || k == "collection_timestamp" || k == "os" || k == "agentKey" || k == "agentVersion"
    || k == "apiKey" || k == "events" || k == "resources"
  }

  /** The keys of the literal that hold check results. */
  predicate MetricKey(k: string) {
    || k == "diskUsage" || k == "loadAvrg1" || k == "loadAvrg5" || k == "loadAvrg15"
    || k == "memPhysUsed" || k == "memPhysFree" || k == "memSwapUsed" || k == "memSwapFree" || k == "memCached"
    || k == "networkTraffic" || k == "processes"
  }

  /** `loadAvrgs['1']`, `['5']` and `['15']` can be evaluated. */
  predicate LoadReady(v: Value) {
    v.Dict? && "1" in v.fields && "5" in v.fields && "15" in v.fields
  }

  /** The five memory categories can be read. */
  predicate MemoryReady(v: Value) {
    && v.Dict? && "physUsed" in v.fields && "physFree" in v.fields && "swapUsed" in v.fields
    && "swapFree" in v.fields && "cached" in v.fields
  }

  /** Every subscript of the dictionary literal succeeds. */
  predicate CoreReady(config: Fields, probes: Probes) {
    "agentKey" in config && "version" in config && LoadReady(probes.load) && MemoryReady(probes.memory) && "apiKey" in config
  }

  /** The literal's values are evaluated left to right; this is the first subscript that fails. */
  function CoreError(config: Fields, probes: Probes): Exc {
    if "agentKey" !in config then KeyError(Str("agentKey"))
    else if "version" !in config then KeyError(Str("version"))
    else if !LoadReady(probes.load) then SubscriptError(probes.load, ["1", "5", "15"])
    else if !MemoryReady(probes.memory) then
      SubscriptError(probes.memory, ["physUsed", "physFree", "swapUsed", "swapFree", "cached"])
    else KeyError(Str("apiKey"))
  }

  /** `loadAvrg1`, `loadAvrg5` and `loadAvrg15`: the load averages over 1, 5 and 15 minutes. */
  function LoadFields(load: Value): (r: Fields)
    requires LoadReady(load)
    ensures forall k {:trigger k in r} :: k in r <==> k == "loadAvrg1" || k == "loadAvrg5" || k == "loadAvrg15"
    ensures "loadAvrg1" in r && r["loadAvrg1"] == load.fields["1"]
    ensures "loadAvrg5" in r && r["loadAvrg5"] == load.fields["5"]
    ensures "loadAvrg15" in r && r["loadAvrg15"] == load.fields["15"]
  {
    map["loadAvrg1" := load.fields["1"], "loadAvrg5" := load.fields["5"], "loadAvrg15" := load.fields["15"]]
  }

  /** The five memory categories, each under its `mem...` key. */
  function MemoryFields(memory: Value): (r: Fields)
    requires MemoryReady(memory)
    ensures forall k {:trigger k in r} :: k in r <==>
      k == "memPhysUsed" || k == "memPhysFree" || k == "memSwapUsed" || k == "memSwapFree" || k == "memCached"
    ensures "memPhysUsed" in r && r["memPhysUsed"] == memory.fields["physUsed"]
    ensures "memPhysFree" in r && r["memPhysFree"] == memory.fields["physFree"]
    ensures "memSwapUsed" in r && r["memSwapUsed"] == memory.fields["swapUsed"]
    ensures "memSwapFree" in r && r["memSwapFree"] == memory.fields["swapFree"]
    ensures "memCached" in r && r["memCached"] == memory.fields["cached"]
  {
    var mem := memory.fields;
    map["memPhysUsed" := mem["physUsed"], "memPhysFree" := mem["physFree"], "memSwapUsed" := mem["swapUsed"],
        "memSwapFree" := mem["swapFree"], "memCached" := mem["cached"]]
  }

  /** The whole results the literal copies: disk usage, network traffic and processes. */
  function WholeResults(probes: Probes): (r: Fields)
    ensures forall k {:trigger k in r} :: k in r <==> k == "diskUsage" || k == "networkTraffic" || k == "processes"
    ensures "diskUsage" in r && r["diskUsage"] == probes.disk
    ensures "networkTraffic" in r && r["networkTraffic"] == probes.network
    ensures "processes" in r && r["processes"] == probes.processes
  {
    map["diskUsage" := probes.disk, "networkTraffic" := probes.network, "processes" := probes.processes]
  }

  /** The check results the literal copies. */
  function Metrics(probes: Probes): (r: Fields)
    requires LoadReady(probes.load) && MemoryReady(probes.memory)
    ensures forall k {:trigger k in r} :: k in r <==> MetricKey(k)
  {
    WholeResults(probes) + LoadFields(probes.load) + MemoryFields(probes.memory)
  }

  /** The entries of the literal that describe the agent and the cycle. */
  function Header(config: Fields, c: Collected): (r: Fields)
    requires "agentKey" in config && "version" in config && "apiKey" in config
    ensures forall k {:trigger k in r} :: k in r <==> HeaderKey(k)
    ensures
      && "collection_timestamp" in r && r["collection_timestamp"] == c.timestamp
      && "os" in r && r["os"] == Str(c.os.Name())
      && "agentKey" in r && r["agentKey"] == config["agentKey"]
      && "agentVersion" in r && r["agentVersion"] == config["version"]
      && "apiKey" in r && r["apiKey"] == config["apiKey"]
      && "events" in r && r["events"] == EmptyDict
      && "resources" in r && r["resources"] == EmptyDict
  {
    map[
      "collection_timestamp" := c.timestamp, "os" := Str(c.os.Name()),
      "agentKey" := config["agentKey"], "agentVersion" := config["version"],
      "apiKey" := config["apiKey"], "events" := EmptyDict, "resources" := EmptyDict]
  }

  /** The dictionary literal once every subscript in it has succeeded. */
  function CoreLiteral(config: Fields, c: Collected): (r: Fields)
    requires CoreReady(config, c.probes)
    ensures forall k {:trigger k in r} :: k in r <==> CoreKey(k)
  {
    Metrics(c.probes) + Header(config, c)
  }

  /** The dictionary literal, or the exception of the first subscript in it that fails. */
  function CoreFields(config: Fields, c: Collected): (r: Result<Fields, Exc>)
    ensures r.Success? <==> CoreReady(config, c.probes)
    ensures r.Success? ==> r.value == CoreLiteral(config, c)
    ensures r.Failure? ==> r.error == CoreError(config, c.probes)
  {
    if CoreReady(config, c.probes) then Success(CoreLiteral(config, c)) else Failure(CoreError(config, c.probes))
  }

  // ---------------------------------------------------------------------------------------
  // Stage 2: cpuStats, the service results and the plugins
  // ---------------------------------------------------------------------------------------

  /** The keys the payload sets itself apart from the guarded blocks. */
  predicate OwnKey(k: string) {
    CoreKey(k) || k == "systemStats" || k == "internalHostname" || k == "uuid"
  }

  /** A two-item element of a sequence handed to `dict.update` whose first item is a string key. */
  predicate IsPair(e: Value) {
    (e.List? && |e.items| == 2 && e.items[0].Str?) || (e.Str? && |e.s| == 2)
  }

  function PairKey(e: Value): string
    requires IsPair(e)
  {
    if e.List? then e.items[0].s else [e.s[0]]
  }

  function PairValue(e: Value): Value
    requires IsPair(e)
  {
    if e.List? then e.items[1] else Str([e.s[1]])
  }

  /**
   * What `dict.update` does with one element of a sequence argument: a pair assigns its key;
   * a sequence of another length raises `ValueError`; an element that is not a sequence, or
   * whose first item is not a string, raises `TypeError`.
   */
  function PairStep(e: Value): Step {
    if IsPair(e) then Put(PairKey(e), PairValue(e))
    else if (e.List? && |e.items| != 2) || (e.Str? && |e.s| != 2) || (e.Dict? && |e.fields| != 2) then Raise(ValueError)
    else Raise(TypeError)
  }

  function PairSteps(xs: seq<Value>): (steps: seq<Step>)
    ensures |steps| == |xs|
    ensures forall i :: 0 <= i < |xs| ==> steps[i] == PairStep(xs[i])
  {
    seq(|xs|, i requires 0 <= i < |xs| => PairStep(xs[i]))
  }

  /**
   * The entries `dict.update(cpuStats)` writes, or the exception it raises: a dictionary's own
   * entries; for a list, its pairs in order, a later pair of a key replacing an earlier one;
   * nothing for the empty string; `ValueError` for any other string, whose elements are
   * one-character strings; `TypeError` for a value that cannot be iterated.
   */
  function CpuUpdate(cpu: Value): (r: Result<Fields, Exc>)
    ensures cpu.Dict? ==> r == Success(cpu.fields)
    ensures cpu.Str? ==> r == if |cpu.s| == 0 then Success(map[]) else Failure(ValueError)
    ensures cpu.Bool? || cpu.Null? || cpu.Num? ==> r == Failure(TypeError)
    ensures cpu.List? ==> (r.Success? <==> forall i :: 0 <= i < |cpu.items| ==> IsPair(cpu.items[i]))
    ensures cpu.List? && r.Success? ==> r.value.Keys == PutKeys(PairSteps(cpu.items))
    ensures cpu.List? && r.Success? ==> forall i :: LastPut(PairSteps(cpu.items), i) ==>
      PairKey(cpu.items[i]) in r.value && r.value[PairKey(cpu.items[i])] == PairValue(cpu.items[i])
  {
    match cpu
    case Dict(m) => Success(m)
    case List(xs) =>
      var d :- Populate(EmptyDict, PairSteps(xs));
      Success(d.fields)
    case Str(s) => if |s| == 0 then Success(map[]) else Failure(ValueError)
    case _ => Failure(TypeError)
  }

  /** `checksData.update(cpuStats)` is skipped or completes. */
  predicate CpuReady(cpu: Value) {
    IsFalseOrNone(cpu) || CpuUpdate(cpu).Success?
  }

  /** `k` is a top-level key that `checksData.update(cpuStats)` contributes. */
  predicate CpuKey(cpu: Value, k: string) {
    CpuUpdate(cpu).Success? && k in CpuUpdate(cpu).value
  }

  /**
   * A `cpuStats` result that does not shadow any other key of the payload. The CPU check
   * reports `cpu*` fields only; the lemmas about the payload's own keys assume this.
   */
  ghost predicate CpuStatsOnly(cpu: Value) {
    forall k :: CpuKey(cpu, k) ==> !OwnKey(k) && !ServiceKeyName(k)
  }

  /** `checksData.update(cpuStats)` when `cpuStats` is neither `False` nor `None`; later keys replace earlier ones. */
  function MergeCpu(p: Fields, cpu: Value): (r: Result<Fields, Exc>)
    ensures r.Success? <==> CpuReady(cpu)
    ensures r.Failure? ==> r.error == CpuUpdate(cpu).error
    ensures r.Success? ==> forall k {:trigger k in r.value} :: k in r.value <==> k in p || CpuKey(cpu, k)
    ensures r.Success? ==> forall k :: CpuKey(cpu, k) ==> r.value[k] == CpuUpdate(cpu).value[k]
    ensures r.Success? ==> forall k :: k in p && !CpuKey(cpu, k) ==> r.value[k] == p[k]
  {
    if IsFalseOrNone(cpu) then Success(p)
    else
      var u :- CpuUpdate(cpu);
      Success(p + u)
  }

  /** `if v is not False and v is not None: p[key] = v` (ganglia, datadog, cassandra). */
  function AddUnlessFalseOrNone(p: Fields, key: string, v: Value): (r: Fields)
    ensures forall k {:trigger k in r} :: k in r <==> k in p || (k == key && !IsFalseOrNone(v))
    ensures !IsFalseOrNone(v) ==> r[key] == v
    ensures forall k :: k in p && k != key ==> r[k] == p[k]
  {
    if IsFalseOrNone(v) then p else p[key := v]
  }

  /** `if v != False: p[key] = v` (RabbitMQ, MongoDB, CouchDB, plugins, ioStats); `None` and `{}` pass this test. */
  function AddUnlessFalse(p: Fields, key: string, v: Value): (r: Fields)
    ensures forall k {:trigger k in r} :: k in r <==> k in p || (k == key && !EqualsFalse(v))
    ensures !EqualsFalse(v) ==> r[key] == v
    ensures forall k :: k in p && k != key ==> r[k] == p[k]
  {
    if EqualsFalse(v) then p else p[key := v]
  }

  /** The payload keys of the Apache, MySQL and nginx blocks. */
  predicate ApacheKey(k: string) {
    k == "apacheReqPerSec" || k == "apacheBusyWorkers" || k == "apacheIdleWorkers"
  }

  predicate MysqlKey(k: string) {
    || k == "mysqlConnections" || k == "mysqlCreatedTmpDiskTables" || k == "mysqlMaxUsedConnections"
    || k == "mysqlOpenFiles" || k == "mysqlSlowQueries" || k == "mysqlTableLocksWaited" || k == "mysqlThreadsConnected"
  }

  predicate NginxKey(k: string) {
    k == "nginxConnections" || k == "nginxReqPerSec"
  }

  /** The keys the three identity-guarded blocks can write. */
  predicate ExtraName(k: string) {
    k == "ganglia" || k == "datadog" || k == "cassandra"
  }

  /** The keys the Apache, MySQL and nginx blocks can write. */
  predicate BlockName(k: string) {
    ApacheKey(k) || MysqlKey(k) || k == "mysqlSecondsBehindMaster" || NginxKey(k)
  }

  /** The keys the whole-result blocks guarded by `!= False` can write. */
  predicate WholeName(k: string) {
    k == "rabbitMQ" || k == "mongoDB" || k == "couchDB" || k == "plugins" || k == "ioStats"
  }

  /** `k` is a key some guarded block can add, whatever the results. */
  predicate ServiceKeyName(k: string) {
    ExtraName(k) || BlockName(k) || WholeName(k)
  }

  /** The field of the Apache result that an Apache key holds. */
  function ApacheField(k: string): string
    requires ApacheKey(k)
  {
    if k == "apacheReqPerSec" then "reqPerSec" else if k == "apacheBusyWorkers" then "busyWorkers" else "idleWorkers"
  }

  /** The field of the MySQL result that a MySQL key holds. */
  function MysqlField(k: string): string
    requires MysqlKey(k) || k == "mysqlSecondsBehindMaster"
  {
    if k == "mysqlConnections" then "connections"
    else if k == "mysqlCreatedTmpDiskTables" then "createdTmpDiskTables"
    else if k == "mysqlMaxUsedConnections" then "maxUsedConnections"
    else if k == "mysqlOpenFiles" then "openFiles"
    else if k == "mysqlSlowQueries" then "slowQueries"
    else if k == "mysqlTableLocksWaited" then "tableLocksWaited"
    else if k == "mysqlThreadsConnected" then "threadsConnected"
    else "secondsBehindMaster"
  }

  /** The field of the nginx result that an nginx key holds. */
  function NginxField(k: string): string
    requires NginxKey(k)
  {
    if k == "nginxConnections" then "connections" else "reqPerSec"
  }

  predicate ApacheReady(v: Value) {
    v.Dict? && "reqPerSec" in v.fields && "busyWorkers" in v.fields && "idleWorkers" in v.fields
  }

  predicate MysqlReady(v: Value) {
    && v.Dict? && "connections" in v.fields && "createdTmpDiskTables" in v.fields
    && "maxUsedConnections" in v.fields && "openFiles" in v.fields && "slowQueries" in v.fields
    && "tableLocksWaited" in v.fields && "threadsConnected" in v.fields && "secondsBehindMaster" in v.fields
  }

  predicate NginxReady(v: Value) {
    v.Dict? && "connections" in v.fields && "reqPerSec" in v.fields
  }

  /** `if apacheStatus != False:` copy requests per second and busy and idle workers. */
  function ApachePart(p: Fields, apache: Value): (r: Result<Fields, Exc>)
    ensures r.Success? <==> EqualsFalse(apache) || ApacheReady(apache)
    ensures r.Success? ==> forall k {:trigger k in r.value} :: k in r.value <==> k in p || (!EqualsFalse(apache) && ApacheKey(k))
    ensures r.Success? ==> forall k :: k in p && !ApacheKey(k) ==> r.value[k] == p[k]
    ensures r.Success? && !EqualsFalse(apache) ==>
      forall k :: ApacheKey(k) ==> r.value[k] == apache.fields[ApacheField(k)]
    ensures r.Failure? ==> r.error == SubscriptError(apache, ["reqPerSec", "busyWorkers", "idleWorkers"])
  {
    if EqualsFalse(apache) then Success(p)
    else if !ApacheReady(apache) then Failure(SubscriptError(apache, ["reqPerSec", "busyWorkers", "idleWorkers"]))
    else
      var f := apache.fields;
      Success(p + map["apacheReqPerSec" := f["reqPerSec"], "apacheBusyWorkers" := f["busyWorkers"],
                      "apacheIdleWorkers" := f["idleWorkers"]])
  }

  /** A MySQL result that reports replication lag: `secondsBehindMaster` is not `None`. */
  predicate MysqlLag(mysql: Value) {
    mysql.Dict? && "secondsBehindMaster" in mysql.fields && mysql.fields["secondsBehindMaster"] != Null
  }

  /** The seven MySQL fields, each under its `mysql...` key. */
  function MysqlFields(f: Fields): (r: Fields)
    requires MysqlReady(Dict(f))
    ensures forall k {:trigger k in r} :: k in r <==> MysqlKey(k)
    ensures forall k :: MysqlKey(k) ==> r[k] == f[MysqlField(k)]
  {
    map[
      "mysqlConnections" := f["connections"], "mysqlCreatedTmpDiskTables" := f["createdTmpDiskTables"],
      "mysqlMaxUsedConnections" := f["maxUsedConnections"], "mysqlOpenFiles" := f["openFiles"],
      "mysqlSlowQueries" := f["slowQueries"], "mysqlTableLocksWaited" := f["tableLocksWaited"],
      "mysqlThreadsConnected" := f["threadsConnected"]]
  }

  /** `if mysqlStatus != False:` the seven MySQL fields, then `mysqlSecondsBehindMaster` only when that value is not `None`. */
  function MysqlPart(p: Fields, mysql: Value): (r: Result<Fields, Exc>)
    ensures r.Success? <==> EqualsFalse(mysql) || MysqlReady(mysql)
    ensures r.Success? ==> forall k {:trigger k in r.value} :: k in r.value <==>
      || k in p
      || (!EqualsFalse(mysql) && MysqlKey(k))
      || (!EqualsFalse(mysql) && MysqlLag(mysql) && k == "mysqlSecondsBehindMaster")
    ensures r.Success? ==> forall k :: k in p && !MysqlKey(k) && k != "mysqlSecondsBehindMaster" ==> r.value[k] == p[k]
    ensures r.Success? && !EqualsFalse(mysql) ==>
      forall k :: MysqlKey(k) || (MysqlLag(mysql) && k == "mysqlSecondsBehindMaster") ==>
        r.value[k] == mysql.fields[MysqlField(k)]
    ensures r.Failure? ==> r.error == SubscriptError(mysql, ["connections", "createdTmpDiskTables", "maxUsedConnections",
      "openFiles", "slowQueries", "tableLocksWaited", "threadsConnected", "secondsBehindMaster"])
  {
    if EqualsFalse(mysql) then Success(p)
    else if !MysqlReady(mysql) then
      Failure(SubscriptError(mysql, ["connections", "createdTmpDiskTables", "maxUsedConnections", "openFiles",
                                     "slowQueries", "tableLocksWaited", "threadsConnected", "secondsBehindMaster"]))
    else
      var f := mysql.fields;
      var p1 := p + MysqlFields(f);
      var p2 := if f["secondsBehindMaster"] != Null then p1["mysqlSecondsBehindMaster" := f["secondsBehindMaster"]] else p1;
      MysqlHold(f, p1, p2);
      Success(p2)
  }

  lemma MysqlHold(f: Fields, p1: Fields, p2: Fields)
    requires MysqlReady(Dict(f))
    requires forall k :: MysqlKey(k) ==> k in p1 && p1[k] == f[MysqlField(k)]
    requires p2 == if f["secondsBehindMaster"] != Null then p1["mysqlSecondsBehindMaster" := f["secondsBehindMaster"]] else p1
    ensures forall k :: MysqlKey(k) || (MysqlLag(Dict(f)) && k == "mysqlSecondsBehindMaster") ==>
      k in p2 && p2[k] == f[MysqlField(k)]
  {
    forall k | MysqlKey(k) || (MysqlLag(Dict(f)) && k == "mysqlSecondsBehindMaster")
      ensures k in p2 && p2[k] == f[MysqlField(k)]
    {
      if MysqlKey(k) {
        assert k != "mysqlSecondsBehindMaster";
        assert p2[k] == p1[k];
      }
    }
  }

  /** `if nginxStatus != False:` copy connections and requests per second. */
  function NginxPart(p: Fields, nginx: Value): (r: Result<Fields, Exc>)
    ensures r.Success? <==> EqualsFalse(nginx) || NginxReady(nginx)
    ensures r.Success? ==> forall k {:trigger k in r.value} :: k in r.value <==> k in p || (!EqualsFalse(nginx) && NginxKey(k))
    ensures r.Success? ==> forall k :: k in p && !NginxKey(k) ==> r.value[k] == p[k]
    ensures r.Success? && !EqualsFalse(nginx) ==>
      forall k :: NginxKey(k) ==> r.value[k] == nginx.fields[NginxField(k)]
    ensures r.Failure? ==> r.error == SubscriptError(nginx, ["connections", "reqPerSec"])
  {
    if EqualsFalse(nginx) then Success(p)
    else if !NginxReady(nginx) then Failure(SubscriptError(nginx, ["connections", "reqPerSec"]))
    else Success(p + map["nginxConnections" := nginx.fields["connections"], "nginxReqPerSec" := nginx.fields["reqPerSec"]])
  }

  /** The subscripts inside the guarded Apache, MySQL and nginx blocks succeed. */
  predicate ServicesReady(probes: Probes) {
    && (EqualsFalse(probes.apache) || ApacheReady(probes.apache))
    && (EqualsFalse(probes.mysql) || MysqlReady(probes.mysql))
    && (EqualsFalse(probes.nginx) || NginxReady(probes.nginx))
  }

  /** `k` is added by one of the three identity-guarded results: ganglia, datadog, cassandra. */
  predicate ExtraKey(c: Collected, k: string) {
    || (k == "ganglia" && !IsFalseOrNone(c.probes.ganglia))
    || (k == "datadog" && !IsFalseOrNone(c.datadog))
    || (k == "cassandra" && !IsFalseOrNone(c.probes.cassandra))
  }

  /** `k` is added by the Apache, MySQL or nginx block. */
  predicate BlockKey(pr: Probes, k: string) {
    || (!EqualsFalse(pr.apache) && ApacheKey(k))
    || (!EqualsFalse(pr.mysql) && MysqlKey(k))
    || (!EqualsFalse(pr.mysql) && MysqlLag(pr.mysql) && k == "mysqlSecondsBehindMaster")
    || (!EqualsFalse(pr.nginx) && NginxKey(k))
  }

  /** `k` is added by one of the whole-result blocks guarded by `!= False`. */
  predicate WholeKey(c: Collected, k: string) {
    || (k == "rabbitMQ" && !EqualsFalse(c.probes.rabbitmq))
    || (k == "mongoDB" && !EqualsFalse(c.probes.mongodb))
    || (k == "couchDB" && !EqualsFalse(c.probes.couchdb))
    || (k == "plugins" && !EqualsFalse(c.plugins))
    || (k == "ioStats" && !EqualsFalse(c.probes.io))
  }

  /** `k` is added by a guarded block, each exactly when its guard holds. */
  predicate ServiceKey(c: Collected, k: string) {
    ExtraKey(c, k) || BlockKey(c.probes, k) || WholeKey(c, k)
  }

  /** The value a block key holds: the field of the Apache, MySQL or nginx result it copies. */
  function BlockValue(pr: Probes, k: string): Value
    requires ServicesReady(pr) && BlockKey(pr, k)
  {
    if ApacheKey(k) then pr.apache.fields[ApacheField(k)]
    else if NginxKey(k) then pr.nginx.fields[NginxField(k)]
    else pr.mysql.fields[MysqlField(k)]
  }

  /** The result an identity-guarded key holds once written. */
  function ExtraValue(c: Collected, k: string): Value
    requires ExtraName(k)
  {
    if k == "ganglia" then c.probes.ganglia else if k == "datadog" then c.datadog else c.probes.cassandra
  }

  /** The result a whole-result key holds once written. */
  function WholeValue(c: Collected, k: string): Value
    requires WholeName(k)
  {
    if k == "rabbitMQ" then c.probes.rabbitmq
    else if k == "mongoDB" then c.probes.mongodb
    else if k == "couchDB" then c.probes.couchdb
    else if k == "plugins" then c.plugins
    else c.probes.io
  }

  /** The value each guarded key holds once written: the check result itself, or the field a block copies. */
  function ServiceValue(c: Collected, k: string): Value
    requires ServicesReady(c.probes) && ServiceKey(c, k)
  {
    if ExtraName(k) then ExtraValue(c, k)
    else if WholeName(k) then WholeValue(c, k)
    else BlockValue(c.probes, k)
  }

  function AddExtras(p: Fields, c: Collected): (r: Fields)
    ensures forall k {:trigger k in r} :: k in r <==> k in p || ExtraKey(c, k)
    ensures forall k :: k in p && !ExtraName(k) ==> r[k] == p[k]
    ensures forall k :: ExtraKey(c, k) ==> r[k] == ExtraValue(c, k)
  {
    var p1 := AddUnlessFalseOrNone(p, "ganglia", c.probes.ganglia);
    var p2 := AddUnlessFalseOrNone(p1, "datadog", c.datadog);
    var p3 := AddUnlessFalseOrNone(p2, "cassandra", c.probes.cassandra);
    ExtrasHold(c, p, p1, p2, p3);
    p3
  }

  lemma ExtrasHold(c: Collected, p: Fields, p1: Fields, p2: Fields, p3: Fields)
    requires p1 == AddUnlessFalseOrNone(p, "ganglia", c.probes.ganglia)
    requires p2 == AddUnlessFalseOrNone(p1, "datadog", c.datadog)
    requires p3 == AddUnlessFalseOrNone(p2, "cassandra", c.probes.cassandra)
    ensures forall k :: ExtraKey(c, k) ==> k in p3 && p3[k] == ExtraValue(c, k)
  {
    forall k | ExtraKey(c, k) ensures k in p3 && p3[k] == ExtraValue(c, k) {
      if k == "ganglia" {
        assert p1[k] == p2[k] == p3[k];
      } else if k == "datadog" {
        assert p2[k] == p3[k];
      }
    }
  }

  function AddBlocks(p: Fields, pr: Probes): (r: Result<Fields, Exc>)
    ensures r.Success? <==> ServicesReady(pr)
    ensures r.Success? ==> forall k {:trigger k in r.value} :: k in r.value <==> k in p || BlockKey(pr, k)
    ensures r.Success? ==> forall k :: k in p && !BlockName(k) ==> r.value[k] == p[k]
    ensures r.Success? ==> forall k :: BlockKey(pr, k) ==> r.value[k] == BlockValue(pr, k)
  {
    var p1 :- ApachePart(p, pr.apache);
    var p2 :- MysqlPart(p1, pr.mysql);
    var p3 :- NginxPart(p2, pr.nginx);
    BlocksHold(pr, p1, p2, p3);
    Success(p3)
  }

  lemma BlocksHold(pr: Probes, p1: Fields, p2: Fields, p3: Fields)
    requires ServicesReady(pr)
    requires !EqualsFalse(pr.apache) ==> forall k :: ApacheKey(k) ==> k in p1 && p1[k] == pr.apache.fields[ApacheField(k)]
    requires MysqlPart(p1, pr.mysql) == Success(p2)
    requires NginxPart(p2, pr.nginx) == Success(p3)
    ensures forall k :: BlockKey(pr, k) ==> k in p3 && p3[k] == BlockValue(pr, k)
  {
    forall k | BlockKey(pr, k) ensures k in p3 && p3[k] == BlockValue(pr, k) {
      BlockNamesApart(k);
      if ApacheKey(k) {
        assert p1[k] == p2[k] == p3[k];
      } else if MysqlKey(k) || k == "mysqlSecondsBehindMaster" {
        assert p2[k] == p3[k];
      }
    }
  }

  function AddWholes(p: Fields, c: Collected): (r: Fields)
    ensures forall k {:trigger k in r} :: k in r <==> k in p || WholeKey(c, k)
    ensures forall k :: k in p && !WholeName(k) ==> r[k] == p[k]
    ensures forall k :: WholeKey(c, k) ==> r[k] == WholeValue(c, k)
  {
    var p1 := AddUnlessFalse(p, "rabbitMQ", c.probes.rabbitmq);
    var p2 := AddUnlessFalse(p1, "mongoDB", c.probes.mongodb);
    var p3 := AddUnlessFalse(p2, "couchDB", c.probes.couchdb);
    var p4 := AddUnlessFalse(p3, "plugins", c.plugins);
    var p5 := AddUnlessFalse(p4, "ioStats", c.probes.io);
    WholesHold(c, p, p1, p2, p3, p4, p5);
    p5
  }

  lemma WholesHold(c: Collected, p: Fields, p1: Fields, p2: Fields, p3: Fields, p4: Fields, p5: Fields)
    requires p1 == AddUnlessFalse(p, "rabbitMQ", c.probes.rabbitmq)
    requires p2 == AddUnlessFalse(p1, "mongoDB", c.probes.mongodb)
    requires p3 == AddUnlessFalse(p2, "couchDB", c.probes.couchdb)
    requires p4 == AddUnlessFalse(p3, "plugins", c.plugins)
    requires p5 == AddUnlessFalse(p4, "ioStats", c.probes.io)
    ensures forall k :: WholeKey(c, k) ==> k in p5 && p5[k] == WholeValue(c, k)
  {
    forall k | WholeKey(c, k) ensures k in p5 && p5[k] == WholeValue(c, k) {
      if k == "rabbitMQ" {
        assert p1[k] == p2[k] == p3[k] == p4[k] == p5[k];
      } else if k == "mongoDB" {
        assert p2[k] == p3[k] == p4[k] == p5[k];
      } else if k == "couchDB" {
        assert p3[k] == p4[k] == p5[k];
      } else if k == "plugins" {
        assert p4[k] == p5[k];
      }
    }
  }

  /** From `if gangliaData is not False ...` through `if ioStats != False ...`, in the order `doChecks` runs them. */
  function ServiceFields(p: Fields, c: Collected): (r: Result<Fields, Exc>)
    ensures r.Success? <==> ServicesReady(c.probes)
    ensures r.Success? ==> forall k {:trigger k in r.value} :: k in r.value <==> k in p || ServiceKey(c, k)
    ensures r.Success? ==> forall k :: k in p && !ServiceKeyName(k) ==> r.value[k] == p[k]
    ensures r.Success? ==> forall k :: ServiceKey(c, k) ==> r.value[k] == ServiceValue(c, k)
  {
    var p1 := AddExtras(p, c);
    var p2 :- AddBlocks(p1, c.probes);
    var p3 := AddWholes(p2, c);
    ServicesHold(c, p1, p2, p3);
    Success(p3)
  }

  /** The keys of the three groups of guarded blocks are apart. */
  lemma NamesApart(k: string)
    ensures ExtraName(k) ==> !BlockName(k) && !WholeName(k)
    ensures BlockName(k) ==> !WholeName(k)
  {
    ExtraNotBlock(k);
    ExtraNotWhole(k);
    BlockNotWhole(k);
  }

  lemma ExtraNotBlock(k: string)
    ensures ExtraName(k) ==> !BlockName(k)
  {
  }

  lemma ExtraNotWhole(k: string)
    ensures ExtraName(k) ==> !WholeName(k)
  {
  }

  lemma BlockNotWhole(k: string)
    ensures BlockName(k) ==> !WholeName(k)
  {
  }

  /** The keys of the Apache, MySQL and nginx blocks are apart. */
  lemma BlockNamesApart(k: string)
    ensures ApacheKey(k) ==> !MysqlKey(k) && k != "mysqlSecondsBehindMaster" && !NginxKey(k)
    ensures MysqlKey(k) || k == "mysqlSecondsBehindMaster" ==> !NginxKey(k)
  {
  }

  lemma ServicesHold(c: Collected, p1: Fields, p2: Fields, p3: Fields)
    requires ServicesReady(c.probes)
    requires forall k :: ExtraKey(c, k) ==> k in p1 && p1[k] == ExtraValue(c, k)
    requires AddBlocks(p1, c.probes) == Success(p2)
    requires p3 == AddWholes(p2, c)
    ensures forall k :: ServiceKey(c, k) ==> k in p3 && p3[k] == ServiceValue(c, k)
  {
    forall k | ServiceKey(c, k) ensures k in p3 && p3[k] == ServiceValue(c, k) {
      NamesApart(k);
      if ExtraName(k) {
        assert ExtraKey(c, k) && ServiceValue(c, k) == ExtraValue(c, k);
        assert p1[k] == p2[k] == p3[k];
      } else if BlockName(k) {
        assert BlockKey(c.probes, k) && ServiceValue(c, k) == BlockValue(c.probes, k);
        assert p2[k] == p3[k];
      } else {
        assert WholeKey(c, k) && ServiceValue(c, k) == WholeValue(c, k);
      }
    }
  }

  // ---------------------------------------------------------------------------------------
  // Stage 3: first-run system facts and host identifiers
  // ---------------------------------------------------------------------------------------

  /** `k` is `systemStats` on the first run, `internalHostname` when the hostname is known, or `uuid`. */
  predicate IdentityKey(c: Collected, k: string) {
    (k == "systemStats" && c.firstRun) || (k == "internalHostname" && c.hostname.Some?) || k == "uuid"
  }

  /** `systemStats` on the first run, `internalHostname` unless `gethostname()` failed, and `uuid`. */
  function Identity(p: Fields, c: Collected): (r: Fields)
    ensures forall k {:trigger k in r} :: k in r <==> k in p || IdentityKey(c, k)
    ensures c.firstRun ==> "systemStats" in r && r["systemStats"] == c.systemStats
    ensures c.hostname.Some? ==> "internalHostname" in r && r["internalHostname"] == Str(c.hostname.value)
    ensures "uuid" in r && r["uuid"] == Str(c.uuid)
    ensures forall k :: k in p && k != "systemStats" && k != "internalHostname" && k != "uuid" ==> r[k] == p[k]
  {
    var p1 := if c.firstRun then p["systemStats" := c.systemStats] else p;
    var p2 := if c.hostname.Some? then p1["internalHostname" := Str(c.hostname.value)] else p1;
    p2["uuid" := Str(c.uuid)]
  }

  // ---------------------------------------------------------------------------------------
  // Stage 4: events
  // ---------------------------------------------------------------------------------------

  /** `if event_data: checksData['events'][event_check.key] = event_data`. */
  function EventSteps(events: seq<(string, Value)>): (steps: seq<Step>)
    ensures |steps| == |events|
    ensures forall i :: 0 <= i < |events| ==>
      steps[i] == if Truthy(events[i].1) then Put(events[i].0, events[i].1) else Skip
  {
    seq(|events|, i requires 0 <= i < |events| => if Truthy(events[i].1) then Put(events[i].0, events[i].1) else Skip)
  }

  predicate SomeTruthyEvent(events: seq<(string, Value)>) {
    exists i :: 0 <= i < |events| && Truthy(events[i].1)
  }

  /** The keys of the event checks that produced truthy data. */
  function EventKeys(events: seq<(string, Value)>): set<string> {
    set i | 0 <= i < |events| && Truthy(events[i].1) :: events[i].0
  }

  lemma EventStepsFacts(events: seq<(string, Value)>)
    ensures PutKeys(EventSteps(events)) == EventKeys(events)
    ensures (forall i :: 0 <= i < |events| ==> EventSteps(events)[i].Skip?) <==> !SomeTruthyEvent(events)
    ensures forall i :: 0 <= i < |events| ==> !EventSteps(events)[i].Raise?
  {
  }

  /** The loop over the event checks; `checksData['events']` is looked up only when there is something to store. */
  function AddEvents(p: Fields, events: seq<(string, Value)>): (r: Result<Fields, Exc>)
    ensures "events" in p ==> (r.Success? <==> p["events"].Dict? || !SomeTruthyEvent(events))
    ensures r.Success? ==> r.value.Keys == p.Keys
    ensures r.Success? ==> forall k :: k in p && k != "events" ==> r.value[k] == p[k]
    ensures r.Success? && "events" in p && p["events"].Dict? ==>
      r.value["events"] == Populate(p["events"], EventSteps(events)).value
    ensures r.Success? && "events" in p && !p["events"].Dict? ==> r.value["events"] == p["events"]
  {
    EventStepsFacts(events);
    if !SomeTruthyEvent(events) then Success(p)
    else
      var ev :- GetItem(Dict(p), "events");
      var ev1 :- Populate(ev, EventSteps(events));
      Success(p["events" := ev1])
  }

  // ---------------------------------------------------------------------------------------
  // Stage 5: resources
  // ---------------------------------------------------------------------------------------

  /** The value stored for one truthy snapshot: `ts`, `data`, `format_version`, and `format_description` when it is not `None`. */
  function ResourceEntry(r: ResourceReading): (v: Result<Value, Exc>)
    ensures v.Success? <==> (Item(r.snapshot, 0).Success? && Item(r.snapshot, 1).Success?)
    ensures v.Success? ==> v.value.Dict?
    ensures v.Success? ==> v.value.fields.Keys == {"ts", "data", "format_version"} + (if r.format != Null then {"format_description"} else {})
    ensures v.Success? ==>
      && v.value.fields["ts"] == Item(r.snapshot, 0).value
      && v.value.fields["data"] == Item(r.snapshot, 1).value
      && v.value.fields["format_version"] == r.version
    ensures v.Success? && r.format != Null ==> v.value.fields["format_description"] == r.format
  {
    var ts :- Item(r.snapshot, 0);
    var data :- Item(r.snapshot, 1);
    var d := map["ts" := ts, "data" := data, "format_version" := r.version];
    Success(Dict(if r.format != Null then d["format_description" := r.format] else d))
  }

  function ResourceStep(r: ResourceReading): Step {
    if !Truthy(r.snapshot) then Skip
    else match ResourceEntry(r)
      case Success(v) => Put(r.key, v)
      case Failure(e) => Raise(e)
  }

  function ResourceSteps(rs: seq<ResourceReading>): (steps: seq<Step>)
    ensures |steps| == |rs|
    ensures forall i :: 0 <= i < |rs| ==> steps[i] == ResourceStep(rs[i])
  {
    seq(|rs|, i requires 0 <= i < |rs| => ResourceStep(rs[i]))
  }

  /** `has_resource`: some resource check popped a truthy snapshot. */
  predicate HasResource(rs: seq<ResourceReading>) {
    exists i :: 0 <= i < |rs| && Truthy(rs[i].snapshot)
  }

  /** Every truthy snapshot can be subscripted at 0 and 1. */
  predicate SnapshotsWellFormed(rs: seq<ResourceReading>) {
    forall i :: 0 <= i < |rs| && Truthy(rs[i].snapshot) ==> ResourceEntry(rs[i]).Success?
  }

  /** The keys of the resource checks that contributed. */
  function SnapshotKeys(rs: seq<ResourceReading>): set<string> {
    set i | 0 <= i < |rs| && Truthy(rs[i].snapshot) :: rs[i].key
  }

  lemma ResourceStepsFacts(rs: seq<ResourceReading>)
    ensures (forall i :: 0 <= i < |rs| ==> ResourceSteps(rs)[i].Skip?) <==> !HasResource(rs)
    ensures (forall i :: 0 <= i < |rs| ==> !ResourceSteps(rs)[i].Raise?) <==> SnapshotsWellFormed(rs)
    ensures SnapshotsWellFormed(rs) ==> PutKeys(ResourceSteps(rs)) == SnapshotKeys(rs)
  {
    var steps := ResourceSteps(rs);
    if SnapshotsWellFormed(rs) {
      forall k | k in SnapshotKeys(rs) ensures k in PutKeys(steps) {
        var i :| 0 <= i < |rs| && Truthy(rs[i].snapshot) && rs[i].key == k;
        assert steps[i].Put?;
      }
    }
  }

  /** `{'api_key': ..., 'host': checksData['internalHostname']}`; raises `KeyError` when the hostname is unknown. */
  function ResourcesMeta(config: Fields, p: Fields): (r: Result<Value, Exc>)
    ensures r.Success? <==> "apiKey" in config && "internalHostname" in p
    ensures r.Success? ==> r.value == Dict(map["api_key" := config["apiKey"], "host" := p["internalHostname"]])
  {
    var api :- GetItem(Dict(config), "apiKey");
    var host :- GetItem(Dict(p), "internalHostname");
    Success(Dict(map["api_key" := api, "host" := host]))
  }

  /** The loop over the resource checks followed by the shared `meta` entry. */
  function AddResources(p: Fields, config: Fields, rs: seq<ResourceReading>): (r: Result<Fields, Exc>)
    ensures "resources" in p && p["resources"].Dict? ==>
      (r.Success? <==> SnapshotsWellFormed(rs) && (HasResource(rs) ==> "apiKey" in config && "internalHostname" in p))
    ensures "resources" in p && !p["resources"].Dict? ==> (r.Success? <==> !HasResource(rs))
    ensures r.Success? ==> r.value.Keys == p.Keys
    ensures r.Success? ==> forall k :: k in p && k != "resources" ==> r.value[k] == p[k]
    ensures r.Success? && !HasResource(rs) ==> r.value == p
    ensures "resources" in p && p["resources"].Dict? && SnapshotsWellFormed(rs) && HasResource(rs) ==>
      "apiKey" in config && "internalHostname" !in p ==> r == Failure(KeyError(Str("internalHostname")))
    ensures r.Success? && HasResource(rs) && "resources" in p ==>
      var filled := Populate(p["resources"], ResourceSteps(rs)).value;
      r.value["resources"] == Dict(filled.fields["meta" := ResourcesMeta(config, p).value])
  {
    ResourceStepsFacts(rs);
    if !HasResource(rs) then Success(p)
    else
      var res :- GetItem(Dict(p), "resources");
      var res1 :- Populate(res, ResourceSteps(rs));
      var meta :- ResourcesMeta(config, p);
      var res2 :- SetItem(res1, "meta", meta);
      Success(p["resources" := res2])
  }

  // ---------------------------------------------------------------------------------------
  // Stage 6: the startup event
  // ---------------------------------------------------------------------------------------

  /** The single record of `events['System']`. */
  function StartupRecord(apiKey: Value, host: Value, timestamp: int): Value {
    Dict(map["api_key" := apiKey, "host" := host, "timestamp" := Num(timestamp), "event_type" := Str("agent startup")])
  }

  /** On the first run, `checksData['events']['System']` becomes a one-element list holding the startup record. */
  function AddStartup(p: Fields, config: Fields, firstRun: bool, timestamp: int): (r: Result<Fields, Exc>)
    ensures !firstRun ==> r == Success(p)
    ensures firstRun && "events" in p ==>
      (r.Success? <==> "apiKey" in config && "internalHostname" in p && p["events"].Dict?)
    ensures firstRun && "apiKey" in config && "internalHostname" !in p ==> r == Failure(KeyError(Str("internalHostname")))
    ensures r.Success? ==> r.value.Keys == p.Keys
    ensures r.Success? ==> forall k :: k in p && k != "events" ==> r.value[k] == p[k]
    ensures r.Success? && firstRun && "events" in p ==>
      r.value["events"] == Dict(p["events"].fields["System" := List([StartupRecord(config["apiKey"], p["internalHostname"], timestamp)])])
  {
    if !firstRun then Success(p)
    else
      var api :- GetItem(Dict(config), "apiKey");
      var host :- GetItem(Dict(p), "internalHostname");
      var ev :- GetItem(Dict(p), "events");
      var ev1 :- SetItem(ev, "System", List([StartupRecord(api, host, timestamp)]));
      Success(p["events" := ev1])
  }

  // ---------------------------------------------------------------------------------------
  // The whole payload
  // ---------------------------------------------------------------------------------------

  /** Every statement from the dictionary literal through `uuid` completes. */
  predicate TopLevelReady(config: Fields, c: Collected) {
    && CoreReady(config, c.probes)
    && CpuReady(c.probes.cpu)
    && ServicesReady(c.probes)
  }

  /** Every statement of payload assembly completes. */
  predicate PayloadReady(config: Fields, c: Collected) {
    && TopLevelReady(config, c)
    && SnapshotsWellFormed(c.resources)
    && (HasResource(c.resources) || c.firstRun ==> c.hostname.Some?)
  }

  /** The payload's top-level keys: the core literal, the `cpuStats` fields, the guarded blocks and the identifiers. */
  predicate PayloadKey(c: Collected, k: string) {
    CoreKey(k) || CpuKey(c.probes.cpu, k) || ServiceKey(c, k) || IdentityKey(c, k)
  }

  /** The top-level fields, from the dictionary literal through `uuid`. */
  function TopLevel(config: Fields, c: Collected): (r: Result<Fields, Exc>)
    ensures r.Success? <==> TopLevelReady(config, c)
    ensures r.Success? ==> forall k {:trigger k in r.value} :: k in r.value <==> PayloadKey(c, k)
    ensures r.Success? ==> "uuid" in r.value && r.value["uuid"] == Str(c.uuid)
    ensures r.Success? && c.hostname.Some? ==>
      "internalHostname" in r.value && r.value["internalHostname"] == Str(c.hostname.value)
    ensures r.Success? && c.firstRun ==> "systemStats" in r.value && r.value["systemStats"] == c.systemStats
  {
    var p0 :- CoreFields(config, c);
    var p1 :- MergeCpu(p0, c.probes.cpu);
    var p2 :- ServiceFields(p1, c);
    Success(Identity(p2, c))
  }

  /** The `events` and `resources` sub-dictionaries filled in, then the startup event. */
  function Attachments(p: Fields, config: Fields, c: Collected): (r: Result<Fields, Exc>)
    ensures r.Success? ==> forall k {:trigger k in r.value} :: k in r.value <==> k in p
    ensures r.Success? ==> forall k :: k in p && k != "events" && k != "resources" ==> r.value[k] == p[k]
    ensures r.Success? && "uuid" in p ==> r.value["uuid"] == p["uuid"]
    ensures r.Success? && "internalHostname" in p ==> r.value["internalHostname"] == p["internalHostname"]
    ensures r.Success? && "systemStats" in p ==> r.value["systemStats"] == p["systemStats"]
  {
    var p4 :- AddEvents(p, c.events);
    var p5 :- AddResources(p4, config, c.resources);
    AddStartup(p5, config, c.firstRun, c.startupTimestamp)
  }

  /** `checksData` as handed to the emitter, or the exception that ended the cycle before that. */
  function BuildPayload(config: Fields, c: Collected): (r: Result<Fields, Exc>)
    ensures r.Success? ==> forall k {:trigger k in r.value} :: k in r.value <==> PayloadKey(c, k)
    ensures r.Success? ==> "uuid" in r.value && r.value["uuid"] == Str(c.uuid)
    ensures r.Success? && c.hostname.Some? ==>
      "internalHostname" in r.value && r.value["internalHostname"] == Str(c.hostname.value)
    ensures r.Success? && c.firstRun ==> "systemStats" in r.value && r.value["systemStats"] == c.systemStats
  {
    var p :- TopLevel(config, c);
    Attachments(p, config, c)
  }
}
