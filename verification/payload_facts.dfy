/**
 * What the assembled payload contains. The lemmas assume that `cpuStats` does not shadow a key
 * the payload sets itself (`CpuStatsOnly`), which holds for the CPU check's `cpu*` fields.
 */
module PayloadFacts {
  import opened Wrappers
  import opened PyValues
  import opened DictFill
  import opened Payload

  // ---------------------------------------------------------------------------------------
  // Which stage writes which key
  // ---------------------------------------------------------------------------------------

  /** The host identifiers are not keys a guarded block writes. */
  lemma IdentifiersNotService()
    ensures !ServiceKeyName("internalHostname") && !ServiceKeyName("systemStats") && !ServiceKeyName("uuid")
  {
  }

  /** The host identifiers are not keys of the dictionary literal. */
  lemma IdentifiersNotCore()
    ensures !CoreKey("internalHostname") && !CoreKey("systemStats") && !CoreKey("uuid")
  {
  }

  /** No key of the dictionary literal is one a guarded block writes. */
  lemma CoreNotService()
    ensures forall k :: CoreKey(k) ==> !ServiceKeyName(k)
  {
    HeaderNotService();
    MetricsNotService();
  }

  lemma HeaderNotService()
    ensures forall k :: HeaderKey(k) ==> !ServiceKeyName(k)
  {
    forall k | HeaderKey(k) ensures !ServiceKeyName(k) {
      HeaderNotBlock(k);
    }
  }

  lemma HeaderNotBlock(k: string)
    ensures HeaderKey(k) ==> !BlockName(k)
  {
  }

  lemma MetricsNotService()
    ensures forall k :: MetricKey(k) ==> !ServiceKeyName(k)
  {
    forall k | MetricKey(k) ensures !ServiceKeyName(k) {
      MetricNotExtra(k);
      MetricNotBlock(k);
      MetricNotMysql(k);
      MetricNotWhole(k);
    }
  }

  lemma MetricNotExtra(k: string)
    ensures MetricKey(k) ==> !ExtraName(k)
  {
  }

  lemma MetricNotBlock(k: string)
    ensures MetricKey(k) ==> !ApacheKey(k) && !NginxKey(k)
  {
  }

  lemma MetricNotMysql(k: string)
    ensures MetricKey(k) ==> !MysqlKey(k) && k != "mysqlSecondsBehindMaster"
  {
  }

  lemma MetricNotWhole(k: string)
    ensures MetricKey(k) ==> !WholeName(k)
  {
  }

  /** A key some guarded block adds is one of the names those blocks write. */
  lemma ServiceKeyNamed(c: Collected, k: string)
    requires ServiceKey(c, k)
    ensures ServiceKeyName(k)
  {
  }

  // ---------------------------------------------------------------------------------------
  // Keys each stage leaves alone
  // ---------------------------------------------------------------------------------------

  /** `q` agrees with `p` on whether key `k` is present and on its value. */
  predicate Keeps(p: Fields, q: Fields, k: string) {
    (k in q <==> k in p) && (k in p ==> q[k] == p[k])
  }

  lemma CpuKeeps(p: Fields, cpu: Value, k: string)
    requires MergeCpu(p, cpu).Success? && CpuStatsOnly(cpu) && OwnKey(k)
    ensures Keeps(p, MergeCpu(p, cpu).value, k)
  {
  }

  lemma ServicesKeep(p: Fields, c: Collected, k: string)
    requires ServiceFields(p, c).Success? && !ServiceKeyName(k)
    ensures Keeps(p, ServiceFields(p, c).value, k)
  {
    if ServiceKey(c, k) {
      ServiceKeyNamed(c, k);
    }
  }

  lemma IdentityKeeps(p: Fields, c: Collected, k: string)
    requires k != "systemStats" && k != "internalHostname" && k != "uuid"
    ensures Keeps(p, Identity(p, c), k)
  {
  }

  lemma AttachmentsKeep(p: Fields, config: Fields, c: Collected, k: string)
    requires Attachments(p, config, c).Success? && k != "events" && k != "resources"
    ensures Keeps(p, Attachments(p, config, c).value, k)
  {
  }

  /** The literal's header entries are those of `Header`. */
  lemma LiteralHeader(config: Fields, c: Collected, k: string)
    requires CoreReady(config, c.probes) && HeaderKey(k)
    ensures k in CoreLiteral(config, c) && CoreLiteral(config, c)[k] == Header(config, c)[k]
  {
  }

  /** The literal's metric entries are those of `Metrics`. */
  lemma LiteralMetric(config: Fields, c: Collected, k: string)
    requires CoreReady(config, c.probes) && MetricKey(k) && !HeaderKey(k)
    ensures k in CoreLiteral(config, c) && CoreLiteral(config, c)[k] == Metrics(c.probes)[k]
  {
    assert k !in Header(config, c);
  }

  /** A key of the literal other than an identifier keeps the literal's value through the top-level fields. */
  lemma TopLevelKeepsCore(config: Fields, c: Collected, k: string)
    requires TopLevelReady(config, c) && CpuStatsOnly(c.probes.cpu) && CoreKey(k)
    requires k != "systemStats" && k != "internalHostname" && k != "uuid"
    ensures CoreReady(config, c.probes)
    ensures k in TopLevel(config, c).value && TopLevel(config, c).value[k] == CoreLiteral(config, c)[k]
  {
    CoreNotService();
    var p0 := CoreFields(config, c).value;
    CpuKeeps(p0, c.probes.cpu, k);
    var p1 := MergeCpu(p0, c.probes.cpu).value;
    ServicesKeep(p1, c, k);
    IdentityKeeps(ServiceFields(p1, c).value, c, k);
  }

  /** The host identifiers are keys the CPU check must not report. */
  lemma IdentifiersOwn()
    ensures OwnKey("internalHostname") && OwnKey("systemStats") && OwnKey("uuid")
  {
  }

  lemma CpuExcludesOwn(cpu: Value, k: string)
    requires CpuStatsOnly(cpu) && OwnKey(k)
    ensures !CpuKey(cpu, k)
  {
  }

  /** A key outside the literal, the CPU fields and the guarded blocks is in the top-level fields exactly when `Identity` adds it. */
  lemma TopLevelIdentity(config: Fields, c: Collected, k: string)
    requires TopLevelReady(config, c)
    requires !CoreKey(k) && !CpuKey(c.probes.cpu, k) && !ServiceKeyName(k)
    ensures k in TopLevel(config, c).value <==> IdentityKey(c, k)
  {
    if ServiceKey(c, k) {
      ServiceKeyNamed(c, k);
    }
  }

  /** `internalHostname` is present exactly when the host name is known. */
  lemma TopLevelHostname(config: Fields, c: Collected)
    requires TopLevelReady(config, c) && CpuStatsOnly(c.probes.cpu)
    ensures "internalHostname" in TopLevel(config, c).value <==> c.hostname.Some?
  {
    IdentifiersNotCore();
    IdentifiersNotService();
    IdentifiersOwn();
    CpuExcludesOwn(c.probes.cpu, "internalHostname");
    TopLevelIdentity(config, c, "internalHostname");
  }

  /** `systemStats` is present exactly on the first run. */
  lemma TopLevelSystemStats(config: Fields, c: Collected)
    requires TopLevelReady(config, c) && CpuStatsOnly(c.probes.cpu)
    ensures "systemStats" in TopLevel(config, c).value <==> c.firstRun
  {
    IdentifiersNotCore();
    IdentifiersNotService();
    IdentifiersOwn();
    CpuExcludesOwn(c.probes.cpu, "systemStats");
    TopLevelIdentity(config, c, "systemStats");
  }

  /** After the top-level fields, `events` and `resources` are still the literal's empty dictionaries. */
  lemma TopLevelShape(config: Fields, c: Collected)
    requires TopLevelReady(config, c) && CpuStatsOnly(c.probes.cpu)
    ensures var p := TopLevel(config, c).value;
      && "events" in p && p["events"] == EmptyDict
      && "resources" in p && p["resources"] == EmptyDict
      && ("internalHostname" in p <==> c.hostname.Some?)
      && ("systemStats" in p <==> c.firstRun)
  {
    TopLevelKeepsCore(config, c, "events");
    TopLevelKeepsCore(config, c, "resources");
    LiteralHeader(config, c, "events");
    LiteralHeader(config, c, "resources");
    TopLevelHostname(config, c);
    TopLevelSystemStats(config, c);
  }

  // ---------------------------------------------------------------------------------------
  // The events and resources loops
  // ---------------------------------------------------------------------------------------

  /** Event check `i` produced truthy data that no later event check overwrites. */
  predicate LastEvent(events: seq<(string, Value)>, i: int) {
    && 0 <= i < |events| && Truthy(events[i].1)
    && forall j :: i < j < |events| && Truthy(events[j].1) ==> events[j].0 != events[i].0
  }

  /**
   * The event loop run on the literal's empty `events`: the keys are those of the event checks
   * with truthy data, and each holds the data of the last such check with that key.
   */
  lemma EventsFilled(events: seq<(string, Value)>)
    ensures Populate(EmptyDict, EventSteps(events)).Success?
    ensures var ev := Populate(EmptyDict, EventSteps(events)).value;
      && ev.Dict?
      && (forall k :: k in ev.fields <==> k in EventKeys(events))
      && (forall i :: LastEvent(events, i) ==> ev.fields[events[i].0] == events[i].1)
  {
    var steps := EventSteps(events);
    EventStepsFacts(events);
    forall i | LastEvent(events, i) ensures LastPut(steps, i) {
      forall j | i < j < |steps| ensures !Puts(steps[j], steps[i].key) {
        if Truthy(events[j].1) {
          assert events[j].0 != events[i].0;
        }
      }
    }
  }

  /** Resource check `i` popped a truthy snapshot that no later resource check overwrites. */
  predicate LastSnapshot(rs: seq<ResourceReading>, i: int) {
    && 0 <= i < |rs| && Truthy(rs[i].snapshot)
    && forall j :: i < j < |rs| && Truthy(rs[j].snapshot) ==> rs[j].key != rs[i].key
  }

  /**
   * The resource loop run on the literal's empty `resources`: when every truthy snapshot is a
   * pair, the keys are the `RESOURCE_KEY`s of the checks with truthy snapshots, each holding the
   * entry built from the last such snapshot.
   */
  lemma SnapshotsFilled(rs: seq<ResourceReading>)
    requires SnapshotsWellFormed(rs)
    ensures Populate(EmptyDict, ResourceSteps(rs)).Success?
    ensures var res := Populate(EmptyDict, ResourceSteps(rs)).value;
      && res.Dict?
      && (forall k :: k in res.fields <==> k in SnapshotKeys(rs))
      && (forall i :: LastSnapshot(rs, i) ==> res.fields[rs[i].key] == ResourceEntry(rs[i]).value)
  {
    var steps := ResourceSteps(rs);
    ResourceStepsFacts(rs);
    forall i | LastSnapshot(rs, i) ensures LastPut(steps, i) {
      forall j | i < j < |steps| ensures !Puts(steps[j], steps[i].key) {
        if Truthy(rs[j].snapshot) {
          assert rs[j].key != rs[i].key;
        }
      }
    }
  }

  /** What the top-level fields leave for the attachments: empty `events` and `resources`, and an API key. */
  predicate AttachmentsBase(p: Fields, config: Fields) {
    && "events" in p && p["events"] == EmptyDict
    && "resources" in p && p["resources"] == EmptyDict
    && "apiKey" in config
  }

  /** The event loop cannot fail on the empty `events`; it leaves `resources` and the host name alone. */
  lemma EventsStage(p: Fields, events: seq<(string, Value)>)
    requires "events" in p && p["events"] == EmptyDict && "resources" in p
    ensures AddEvents(p, events).Success?
    ensures var p4 := AddEvents(p, events).value;
      && "events" in p4 && p4["events"] == Populate(EmptyDict, EventSteps(events)).value
      && "resources" in p4 && p4["resources"] == p["resources"]
      && ("internalHostname" in p4 <==> "internalHostname" in p)
      && ("internalHostname" in p ==> p4["internalHostname"] == p["internalHostname"])
  {
    EventsFilled(events);
  }

  /** Attachment succeeds exactly when every truthy snapshot is a pair and the host name is known wherever it is read. */
  lemma AttachmentsSucceed(p: Fields, config: Fields, c: Collected)
    requires AttachmentsBase(p, config)
    ensures Attachments(p, config, c).Success? <==>
      SnapshotsWellFormed(c.resources) && (HasResource(c.resources) || c.firstRun ==> "internalHostname" in p)
  {
    EventsStage(p, c.events);
    EventsFilled(c.events);
    var p4 := AddEvents(p, c.events).value;
    var r5 := AddResources(p4, config, c.resources);
    if r5.Success? {
      var p5 := r5.value;
      assert "events" in p5 && p5["events"] == p4["events"];
      assert "internalHostname" in p5 <==> "internalHostname" in p;
    }
  }

  /**
   * After attachment, `events` holds the truthy event data under their keys, the last check
   * with a key winning, and on the first run also the single startup record under `System`,
   * which replaces an event check of that name.
   */
  lemma AttachedEvents(p: Fields, config: Fields, c: Collected)
    requires AttachmentsBase(p, config) && Attachments(p, config, c).Success?
    ensures var r := Attachments(p, config, c).value;
      && "events" in r && r["events"].Dict?
      && (forall k :: k in r["events"].fields <==> k in EventKeys(c.events) || (c.firstRun && k == "System"))
      && (forall i :: LastEvent(c.events, i) && !(c.firstRun && c.events[i].0 == "System") ==>
            r["events"].fields[c.events[i].0] == c.events[i].1)
      && (c.firstRun ==> r["events"].fields["System"] == List([StartupRecord(config["apiKey"], p["internalHostname"], c.startupTimestamp)]))
  {
    EventsStage(p, c.events);
    EventsFilled(c.events);
    var p4 := AddEvents(p, c.events).value;
    var p5 := AddResources(p4, config, c.resources).value;
    assert "events" in p5 && p5["events"] == p4["events"];
    assert "internalHostname" in p5 <==> "internalHostname" in p;
    assert "internalHostname" in p5 ==> p5["internalHostname"] == p["internalHostname"];
  }

  /**
   * After attachment, `resources` holds an entry for every resource check that popped a truthy
   * snapshot, the last check with a key winning, and `meta` exactly when there was one.
   */
  lemma AttachedResources(p: Fields, config: Fields, c: Collected)
    requires AttachmentsBase(p, config) && Attachments(p, config, c).Success?
    ensures var r := Attachments(p, config, c).value;
      && "resources" in r && r["resources"].Dict?
      && (forall k :: k in r["resources"].fields <==> k in SnapshotKeys(c.resources) || (HasResource(c.resources) && k == "meta"))
      && (forall i :: LastSnapshot(c.resources, i) && c.resources[i].key != "meta" ==>
            r["resources"].fields[c.resources[i].key] == ResourceEntry(c.resources[i]).value)
      && (HasResource(c.resources) ==>
            r["resources"].fields["meta"] == Dict(map["api_key" := config["apiKey"], "host" := p["internalHostname"]]))
  {
    AttachmentsSucceed(p, config, c);
    EventsStage(p, c.events);
    SnapshotsFilled(c.resources);
    var p4 := AddEvents(p, c.events).value;
    var p5 := AddResources(p4, config, c.resources).value;
    var r := Attachments(p, config, c).value;
    assert "resources" in r && r["resources"] == p5["resources"];
  }

  /**
   * With every snapshot well formed but no host name, a cycle that has a snapshot or is the
   * first run stops with the `KeyError` of `checksData['internalHostname']`.
   */
  lemma AttachmentsNeedHostname(p: Fields, config: Fields, c: Collected)
    requires AttachmentsBase(p, config) && SnapshotsWellFormed(c.resources) && "internalHostname" !in p
    requires HasResource(c.resources) || c.firstRun
    ensures Attachments(p, config, c) == Failure(KeyError(Str("internalHostname")))
  {
    EventsStage(p, c.events);
    var p4 := AddEvents(p, c.events).value;
    var r5 := AddResources(p4, config, c.resources);
    if r5.Success? {
      assert !HasResource(c.resources);
      assert "internalHostname" !in r5.value;
    }
  }

  // ---------------------------------------------------------------------------------------
  // The whole payload
  // ---------------------------------------------------------------------------------------

  lemma TopLevelBase(config: Fields, c: Collected)
    requires TopLevelReady(config, c) && CpuStatsOnly(c.probes.cpu)
    ensures AttachmentsBase(TopLevel(config, c).value, config)
    ensures BuildPayload(config, c) == Attachments(TopLevel(config, c).value, config, c)
  {
    TopLevelShape(config, c);
  }

  /** The payload is built exactly when every subscript and every `update` in `doChecks` succeeds. */
  lemma PayloadSucceeds(config: Fields, c: Collected)
    requires CpuStatsOnly(c.probes.cpu)
    ensures BuildPayload(config, c).Success? <==> PayloadReady(config, c)
  {
    if TopLevel(config, c).Success? {
      TopLevelShape(config, c);
      TopLevelBase(config, c);
      AttachmentsSucceed(TopLevel(config, c).value, config, c);
    }
  }

  /**
   * Without a host name, a cycle whose top-level fields succeed and that has a snapshot or is
   * the first run ends with the `KeyError` of `checksData['internalHostname']` and emits nothing.
   */
  lemma PayloadNeedsHostname(config: Fields, c: Collected)
    requires CpuStatsOnly(c.probes.cpu) && TopLevelReady(config, c) && SnapshotsWellFormed(c.resources)
    requires c.hostname.None? && (HasResource(c.resources) || c.firstRun)
    ensures BuildPayload(config, c) == Failure(KeyError(Str("internalHostname")))
  {
    TopLevelShape(config, c);
    TopLevelBase(config, c);
    AttachmentsNeedHostname(TopLevel(config, c).value, config, c);
  }

  /**
   * `events` in the payload: the truthy event data, the last check with a key winning, and on
   * the first run the startup record under `System` naming this host.
   */
  lemma PayloadEvents(config: Fields, c: Collected)
    requires CpuStatsOnly(c.probes.cpu) && PayloadReady(config, c)
    ensures BuildPayload(config, c).Success?
    ensures var r := BuildPayload(config, c).value;
      && "events" in r && r["events"].Dict?
      && (forall k :: k in r["events"].fields <==> k in EventKeys(c.events) || (c.firstRun && k == "System"))
      && (forall i :: LastEvent(c.events, i) && !(c.firstRun && c.events[i].0 == "System") ==>
            c.events[i].0 in r["events"].fields && r["events"].fields[c.events[i].0] == c.events[i].1)
      && (c.firstRun ==>
            && c.hostname.Some? && "System" in r["events"].fields
            && r["events"].fields["System"] == List([StartupRecord(config["apiKey"], Str(c.hostname.value), c.startupTimestamp)]))
  {
    PayloadSucceeds(config, c);
    TopLevelShape(config, c);
    TopLevelBase(config, c);
    var p := TopLevel(config, c).value;
    AttachmentsSucceed(p, config, c);
    AttachedEvents(p, config, c);
  }

  /**
   * `resources` in the payload: an entry per truthy snapshot, the last check with a key
   * winning, and `meta` with the API key and host name exactly when some snapshot was truthy.
   */
  lemma PayloadResources(config: Fields, c: Collected)
    requires CpuStatsOnly(c.probes.cpu) && PayloadReady(config, c)
    ensures BuildPayload(config, c).Success?
    ensures var r := BuildPayload(config, c).value;
      && "resources" in r && r["resources"].Dict?
      && (forall k :: k in r["resources"].fields <==> k in SnapshotKeys(c.resources) || (HasResource(c.resources) && k == "meta"))
      && (forall i :: LastSnapshot(c.resources, i) && c.resources[i].key != "meta" ==>
            && c.resources[i].key in r["resources"].fields
            && ResourceEntry(c.resources[i]) == Success(r["resources"].fields[c.resources[i].key]))
      && (HasResource(c.resources) ==>
            && c.hostname.Some? && "meta" in r["resources"].fields
            && r["resources"].fields["meta"] == Dict(map["api_key" := config["apiKey"], "host" := Str(c.hostname.value)]))
  {
    PayloadSucceeds(config, c);
    TopLevelShape(config, c);
    TopLevelBase(config, c);
    var p := TopLevel(config, c).value;
    AttachmentsSucceed(p, config, c);
    AttachedResources(p, config, c);
  }

  /** `systemStats` is sent on the first run and only then. */
  lemma PayloadFirstRun(config: Fields, c: Collected)
    requires CpuStatsOnly(c.probes.cpu) && PayloadReady(config, c)
    ensures BuildPayload(config, c).Success?
    ensures "systemStats" in BuildPayload(config, c).value <==> c.firstRun
  {
    PayloadSucceeds(config, c);
    TopLevelShape(config, c);
    TopLevelBase(config, c);
  }

  /** A key some guarded block can write is none of the payload's own keys. */
  lemma ServiceNotOwn(k: string)
    requires ServiceKeyName(k)
    ensures !OwnKey(k) && k != "events" && k != "resources"
  {
    CoreNotService();
    IdentifiersNotService();
  }

  /**
   * A key that a guarded block can write is in the payload exactly when its guard holds, and
   * then holds what the block wrote: the check result itself, or the field of the Apache,
   * MySQL or nginx result that it copies.
   */
  lemma PayloadServiceKey(config: Fields, c: Collected, k: string)
    requires CpuStatsOnly(c.probes.cpu) && PayloadReady(config, c) && ServiceKeyName(k)
    ensures BuildPayload(config, c).Success?
    ensures k in BuildPayload(config, c).value <==> ServiceKey(c, k)
    ensures ServiceKey(c, k) ==> BuildPayload(config, c).value[k] == ServiceValue(c, k)
  {
    PayloadSucceeds(config, c);
    TopLevelBase(config, c);
    ServiceNotOwn(k);
    var p0 := CoreFields(config, c).value;
    assert k !in p0;
    var p1 := MergeCpu(p0, c.probes.cpu).value;
    assert k !in p1;
    var p2 := ServiceFields(p1, c).value;
    IdentityKeeps(p2, c, k);
    AttachmentsKeep(Identity(p2, c), config, c, k);
  }

  /**
   * Every key that a guarded block can write is in the payload exactly when its guard holds:
   * `!= False` for Apache, MySQL, nginx, RabbitMQ, MongoDB, CouchDB, plugins and ioStats,
   * neither `False` nor `None` for ganglia, datadog and cassandra, and for
   * `mysqlSecondsBehindMaster` also a lag that is not `None`; each holds what its block wrote.
   */
  lemma PayloadGuardedKeys(config: Fields, c: Collected)
    requires CpuStatsOnly(c.probes.cpu) && PayloadReady(config, c)
    ensures BuildPayload(config, c).Success?
    ensures forall k :: ServiceKeyName(k) ==> (k in BuildPayload(config, c).value <==> ServiceKey(c, k))
    ensures forall k :: ServiceKey(c, k) ==> BuildPayload(config, c).value[k] == ServiceValue(c, k)
  {
    PayloadSucceeds(config, c);
    forall k | ServiceKeyName(k)
      ensures k in BuildPayload(config, c).value <==> ServiceKey(c, k)
      ensures ServiceKey(c, k) ==> BuildPayload(config, c).value[k] == ServiceValue(c, k)
    {
      PayloadServiceKey(config, c, k);
    }
    forall k | ServiceKey(c, k)
      ensures BuildPayload(config, c).value[k] == ServiceValue(c, k)
    {
      ServiceKeyNamed(c, k);
      PayloadServiceKey(config, c, k);
    }
  }

  /** Every key of the dictionary literal is in the payload. */
  lemma PayloadCoreKeys(config: Fields, c: Collected)
    requires BuildPayload(config, c).Success?
    ensures forall k :: CoreKey(k) ==> k in BuildPayload(config, c).value
  {
  }

  lemma DatadogGuard(c: Collected)
    ensures ServiceKeyName("datadog")
    ensures ServiceKey(c, "datadog") <==> !IsFalseOrNone(c.datadog)
    ensures ServiceKey(c, "datadog") && ServicesReady(c.probes) ==> ServiceValue(c, "datadog") == c.datadog
  {
  }

  /** A dictionary from `getDatadogData`, even an empty one, always reaches the payload as it is. */
  lemma PayloadDatadog(config: Fields, c: Collected)
    requires CpuStatsOnly(c.probes.cpu) && PayloadReady(config, c) && c.datadog.Dict?
    ensures BuildPayload(config, c).Success?
    ensures "datadog" in BuildPayload(config, c).value && BuildPayload(config, c).value["datadog"] == c.datadog
  {
    DatadogGuard(c);
    PayloadServiceKey(config, c, "datadog");
  }

  lemma PluginsGuard(c: Collected)
    ensures ServiceKeyName("plugins")
    ensures ServiceKey(c, "plugins") <==> !EqualsFalse(c.plugins)
    ensures ServiceKey(c, "plugins") && ServicesReady(c.probes) ==> ServiceValue(c, "plugins") == c.plugins
  {
  }

  /** `plugins` is in the payload exactly when `getPlugins` returned something other than `False`, and holds that result. */
  lemma PayloadPlugins(config: Fields, c: Collected)
    requires CpuStatsOnly(c.probes.cpu) && PayloadReady(config, c)
    ensures BuildPayload(config, c).Success?
    ensures "plugins" in BuildPayload(config, c).value <==> !EqualsFalse(c.plugins)
    ensures !EqualsFalse(c.plugins) ==> BuildPayload(config, c).value["plugins"] == c.plugins
  {
    PluginsGuard(c);
    PayloadServiceKey(config, c, "plugins");
  }

  /** A metric key is not one of the literal's header keys. */
  lemma MetricNotHeader(k: string)
    requires MetricKey(k)
    ensures !HeaderKey(k) && k != "systemStats" && k != "internalHostname" && k != "uuid"
  {
  }

  /** Each check result the literal copies reaches the payload unchanged. */
  lemma PayloadMetric(config: Fields, c: Collected, k: string)
    requires CpuStatsOnly(c.probes.cpu) && PayloadReady(config, c) && MetricKey(k)
    ensures BuildPayload(config, c).Success?
    ensures CoreReady(config, c.probes)
    ensures k in BuildPayload(config, c).value && BuildPayload(config, c).value[k] == Metrics(c.probes)[k]
  {
    PayloadSucceeds(config, c);
    TopLevelBase(config, c);
    MetricNotHeader(k);
    TopLevelKeepsCore(config, c, k);
    LiteralMetric(config, c, k);
    AttachmentsKeep(TopLevel(config, c).value, config, c, k);
  }

  /** A `cpuStats` dictionary is merged into the top level: each of its fields reaches the payload unchanged. */
  lemma PayloadCpuStats(config: Fields, c: Collected)
    requires CpuStatsOnly(c.probes.cpu) && PayloadReady(config, c)
    ensures BuildPayload(config, c).Success?
    ensures forall k :: CpuKey(c.probes.cpu, k) ==>
      k in BuildPayload(config, c).value && BuildPayload(config, c).value[k] == CpuUpdate(c.probes.cpu).value[k]
  {
    PayloadSucceeds(config, c);
    forall k | CpuKey(c.probes.cpu, k)
      ensures k in BuildPayload(config, c).value && BuildPayload(config, c).value[k] == CpuUpdate(c.probes.cpu).value[k]
    {
      CpuFieldKept(config, c, k);
    }
  }

  lemma CpuFieldKept(config: Fields, c: Collected, k: string)
    requires CpuStatsOnly(c.probes.cpu) && PayloadReady(config, c) && CpuKey(c.probes.cpu, k)
    ensures BuildPayload(config, c).Success?
    ensures k in BuildPayload(config, c).value && BuildPayload(config, c).value[k] == CpuUpdate(c.probes.cpu).value[k]
  {
    PayloadSucceeds(config, c);
    TopLevelBase(config, c);
    assert !OwnKey(k) && !ServiceKeyName(k);
    var p1 := MergeCpu(CoreFields(config, c).value, c.probes.cpu).value;
    ServicesKeep(p1, c, k);
    var p2 := ServiceFields(p1, c).value;
    IdentityKeeps(p2, c, k);
    AttachmentsKeep(Identity(p2, c), config, c, k);
  }

  /** The payload names the OS family and carries the configured API key. */
  lemma PayloadHeader(config: Fields, c: Collected)
    requires CpuStatsOnly(c.probes.cpu) && PayloadReady(config, c)
    ensures BuildPayload(config, c).Success?
    ensures var r := BuildPayload(config, c).value;
      && "os" in r && r["os"] == Str(c.os.Name())
      && "apiKey" in r && r["apiKey"] == config["apiKey"]
  {
    PayloadSucceeds(config, c);
    TopLevelBase(config, c);
    assert HeaderKey("os") && HeaderKey("apiKey");
    TopLevelKeepsCore(config, c, "os");
    TopLevelKeepsCore(config, c, "apiKey");
    LiteralHeader(config, c, "os");
    LiteralHeader(config, c, "apiKey");
    var p := TopLevel(config, c).value;
    AttachmentsKeep(p, config, c, "os");
    AttachmentsKeep(p, config, c, "apiKey");
  }

  // ---------------------------------------------------------------------------------------
  // How `dict.update` treats the CPU check's result
  // ---------------------------------------------------------------------------------------

  /**
   * `checksData.update(cpuStats)` on values other than dictionaries: an empty list or string
   * adds nothing, a list of pairs adds its keys with the later pair of a key winning, a
   * two-character string is not a pair sequence, and a number cannot be iterated.
   */
  lemma MergeCpuExamples(p: Fields, a: Value, b: Value)
    ensures MergeCpu(p, List([])) == Success(p)
    ensures MergeCpu(p, Str("")) == Success(p)
    ensures MergeCpu(p, List([List([Str("k"), a])])) == Success(p["k" := a])
    ensures MergeCpu(p, List([List([Str("k"), a]), List([Str("k"), b])])) == Success(p["k" := b])
    ensures MergeCpu(p, List([Num(1)])) == Failure(TypeError)
    ensures MergeCpu(p, Str("ab")) == Failure(ValueError)
    ensures MergeCpu(p, Num(3)) == Failure(TypeError)
  {
    EmptyMerges(p);
    PairListOne(p, "k", a);
    PairListTwo(p, "k", a, b);
    NonPairFails(p);
  }

  lemma EmptyMerges(p: Fields)
    ensures MergeCpu(p, List([])) == Success(p)
    ensures MergeCpu(p, Str("")) == Success(p)
  {
    assert p + map[] == p;
  }

  lemma NonPairFails(p: Fields)
    ensures MergeCpu(p, List([Num(1)])) == Failure(TypeError)
  {
    assert PairSteps([Num(1)]) == [Raise(TypeError)];
    assert [Raise(TypeError)][..0] == [];
  }

  lemma PairListOne(p: Fields, k: string, a: Value)
    ensures MergeCpu(p, List([List([Str(k), a])])) == Success(p[k := a])
  {
    var e := List([Str(k), a]);
    var steps := [Put(k, a)];
    assert IsPair(e) && PairSteps([e]) == steps;
    assert LastPut(steps, 0);
    assert PutKeys(steps) == {k};
    var u := CpuUpdate(List([e]));
    assert u.Success? && u.value.Keys == {k} && u.value[k] == a;
    assert u.value == map[k := a];
    assert p + u.value == p[k := a];
  }

  lemma PairListTwo(p: Fields, k: string, a: Value, b: Value)
    ensures MergeCpu(p, List([List([Str(k), a]), List([Str(k), b])])) == Success(p[k := b])
  {
    var e1, e2 := List([Str(k), a]), List([Str(k), b]);
    var steps := [Put(k, a), Put(k, b)];
    assert IsPair(e1) && IsPair(e2) && PairSteps([e1, e2]) == steps;
    assert LastPut(steps, 1);
    assert PutKeys(steps) == {k};
    var u := CpuUpdate(List([e1, e2]));
    assert u.Success? && u.value.Keys == {k} && u.value[k] == b;
    assert u.value == map[k := b];
    assert p + u.value == p[k := b];
  }
}
