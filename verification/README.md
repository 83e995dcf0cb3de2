# The dd-agent collection cycle, in Dafny

This project models the collection cycle of the Datadog agent's `checks` object
(`checks/__init__.py`). Each cycle of `doChecks` does the following:

- it resolves the operating-system family once and caches it;
- it runs the plugins from the plugin directory, discovering and instantiating them only once;
- it assembles the payload dictionary from the results of the built-in checks;
- it hands that payload to the emitter and re-arms itself on the scheduler.

Everything the cycle reads from the outside world is an input of the model. That covers the
platform string, probe results, directory listings, plugin import and `run()` outcomes, the
clock, the host name, the uuid and whether the emitter raises. The filtering, merging and
once-only logic are pure functions over those inputs.

The modules follow the structure of the code:

- `Wrappers`: `Option` and `Result`.
- `PyValues`: the Python values a check returns, covering truthiness, `== False` and
  `is False or is None`, subscripting and item assignment.
- `DictFill`: `Populate` is the one loop shape behind every dictionary-filling loop of the cycle
  (skip, assign, or raise per element, with the later assignment of a key winning).
- `Text`: `str.find` and `str.split(sep, 1)`.
- `Platform`: `topIndex` and the OS family.
- `Plugins`: `getPlugins`, with the file filter, the constructor fallback, the discovery loop,
  plugin execution and the load-once cache.
- `Payload`: the payload assembly of `doChecks`, stage by stage. `PayloadFacts` holds the
  lemmas about the assembled payload.
- `Cycle`: the constructor, `getDatadogData`, one `doChecks` call, and the scheduler loop as a
  sequence of cycles.

Some behaviour of the code is worth spelling out:

- The next cycle is scheduled only when the cycle completes. The re-arm call is the last
  statement of `doChecks`, and no exception handler covers the statements before it: the
  method's only `try` guards `socket.gethostname()`. So a raising emitter, a raising plugin
  `run()`, a raising `imp.load_source`, a missing or non-numeric `checkFreq` (which
  `sc.enter` cannot add to the clock) or a failed subscript of a check result all end the
  cycle without a re-arm.
- A host name that cannot be resolved is not always harmless. The assignment of
  `internalHostname` is skipped. But when some resource snapshot is truthy, or on the first
  run, `checksData['internalHostname']` is read back, raises `KeyError`, and the cycle aborts.
- The optional keys follow Python's `!= False`, not "the probe returned data", and `0` is
  treated like `False`. For the whole-result keys (`rabbitMQ`, `mongoDB`, `couchDB`, `plugins`,
  `ioStats`) a result of `None` or `{}` still adds its key. For the Apache, MySQL and nginx
  blocks such a result passes the test too, but the subscript that follows raises
  (`TypeError` for `None`, `KeyError` for `{}`) and the cycle aborts. `ganglia`, `datadog` and
  `cassandra` use the identity test instead. `getDatadogData` returns a dictionary
  (`{}` at worst), so every payload has a `datadog` entry.
- `cpuStats` is merged into the top level with `dict.update`. The lemmas about the payload's
  own keys therefore assume that the CPU check reports only its own fields (`CpuStatsOnly`).
  `dict.update` also accepts a list of key/value pairs or the empty string, and raises
  `ValueError` on a non-empty string, so a non-dictionary result need not abort the cycle.

## Model

| member | source | states |
|---|---|---|
| PyValues.GetItem | checks/__init__.py:333-340 | `v[k]` succeeds exactly on a dictionary holding `k` and yields its value; a dictionary without `k` raises `KeyError(k)` |
| PyValues.Item | checks/__init__.py:447-448 | `snap[i]` on a list yields element `i` or raises `IndexError`; only lists and strings can be indexed |
| PyValues.SetItem | checks/__init__.py:437 | `v[k] = x` succeeds exactly on a dictionary and leaves it with `k` bound to `x` |
| DictFill.Populate | checks/__init__.py:270-273 | a dictionary-filling loop succeeds on a dictionary exactly when no step raises; the keys are the old keys plus every assigned key, untouched keys keep their values, and the last assignment of a key is the value that stays |
| Text.Find | checks/__init__.py:299 | `s.find(sub)` is -1 exactly when `sub` does not occur, and otherwise the lowest index where it occurs |
| Text.SplitOnce | checks/__init__.py:217 | `split(sep, 1)` gives one part (the whole string) exactly when `sep` is absent, otherwise the text before the first `sep` and the text after it, which join back to the input |
| Platform.TopIndex | checks/__init__.py:64-72 | `topIndex` is 6 exactly on darwin with a Mac OS X release starting `10.6.`, and 5 otherwise |
| Platform.ResolveOs | checks/__init__.py:296-302 | a cached OS family is kept; otherwise `mac` exactly on darwin, `freebsd` exactly when the platform contains `freebsd`, `linux` for the rest |
| Plugins.PluginNameIff | checks/__init__.py:217-229 | a file is a plugin named `n` exactly when it is `n + ".py"` with a dot-free `n` |
| Plugins.PluginNameOfStem | checks/__init__.py:217-229 | `stem.ext` with a dot-free stem is a plugin exactly when `ext` is `py` |
| Plugins.PluginNameExamples | checks/__init__.py:219-229 | `foo.py` is taken; `foo.pyc`, `a.b.py` and the dot-less `foo` are skipped |
| Plugins.EligibleNames | checks/__init__.py:213-229 | the collected names are exactly the plugin names of the listed files |
| Plugins.EligibleNamesAppend | checks/__init__.py:213-229 | the listing is scanned in order: the names of two listings laid end to end are the names of the first followed by those of the second |
| Plugins.EligibleNamesOne | checks/__init__.py:217-229 | a single file contributes its stem once when it is a plugin file and nothing otherwise |
| Plugins.EligibleNamesEntries | checks/__init__.py:213-229 | the names of a listing are those of all but its last file followed by the last file's own contribution, so order and repeats follow the listing |
| Plugins.Construct | checks/__init__.py:245-253 | the three-argument call comes first; the two-argument call is made exactly when it raised `TypeError`, and the no-argument call exactly when both raised `TypeError`; the last call made decides |
| Plugins.Instantiate | checks/__init__.py:236-261 | an `imp.load_source` failure escapes; the plugin is built exactly when its class exists and a construction succeeds; a failure escapes only when it is not an `Exception` |
| Plugins.LoadAll | checks/__init__.py:232-261 | discovery stops exactly at the first escaping failure, keeping the instances built before it; skipped plugins do not stop the other plugins |
| Plugins.RunPlugins | checks/__init__.py:268-273 | the output exists exactly when no `run()` raised; its keys are exactly the instances' class names, each holding the result of the last instance with that name |
| Plugins.RunPluginsFacts | checks/__init__.py:268-273 | the same facts about the underlying loop over `self.plugins` |
| Plugins.GetPlugins | checks/__init__.py:192-285 | `False`, with the cache untouched, exactly when `pluginDirectory` is unset or missing; otherwise the cache is loaded, a loaded cache is never replaced, and the result is the cached instances' output (or the discovery's escaping exception) |
| Payload.LoadFields | checks/__init__.py:333-335 | `loadAvrg1`, `loadAvrg5` and `loadAvrg15` are exactly the load keys and hold `loadAvrgs['1']`, `['5']` and `['15']` |
| Payload.MemoryFields | checks/__init__.py:336-340 | the five `mem...` keys hold `memory['physUsed']`, `['physFree']`, `['swapUsed']`, `['swapFree']` and `['cached']` |
| Payload.WholeResults | checks/__init__.py:332-342 | `diskUsage`, `networkTraffic` and `processes` hold the whole check results |
| Payload.Metrics | checks/__init__.py:332-342 | the literal's check results are exactly the eleven metric keys |
| Payload.Header | checks/__init__.py:327-346 | the header fields are exactly the header keys: timestamp, OS name, agent key, version, API key from the configuration, and empty `events` and `resources` |
| Payload.CoreLiteral | checks/__init__.py:327-346 | the dictionary literal has exactly the header keys and the metric keys |
| PayloadFacts.LiteralHeader | checks/__init__.py:327-346 | each header entry of the literal is the one `Header` gives |
| PayloadFacts.LiteralMetric | checks/__init__.py:327-346 | each metric entry of the literal is the one `Metrics` gives |
| Payload.CoreFields | checks/__init__.py:327-346 | the literal is built exactly when the configuration and the load and memory results can be subscripted; otherwise it raises the first failing subscript's exception |
| Payload.CpuUpdate | checks/__init__.py:348-349 | what `dict.update` writes: a dictionary's entries; for a list, success exactly when every element is a pair, the keys exactly the pairs' keys, and each key the value of its last pair; nothing for `""`; `ValueError` for another string and `TypeError` for a boolean, `None` or number |
| Payload.MergeCpu | checks/__init__.py:348-349 | the merge succeeds exactly when `cpuStats` is `False`, `None` or a value `dict.update` accepts, and otherwise raises `dict.update`'s exception; the keys are the payload's plus the update's, each update key holds the update's value, and the other keys keep theirs |
| PayloadFacts.MergeCpuExamples | checks/__init__.py:348-349 | `[]` and `""` change nothing; `[["k", a]]` sets `k` to `a`; of two pairs for `k` the later wins; `[1]` and `3` raise `TypeError`; `"ab"` raises `ValueError` |
| Payload.AddUnlessFalseOrNone | checks/__init__.py:351-358 | the key is added exactly when the value is neither `False` nor `None`; nothing else changes |
| Payload.AddUnlessFalse | checks/__init__.py:390-406 | the key is added exactly when the value is not `== False`; nothing else changes |
| Payload.ApachePart | checks/__init__.py:363-366 | the block succeeds exactly when the result is `== False` or has the three fields, otherwise raising the first failing subscript's exception; the three Apache keys are added exactly when the result is not `== False`, `apacheReqPerSec`, `apacheBusyWorkers` and `apacheIdleWorkers` holding `reqPerSec`, `busyWorkers` and `idleWorkers` |
| Payload.MysqlPart | checks/__init__.py:371-382 | the block succeeds exactly when the result is `== False` or has all eight fields, otherwise raising the first failing subscript's exception; the seven MySQL keys hold `connections`, `createdTmpDiskTables`, `maxUsedConnections`, `openFiles`, `slowQueries`, `tableLocksWaited` and `threadsConnected`, and `mysqlSecondsBehindMaster` is added, holding `secondsBehindMaster`, exactly when that field is not `None`; other keys keep their values |
| Payload.NginxPart | checks/__init__.py:385-387 | the block succeeds exactly when the result is `== False` or has both fields, otherwise raising the first failing subscript's exception; `nginxConnections` and `nginxReqPerSec` are added exactly when the result is not `== False`, holding `connections` and `reqPerSec`; other keys keep their values |
| Payload.AddExtras | checks/__init__.py:351-358 | `ganglia`, `datadog` and `cassandra` are added exactly when their result is neither `False` nor `None`, each holding that result; other keys keep their values |
| Payload.AddBlocks | checks/__init__.py:363-387 | the Apache, MySQL and nginx blocks succeed exactly when each taken block's fields exist; their keys are added exactly when their guards hold, each holding the field of the result it copies; other keys keep their values |
| Payload.AddWholes | checks/__init__.py:389-406 | `rabbitMQ`, `mongoDB`, `couchDB`, `plugins` and `ioStats` are added exactly when their result is not `== False`, each holding that result; other keys keep their values |
| Payload.ServiceFields | checks/__init__.py:351-406 | the guarded blocks succeed exactly when every taken block's subscripts succeed; the keys added are exactly those whose guard held, each holding its result or the field it copies; keys no block writes keep their values |
| Payload.Identity | checks/__init__.py:409-430 | `systemStats` on the first run, `internalHostname` when the host name is known, and `uuid` always; other keys keep their values |
| Payload.EventStepsFacts | checks/__init__.py:434-437 | the event loop assigns exactly the keys of the event checks with truthy data, and never raises |
| Payload.AddEvents | checks/__init__.py:434-437 | `events` is read only when some event data is truthy and then must be a dictionary; only `events` changes |
| Payload.ResourceEntry | checks/__init__.py:446-451 | an entry exists exactly when the snapshot has elements 0 and 1; it holds `ts`, `data`, `format_version`, and `format_description` exactly when that is not `None` |
| Payload.ResourceStepsFacts | checks/__init__.py:440-452 | the resource loop does nothing exactly when no snapshot is truthy, never raises exactly when every truthy snapshot is a pair, and then assigns exactly the contributing keys |
| Payload.ResourcesMeta | checks/__init__.py:454-458 | `meta` is built exactly when the API key and `internalHostname` are present, and holds those two values |
| Payload.AddResources | checks/__init__.py:439-458 | the resource stage succeeds exactly when the snapshots are pairs and, if any contributed, the API key and host name are there; a missing host name then raises `KeyError`; only `resources` changes |
| Payload.AddStartup | checks/__init__.py:460-466 | on the first run `events['System']` becomes the single startup record, which fails with `KeyError` without a host name; otherwise nothing changes |
| Payload.TopLevel | checks/__init__.py:327-430 | the top-level stages succeed exactly when the literal, `cpuStats` and the guarded blocks can be evaluated; the keys are exactly the literal's, the CPU fields, the guarded keys and the identifiers |
| Payload.Attachments | checks/__init__.py:433-466 | events, resources and the startup record add no top-level key and change only `events` and `resources` |
| Payload.BuildPayload | checks/__init__.py:327-466 | the payload's keys are exactly the literal's, the CPU fields, the guarded keys and the identifiers, with the uuid, the host name and, on the first run, `systemStats` |
| PayloadFacts.CpuKeeps | checks/__init__.py:348-349 | merging a CPU result that reports only its own fields leaves every other payload key as it was |
| PayloadFacts.ServicesKeep | checks/__init__.py:351-406 | the guarded blocks leave every key they cannot write as it was |
| PayloadFacts.IdentityKeeps | checks/__init__.py:409-430 | the identifiers leave every other key as it was |
| PayloadFacts.AttachmentsKeep | checks/__init__.py:433-466 | events, resources and the startup record leave every key other than `events` and `resources` as it was |
| PayloadFacts.TopLevelKeepsCore | checks/__init__.py:327-430 | every key of the literal other than an identifier reaches the top level with the literal's value |
| PayloadFacts.TopLevelHostname | checks/__init__.py:416-420 | `internalHostname` is present exactly when `gethostname()` succeeded |
| PayloadFacts.TopLevelSystemStats | checks/__init__.py:409-411 | `systemStats` is present exactly on the first run |
| PayloadFacts.TopLevelShape | checks/__init__.py:344-345 | `events` and `resources` are still empty dictionaries when the event and resource loops start |
| PayloadFacts.EventsFilled | checks/__init__.py:434-437 | the event loop on the empty `events` yields exactly the keys with truthy data, each holding the last such check's data |
| PayloadFacts.SnapshotsFilled | checks/__init__.py:440-452 | the resource loop on the empty `resources` yields exactly the contributing keys, each holding the entry of the last such snapshot |
| PayloadFacts.EventsStage | checks/__init__.py:434-437 | on the literal's empty `events` the event loop always succeeds and changes only `events` |
| PayloadFacts.AttachmentsSucceed | checks/__init__.py:433-466 | the later stages succeed exactly when the snapshots are pairs and the host name is known whenever a snapshot contributed or it is the first run |
| PayloadFacts.AttachedEvents | checks/__init__.py:434-466 | the final `events` holds exactly the truthy event data plus `System` on the first run |
| PayloadFacts.AttachedResources | checks/__init__.py:439-458 | the final `resources` holds exactly the contributing entries plus `meta` when some snapshot contributed |
| PayloadFacts.AttachmentsNeedHostname | checks/__init__.py:454-466 | with no host name, a contributing snapshot or the first run makes the cycle raise `KeyError('internalHostname')` |
| PayloadFacts.PayloadSucceeds | checks/__init__.py:327-466 | the payload is built exactly when the configuration and the results can be subscripted, the snapshots are pairs, and the host name is known whenever a later stage reads it |
| PayloadFacts.PayloadNeedsHostname | checks/__init__.py:416-466 | an unresolved host name with a contributing snapshot or on the first run aborts assembly with `KeyError('internalHostname')` |
| PayloadFacts.PayloadEvents | checks/__init__.py:434-466 | the payload's `events` holds exactly the truthy event data (the last per key) and, on the first run, `System` with the startup record |
| PayloadFacts.PayloadResources | checks/__init__.py:439-458 | the payload's `resources` holds exactly the last entry per contributing key and, exactly when one contributed, `meta` with the API key and host name |
| PayloadFacts.PayloadFirstRun | checks/__init__.py:409-411 | the payload has `systemStats` exactly on the first run |
| PayloadFacts.PayloadGuardedKeys | checks/__init__.py:351-406 | each key a guarded block can write is in the final payload exactly when its guard held, and then holds the check result or the field the block copied |
| PayloadFacts.PayloadServiceKey | checks/__init__.py:351-406 | the same fact for one key: no later stage overwrites or removes a guarded key |
| PayloadFacts.PayloadCoreKeys | checks/__init__.py:327-346 | every key of the dictionary literal is in the payload |
| PayloadFacts.PayloadMetric | checks/__init__.py:332-342 | each check result the literal copies reaches the payload unchanged |
| PayloadFacts.PayloadCpuStats | checks/__init__.py:348-349 | every `cpuStats` field reaches the payload unchanged |
| PayloadFacts.CpuFieldKept | checks/__init__.py:348-349 | the same fact for one field |
| PayloadFacts.PayloadHeader | checks/__init__.py:329-343 | the payload's `os` is the family's name and `apiKey` is the configured key |
| PayloadFacts.PayloadDatadog | checks/__init__.py:354-355 | a dictionary from `getDatadogData` always reaches the payload, unchanged, as `datadog` |
| PayloadFacts.PayloadPlugins | checks/__init__.py:402-403 | the payload has `plugins` exactly when `getPlugins` did not return a value `== False`, and it then holds that output unchanged |
| Cycle.Init | checks/__init__.py:58-105 | the state starts with no OS family and no plugins, `topIndex` as the platform decides, and datadog checks exactly when `has_datadog` is truthy |
| Cycle.DatadogStepsFacts | checks/__init__.py:170-173 | the datadog loop never raises, assigns exactly the checks' keys, and the last check with a key is the one that stays |
| Cycle.GetDatadogData | checks/__init__.py:168-175 | always a dictionary: `{}` without datadog checks, otherwise exactly the checks' keys, each holding the last such check's result |
| Cycle.Advance | checks/__init__.py:296-318 | a cycle resolves the OS family (keeping a cached one) and loads the plugins exactly when they were loaded or the directory exists, keeping a loaded list |
| Cycle.DoChecks | checks/__init__.py:291-470 | a cycle re-arms exactly when nothing escaped it, with `checkFreq`, priority 1 and `firstRun=False`; it completes exactly when the plugins ran, the payload was built, the emitter returned and `checkFreq` is set to a number; a missing `checkFreq` raises `KeyError` and a non-numeric one `TypeError`; an emitted payload is the one assembled from this cycle's results |
| Cycle.CycleCompletes | checks/__init__.py:291-470 | a cycle re-arms exactly when the plugins ran, every assembly statement can complete, the emitter returned and `checkFreq` is configured as a number |
| Cycle.EmitsCollected | checks/__init__.py:291-468 | a cycle whose plugins ran and whose assembly can complete hands the emitter the payload assembled from this cycle's results |
| Cycle.EmittedDatadog | checks/__init__.py:354-355 | a cycle whose plugins ran and whose assembly can complete emits a payload whose `datadog` entry is what `getDatadogData` returned for this cycle's datadog results |
| Cycle.EmittedOs | checks/__init__.py:296-329 | such a cycle emits a payload whose `os` is the name of the family the state holds, the cached one once set |
| Cycle.EmittedPlugins | checks/__init__.py:195-200 | such a cycle emits a payload that has `plugins` exactly when the configured plugin directory exists, and then holds the plugins' output |
| Cycle.DoChecksAdvances | checks/__init__.py:296-318 | `doChecks` keeps the configuration, caches the OS family and keeps a loaded plugin list |
| Cycle.DoChecksRearms | checks/__init__.py:468-470 | `doChecks` re-arms exactly when it completes, with the configured delay, priority 1 and `firstRun=False` |
| Cycle.DoChecksNoStats | checks/__init__.py:409-411 | a call with `firstRun=False` emits no `systemStats` |
| Cycle.Run | checks/__init__.py:470 | every cycle of a run but the last has re-armed, the run starts with the initial call, and it ends early only at a cycle that did not re-arm |
| Cycle.RunStep | checks/__init__.py:470 | each cycle after the first is the re-armed call with `firstRun=False` on the state the previous cycle left |
| Cycle.NoSystemStatsAfterFirst | checks/__init__.py:409-411 | no cycle after the first emits `systemStats` |
| Cycle.ConfigKept | checks/__init__.py:58-59 | every cycle of a run sees the same configuration |
| Cycle.OsResolvedOnce | checks/__init__.py:296-302 | every cycle of a run keeps the OS family resolved by the first |
| Cycle.PluginsLoadedOnce | checks/__init__.py:204-209 | once a cycle has loaded the plugins, every later cycle keeps exactly those instances |
| Cycle.RunRearms | checks/__init__.py:470 | every cycle but the last re-armed with the configured numeric `checkFreq`, priority 1 and `firstRun=False` |

## Left out

- Every probe's own logic (`Apache`, `Disk`, `Memory`, `Cpu`, `Hudson`, `Nagios`, `ResProcesses` and the rest). Each is an input value in `Probes`, `Env.events` and `Env.resources`. The model assumes that the built-in checks return rather than raise: their code is not part of this model.
- The datadog rollup check: `Cycle.Init` takes its key as a parameter, and `Env.datadogCheck` gives its results. `checks/datadog` is not part of this model.
- `utils/http.py`, a thin wrapper over an HTTP GET with no logic of its own.
- `getMountedLinuxProcFsLocation`, which runs `mount` and a regex over its output. It only feeds the probes, which are inputs.
- `time.time()`, `datetime`/`mktime`, `uuid.uuid5`, `uuid.getnode`, `platform.node` and `socket.gethostname`. These become inputs: a timestamp value, an integer startup timestamp, an opaque uuid string and an optional host name.
- `socket.setdefaulttimeout`, the `recordsize` decorator and every logger call. They have no effect on the payload or the state.
- `sys.path.append` and the import machinery behind `imp.load_source`. The import outcome for each plugin name is an input.
- The `sched` object. Only the arguments of the single `sc.enter` call are recorded, together with the `TypeError` it raises when `checkFreq` is not a number. Timing, and the loop that keeps running queued cycles, are not modelled.
- The emitter's transport. Only whether it raises is modelled.
- Floating-point values. Numbers are integers, which matters only for the `== False` test on `0`.
- `os.walk` is modelled as a map from each existing path to the file names found below it. Subdirectory structure is not modelled, because the loader uses only the file names.
- The unused getters `getVMStat` and the unused `rawConfig` argument's contents.
- PayloadFacts.PayloadSucceeds: assumes the CPU check reports only its own fields (`CpuStatsOnly`). Otherwise a `cpuStats` field could supply or shadow `internalHostname` or `events`.
- PayloadFacts.PayloadEvents: assumes `CpuStatsOnly`, for the same reason.
- PayloadFacts.PayloadResources: assumes `CpuStatsOnly`, for the same reason.
- PayloadFacts.PayloadGuardedKeys: assumes `CpuStatsOnly`, since a CPU field could carry a guarded key's name.
- PayloadFacts.TopLevelKeepsCore: assumes `CpuStatsOnly`; otherwise a CPU field with a literal key replaces the literal's value.
- PayloadFacts.TopLevelHostname: assumes `CpuStatsOnly`; otherwise a CPU field named `internalHostname` is present although `gethostname()` failed.
- PayloadFacts.TopLevelSystemStats: assumes `CpuStatsOnly`; otherwise a CPU field named `systemStats` is present on a later run.
- PayloadFacts.TopLevelShape: assumes `CpuStatsOnly`; otherwise a CPU field can replace `events` or `resources` before the loops start.
- PayloadFacts.PayloadNeedsHostname: assumes `CpuStatsOnly`; otherwise a CPU field named `internalHostname` supplies the value the later stages read.
- PayloadFacts.PayloadFirstRun: assumes `CpuStatsOnly`; otherwise a CPU field named `systemStats` reaches the payload on a later run.
- PayloadFacts.PayloadServiceKey: assumes `CpuStatsOnly`, since a CPU field could carry the guarded key's name.
- PayloadFacts.PayloadMetric: assumes `CpuStatsOnly`; otherwise a CPU field with a metric key replaces the literal's value.
- PayloadFacts.PayloadCpuStats: assumes `CpuStatsOnly`; otherwise a later stage (a guarded block, an identifier, `events` or `resources`) overwrites a CPU field with the same name.
- PayloadFacts.CpuFieldKept: assumes `CpuStatsOnly`, for the same reason as `PayloadFacts.PayloadCpuStats`.
- PayloadFacts.PayloadHeader: assumes `CpuStatsOnly`; otherwise a CPU field named `os` or `apiKey` replaces the family name or the configured key.
- PayloadFacts.PayloadDatadog: assumes `CpuStatsOnly`; otherwise a CPU field named `events` or `resources` can make a later stage raise, so that no payload is built.
- PayloadFacts.PayloadPlugins: assumes `CpuStatsOnly`; otherwise a CPU field named `plugins` is present although `getPlugins` returned `False`.
- Cycle.EmitsCollected: assumes `CpuStatsOnly` for the cycle's CPU result, as `PayloadFacts.PayloadSucceeds` does.
- Cycle.EmittedDatadog: assumes `CpuStatsOnly` for the cycle's CPU result, as `PayloadFacts.PayloadDatadog` does.
- Cycle.EmittedOs: assumes `CpuStatsOnly` for the cycle's CPU result, as `PayloadFacts.PayloadHeader` does.
- Cycle.EmittedPlugins: assumes `CpuStatsOnly` for the cycle's CPU result, as `PayloadFacts.PayloadPlugins` does.
- Cycle.DoChecksNoStats: the property it establishes, `NoStatsUnlessFirst`, assumes `CpuStatsOnly` for the cycle's CPU result, as `PayloadFacts.PayloadFirstRun` does.
- Cycle.CycleCompletes: assumes `CpuStatsOnly` for the cycle's CPU result.
- Cycle.NoSystemStatsAfterFirst: assumes `CpuStatsOnly` for that cycle's CPU result.
- `firstRun` is a boolean in the model. The code tests it with `firstRun == True` for `systemStats` (line 409) and by truthiness for the startup event (line 461), which differ only for non-boolean arguments; the re-arm at line 470 passes `False`, and the model's callers pass booleans only.
- Payload.PairStep: a pair whose first item is a number, boolean or `None`, and a two-key dictionary used as a pair, are modelled as raising `TypeError`, because the model's dictionaries have string keys; Python would insert such a pair (with a non-string key) instead.
- Payload.CpuUpdate: for a list with a malformed element, which of `ValueError` or `TypeError` is raised is computed (that of the first malformed element) but its contract states only that the update fails.
- Payload.AddBlocks: its contract states that the stage fails, and the exception is stated per block by `Payload.ApachePart`, `Payload.MysqlPart` and `Payload.NginxPart`, not for the stage as a whole; the same holds for `Payload.ServiceFields`.
- Cycle.Run: the run is modelled for any function from state, `firstRun`, `systemStats` and environment to a cycle outcome. The lemmas about runs require the facts that `Cycle.DoChecksAdvances`, `Cycle.DoChecksRearms` and `Cycle.DoChecksNoStats` establish for `DoChecks`.
