# eBPF plumbing of ilogtail, modelled in Dafny

This project models four small pieces of sequential decision logic from
ilogtail's eBPF support, and proves properties about them:

- **Environment gate and pipeline-binding table** (`EnvManager`, `EbpfServer`,
  `EbpfServerProperties`), from `core/ebpf/eBPFServer.cpp`.
  - `InitEnvInfo` detects the capability flags once per process from the host's
    kernel release, its encoded version and the RedHat-release lookups.
  - `IsSupportedEnv` turns those flags into a per-plugin-type decision.
  - `eBPFServer` keeps, per plugin type, the name of the pipeline that owns it and
    the contexts of six handler callbacks.
  - The native `SourceManager` calls are oracles (`Natives`).
  - Every handler-context update and every native call is appended to a trace, so
    "context set before start" and "context cleared after stop" can be stated
    about the recorded order.
  - The invariant `Valid` ties the stored contexts to the replay of that trace.
- **Library loader** (`SourceManager`), the `source_manager` class of
  `core/ebpf/SourceManager.h`.
  - `dlopen`, `dlsym` and `dladdr` answer from an abstract `Image`.
  - Library handles are numbered in opening order.
  - The calls the loader makes into the library (`init`, `deinit`) and every
    `dlclose` are recorded, so a double close is visible.
- **Security config registry** (`SecurityServer`), from
  `core/ebpf/security/SecurityServer.cpp`: the map keyed by `name#index`, the three
  per-filter-type slots, the running flag, and the conversion of a process event
  into one queued log event.
- **ARMS serializers** (`ArmsSerializer`), from `core/serializer/ArmsSerializer.cpp`.
  Measure batches and OpenTelemetry traces are datatypes mirroring the protobuf
  messages.

Supporting modules:

- `Wrappers` provides `Option`.
- `Strings` covers substring search, decimal rendering (`std::to_string`) and its
  inverse.
- `OrderedMaps` models `std::map<std::string, std::string>` as a strictly sorted
  association list.

Behaviours of the code worth knowing:

- `DisablePlugin` from a pipeline that does not own the type returns true and
  changes nothing.
- `SuspendPlugin` on an unsupported environment returns false, and it does not
  compare the pipeline name.
- A failed native start leaves the pipeline binding in place.
- `DisablePlugin` clears the handler contexts only when the native stop succeeds.

## Model

| member | source | states |
|---|---|---|
| Strings.Find | core/ebpf/SourceManager.h:91 | the position returned is an occurrence of the pattern and no earlier position is one; none means no occurrence at all |
| Strings.NatToString | core/ebpf/security/SecurityServer.cpp:58 | the decimal rendering of an index is non-empty and consists of digits only |
| Strings.ParseNatToString | core/ebpf/security/SecurityServer.cpp:58 | reading the decimal rendering back gives the index again |
| Strings.NatToStringInjective | core/ebpf/security/SecurityServer.cpp:58 | different indices render differently |
| OrderedMaps.StringLessAt | core/serializer/ArmsSerializer.h:52 | two keys that agree up to a first smaller character are in `std::map` order |
| OrderedMaps.StringLessTransitive | core/serializer/ArmsSerializer.h:52 | `std::map` key order is transitive |
| OrderedMaps.SortedFromNeighbours | core/serializer/ArmsSerializer.h:52 | a key list whose neighbours are in order is strictly sorted |
| OrderedMaps.Lookup | core/serializer/ArmsSerializer.cpp:82-84 | `find` yields a stored entry for the key, or nothing exactly when no entry has that key |
| OrderedMaps.LookupAt | core/serializer/ArmsSerializer.cpp:82-84 | in a sorted map, looking up a stored key yields the value stored with it |
| OrderedMaps.ToMap | core/serializer/ArmsSerializer.cpp:56-59 | the labels map has exactly the tag keys, and each label agrees with the tag lookup |
| OrderedMaps.ToMapAt | core/serializer/ArmsSerializer.cpp:56-59 | every tag entry appears among the labels with its value |
| EnvManager.ConstantsAreEncodings | core/ebpf/eBPFServer.cpp:32-41 | 4019000000, 3010 and 7006 are the encodings of kernel 4.19.0.0, of 3.10 and of CentOS 7.6 |
| EnvManager.TruncDiv | core/ebpf/eBPFServer.cpp:109 | the int64 quotient truncates toward zero: it brackets the dividend from below for non-negative and from above for negative values |
| EnvManager.MajorMinorOfEncoded | core/ebpf/eBPFServer.cpp:109 | dividing an encoded kernel version by one million leaves its major*1000+minor |
| EnvManager.Is310Encoded | core/ebpf/eBPFServer.cpp:109-114 | the 3.10 branch is taken exactly for kernels 3.10.x.y |
| EnvManager.FirstRelease | core/ebpf/eBPFServer.cpp:118-119 | the container-host-path lookup wins when it succeeds; no release only when both lookups fail |
| EnvManager.InitEnvInfo | core/ebpf/eBPFServer.cpp:74-135 | a second call changes nothing; arch flag from the build; empty release gives no BTF; version at least the minimum gives BTF; otherwise 310-support iff a 3.10 kernel on CentOS 7.6+ by the first successful lookup, false for other versions |
| EnvManager.IsSupportedEnv | core/ebpf/eBPFServer.cpp:43-68 | false before init; network observation needs arch and (BTF or 310); the three security types need arch and BTF; any other type is unsupported |
| EnvManager.AbleToLoadDyLib | core/ebpf/eBPFServer.cpp:70-72 | the libraries are loadable whenever some plugin type is supported |
| EnvManager.SupportAfterInit | core/ebpf/eBPFServer.cpp:74-135 | after detection on a fresh manager, support per type is exactly the host capability it needs; failed reads fail closed |
| EnvManager.CentosLegacyKernelRunsNetworkObserveOnly | core/ebpf/eBPFServer.cpp:109-122 | a CentOS 7.6+ host on kernel 3.10 without BTF, whichever release lookup found it, runs network observation and no security probe |
| EbpfServer.LiveContext | core/ebpf/eBPFServer.cpp:362 | the context set before a start carries the caller's context, its process queue key and the plugin index |
| EbpfServer.AllHandlersComplete | core/ebpf/eBPFServer.cpp:155-166 | `Init` creates all six handlers |
| EbpfServer.LoadedPipeline | core/ebpf/eBPFServer.cpp:467-470 | the name of the pipeline bound to the type, or "" for a type never bound; read back after `UpdatePipelineName` it gives the name written |
| EbpfServer.UpdatePipelineName | core/ebpf/eBPFServer.cpp:472-476 | writes the owner of one plugin type and leaves every other type's owner alone |
| EbpfServer.SetCtx | core/ebpf/eBPFServer.cpp:362 | one recorded context update keeps the contexts equal to the replay of the trace |
| EbpfServer.Call | core/ebpf/eBPFServer.cpp:363 | a recorded native call leaves contexts, table and flags untouched |
| EbpfServer.SetActions | core/ebpf/eBPFServer.cpp:488-511 | the recorded updates name the handlers in order, each with the same context |
| EbpfServer.SetAll | core/ebpf/eBPFServer.cpp:488-511 | the listed handlers get the context, all other handlers keep theirs, and the trace grows by exactly those updates |
| EbpfServer.UpdateCBContext | core/ebpf/eBPFServer.cpp:488-511 | exactly the handlers of the plugin type get the new context, recorded in source order |
| EbpfServer.BuildConfig | core/ebpf/eBPFServer.cpp:350-419 | the native config variant matches the plugin type and carries the caller's options or enable flags |
| EbpfServer.StartHandlers | core/ebpf/eBPFServer.cpp:371-389 | the handlers whose context is set before a start are exactly those the started config routes events to: metric to meter, span to span, log to event, each security probe to its own handler |
| EbpfServer.StartPluginInternal | core/ebpf/eBPFServer.cpp:335-426 | a conflicting owner gives false and no change; otherwise the binding becomes the caller; for a known type the result is the native start's, and the trace is the context updates followed by the start; an unknown type gives false |
| EbpfServer.EnablePlugin | core/ebpf/eBPFServer.cpp:436-444 | unsupported type or different owner gives false with nothing changed; otherwise as the internal start, with the binding kept even when the native start fails |
| EbpfServer.DisablePlugin | core/ebpf/eBPFServer.cpp:446-465 | unsupported type or non-owner gives true with nothing changed; for the owner the binding is cleared, the native stop decides the result, and contexts are cleared only after a successful stop |
| EbpfServer.StopAndDetach | core/ebpf/eBPFServer.cpp:450-464 | for the owner: the binding is emptied, the native stop is recorded before any context update, and the type's handlers are cleared only if it succeeded |
| EbpfServer.SuspendPlugin | core/ebpf/eBPFServer.cpp:478-486 | the table is never touched; unsupported gives false; otherwise the native suspend decides, and the contexts are cleared after it only on success |
| EbpfServer.HasRegisteredPlugins | core/ebpf/eBPFServer.cpp:428-434 | true iff some plugin type has a non-empty owner |
| EbpfServer.Init | core/ebpf/eBPFServer.cpp:141-167 | runs only once; the server is inited iff the architecture supports loading; the six handlers are created with (null, -1, 0) |
| EbpfServer.Stop | core/ebpf/eBPFServer.cpp:169-187 | a no-op when not inited; otherwise all probes are stopped first, then no plugin stays registered and all six contexts are cleared |
| EbpfServerProperties.ContextsLiveAtStart | core/ebpf/eBPFServer.cpp:354-419 | at the moment the native start is called, every handler the config routes to already holds the caller's context |
| EbpfServerProperties.ContextsIntactAtStop | core/ebpf/eBPFServer.cpp:461-463 | at the moment the native stop is called the contexts are still the old ones; only cleared-context updates follow |
| EbpfServerProperties.StopTraceShape | core/ebpf/eBPFServer.cpp:461-463 | a stop trace extends the old trace by the native stop followed by clearing actions only |
| EbpfServerProperties.EnableIsExclusive | core/ebpf/eBPFServer.cpp:340-347 | after pipeline a enables a type, an enable by pipeline b fails and a keeps the binding |
| EbpfServerProperties.EnableAgainSamePipeline | core/ebpf/eBPFServer.cpp:340-347 | the owner may enable again: the binding stays and the start is retried |
| EbpfServerProperties.DisableThenEnableIsFresh | core/ebpf/eBPFServer.cpp:446-465 | disable then enable by the owner rebinds it, and the routed handlers hold the new context |
| EbpfServerProperties.DisableReleasesType | core/ebpf/eBPFServer.cpp:450-452 | after the owner disables, another pipeline can take the type over |
| EbpfServerProperties.StaleDisableIgnored | core/ebpf/eBPFServer.cpp:450-456 | a disable from a non-owner returns true and changes nothing |
| EbpfServerProperties.EnableRegistersStopUnregisters | core/ebpf/eBPFServer.cpp:428-434 | enabling from a named pipeline registers a plugin, and `Stop` unregisters all |
| EbpfServerProperties.NothingBeforeInit | core/ebpf/eBPFServer.cpp:43-47 | before init no enable succeeds and nothing changes |
| EbpfServerProperties.UnsupportedSuspendFailsDisableSucceeds | core/ebpf/eBPFServer.cpp:446-486 | on an unsupported type suspend reports failure and disable reports success |
| SourceManager.Resolve | core/ebpf/SourceManager.h:78-80 | a symbol resolves iff the image exports it, to a pointer into the current handle |
| SourceManager.SymbolOffset | core/ebpf/SourceManager.h:101-113 | the offset is present iff lookup and address introspection both succeed, and then it is symbol address minus image base |
| SourceManager.BuildInitParam | core/ebpf/SourceManager.h:95-160 | `so` is the fixed library path with its length; the BTF size stays unassigned; each of the four offsets is that symbol's offset |
| SourceManager.InitParamFor | core/ebpf/SourceManager.h:90-91 | `init` gets a parameter iff the path contains "sockettrace.so", otherwise null |
| SourceManager.InitPlugin | core/ebpf/SourceManager.h:69-165 | open failure gives false with no calls; a missing init/call/deinit closes the handle, never calls init and gives false; otherwise init is called once and the result is true |
| SourceManager.ClearPlugin | core/ebpf/SourceManager.h:176-182 | no handle means nothing happens; otherwise deinit (if resolved) runs before dlclose, and the handle is kept |
| SourceManager.FailedInitThenDestroyIsUnsafe | core/ebpf/SourceManager.h:82-85 | a library exporting only `deinit` is closed, then deinit runs on the closed library and it is closed again when the loader is destroyed |
| SourceManager.ClearThenDestroyIsUnsafe | core/ebpf/SourceManager.h:176-182 | clearing and then destroying a started loader closes the same handle twice |
| SourceManager.ForgetHandle | core/ebpf/SourceManager.h:84 | the corrected code nulls the handle and function pointers after closing |
| SourceManager.InitPluginSafe | core/ebpf/SourceManager.h:82-85 | same calls and result as `initPlugin`, but a failed start leaves no handle behind |
| SourceManager.ClearPluginSafe | core/ebpf/SourceManager.h:176-182 | same calls as `clearPlugin`, and the handle is null afterwards |
| SourceManager.StepSafe | core/ebpf/SourceManager.h:176-182 | one corrected start (on an empty loader) or teardown keeps the loader safe |
| SourceManager.SafeLifecycle | core/ebpf/SourceManager.h:65-67 | with the correction, no handle is closed twice and no deinit follows a close, in any lifecycle whose every start runs on an empty loader (fresh, just cleared, or after a failed start) |
| SourceManager.RetryAfterFailedStartIsSafe | core/ebpf/SourceManager.h:82-85 | with the correction, a failed start followed by a retry on the same loader closes no handle twice |
| SourceManager.NewLoaderSafe | core/ebpf/SourceManager.h:63 | a new loader is in the safe state |
| SourceManager.SecureProbePathLacksMarker | core/ebpf/security/SecurityServer.cpp:132 | the secure probe's path does not contain "sockettrace.so" |
| SourceManager.InitParamByPath | core/ebpf/SourceManager.h:91 | the network-trace library gets an init parameter; the secure probe library gets null |
| SecurityServer.Slot | core/ebpf/security/SecurityServer.cpp:61-79 | the slot of FILE, PROCESS and NETWORK is the file, process and network config respectively |
| SecurityServer.WithSlot | core/ebpf/security/SecurityServer.cpp:61-79 | exactly the slot of the filter type is written; other types write nothing |
| SecurityServer.ConfigKey | core/ebpf/security/SecurityServer.cpp:58 | the key is the name, then '#', then only digits |
| SecurityServer.ConfigKeyInjective | core/ebpf/security/SecurityServer.cpp:84 | distinct (name, index) pairs never share a key, even when the name contains '#' |
| SecurityServer.AddSecurityOptions | core/ebpf/security/SecurityServer.cpp:54-80 | the entry is stored under the key, replacing an earlier one; other keys are unchanged; exactly the slot of the options' filter type is set |
| SecurityServer.RemoveSecurityOptions | core/ebpf/security/SecurityServer.cpp:83-106 | the key is erased, other keys unchanged, the stored entry's slot is reset to (null, null) and the others are untouched |
| SecurityServer.Start | core/ebpf/security/SecurityServer.cpp:31-40 | a running server is left unchanged; otherwise it runs afterwards with the registry unchanged |
| SecurityServer.StopPipeline | core/ebpf/security/SecurityServer.cpp:42-45 | stops whatever the type, changing nothing else |
| SecurityServer.Stop | core/ebpf/security/SecurityServer.cpp:47-50 | stops, changing nothing else |
| SecurityServer.Contents | core/ebpf/security/SecurityServer.cpp:119-122 | the log event has a content key exactly for each tag key |
| SecurityServer.ContentsLastWins | core/ebpf/security/SecurityServer.cpp:120-122 | a key repeated among the tags ends with the value of its last occurrence |
| SecurityServer.HandleProcessSecureEvent | core/ebpf/security/SecurityServer.cpp:112-128 | nothing is pushed for a null event; otherwise one group with one log event, input index 0, to the process config's queue |
| SecurityServer.HandledEventCarriesTags | core/ebpf/security/SecurityServer.cpp:118-122 | every tag of the event appears in the pushed log event with its last value |
| SecurityServer.AddThenRemove | core/ebpf/security/SecurityServer.cpp:54-106 | registering then unregistering an input forgets it, empties its type's slot and leaves the other slots as before |
| SecurityServer.RemoveEmptiesSharedSlot | core/ebpf/security/SecurityServer.cpp:85-94 | with two process inputs registered, removing one empties the process slot although the other stays registered |
| SecurityServer.StartIdempotent | core/ebpf/security/SecurityServer.cpp:31-50 | starting twice is starting once, and a stopped server starts again |
| ArmsSerializer.TagOrUnknown | core/serializer/ArmsSerializer.cpp:80-89 | the value stored under the tag, or "unkown" exactly when the tag is missing |
| ArmsSerializer.IpFromTags | core/serializer/ArmsSerializer.cpp:80-89 | the "source_ip" tag value, or "unkown" when missing |
| ArmsSerializer.AppIdFromTags | core/serializer/ArmsSerializer.cpp:92-101 | the "appId" tag value, or "unkown" when missing |
| ArmsSerializer.TagLookupAgreesWithLabels | core/serializer/ArmsSerializer.cpp:53-59 | the ip/pid lookups agree with the labels map built from the same tags |
| ArmsSerializer.MeasureTimestamp | core/serializer/ArmsSerializer.cpp:41-51 | the first event's timestamp, or the clock reading for an empty group |
| ArmsSerializer.ConvertEvent | core/serializer/ArmsSerializer.cpp:65-77 | the name is copied, valuetype is "", unit is COUNT, and a value is set iff the event holds an untyped single value |
| ArmsSerializer.ConvertEvents | core/serializer/ArmsSerializer.cpp:64-78 | one measure per event, in order |
| ArmsSerializer.ConvertBatch | core/serializer/ArmsSerializer.cpp:29-61 | type "app", version "v1", ip and pid from the tags, the batch time, and exactly one Measures whose labels equal the tags and whose measures follow the events |
| ArmsSerializer.Flatten | core/serializer/ArmsSerializer.cpp:20-29 | the groups of all lists, as many as the lists hold together |
| ArmsSerializer.ConvertList | core/serializer/ArmsSerializer.cpp:27-39 | one measure batch per group of a list, in order |
| ArmsSerializer.ConvertListAppend | core/serializer/ArmsSerializer.cpp:27-39 | converting two runs of groups together concatenates their batches |
| ArmsSerializer.FlattenAllMetric | core/serializer/ArmsSerializer.cpp:29-31 | when every list holds only metric groups, so does the flattened sequence |
| ArmsSerializer.ConvertLists | core/serializer/ArmsSerializer.cpp:20-22 | the nested loops convert exactly the groups of all lists, flattened in order |
| ArmsSerializer.SerializeMetrics | core/serializer/ArmsSerializer.cpp:16-25 | always true; one measure batch per group across all lists, in input order |
| ArmsSerializer.SerializeMetricsAppend | core/serializer/ArmsSerializer.cpp:20-22 | serializing two runs of lists together concatenates their outputs |
| ArmsSerializer.NewSpanSerializer | core/serializer/ArmsSerializer.h:37-47 | the resource table holds exactly the seven constructor entries, sorted by key |
| ArmsSerializer.ResourceKeyBeforeNext | core/serializer/ArmsSerializer.h:37-47 | each of the seven resource keys comes before the next in `std::map` order |
| ArmsSerializer.SortedResourceKeys | core/serializer/ArmsSerializer.h:52 | a table keyed by the seven resource keys in that order is strictly sorted |
| ArmsSerializer.Attributes | core/serializer/ArmsSerializer.cpp:115-120 | one string attribute per map entry, in key order |
| ArmsSerializer.SpanOf | core/serializer/ArmsSerializer.cpp:139-161 | ids, kind, start, end and name are copied from the span event; the attributes are the group's tags |
| ArmsSerializer.SpansOfEvents | core/serializer/ArmsSerializer.cpp:132-162 | as many spans as span events |
| ArmsSerializer.SpanPosition | core/serializer/ArmsSerializer.cpp:132-162 | each span event's span lands at the position given by the number of span events before it |
| ArmsSerializer.SpansOfEventsAppend | core/serializer/ArmsSerializer.cpp:132-133 | the spans of two runs of events are the two span lists concatenated |
| ArmsSerializer.NonSpanEventSkipped | core/serializer/ArmsSerializer.cpp:133 | inserting a non-span event anywhere leaves the spans unchanged |
| ArmsSerializer.SpansOfGroups | core/serializer/ArmsSerializer.cpp:129-163 | the spans of the groups, as many as they have span events |
| ArmsSerializer.SpansOfGroupsAppend | core/serializer/ArmsSerializer.cpp:129-163 | the spans of two runs of groups are the two span lists concatenated |
| ArmsSerializer.SpansOfLists | core/serializer/ArmsSerializer.cpp:128-164 | the nested loops yield the spans of all groups of all lists in order |
| ArmsSerializer.SerializeSpans | core/serializer/ArmsSerializer.cpp:106-169 | always true; exactly one resource spans carrying the resource table and one unnamed scope spans holding one span per span event |
| ArmsSerializer.SpanInGroups | core/serializer/ArmsSerializer.cpp:129-163 | a span event's span sits at its group's offset plus the span events before it in the group |
| ArmsSerializer.SpanOfEveryEvent | core/serializer/ArmsSerializer.cpp:128-161 | every span event appears in the traces at its group's offset plus the span events before it in the group |

## Left out

- The mock generator threads of `eBPFServer` (`GenerateMetric`, `GenerateAgentInfo`,
  `GenerateSpan`), `mGenerateFlag` and the thread joins: their bodies are sleeps and
  hard-coded demo data. Their `std::thread` objects are not modelled either, and
  that hides a process-terminating path (next line).
- EbpfServer.EnablePlugin: for `NetworkObserve` the source move-assigns a
  `std::thread` member that may still be joinable, and `std::terminate` then ends
  the process. This happens on the first enable when both metric and log are on,
  because `mLogMockThread` is assigned twice. It also happens on any later
  `NetworkObserve` enable whose options restart a mock thread left joinable by an
  earlier one, because `DisablePlugin` joins only `mMetricMockThread`. The model
  returns `sm.startPlugin(...)` on these inputs instead of terminating. The same
  caveat applies to every property that enables `NetworkObserve`:
  EbpfServerProperties.EnableAgainSamePipeline,
  EbpfServerProperties.DisableThenEnableIsFresh,
  EbpfServerProperties.ContextsLiveAtStart, EbpfServerProperties.EnableIsExclusive,
  EbpfServerProperties.DisableReleasesType and
  EbpfServerProperties.EnableRegistersStopUnregisters.
- EbpfServerProperties.EnableAgainSamePipeline: does not model the
  process termination described above for `NetworkObserve` mock threads.
- EbpfServerProperties.DisableThenEnableIsFresh: does not model the
  process termination described above for `NetworkObserve` mock threads.
- EbpfServerProperties.ContextsLiveAtStart: does not model the
  process termination described above for `NetworkObserve` mock threads.
- EbpfServerProperties.EnableIsExclusive: does not model the
  process termination described above for `NetworkObserve` mock threads.
- EbpfServerProperties.DisableReleasesType: does not model the
  process termination described above for `NetworkObserve` mock threads.
- EbpfServerProperties.EnableRegistersStopUnregisters: does not model the
  process termination described above for `NetworkObserve` mock threads.
- The `mMtx` locking: table reads and writes are treated as atomic steps.
- `SecurityServer::Init`, `InitBPF`, `StopBPF`, `CollectEvents` and `call_once`:
  a busy-wait thread and native loading.
- `eBPFServer::Init` creates the source manager and loads the admin configuration
  from `AppConfig`. Both are foreign calls; only the inited flag, detection and
  handler creation are modelled.
- The real `dlopen`/`dlsym`/`dladdr`: they are the abstract `Image`.
  - Symbols looked up only for offsets are not recorded as calls.
  - `dlopen` reference counting is not modelled, so every successful open yields
    a fresh handle number.
- `GetKernelInfo` and `GetRedHatReleaseInfo` file reads are `HostInfo` inputs. The
  compile-time architecture switch is the `archSupported` input.
- `ProcessQueueManager::PushQueue`: the pushed item is returned instead.
- Protobuf `SerializeAsString`: the messages are returned as datatypes, not bytes.
- Metric values are opaque 64-bit patterns, with no floating-point semantics.
- Memory leaks and all logging.
- The unused `soPath` argument of `initPlugin`, the `call` pointer's use and `runCore`.
- EbpfServer.EnablePlugin: requires the server to be inited when the type is
  supported and free or already owned by the caller, because after `Stop` the
  source manager is destroyed and the source would dereference null. Under the
  same condition it requires the options alternative to fit the type, because
  `std::get` throws otherwise. An enable that loses to another pipeline's
  binding returns false before either is reached, so it carries no requirement.
- EbpfServer.DisablePlugin: requires the server to be inited when the type is
  supported and the caller owns it, for the same null source manager.
- EbpfServer.SuspendPlugin: requires the server to be inited when the type is
  supported, for the same reason.
- EbpfServer.StartPluginInternal: the plugin index is an unbounded natural. The
  source's `uint32_t` to `int` conversion in `UpdateContext` is not modelled.
- EbpfServer.Init: assumes the environment's `m310Support` and `mBTFSupport`
  start false. Their declarations are not part of this model.
- SecurityServer.RemoveSecurityOptions: requires the key to be registered, because
  the source reads the entry through `operator[]` and dereferences its null
  options otherwise.
- SecurityServer.HandleProcessSecureEvent: requires a process configuration to be
  set for a non-null event, because the source dereferences the null context
  otherwise.
  - Log-event contents are a map where a later `SetContent` of the same key wins.
  - The order of contents is not modelled.
- SecurityServer.ConfigKey: the index is an unbounded natural rather than `size_t`.
- ArmsSerializer.SerializeMetrics: requires every event to be a metric event,
  because the source casts each event to `MetricEvent` unchecked. The clock is one
  `nowMillis` reading for the whole call, where the source reads it once per empty
  group.
- ArmsSerializer.NewSpanSerializer: host name and IP are inputs (`GetHostName`,
  `GetHostIp`).

## Findings

| source | as written | input that shows it | evidently intended | confidence | as-written member | corrected member |
|---|---|---|---|---|---|---|
| core/ebpf/SourceManager.h:82-85 | after a failed `dlsym` the handle is closed but not reset to null, so the destructor's `clearPlugin` calls the resolved `deinit` of the closed library and closes the handle again | a library that opens and exports only `deinit`: calls are dlclose(0), deinit(0), dlclose(0) | reset the handle and function pointers after `dlclose`, on the failure path and in `clearPlugin` | not executed | SourceManager.FailedInitThenDestroyIsUnsafe | SourceManager.SafeLifecycle |
