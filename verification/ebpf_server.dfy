/** The plugin orchestrator (`eBPFServer` in core/ebpf/eBPFServer.cpp):
    per plugin type, the name of the pipeline that owns it, plus the
    contexts of the six event handlers the native probes report to.
    The native `SourceManager` is an oracle; every call to it and every
    handler-context update is recorded in a trace so that ordering can be
    stated. */
module EbpfServer {
  import opened Wrappers
  import opened EnvManager

  /** The caller's `PipelineContext`, reduced to what the server reads. */
  datatype PipelineContext = PipelineContext(configName: string, queueKey: int)

  /** The six handler objects: event, meter, span (network observation)
      and one security handler per security probe. */
  datatype Handler = EventCB | MeterCB | SpanCB | NetworkSecureCB | ProcessSecureCB | FileSecureCB

  /** What `UpdateContext(ctx, key, idx)` stores in a handler; a null
      pipeline context is `None`. */
  datatype HandlerContext = HandlerContext(ctx: Option<PipelineContext>, key: int, index: int)

  /** The context a handler is created with in `Init`. */
  const CreatedContext: HandlerContext := HandlerContext(None, -1, 0)
  /** The context written when a plugin is detached. */
  const ClearedContext: HandlerContext := HandlerContext(None, -1, -1)

  /** The context written before a plugin starts: the caller's context,
      its process queue key and the plugin index. */
  function LiveContext(ctx: PipelineContext, index: nat): (c: HandlerContext)
    ensures c.ctx == Some(ctx) && c.key == ctx.queueKey && c.index == index
  {
    HandlerContext(Some(ctx), ctx.queueKey, index)
  }

  /** The handlers in the order `Init` creates them. */
  const AllHandlers: seq<Handler> := [EventCB, MeterCB, SpanCB, NetworkSecureCB, ProcessSecureCB, FileSecureCB]

  lemma AllHandlersComplete()
    ensures forall h: Handler :: h in AllHandlers
  {
    forall h: Handler ensures h in AllHandlers {
      match h
      case EventCB => case MeterCB => case SpanCB =>
      case NetworkSecureCB => case ProcessSecureCB => case FileSecureCB =>
    }
  }

  /** The handlers `UpdateCBContext` addresses for a plugin type, in order. */
  function HandlersOf(t: PluginType): seq<Handler> {
    match t
    case ProcessSecurity => [ProcessSecureCB]
    case NetworkObserve => [MeterCB, SpanCB, EventCB]
    case NetworkSecurity => [NetworkSecureCB]
    case FileSecurity => [FileSecureCB]
    case OtherPlugin => []
  }

  /** One entry of a security option list, opaque here. */
  datatype SecurityOption = SecurityOption(id: nat)

  /** The options variant handed to `EnablePlugin`. */
  datatype PluginOptions =
    | SecurityPluginOptions(optionList: seq<SecurityOption>)
    | ObserverNetworkOption(enableMetric: bool, enableSpan: bool, enableLog: bool)

  /** The variant alternative a plugin type reads (`std::get` throws on the other). */
  predicate OptionsFit(t: PluginType, opts: PluginOptions) {
    (t == NetworkObserve ==> opts.ObserverNetworkOption?) && (IsSecurityType(t) ==> opts.SecurityPluginOptions?)
  }

  /** The native configuration built for a start; the callbacks it carries
      are represented by the handlers they forward to (`RoutedHandlers`). */
  datatype PluginConfig =
    | NetworkObserveConfig(enableMetric: bool, enableSpan: bool, enableEvent: bool)
    | ProcessConfig(options: seq<SecurityOption>)
    | NetworkSecurityConfig(options: seq<SecurityOption>)
    | FileSecurityConfig(options: seq<SecurityOption>)

  /** The handlers a configuration's callbacks forward native events to:
      metric to the meter handler, span to the span handler, log to the
      event handler, and each security probe to its own handler. */
  function RoutedHandlers(cfg: PluginConfig): set<Handler> {
    match cfg
    case NetworkObserveConfig(m, s, e) =>
      (if m then {MeterCB} else {}) + (if s then {SpanCB} else {}) + (if e then {EventCB} else {})
    case ProcessConfig(_) => {ProcessSecureCB}
    case NetworkSecurityConfig(_) => {NetworkSecureCB}
    case FileSecurityConfig(_) => {FileSecureCB}
  }

  /** The source manager's answers: `StartPlugin`, `StopPlugin` and
      `SuspendPlugin` succeed or fail as these say. */
  datatype Natives = Natives(
    startPlugin: (PluginType, PluginConfig) -> bool,
    stopPlugin: PluginType -> bool,
    suspendPlugin: PluginType -> bool)

  /** One observable step: a handler-context update or a source-manager call. */
  datatype Action =
    | SetContext(handler: Handler, context: HandlerContext)
    | NativeStart(pluginType: PluginType, config: PluginConfig)
    | NativeStop(pluginType: PluginType)
    | NativeSuspend(pluginType: PluginType)
    | NativeStopAll

  /** The server: whether `Init` has run (and the source manager exists),
      the environment flags, the loaded-pipeline table, the handler
      contexts (a handler not yet created has no entry) and the trace. */
  datatype Server = Server(
    inited: bool,
    env: EnvState,
    pipelines: map<PluginType, string>,
    contexts: map<Handler, HandlerContext>,
    trace: seq<Action>)

  const InitialServer: Server := Server(false, InitialEnv, map[], map[], [])

  /** Result of an operation: the next state and the boolean it returns. */
  datatype Reply = Reply(state: Server, ok: bool)

  /** `CheckLoadedPipelineName`: the owning pipeline, "" when unbound. */
  function LoadedPipeline(s: Server, t: PluginType): (name: string)
    ensures t !in s.pipelines ==> name == ""
    ensures t in s.pipelines ==> name == s.pipelines[t]
  {
    if t in s.pipelines then s.pipelines[t] else ""
  }

  /** `UpdatePipelineName`. */
  function UpdatePipelineName(s: Server, t: PluginType, name: string): (r: Server)
    ensures LoadedPipeline(r, t) == name
    ensures forall u :: u != t ==> LoadedPipeline(r, u) == LoadedPipeline(s, u)
    ensures r.inited == s.inited && r.env == s.env && r.contexts == s.contexts && r.trace == s.trace
  {
    s.(pipelines := s.pipelines[t := name])
  }

  /** The handler contexts a sequence of actions leaves behind. */
  function Replay(c: map<Handler, HandlerContext>, tr: seq<Action>): map<Handler, HandlerContext>
    decreases |tr|
  {
    if |tr| == 0 then c
    else
      var c' := Replay(c, tr[..|tr| - 1]);
      match tr[|tr| - 1]
      case SetContext(h, x) => c'[h := x]
      case _ => c'
  }

  /** The handler contexts in force just before the `i`-th action. */
  ghost function ContextsBefore(tr: seq<Action>, i: nat): map<Handler, HandlerContext>
    requires i <= |tr|
  {
    Replay(map[], tr[..i])
  }

  /** Reachable states: the handler contexts are exactly what the recorded
      `SetContext` actions produce (no context changes unrecorded), and once
      inited, detection has run on a supported architecture and all six
      handlers exist. */
  ghost predicate Valid(s: Server) {
    && s.contexts == Replay(map[], s.trace)
    && (s.inited ==> s.env.inited && s.env.archSupport && forall h: Handler :: h in s.contexts)
  }

  /** `h->UpdateContext(c)`, recorded. */
  function SetCtx(s: Server, h: Handler, c: HandlerContext): (r: Server)
    requires Valid(s)
    ensures Valid(r)
    ensures r.trace == s.trace + [SetContext(h, c)]
    ensures r.contexts == s.contexts[h := c]
    ensures r.inited == s.inited && r.env == s.env && r.pipelines == s.pipelines
  {
    var r := s.(contexts := s.contexts[h := c], trace := s.trace + [SetContext(h, c)]);
    assert r.trace[..|r.trace| - 1] == s.trace;
    r
  }

  /** Records a source-manager call. */
  function Call(s: Server, a: Action): (r: Server)
    requires Valid(s) && !a.SetContext?
    ensures Valid(r)
    ensures r.trace == s.trace + [a]
    ensures r.contexts == s.contexts && r.inited == s.inited && r.env == s.env && r.pipelines == s.pipelines
  {
    var r := s.(trace := s.trace + [a]);
    assert r.trace[..|r.trace| - 1] == s.trace;
    r
  }

  /** The updates installing `c` into `hs`, in order. */
  function SetActions(hs: seq<Handler>, c: HandlerContext): (a: seq<Action>)
    ensures |a| == |hs|
    ensures forall i :: 0 <= i < |hs| ==> a[i] == SetContext(hs[i], c)
  {
    if |hs| == 0 then [] else SetActions(hs[..|hs| - 1], c) + [SetContext(hs[|hs| - 1], c)]
  }

  /** Installs `c` into the handlers `hs`, in order. */
  function SetAll(s: Server, hs: seq<Handler>, c: HandlerContext): (r: Server)
    requires Valid(s)
    ensures Valid(r)
    ensures r.trace == s.trace + SetActions(hs, c)
    ensures forall h :: h in r.contexts <==> h in s.contexts || h in hs
    ensures forall h :: h in hs ==> r.contexts[h] == c
    ensures forall h :: h in s.contexts && h !in hs ==> r.contexts[h] == s.contexts[h]
    ensures r.inited == s.inited && r.env == s.env && r.pipelines == s.pipelines
    decreases |hs|
  {
    if |hs| == 0 then s
    else
      var init, last := hs[..|hs| - 1], hs[|hs| - 1];
      assert hs == init + [last];
      SetCtx(SetAll(s, init, c), last, c)
  }

  /** `UpdateCBContext`: writes `c` into the handlers of `t` (all of them
      exist once the server is inited). */
  function UpdateCBContext(s: Server, t: PluginType, c: HandlerContext): (r: Server)
    requires Valid(s) && s.inited
    ensures Valid(r)
    ensures r.inited == s.inited && r.env == s.env && r.pipelines == s.pipelines
    ensures r.trace == s.trace + SetActions(HandlersOf(t), c)
    ensures forall h :: h in HandlersOf(t) ==> r.contexts[h] == c
    ensures forall h :: h !in HandlersOf(t) ==> r.contexts[h] == s.contexts[h]
  {
    SetAll(s, HandlersOf(t), c)
  }

  /** The configuration `StartPluginInternal` builds for a plugin type. */
  function BuildConfig(t: PluginType, opts: PluginOptions): (cfg: PluginConfig)
    requires t != OtherPlugin && OptionsFit(t, opts)
    ensures t == NetworkObserve ==> cfg == NetworkObserveConfig(opts.enableMetric, opts.enableSpan, opts.enableLog)
    ensures t == ProcessSecurity ==> cfg == ProcessConfig(opts.optionList)
    ensures t == NetworkSecurity ==> cfg == NetworkSecurityConfig(opts.optionList)
    ensures t == FileSecurity ==> cfg == FileSecurityConfig(opts.optionList)
  {
    match t
    case ProcessSecurity => ProcessConfig(opts.optionList)
    case NetworkObserve => NetworkObserveConfig(opts.enableMetric, opts.enableSpan, opts.enableLog)
    case NetworkSecurity => NetworkSecurityConfig(opts.optionList)
    case FileSecurity => FileSecurityConfig(opts.optionList)
  }

  /** The handlers whose context `StartPluginInternal` sets, in source
      order: for network observation, meter, span and event for the
      enabled signals only. */
  function StartHandlers(t: PluginType, opts: PluginOptions): (hs: seq<Handler>)
    requires t != OtherPlugin && OptionsFit(t, opts)
    ensures forall h :: h in hs <==> h in RoutedHandlers(BuildConfig(t, opts))
    ensures forall h :: h in hs ==> h in HandlersOf(t)
  {
    match t
    case ProcessSecurity => [ProcessSecureCB]
    case NetworkObserve =>
      (if opts.enableMetric then [MeterCB] else [])
      + (if opts.enableSpan then [SpanCB] else [])
      + (if opts.enableLog then [EventCB] else [])
    case NetworkSecurity => [NetworkSecureCB]
    case FileSecurity => [FileSecureCB]
  }

  /** A different pipeline already owns `t`. */
  predicate Conflicts(s: Server, t: PluginType, name: string) {
    LoadedPipeline(s, t) != "" && LoadedPipeline(s, t) != name
  }

  /** `StartPluginInternal`. */
  function StartPluginInternal(s: Server, name: string, index: nat, t: PluginType,
                               ctx: PipelineContext, opts: PluginOptions, sm: Natives): (r: Reply)
    requires Valid(s)
    requires Conflicts(s, t, name) || t == OtherPlugin || (s.inited && OptionsFit(t, opts))
    ensures Valid(r.state)
    ensures r.state.inited == s.inited && r.state.env == s.env
    ensures Conflicts(s, t, name) ==> r == Reply(s, false)
    ensures !Conflicts(s, t, name) ==> LoadedPipeline(r.state, t) == name
    ensures forall u :: u != t ==> LoadedPipeline(r.state, u) == LoadedPipeline(s, u)
    ensures !Conflicts(s, t, name) && t == OtherPlugin ==> !r.ok && r.state.trace == s.trace
    ensures !Conflicts(s, t, name) && t != OtherPlugin ==>
      var cfg := BuildConfig(t, opts);
      && r.ok == sm.startPlugin(t, cfg)
      && r.state.trace == s.trace + SetActions(StartHandlers(t, opts), LiveContext(ctx, index)) + [NativeStart(t, cfg)]
      && (forall h :: h in RoutedHandlers(cfg) ==> r.state.contexts[h] == LiveContext(ctx, index))
      && (forall h :: h !in RoutedHandlers(cfg) ==> r.state.contexts[h] == s.contexts[h])
  {
    if Conflicts(s, t, name) then Reply(s, false)
    else
      var s1 := UpdatePipelineName(s, t, name);
      if t == OtherPlugin then Reply(s1, false)
      else
        var cfg := BuildConfig(t, opts);
        var s2 := SetAll(s1, StartHandlers(t, opts), LiveContext(ctx, index));
        Reply(Call(s2, NativeStart(t, cfg)), sm.startPlugin(t, cfg))
  }

  /** `eBPFServer::EnablePlugin`. */
  function EnablePlugin(s: Server, name: string, index: nat, t: PluginType,
                        ctx: PipelineContext, opts: PluginOptions, sm: Natives): (r: Reply)
    requires Valid(s)
    requires IsSupportedEnv(s.env, t) && !Conflicts(s, t, name) ==> s.inited && OptionsFit(t, opts)
    ensures Valid(r.state)
    ensures r.state.inited == s.inited && r.state.env == s.env
    ensures !IsSupportedEnv(s.env, t) ==> r == Reply(s, false)
    ensures Conflicts(s, t, name) ==> r == Reply(s, false)
    ensures forall u :: u != t ==> LoadedPipeline(r.state, u) == LoadedPipeline(s, u)
    ensures IsSupportedEnv(s.env, t) && !Conflicts(s, t, name) ==>
      var cfg := BuildConfig(t, opts);
      && LoadedPipeline(r.state, t) == name
      && r.ok == sm.startPlugin(t, cfg)
      && r.state.trace == s.trace + SetActions(StartHandlers(t, opts), LiveContext(ctx, index)) + [NativeStart(t, cfg)]
      && (forall h :: h in RoutedHandlers(cfg) ==> r.state.contexts[h] == LiveContext(ctx, index))
      && (forall h :: h !in RoutedHandlers(cfg) ==> r.state.contexts[h] == s.contexts[h])
  {
    if !IsSupportedEnv(s.env, t) then Reply(s, false)
    else StartPluginInternal(s, name, index, t, ctx, opts, sm)
  }

  /** `eBPFServer::DisablePlugin`. */
  function DisablePlugin(s: Server, name: string, t: PluginType, sm: Natives): (r: Reply)
    requires Valid(s)
    requires IsSupportedEnv(s.env, t) && LoadedPipeline(s, t) == name ==> s.inited
    ensures Valid(r.state)
    ensures r.state.inited == s.inited && r.state.env == s.env
    ensures !IsSupportedEnv(s.env, t) || LoadedPipeline(s, t) != name ==> r == Reply(s, true)
    ensures forall u :: u != t ==> LoadedPipeline(r.state, u) == LoadedPipeline(s, u)
    ensures IsSupportedEnv(s.env, t) && LoadedPipeline(s, t) == name ==>
      && LoadedPipeline(r.state, t) == ""
      && r.ok == sm.stopPlugin(t)
      && r.state.trace == s.trace + [NativeStop(t)] + (if r.ok then SetActions(HandlersOf(t), ClearedContext) else [])
      && (r.ok ==> forall h :: h in HandlersOf(t) ==> h in r.state.contexts && r.state.contexts[h] == ClearedContext)
      && (r.ok ==> forall h :: h in s.contexts && h !in HandlersOf(t) ==> h in r.state.contexts && r.state.contexts[h] == s.contexts[h])
      && (!r.ok ==> r.state.contexts == s.contexts)
  {
    if !IsSupportedEnv(s.env, t) || LoadedPipeline(s, t) != name then Reply(s, true)
    else StopAndDetach(s, t, sm)
  }

  /** The matching branch of `DisablePlugin`: empty the table entry, stop
      the probe, and detach the handlers only if that succeeded. */
  function StopAndDetach(s: Server, t: PluginType, sm: Natives): (r: Reply)
    requires Valid(s) && s.inited
    ensures Valid(r.state)
    ensures r.state.inited == s.inited && r.state.env == s.env
    ensures LoadedPipeline(r.state, t) == ""
    ensures forall u :: u != t ==> LoadedPipeline(r.state, u) == LoadedPipeline(s, u)
    ensures r.ok == sm.stopPlugin(t)
    ensures r.state.trace == s.trace + [NativeStop(t)] + (if r.ok then SetActions(HandlersOf(t), ClearedContext) else [])
    ensures r.ok ==> forall h :: h in HandlersOf(t) ==> h in r.state.contexts && r.state.contexts[h] == ClearedContext
    ensures r.ok ==> forall h :: h in s.contexts && h !in HandlersOf(t) ==> h in r.state.contexts && r.state.contexts[h] == s.contexts[h]
    ensures !r.ok ==> r.state.contexts == s.contexts
  {
    var s0 := UpdatePipelineName(s, t, "");
    assert Valid(s0);
    var s1 := Call(s0, NativeStop(t));
    if sm.stopPlugin(t) then Reply(UpdateCBContext(s1, t, ClearedContext), true) else Reply(s1, false)
  }

  /** `eBPFServer::SuspendPlugin`: never touches the pipeline table, and
      does not look at the pipeline name. */
  function SuspendPlugin(s: Server, name: string, t: PluginType, sm: Natives): (r: Reply)
    requires Valid(s)
    requires IsSupportedEnv(s.env, t) ==> s.inited
    ensures Valid(r.state)
    ensures r.state.inited == s.inited && r.state.env == s.env && r.state.pipelines == s.pipelines
    ensures !IsSupportedEnv(s.env, t) ==> r == Reply(s, false)
    ensures IsSupportedEnv(s.env, t) ==>
      && r.ok == sm.suspendPlugin(t)
      && r.state.trace == s.trace + [NativeSuspend(t)] + (if r.ok then SetActions(HandlersOf(t), ClearedContext) else [])
      && (r.ok ==> forall h :: h in HandlersOf(t) ==> h in r.state.contexts && r.state.contexts[h] == ClearedContext)
      && (r.ok ==> forall h :: h in s.contexts && h !in HandlersOf(t) ==> h in r.state.contexts && r.state.contexts[h] == s.contexts[h])
      && (!r.ok ==> r.state.contexts == s.contexts)
  {
    if !IsSupportedEnv(s.env, t) then Reply(s, false)
    else
      var s1 := Call(s, NativeSuspend(t));
      var ok := sm.suspendPlugin(t);
      if ok then Reply(UpdateCBContext(s1, t, ClearedContext), true) else Reply(s1, false)
  }

  /** `eBPFServer::HasRegisteredPlugins`. */
  function HasRegisteredPlugins(s: Server): (r: bool)
    ensures r <==> exists t :: LoadedPipeline(s, t) != ""
  {
    exists t :: t in s.pipelines && LoadedPipeline(s, t) != ""
  }

  /** `eBPFServer::Init`: runs detection; on a supported architecture marks
      the server inited and creates the six handlers. */
  function Init(s: Server, h: HostInfo): (r: Server)
    requires Valid(s)
    ensures Valid(r)
    ensures s.inited ==> r == s
    ensures !s.inited ==> r.env == InitEnvInfo(s.env, h) && r.pipelines == s.pipelines
    ensures !s.inited ==> (r.inited <==> r.env.archSupport)
    ensures !s.inited && r.inited ==> forall hd: Handler :: r.contexts[hd] == CreatedContext
  {
    if s.inited then s
    else
      var env := InitEnvInfo(s.env, h);
      if !AbleToLoadDyLib(env) then s.(env := env)
      else
        AllHandlersComplete();
        SetAll(s, AllHandlers, CreatedContext).(inited := true, env := env)
  }

  /** `eBPFServer::Stop`: stops every probe, then empties the table, then
      clears the six contexts. */
  function Stop(s: Server): (r: Server)
    requires Valid(s)
    ensures Valid(r)
    ensures !s.inited ==> r == s
    ensures s.inited ==>
      && !r.inited && r.env == s.env
      && !HasRegisteredPlugins(r)
      && r.trace == s.trace + [NativeStopAll] + SetActions(AllHandlers, ClearedContext)
      && (forall hd: Handler :: hd in r.contexts && r.contexts[hd] == ClearedContext)
  {
    if !s.inited then s
    else
      AllHandlersComplete();
      var s1 := Call(s, NativeStopAll).(inited := false, pipelines := map t | t in s.pipelines :: "");
      SetAll(s1, AllHandlers, ClearedContext)
  }
}
