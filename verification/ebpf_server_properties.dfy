/** Properties of the orchestrator that relate several operations, or
    that read the recorded trace. */
module EbpfServerProperties {
  import opened Wrappers
  import opened EnvManager
  import opened EbpfServer

  /** Set before start: when `EnablePlugin` calls the native start, every
      handler the started configuration reports to already holds the
      caller's context, queue key and plugin index. */
  lemma ContextsLiveAtStart(s: Server, name: string, index: nat, t: PluginType,
                            ctx: PipelineContext, opts: PluginOptions, sm: Natives)
    requires Valid(s) && s.inited && IsSupportedEnv(s.env, t) && OptionsFit(t, opts)
    requires !Conflicts(s, t, name)
    ensures var r := EnablePlugin(s, name, index, t, ctx, opts, sm).state;
      var at := |r.trace| - 1;
      && r.trace[at] == NativeStart(t, BuildConfig(t, opts))
      && forall h :: h in RoutedHandlers(BuildConfig(t, opts)) ==>
           h in ContextsBefore(r.trace, at) && ContextsBefore(r.trace, at)[h] == LiveContext(ctx, index)
  {
    var r := EnablePlugin(s, name, index, t, ctx, opts, sm).state;
    var at := |r.trace| - 1;
    assert r.trace[..|r.trace|] == r.trace;
    assert ContextsBefore(r.trace, at) == Replay(map[], r.trace);
  }

  /** Clear after stop: when `DisablePlugin` calls the native stop, the
      handlers still hold the contexts they had before the call; clearing
      happens only in the actions that follow. */
  lemma ContextsIntactAtStop(s: Server, name: string, t: PluginType, sm: Natives)
    requires Valid(s) && s.inited && IsSupportedEnv(s.env, t) && LoadedPipeline(s, t) == name
    ensures var r := DisablePlugin(s, name, t, sm).state;
      && r.trace[|s.trace|] == NativeStop(t)
      && ContextsBefore(r.trace, |s.trace|) == s.contexts
      && forall i :: |s.trace| < i < |r.trace| ==> r.trace[i].SetContext? && r.trace[i].context == ClearedContext
  {
    var d := DisablePlugin(s, name, t, sm);
    StopTraceShape(s.trace, t, d.ok, d.state.trace);
  }

  /** The trace of a stop: the old actions, the native stop, then only
      clearing actions. */
  lemma StopTraceShape(pre: seq<Action>, t: PluginType, ok: bool, tr: seq<Action>)
    requires tr == pre + [NativeStop(t)] + (if ok then SetActions(HandlersOf(t), ClearedContext) else [])
    ensures tr[..|pre|] == pre && tr[|pre|] == NativeStop(t)
    ensures forall i :: |pre| < i < |tr| ==> tr[i].SetContext? && tr[i].context == ClearedContext
  {
    var tail := if ok then SetActions(HandlersOf(t), ClearedContext) else [];
    assert tr[..|pre|] == pre;
    forall i | |pre| < i < |tr|
      ensures tr[i].SetContext? && tr[i].context == ClearedContext
    {
      assert tr[i] == tail[i - |pre| - 1];
    }
  }

  /** Exclusivity: once pipeline `a` has enabled a plugin type (whether or
      not the native start succeeded), an enable from another pipeline `b`
      fails and `a` keeps the binding. */
  lemma EnableIsExclusive(s: Server, a: string, b: string, ia: nat, ib: nat, t: PluginType,
                          ca: PipelineContext, cb: PipelineContext, oa: PluginOptions, ob: PluginOptions, sm: Natives)
    requires Valid(s) && s.inited && IsSupportedEnv(s.env, t) && OptionsFit(t, oa)
    requires a != "" && a != b && !Conflicts(s, t, a)
    ensures var r1 := EnablePlugin(s, a, ia, t, ca, oa, sm);
      var r2 := EnablePlugin(r1.state, b, ib, t, cb, ob, sm);
      && LoadedPipeline(r1.state, t) == a
      && !r2.ok && r2.state == r1.state
  {
    var r1 := EnablePlugin(s, a, ia, t, ca, oa, sm);
    assert Conflicts(r1.state, t, b);
  }

  /** Enabling again from the owning pipeline is allowed: the binding is
      kept and the start is attempted anew. */
  lemma EnableAgainSamePipeline(s: Server, a: string, i1: nat, i2: nat, t: PluginType,
                                c1: PipelineContext, c2: PipelineContext, o1: PluginOptions, o2: PluginOptions, sm: Natives)
    requires Valid(s) && s.inited && IsSupportedEnv(s.env, t) && OptionsFit(t, o1) && OptionsFit(t, o2)
    requires !Conflicts(s, t, a)
    ensures var r1 := EnablePlugin(s, a, i1, t, c1, o1, sm);
      var r2 := EnablePlugin(r1.state, a, i2, t, c2, o2, sm);
      && LoadedPipeline(r2.state, t) == a
      && r2.ok == sm.startPlugin(t, BuildConfig(t, o2))
  {
    var r1 := EnablePlugin(s, a, i1, t, c1, o1, sm);
    assert !Conflicts(r1.state, t, a);
  }

  /** Disable followed by enable from the same pipeline rebinds it, and the
      handlers the new start reports to hold the new context, not a stale
      one from before the disable. */
  lemma DisableThenEnableIsFresh(s: Server, name: string, index: nat, t: PluginType,
                                 ctx: PipelineContext, opts: PluginOptions, sm: Natives)
    requires Valid(s) && s.inited && IsSupportedEnv(s.env, t) && OptionsFit(t, opts)
    requires LoadedPipeline(s, t) == name
    ensures var d := DisablePlugin(s, name, t, sm);
      var e := EnablePlugin(d.state, name, index, t, ctx, opts, sm);
      && LoadedPipeline(d.state, t) == ""
      && LoadedPipeline(e.state, t) == name
      && e.ok == sm.startPlugin(t, BuildConfig(t, opts))
      && forall h :: h in RoutedHandlers(BuildConfig(t, opts)) ==> e.state.contexts[h] == LiveContext(ctx, index)
  {
    var d := DisablePlugin(s, name, t, sm);
    assert !Conflicts(d.state, t, name);
  }

  /** A successful disable by the owner leaves the type unbound, so a
      different pipeline can take it over. */
  lemma DisableReleasesType(s: Server, a: string, b: string, index: nat, t: PluginType,
                            ctx: PipelineContext, opts: PluginOptions, sm: Natives)
    requires Valid(s) && s.inited && IsSupportedEnv(s.env, t) && OptionsFit(t, opts)
    requires LoadedPipeline(s, t) == a
    ensures var d := DisablePlugin(s, a, t, sm);
      var e := EnablePlugin(d.state, b, index, t, ctx, opts, sm);
      LoadedPipeline(e.state, t) == b
  {
    var d := DisablePlugin(s, a, t, sm);
    assert LoadedPipeline(d.state, t) == "";
  }

  /** A disable from a pipeline that does not own the type is ignored and
      reported as success. */
  lemma StaleDisableIgnored(s: Server, a: string, b: string, t: PluginType, sm: Natives)
    requires Valid(s) && LoadedPipeline(s, t) == a && a != b
    ensures DisablePlugin(s, b, t, sm) == Reply(s, true)
  {
  }

  /** Enabling from a named pipeline registers it; `Stop` unregisters
      everything. */
  lemma EnableRegistersStopUnregisters(s: Server, name: string, index: nat, t: PluginType,
                                       ctx: PipelineContext, opts: PluginOptions, sm: Natives)
    requires Valid(s) && s.inited && IsSupportedEnv(s.env, t) && OptionsFit(t, opts)
    requires name != "" && !Conflicts(s, t, name)
    ensures var r := EnablePlugin(s, name, index, t, ctx, opts, sm).state;
      HasRegisteredPlugins(r) && !HasRegisteredPlugins(Stop(r))
  {
    var r := EnablePlugin(s, name, index, t, ctx, opts, sm).state;
    assert LoadedPipeline(r, t) != "";
  }

  /** Before the server is initialised no plugin can be enabled and nothing
      changes. */
  lemma NothingBeforeInit(name: string, index: nat, t: PluginType,
                          ctx: PipelineContext, opts: PluginOptions, sm: Natives)
    ensures EnablePlugin(InitialServer, name, index, t, ctx, opts, sm) == Reply(InitialServer, false)
  {
  }

  /** Suspend on a type the environment does not support reports failure,
      while disable on it reports success. */
  lemma UnsupportedSuspendFailsDisableSucceeds(s: Server, name: string, t: PluginType, sm: Natives)
    requires Valid(s) && !IsSupportedEnv(s.env, t)
    ensures !SuspendPlugin(s, name, t, sm).ok
    ensures DisablePlugin(s, name, t, sm).ok
  {
  }
}
