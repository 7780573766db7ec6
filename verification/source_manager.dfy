/** The dynamic-library loader `source_manager` (core/ebpf/SourceManager.h),
    over an abstract loader: `dlopen`, `dlsym` and `dladdr` answer from a
    fake image, and the calls the loader makes into the library are
    recorded. Library handles are numbered in the order they are opened. */
module SourceManager {
  import opened Wrappers
  import opened Strings

  /** A shared object as the dynamic loader sees it: whether `dlopen`
      succeeds, the address of each exported symbol, the image base that
      `dladdr` reports, and the symbols whose address `dladdr` cannot
      describe. */
  datatype Image = Image(opens: bool, symbols: map<string, int>, base: int, noAddrInfo: set<string>)

  /** The path written into the init parameter. */
  const SoPath: string := "/usr/local/ilogtail/libsockettrace.so"
  /** The path fragment that selects the network-trace initialisation. */
  const SocketTraceMarker: string := "sockettrace.so"

  const InitSymbol: string := "init"
  const CallSymbol: string := "call"
  const DeinitSymbol: string := "deinit"
  const CleanupDogSymbol: string := "ebpf_cleanup_dog"
  const UpdateConnAddrSymbol: string := "ebpf_update_conn_addr"
  const DisableProcessSymbol: string := "ebpf_disable_process"
  const UpdateConnRoleSymbol: string := "ebpf_update_conn_role"

  /** `init_param_t`. The BTF blob and its size are never assigned
      (`btfSize` stays `None`); an offset is `None` when it was left
      unassigned. */
  datatype InitParam = InitParam(
    btf: string,
    btfSize: Option<int>,
    so: string,
    soSize: int,
    uprobeOffset: Option<int>,
    upcaOffset: Option<int>,
    uppsOffset: Option<int>,
    upcrOffset: Option<int>)

  /** A call the loader makes: into the library, or `dlclose` of a handle. */
  datatype NativeCall =
    | InitCall(param: Option<InitParam>)
    | DeinitCall(owner: nat)
    | Dlclose(handle: nat)

  /** The loader object: its handle (`None` is null), the handle each
      function pointer was resolved from, how many handles have been
      opened so far, and the calls made. */
  datatype Loader = Loader(
    handle: Option<nat>,
    initFn: Option<nat>,
    callFn: Option<nat>,
    deinitFn: Option<nat>,
    openCount: nat,
    calls: seq<NativeCall>)

  /** The constructor: everything null. */
  const NewLoader: Loader := Loader(None, None, None, None, 0, [])

  /** `dlsym(handle, name)`: which handle the resolved pointer belongs to. */
  function Resolve(img: Image, h: nat, name: string): (p: Option<nat>)
    ensures p.Some? <==> name in img.symbols
    ensures p.Some? ==> p.value == h
  {
    if name in img.symbols then Some(h) else None
  }

  /** One offset: `dlsym` then `dladdr`; when both succeed the offset is
      the symbol address minus the image base, otherwise it stays
      unassigned. */
  function SymbolOffset(img: Image, name: string): (off: Option<int>)
    ensures off.Some? <==> name in img.symbols && name !in img.noAddrInfo
    ensures off.Some? ==> off.value + img.base == img.symbols[name]
  {
    if name in img.symbols && name !in img.noAddrInfo then Some(img.symbols[name] - img.base) else None
  }

  /** The init parameter of the network-trace probe. */
  function BuildInitParam(img: Image): (p: InitParam)
    ensures p.so == SoPath && p.soSize == |SoPath| && p.btfSize.None?
    ensures p.uprobeOffset == SymbolOffset(img, CleanupDogSymbol)
    ensures p.upcaOffset == SymbolOffset(img, UpdateConnAddrSymbol)
    ensures p.uppsOffset == SymbolOffset(img, DisableProcessSymbol)
    ensures p.upcrOffset == SymbolOffset(img, UpdateConnRoleSymbol)
  {
    InitParam("", None, SoPath, |SoPath|,
              SymbolOffset(img, CleanupDogSymbol), SymbolOffset(img, UpdateConnAddrSymbol),
              SymbolOffset(img, DisableProcessSymbol), SymbolOffset(img, UpdateConnRoleSymbol))
  }

  /** What `init` receives for a library path: a parameter exactly when the
      path contains "sockettrace.so", null otherwise. */
  function InitParamFor(libPath: string, img: Image): (p: Option<InitParam>)
    ensures p.Some? <==> exists j :: 0 <= j <= |libPath| && OccursAt(libPath, SocketTraceMarker, j)
    ensures p.Some? ==> p.value == BuildInitParam(img)
  {
    ContainsIffOccurs(libPath, SocketTraceMarker);
    if Contains(libPath, SocketTraceMarker) then Some(BuildInitParam(img)) else None
  }

  /** The three required entry points all resolve. */
  predicate HasEntryPoints(img: Image) {
    InitSymbol in img.symbols && CallSymbol in img.symbols && DeinitSymbol in img.symbols
  }

  datatype InitResult = InitResult(loader: Loader, ok: bool)

  /** `source_manager::initPlugin`, as written: the handle is not reset to
      null after the `dlclose` of the failure path. */
  function InitPlugin(ld: Loader, libPath: string, img: Image): (r: InitResult)
    ensures r.loader.openCount == ld.openCount + (if img.opens then 1 else 0)
    ensures !img.opens ==>
      && !r.ok && r.loader.handle.None? && r.loader.calls == ld.calls
      && r.loader.initFn == ld.initFn && r.loader.callFn == ld.callFn && r.loader.deinitFn == ld.deinitFn
    ensures img.opens && !HasEntryPoints(img) ==>
      && !r.ok && r.loader.handle == Some(ld.openCount)
      && r.loader.calls == ld.calls + [Dlclose(ld.openCount)]
    ensures img.opens && HasEntryPoints(img) ==>
      && r.ok && r.loader.handle == Some(ld.openCount)
      && r.loader.initFn == r.loader.callFn == r.loader.deinitFn == Some(ld.openCount)
      && r.loader.calls == ld.calls + [InitCall(InitParamFor(libPath, img))]
  {
    if !img.opens then InitResult(ld.(handle := None), false)
    else
      var h := ld.openCount;
      var ld1 := ld.(handle := Some(h), openCount := h + 1,
                     initFn := Resolve(img, h, InitSymbol),
                     callFn := Resolve(img, h, CallSymbol),
                     deinitFn := Resolve(img, h, DeinitSymbol));
      if ld1.initFn.None? || ld1.callFn.None? || ld1.deinitFn.None? then
        InitResult(ld1.(calls := ld.calls + [Dlclose(h)]), false)
      else
        InitResult(ld1.(calls := ld.calls + [InitCall(InitParamFor(libPath, img))]), true)
  }

  /** `source_manager::clearPlugin`, as written: deinit (if resolved), then
      `dlclose`, and the handle keeps its value. The destructor runs this. */
  function ClearPlugin(ld: Loader): (r: Loader)
    ensures ld.handle.None? ==> r == ld
    ensures ld.handle.Some? ==>
      && r.calls == ld.calls
         + (if ld.deinitFn.Some? then [DeinitCall(ld.deinitFn.value)] else [])
         + [Dlclose(ld.handle.value)]
      && r.handle == ld.handle
  {
    match ld.handle
    case None => ld
    case Some(h) =>
      var deinit := if ld.deinitFn.Some? then [DeinitCall(ld.deinitFn.value)] else [];
      ld.(calls := ld.calls + deinit + [Dlclose(h)])
  }

  /** No handle is closed twice, and no library's `deinit` runs after its
      handle was closed. */
  ghost predicate SafeCalls(calls: seq<NativeCall>) {
    forall i, j :: 0 <= i < j < |calls| && calls[i].Dlclose? ==>
      calls[j] != Dlclose(calls[i].handle) && calls[j] != DeinitCall(calls[i].handle)
  }

  /** Destroying the loader after a failed symbol resolution closes the
      handle a second time; when `deinit` resolved but `init` did not,
      it also calls into the already closed library. */
  lemma {:induction false} FailedInitThenDestroyIsUnsafe(path: string, base: int, addr: int)
    ensures var img := Image(true, map[DeinitSymbol := addr], base, {});
      var r := InitPlugin(NewLoader, path, img);
      var d := ClearPlugin(r.loader);
      && !r.ok
      && d.calls == [Dlclose(0), DeinitCall(0), Dlclose(0)]
      && !SafeCalls(d.calls)
  {
    var img := Image(true, map[DeinitSymbol := addr], base, {});
    var r := InitPlugin(NewLoader, path, img);
    assert InitSymbol !in img.symbols;
    var d := ClearPlugin(r.loader);
    assert d.calls[0] == Dlclose(0) && d.calls[2] == Dlclose(0);
  }

  /** A successful start, an explicit `clearPlugin` and then the destructor
      close the same handle twice. */
  lemma ClearThenDestroyIsUnsafe(path: string, img: Image)
    requires img.opens && HasEntryPoints(img)
    ensures var r := InitPlugin(NewLoader, path, img);
      var d := ClearPlugin(ClearPlugin(r.loader));
      r.ok && !SafeCalls(d.calls)
  {
    var r := InitPlugin(NewLoader, path, img);
    var c1 := ClearPlugin(r.loader);
    var d := ClearPlugin(c1);
    assert d.calls[2] == Dlclose(0) && d.calls[4] == Dlclose(0);
  }

  /** The loader with a closed handle forgotten. */
  function ForgetHandle(ld: Loader): (r: Loader)
    ensures r.handle.None? && r.initFn.None? && r.callFn.None? && r.deinitFn.None?
    ensures r.calls == ld.calls && r.openCount == ld.openCount
  {
    ld.(handle := None, initFn := None, callFn := None, deinitFn := None)
  }

  /** `initPlugin` with the handle and pointers reset after the `dlclose`
      of the failure path. */
  function InitPluginSafe(ld: Loader, libPath: string, img: Image): (r: InitResult)
    ensures r.ok == InitPlugin(ld, libPath, img).ok
    ensures r.loader.calls == InitPlugin(ld, libPath, img).loader.calls
    ensures !r.ok ==> r.loader.handle.None?
  {
    var r := InitPlugin(ld, libPath, img);
    if r.ok || !img.opens then r else InitResult(ForgetHandle(r.loader), false)
  }

  /** `clearPlugin` with the handle and pointers reset after `dlclose`. */
  function ClearPluginSafe(ld: Loader): (r: Loader)
    ensures r.calls == ClearPlugin(ld).calls
    ensures r.handle.None?
  {
    if ld.handle.None? then ld.(initFn := None, callFn := None, deinitFn := None)
    else ForgetHandle(ClearPlugin(ld))
  }

  /** The corrected loader's invariant: the live handle (if any) is the
      last one opened, its pointers all belong to it, and it was never
      closed; every recorded call names an opened handle. */
  ghost predicate SafeState(ld: Loader) {
    && SafeCalls(ld.calls)
    && (forall i :: 0 <= i < |ld.calls| && ld.calls[i].Dlclose? ==> ld.calls[i].handle < ld.openCount)
    && (ld.handle.None? ==> ld.deinitFn.None?)
    && (ld.handle.Some? ==>
          && ld.handle.value < ld.openCount
          && ld.deinitFn == ld.handle
          && Dlclose(ld.handle.value) !in ld.calls)
  }

  /** A loader lifecycle step: a start or a teardown. */
  datatype Op = Start(path: string, img: Image) | Clear

  function Step(ld: Loader, op: Op): Loader {
    match op
    case Start(p, img) => InitPluginSafe(ld, p, img).loader
    case Clear => ClearPluginSafe(ld)
  }

  function Run(ld: Loader, ops: seq<Op>): Loader
    decreases |ops|
  {
    if |ops| == 0 then ld else Run(Step(ld, ops[0]), ops[1..])
  }

  lemma StepSafe(ld: Loader, op: Op)
    requires SafeState(ld) && (op.Start? ==> ld.handle.None?)
    ensures SafeState(Step(ld, op))
  {
    var r := Step(ld, op);
    match op
    case Start(p, img) =>
      if img.opens {
        assert forall i :: 0 <= i < |ld.calls| && ld.calls[i].Dlclose? ==> ld.calls[i] != Dlclose(ld.openCount);
        var extra := r.calls[|ld.calls|..];
        assert r.calls == ld.calls + extra;
      }
    case Clear =>
      if ld.handle.Some? {
        var h := ld.handle.value;
        assert ld.deinitFn == Some(h);
        assert r.calls == ld.calls + [DeinitCall(h), Dlclose(h)];
      }
  }

  /** Running a prefix of the operations is running the first one and
      then a prefix of the rest. */
  lemma RunPrefix(ld: Loader, ops: seq<Op>, i: nat)
    requires 0 < i <= |ops|
    ensures Run(ld, ops[..i]) == Run(Step(ld, ops[0]), ops[1..][..i - 1])
  {
    assert ops[..i][0] == ops[0];
    assert ops[..i][1..] == ops[1..][..i - 1];
  }

  /** With the corrected teardown, any lifecycle in which every start
      happens on an empty loader (a fresh one, one just cleared, or one
      whose previous start failed) never closes a handle twice and never
      calls `deinit` after `dlclose`. */
  lemma {:induction false} SafeLifecycle(ld: Loader, ops: seq<Op>)
    requires SafeState(ld)
    requires forall i :: 0 <= i < |ops| && ops[i].Start? ==> Run(ld, ops[..i]).handle.None?
    ensures SafeCalls(Run(ld, ops).calls)
    decreases |ops|
  {
    if |ops| > 0 {
      assert ops[..0] == [];
      StepSafe(ld, ops[0]);
      var next := Step(ld, ops[0]);
      forall i | 0 <= i < |ops| - 1 && ops[1..][i].Start?
        ensures Run(next, ops[1..][..i]).handle.None?
      {
        RunPrefix(ld, ops, i + 1);
      }
      SafeLifecycle(next, ops[1..]);
    }
  }

  /** A start that fails leaves the corrected loader empty, so retrying it
      is a start on an empty loader. */
  lemma RetryAfterFailedStartIsSafe(p: string, bad: Image, good: Image)
    requires !InitPluginSafe(NewLoader, p, bad).ok
    ensures SafeCalls(Run(NewLoader, [Start(p, bad), Start(p, good)]).calls)
  {
    var ops := [Start(p, bad), Start(p, good)];
    NewLoaderSafe();
    RunPrefix(NewLoader, ops, 1);
    assert ops[1..][..0] == [];
    SafeLifecycle(NewLoader, ops);
  }

  lemma NewLoaderSafe()
    ensures SafeState(NewLoader)
  {
  }

  /** The library the security server loads. */
  const SecureProbePath: string := "/usr/local/ilogtail/libsockettrace_secure.so"

  lemma SecureProbePathLacksMarker()
    ensures forall j :: 0 <= j <= |SecureProbePath| ==> !OccursAt(SecureProbePath, SocketTraceMarker, j)
  {
    var q, m := SecureProbePath, SocketTraceMarker;
    var stem := "/usr/local/ilogtail/libsockettrace_secure";
    assert |q| == 44 && |m| == 14 && m[0] == 's' && m[11] == '.';
    assert q[..41] == stem;
    assert '.' !in stem;
    assert q[30] == 'r';
    forall j | 0 <= j <= |q| ensures !OccursAt(q, m, j) {
      if j + 14 <= 44 {
        var w := q[j..j + 14];
        if j + 11 < 41 {
          assert w[11] == q[j + 11] == stem[j + 11];
          assert w[11] != m[11];
        } else {
          assert j == 30;
          assert w[0] == q[30];
          assert w[0] != m[0];
        }
      }
    }
  }

  /** The network-trace library gets an init parameter; the secure probe
      library, whose name merely contains "sockettrace", gets null. */
  lemma InitParamByPath(img: Image)
    ensures InitParamFor(SoPath, img) == Some(BuildInitParam(img))
    ensures InitParamFor(SecureProbePath, img).None?
  {
    assert OccursAt(SoPath, SocketTraceMarker, 23);
    SecureProbePathLacksMarker();
  }
}
