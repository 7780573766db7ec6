/** The environment gate of the eBPF server (`EnvManager` in
    core/ebpf/eBPFServer.cpp): capability flags detected once per process
    and the per-plugin-type support decision derived from them. */
module EnvManager {
  import opened Wrappers

  /** `nami::PluginType`; `OtherPlugin` stands for any value of the
      enumeration outside the four probe kinds. */
  datatype PluginType = NetworkObserve | ProcessSecurity | NetworkSecurity | FileSecurity | OtherPlugin

  predicate IsSecurityType(t: PluginType) {
    t == ProcessSecurity || t == NetworkSecurity || t == FileSecurity
  }

  /** Default of the `kernel_min_version_for_ebpf` flag: kernel 4.19.0.0. */
  const KernelMinVersionForEbpf: int := 4019000000
  /** Major and minor of kernel 3.10, the CentOS 7 kernel. */
  const KernelVersion310: int := 3010
  const KernelNameCentos: string := "CentOS"
  /** CentOS 7.6. */
  const KernelCentosMinVersion: int := 7006
  const Million: int := 1000000

  /** Kernel versions are encoded three decimal digits per component:
      a.b.c.d becomes a*10^9 + b*10^6 + c*10^3 + d. */
  function EncodeKernelVersion(major: nat, minor: nat, patch: nat, build: nat): int {
    major * 1000000000 + minor * Million + patch * 1000 + build
  }

  /** Release versions are encoded as major*1000 + minor (7.6 becomes 7006). */
  function EncodeOsVersion(major: nat, minor: nat): int {
    major * 1000 + minor
  }

  /** The constants are the encodings of the versions they are named after. */
  lemma ConstantsAreEncodings()
    ensures EncodeKernelVersion(4, 19, 0, 0) == KernelMinVersionForEbpf
    ensures EncodeOsVersion(3, 10) == KernelVersion310
    ensures EncodeOsVersion(7, 6) == KernelCentosMinVersion
  {
  }

  /** C++ `int64_t` division, which truncates toward zero (Dafny's `/` is
      Euclidean). */
  function TruncDiv(a: int, b: int): (q: int)
    requires b > 0
    ensures a >= 0 ==> q * b <= a < q * b + b
    ensures a < 0 ==> q * b - b < a <= q * b
  {
    if a >= 0 then a / b else -((-a) / b)
  }

  /** Dividing an encoded kernel version by 10^6 leaves major*1000 + minor. */
  lemma MajorMinorOfEncoded(major: nat, minor: nat, patch: nat, build: nat)
    requires minor < 1000 && patch < 1000 && build < 1000
    ensures TruncDiv(EncodeKernelVersion(major, minor, patch, build), Million) == EncodeOsVersion(major, minor)
  {
    var v := EncodeKernelVersion(major, minor, patch, build);
    var q := EncodeOsVersion(major, minor);
    var rest := patch * 1000 + build;
    assert v == q * Million + rest;
    assert 0 <= rest < Million;
    var d := TruncDiv(v, Million);
    assert d * Million <= v < d * Million + Million;
  }

  /** The legacy-kernel branch is taken exactly for kernels 3.10.x.y. */
  lemma Is310Encoded(major: nat, minor: nat, patch: nat, build: nat)
    requires minor < 1000 && patch < 1000 && build < 1000
    ensures TruncDiv(EncodeKernelVersion(major, minor, patch, build), Million) == KernelVersion310
            <==> major == 3 && minor == 10
  {
    MajorMinorOfEncoded(major, minor, patch, build);
  }

  /** What `GetRedHatReleaseInfo` reports: the OS name and its encoded version. */
  datatype RedHatRelease = RedHatRelease(os: string, osVersion: int)

  /** Everything detection reads from the host: whether the build targets
      x86-64 (the compile-time architecture switch), the kernel release
      string and encoded version (`GetKernelInfo`), the value of the
      `kernel_min_version_for_ebpf` flag, and the two RedHat-release
      lookups, under the container host path and under the default path
      (`None` when a lookup fails). */
  datatype HostInfo = HostInfo(
    archSupported: bool,
    release: string,
    kernelVersion: int,
    minVersion: int,
    hostPathRelease: Option<RedHatRelease>,
    defaultRelease: Option<RedHatRelease>)

  /** The host with the flag at its default. */
  predicate DefaultFlags(h: HostInfo) {
    h.minVersion == KernelMinVersionForEbpf
  }

  /** The lookups are tried in order and the first that succeeds is used. */
  function FirstRelease(h: HostInfo): (r: Option<RedHatRelease>)
    ensures r.None? <==> h.hostPathRelease.None? && h.defaultRelease.None?
    ensures h.hostPathRelease.Some? ==> r == h.hostPathRelease
  {
    if h.hostPathRelease.Some? then h.hostPathRelease else h.defaultRelease
  }

  /** The capability flags; `inited` records that detection has run. */
  datatype EnvState = EnvState(inited: bool, archSupport: bool, btfSupport: bool, support310: bool)

  const InitialEnv: EnvState := EnvState(false, false, false, false)

  /** Reference description of the kernel capabilities of a host, in its
      own terms: a non-empty release at least the minimum version has BTF;
      otherwise a 3.10 kernel qualifies on CentOS 7.6 or later, as reported
      by the first release lookup that succeeds. */
  predicate HostHasBtf(h: HostInfo) {
    h.release != "" && h.kernelVersion >= h.minVersion
  }

  predicate HostIsLegacyCentos(h: HostInfo) {
    && h.release != ""
    && h.kernelVersion < h.minVersion
    && TruncDiv(h.kernelVersion, Million) == KernelVersion310
    && match FirstRelease(h)
       case None => false
       case Some(rel) => rel.os == KernelNameCentos && rel.osVersion >= KernelCentosMinVersion
  }

  /** `EnvManager::InitEnvInfo`: detection runs its body only once; a flag
      the run does not assign keeps its previous value. */
  function InitEnvInfo(e: EnvState, h: HostInfo): (r: EnvState)
    ensures e.inited ==> r == e
    ensures !e.inited ==> r.inited && r.archSupport == h.archSupported
    ensures !e.inited && !h.archSupported ==> r.btfSupport == e.btfSupport
    ensures !e.inited && h.archSupported && h.release == "" ==> !r.btfSupport
    ensures !e.inited && h.archSupported && HostHasBtf(h) ==> r.btfSupport
    ensures !e.inited && h.archSupported && h.release != "" && !HostHasBtf(h) ==> r.btfSupport == e.btfSupport
    ensures !e.inited && h.archSupported && h.release != "" && !HostHasBtf(h) ==>
              (r.support310 <==> HostIsLegacyCentos(h))
    ensures (!e.inited && h.archSupported && h.release != "" && !HostHasBtf(h)
             && TruncDiv(h.kernelVersion, Million) != KernelVersion310) ==> !r.support310
    ensures !e.inited && (!h.archSupported || h.release == "" || HostHasBtf(h)) ==> r.support310 == e.support310
  {
    if e.inited then e
    else if !h.archSupported then e.(inited := true, archSupport := false)
    else
      var e1 := e.(inited := true, archSupport := true);
      if h.release == "" then e1.(btfSupport := false)
      else if h.kernelVersion >= h.minVersion then e1.(btfSupport := true)
      else if TruncDiv(h.kernelVersion, Million) != KernelVersion310 then e1.(support310 := false)
      else match FirstRelease(h)
        case Some(rel) =>
          e1.(support310 := rel.os == KernelNameCentos && rel.osVersion >= KernelCentosMinVersion)
        case None => e1.(support310 := false)
  }

  /** `EnvManager::IsSupportedEnv`. */
  function IsSupportedEnv(e: EnvState, t: PluginType): (r: bool)
    ensures !e.inited ==> !r
    ensures t == NetworkObserve ==> (r <==> e.inited && e.archSupport && (e.btfSupport || e.support310))
    ensures IsSecurityType(t) ==> (r <==> e.inited && e.archSupport && e.btfSupport)
    ensures t == OtherPlugin ==> !r
  {
    if !e.inited then false
    else match t
      case NetworkObserve => e.archSupport && (e.btfSupport || e.support310)
      case FileSecurity | NetworkSecurity | ProcessSecurity => e.archSupport && e.btfSupport
      case OtherPlugin => false
  }

  /** `EnvManager::AbleToLoadDyLib`: the probe libraries can be loaded
      whenever some plugin type is supported. */
  function AbleToLoadDyLib(e: EnvState): (r: bool)
    ensures forall t :: IsSupportedEnv(e, t) ==> r
  {
    e.archSupport
  }

  /** After detection on a fresh manager, a plugin type is supported exactly
      when the host has the capabilities it needs: an x86-64 build and a
      BTF kernel, or for network observation also a CentOS 7.6+ 3.10 kernel.
      Every failed read (no release, no RedHat release file) fails closed. */
  lemma SupportAfterInit(h: HostInfo, t: PluginType)
    ensures var e := InitEnvInfo(InitialEnv, h);
      && (t == NetworkObserve ==>
            (IsSupportedEnv(e, t) <==> h.archSupported && (HostHasBtf(h) || HostIsLegacyCentos(h))))
      && (IsSecurityType(t) ==> (IsSupportedEnv(e, t) <==> h.archSupported && HostHasBtf(h)))
      && (t == OtherPlugin ==> !IsSupportedEnv(e, t))
  {
    var e := InitEnvInfo(InitialEnv, h);
    if h.archSupported && h.release != "" && !HostHasBtf(h) {
      assert !e.btfSupport;
    }
  }

  /** With the flag at its default, a CentOS 7.6+ host (found through the
      host path or through the `/etc` fallback) on kernel 3.10.x.y that lacks BTF still runs network observation, and no security probe. */
  lemma CentosLegacyKernelRunsNetworkObserveOnly(h: HostInfo, patch: nat, build: nat, osMinor: nat)
    requires DefaultFlags(h) && h.archSupported && h.release != ""
    requires patch < 1000 && build < 1000
    requires h.kernelVersion == EncodeKernelVersion(3, 10, patch, build)
    requires FirstRelease(h) == Some(RedHatRelease(KernelNameCentos, EncodeOsVersion(7, osMinor)))
    requires osMinor >= 6
    ensures IsSupportedEnv(InitEnvInfo(InitialEnv, h), NetworkObserve)
    ensures !IsSupportedEnv(InitEnvInfo(InitialEnv, h), FileSecurity)
  {
    Is310Encoded(3, 10, patch, build);
    SupportAfterInit(h, NetworkObserve);
    SupportAfterInit(h, FileSecurity);
  }
}
