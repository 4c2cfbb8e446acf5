/** What a configuration must satisfy to be loaded: names are normalised, then
    everything is validated, and the listeners must be able to bind together. */
module ConfigGate {
  import opened Text
  import opened Results
  import opened LineProtocol
  import opened Backoff
  import Exposition
  import MetricsPage

  // ----- addresses ----------------------------------------------------------

  datatype Ip = V4(bits: nat) | V6(bits: nat) {
    predicate Unspecified() { bits == 0 }
  }

  const LOOPBACK: Ip := V4(0x7F00_0001)

  predicate AddressesContend(a: Ip, b: Ip) {
    a == b
    || (a.Unspecified() && (a.V6? || b.V4?))
    || (b.Unspecified() && (b.V6? || a.V4?))
  }

  /** A listener on `a` occupies the port at `x`: `::` everywhere, `0.0.0.0` at
      every IPv4 address, any other address at itself. */
  predicate Covers(a: Ip, x: Ip) {
    if a == V6(0) then true else if a == V4(0) then x.V4? else x == a
  }

  ghost predicate Overlap(a: Ip, b: Ip) { exists x :: Covers(a, x) && Covers(b, x) }

  lemma ContendMeansOverlap(a: Ip, b: Ip)
    ensures AddressesContend(a, b) <==> Overlap(a, b)
  {
    if AddressesContend(a, b) {
      var x := if Covers(a, b) then b else a;
      assert Covers(a, x) && Covers(b, x);
    }
  }

  // ----- the configuration --------------------------------------------------

  datatype Influx = Influx(
    url: string, org: string, bucket: string, batchSize: nat, batchTimeoutMs: U64,
    maxBufferedBytes: nat, retryInitialMs: U64, retryMaxMs: U64)

  datatype Listener = Listener(enabled: bool, bind: string, port: nat)

  datatype Settings = Settings(
    influx: Influx, hubCapacity: nat, ui: Listener, metrics: Listener,
    apiKeyFile: Option<string>, healthEnabled: bool, healthPort: nat)

  datatype Kind = Http | Https | Tcp | Udp | Dns | Smtp | Imap | Tls

  /** A float as far as validation looks at it. */
  datatype Days = NotFinite | Finite(days: real)

  datatype ProbeConfig = ProbeConfig(
    name: string, kind: Kind, target: string, intervalSecs: U64, timeoutSecs: U64,
    expectedStatus: Option<nat>, dnsExpectedIp: Option<string>, tlsExpiryFailDays: Option<Days>)

  datatype Config = Config(settings: Settings, probes: seq<ProbeConfig>)

  // ----- ports --------------------------------------------------------------

  /** An optional plus sign and digits, at most 65535. */
  predicate IsPort(s: string) {
    var digits := if s != "" && s[0] == '+' then s[1..] else s;
    ParseDecimal(digits).Some? && ParseDecimal(digits).value <= 0xFFFF
  }

  function LastColon(s: string): (i: Option<nat>)
    ensures i.Some? ==> i.value < |s|
  {
    if s == "" then None
    else if s[|s| - 1] == ':' then Some(|s| - 1)
    else LastColon(s[..|s| - 1])
  }

  predicate HasPortSuffix(target: string) {
    var i := LastColon(target);
    i.Some? && i.value > 0 && IsPort(target[i.value + 1..])
  }

  lemma {:induction false} DigitsOnly(s: string)
    requires ParseDecimal(s).Some?
    ensures ':' !in s
  {
    assert s == s[..|s| - 1] + [s[|s| - 1]];
    if |s| > 1 {
      DigitsOnly(s[..|s| - 1]);
    }
  }

  lemma PortHasNoColon(s: string)
    requires IsPort(s)
    ensures ':' !in s
  {
    if s != "" && s[0] == '+' {
      DigitsOnly(s[1..]);
      assert s == [s[0]] + s[1..];
    } else {
      DigitsOnly(s);
    }
  }

  lemma {:induction false} LastColonOf(s: string, i: nat)
    requires i < |s| && s[i] == ':' && ':' !in s[i + 1..]
    ensures LastColon(s) == Some(i)
  {
    var n := |s| - 1;
    if i < n {
      assert s[n] == s[i + 1..][n - i - 1];
      assert s[..n][i + 1..] <= s[i + 1..];
      LastColonOf(s[..n], i);
    }
  }

  /** Splitting at the last colon misses nothing: the target passes exactly when
      it reads as a non-empty host, a colon and a port, at any colon. */
  lemma PortSuffixIsHostAndPort(target: string)
    ensures HasPortSuffix(target) <==>
            exists i :: 0 < i < |target| && target[i] == ':' && IsPort(target[i + 1..])
  {
    if LastColon(target).Some? {
      LastColonIsColon(target);
    }
    if i :| 0 < i < |target| && target[i] == ':' && IsPort(target[i + 1..]) {
      PortHasNoColon(target[i + 1..]);
      LastColonOf(target, i);
    }
  }

  lemma {:induction false} LastColonIsColon(s: string)
    requires LastColon(s).Some?
    ensures s[LastColon(s).value] == ':'
  {
    if s[|s| - 1] != ':' {
      LastColonIsColon(s[..|s| - 1]);
    }
  }

  // ----- faults -------------------------------------------------------------

  datatype Which = Ui | Metrics

  datatype SettingFault =
    | EmptyUrl | RelativeUrl | EmptyOrg | EmptyBucket | ZeroBatchSize | ZeroBatchTimeout
    | ZeroBuffer | ZeroInitialBackoff | ZeroMaxBackoff | MaxBelowInitial | ZeroHubCapacity
    | BadBind(which: Which) | PortZero(which: Which) | EmptyKeyPath
    | UiMeetsMetrics | MeetsHealth(which: Which)

  datatype ProbeFault =
    | EmptyName | DuplicateName | EmptyTarget | ZeroInterval | ZeroTimeout
    | ExpiryNotFinite | NegativeExpiry | StatusOutOfRange | BadExpectedIp | BadTarget

  datatype Fault = InSettings(setting: SettingFault) | AtProbe(index: nat, probe: ProbeFault)

  predicate AbsoluteUrl(s: string) { "http://" <= s || "https://" <= s }

  predicate TargetFits(p: ProbeConfig, isSocketAddr: string -> bool) {
    match p.kind
    case Dns => isSocketAddr(p.target)
    case Http => AbsoluteUrl(p.target)
    case Https => AbsoluteUrl(p.target)
    case _ => HasPortSuffix(p.target)
  }

  /** The standard library's address parsers. */
  datatype Parsers = Parsers(ip: string -> Option<Ip>, isSocketAddr: string -> bool)

  function ListenerOf(s: Settings, which: Which): Listener { if which.Ui? then s.ui else s.metrics }

  /** Two enabled listeners that cannot both have the port. */
  ghost predicate Clash(a: Option<Ip>, aPort: nat, b: Option<Ip>, bPort: nat) {
    a.Some? && b.Some? && aPort == bPort && Overlap(a.value, b.value)
  }

  ghost predicate SettingHas(ps: Parsers, s: Settings, f: SettingFault) {
    match f
    case EmptyUrl => s.influx.url == ""
    case RelativeUrl => !AbsoluteUrl(s.influx.url)
    case EmptyOrg => s.influx.org == ""
    case EmptyBucket => s.influx.bucket == ""
    case ZeroBatchSize => s.influx.batchSize == 0
    case ZeroBatchTimeout => s.influx.batchTimeoutMs == 0
    case ZeroBuffer => s.influx.maxBufferedBytes == 0
    case ZeroInitialBackoff => s.influx.retryInitialMs == 0
    case ZeroMaxBackoff => s.influx.retryMaxMs == 0
    case MaxBelowInitial => s.influx.retryMaxMs < s.influx.retryInitialMs
    case ZeroHubCapacity => s.hubCapacity == 0
    case BadBind(w) => ps.ip(ListenerOf(s, w).bind).None?
    case PortZero(w) => ListenerOf(s, w).enabled && ListenerOf(s, w).port == 0
    case EmptyKeyPath => s.apiKeyFile == Some("")
    case UiMeetsMetrics =>
      s.ui.enabled && s.metrics.enabled && Clash(ps.ip(s.ui.bind), s.ui.port, ps.ip(s.metrics.bind), s.metrics.port)
    case MeetsHealth(w) =>
      var l := ListenerOf(s, w);
      s.healthEnabled && l.enabled && Clash(ps.ip(l.bind), l.port, Some(LOOPBACK), s.healthPort)
  }

  predicate ProbeHas(ps: Parsers, p: ProbeConfig, f: ProbeFault) {
    match f
    case EmptyName => p.name == ""
    case DuplicateName => false
    case EmptyTarget => p.target == ""
    case ZeroInterval => p.intervalSecs == 0
    case ZeroTimeout => p.timeoutSecs == 0
    case ExpiryNotFinite => p.tlsExpiryFailDays == Some(NotFinite)
    case NegativeExpiry =>
      p.tlsExpiryFailDays.Some? && p.tlsExpiryFailDays.value.Finite? && p.tlsExpiryFailDays.value.days < 0.0
    case StatusOutOfRange => p.expectedStatus.Some? && !(100 <= p.expectedStatus.value <= 599)
    case BadExpectedIp => p.dnsExpectedIp.Some? && ps.ip(p.dnsExpectedIp.value).None?
    case BadTarget => !TargetFits(p, ps.isSocketAddr)
  }

  /** Everything that can be wrong with a configuration. */
  ghost predicate Has(ps: Parsers, c: Config, f: Fault) {
    match f
    case InSettings(sf) => SettingHas(ps, c.settings, sf)
    case AtProbe(i, pf) =>
      && i < |c.probes|
      && (ProbeHas(ps, c.probes[i], pf)
          || (pf.DuplicateName? && exists j :: 0 <= j < i && c.probes[j].name == c.probes[i].name))
  }

  /** The order in which the faults are looked for. */
  function SettingRank(f: SettingFault): nat {
    match f
    case EmptyUrl => 0 case RelativeUrl => 1 case EmptyOrg => 2 case EmptyBucket => 3
    case ZeroBatchSize => 4 case ZeroBatchTimeout => 5 case ZeroBuffer => 6
    case ZeroInitialBackoff => 7 case ZeroMaxBackoff => 8 case MaxBelowInitial => 9 case ZeroHubCapacity => 10
    case BadBind(w) => if w.Ui? then 11 else 12
    case PortZero(w) => if w.Ui? then 13 else 14
    case EmptyKeyPath => 15
    case UiMeetsMetrics => 16
    case MeetsHealth(w) => if w.Ui? then 17 else 18
  }

  function ProbeRank(f: ProbeFault): nat {
    match f
    case EmptyName => 0 case DuplicateName => 1 case EmptyTarget => 2 case ZeroInterval => 3 case ZeroTimeout => 4
    case ExpiryNotFinite => 5 case NegativeExpiry => 6 case StatusOutOfRange => 7 case BadExpectedIp => 8
    case BadTarget => 9
  }

  /** Settings come before probes, and the probes in the order of the file. */
  predicate Before(f: Fault, g: Fault) {
    if f.InSettings? then g.AtProbe? || SettingRank(f.setting) < SettingRank(g.setting)
    else g.AtProbe? && (f.index < g.index || (f.index == g.index && ProbeRank(f.probe) < ProbeRank(g.probe)))
  }

  ghost predicate Valid(ps: Parsers, c: Config) { forall f :: !Has(ps, c, f) }

  // ----- what that comes to -------------------------------------------------

  /** The shape each kind of probe needs its target to have. */
  predicate TargetHasShape(p: ProbeConfig, isSocketAddr: string -> bool) {
    && (p.kind in {Http, Https} ==> "http://" <= p.target || "https://" <= p.target)
    && (p.kind == Dns ==> isSocketAddr(p.target))
    && (p.kind in {Tcp, Udp, Smtp, Imap, Tls} ==>
          exists i :: 0 < i < |p.target| && p.target[i] == ':' && IsPort(p.target[i + 1..]))
  }

  predicate ProbeIsSound(ps: Parsers, p: ProbeConfig) {
    && p.name != "" && p.target != "" && p.intervalSecs > 0 && p.timeoutSecs > 0
    && (p.tlsExpiryFailDays.Some? ==> p.tlsExpiryFailDays.value.Finite? && p.tlsExpiryFailDays.value.days >= 0.0)
    && (p.expectedStatus.Some? ==> 100 <= p.expectedStatus.value <= 599)
    && (p.dnsExpectedIp.Some? ==> ps.ip(p.dnsExpectedIp.value).Some?)
    && TargetHasShape(p, ps.isSocketAddr)
  }

  predicate InfluxIsSound(i: Influx) {
    && ("http://" <= i.url || "https://" <= i.url) && i.org != "" && i.bucket != ""
    && i.batchSize > 0 && i.batchTimeoutMs > 0 && i.maxBufferedBytes > 0
    && 0 < i.retryInitialMs <= i.retryMaxMs
  }

  ghost predicate ListenersAreSound(ps: Parsers, s: Settings) {
    && ps.ip(s.ui.bind).Some? && ps.ip(s.metrics.bind).Some? && s.apiKeyFile != Some("")
    && (s.ui.enabled ==> s.ui.port > 0) && (s.metrics.enabled ==> s.metrics.port > 0)
    && var socks := Sockets(ps, s);
       forall i, j, x :: 0 <= i < j < |socks| && socks[i].port == socks[j].port
         ==> !(Covers(socks[i].addr, x) && Covers(socks[j].addr, x))
  }

  datatype Socket = Socket(addr: Ip, port: nat)

  /** The enabled listeners: page, metrics, health. */
  function Sockets(ps: Parsers, s: Settings): seq<Socket> {
    SocketOf(ps, s.ui) + SocketOf(ps, s.metrics) + if s.healthEnabled then [Socket(LOOPBACK, s.healthPort)] else []
  }

  function SocketOf(ps: Parsers, l: Listener): seq<Socket> {
    var a := ps.ip(l.bind);
    if l.enabled && a.Some? then [Socket(a.value, l.port)] else []
  }

  lemma ProbeFaults(ps: Parsers, p: ProbeConfig)
    ensures ProbeIsSound(ps, p) <==> forall f :: !ProbeHas(ps, p, f)
  {
    PortSuffixIsHostAndPort(p.target);
    hide HasPortSuffix, IsPort;
    if forall f :: !ProbeHas(ps, p, f) {
      assert !ProbeHas(ps, p, EmptyName) && !ProbeHas(ps, p, EmptyTarget);
      assert !ProbeHas(ps, p, ZeroInterval) && !ProbeHas(ps, p, ZeroTimeout);
      assert !ProbeHas(ps, p, ExpiryNotFinite) && !ProbeHas(ps, p, NegativeExpiry);
      assert !ProbeHas(ps, p, StatusOutOfRange) && !ProbeHas(ps, p, BadExpectedIp);
      assert !ProbeHas(ps, p, BadTarget);
    }
  }

  lemma SettingFaults(ps: Parsers, s: Settings)
    ensures InfluxIsSound(s.influx) && s.hubCapacity > 0 && ListenersAreSound(ps, s) <==> forall f :: !SettingHas(ps, s, f)
  {
    if forall f :: !SettingHas(ps, s, f) {
      assert !SettingHas(ps, s, RelativeUrl) && !SettingHas(ps, s, EmptyOrg) && !SettingHas(ps, s, EmptyBucket);
      assert !SettingHas(ps, s, ZeroBatchSize) && !SettingHas(ps, s, ZeroBatchTimeout) && !SettingHas(ps, s, ZeroBuffer);
      assert !SettingHas(ps, s, ZeroInitialBackoff) && !SettingHas(ps, s, MaxBelowInitial);
      assert !SettingHas(ps, s, ZeroHubCapacity) && !SettingHas(ps, s, EmptyKeyPath);
      NoListenerFaults(ps, s);
    } else {
      var f :| SettingHas(ps, s, f);
      FaultIsUnsound(ps, s, f);
    }
  }

  lemma NoListenerFaults(ps: Parsers, s: Settings)
    requires forall f :: !SettingHas(ps, s, f)
    ensures ListenersAreSound(ps, s)
  {
    assert !SettingHas(ps, s, BadBind(Ui)) && !SettingHas(ps, s, BadBind(Metrics));
    assert !SettingHas(ps, s, PortZero(Ui)) && !SettingHas(ps, s, PortZero(Metrics));
    assert !SettingHas(ps, s, EmptyKeyPath) && !SettingHas(ps, s, UiMeetsMetrics);
    assert !SettingHas(ps, s, MeetsHealth(Ui)) && !SettingHas(ps, s, MeetsHealth(Metrics));
  }

  lemma FaultIsUnsound(ps: Parsers, s: Settings, f: SettingFault)
    requires SettingHas(ps, s, f)
    ensures !(InfluxIsSound(s.influx) && s.hubCapacity > 0 && ListenersAreSound(ps, s))
  {
    var socks := Sockets(ps, s);
    if f.UiMeetsMetrics? {
      assert socks[0] == Socket(ps.ip(s.ui.bind).value, s.ui.port);
      assert socks[1] == Socket(ps.ip(s.metrics.bind).value, s.metrics.port);
    } else if f.MeetsHealth? {
      var l := ListenerOf(s, f.which);
      var k := if f.which.Metrics? && s.ui.enabled && ps.ip(s.ui.bind).Some? then 1 else 0;
      assert socks[k] == Socket(ps.ip(l.bind).value, l.port);
      assert socks[|socks| - 1] == Socket(LOOPBACK, s.healthPort);
    }
  }

  /** A configuration passes exactly when its settings and each of its probes are
      sound, no two enabled listeners meet, and no two probes share a name. */
  lemma AcceptedExactly(ps: Parsers, c: Config)
    ensures Valid(ps, c) <==>
      && InfluxIsSound(c.settings.influx) && c.settings.hubCapacity > 0 && ListenersAreSound(ps, c.settings)
      && (forall i :: 0 <= i < |c.probes| ==> ProbeIsSound(ps, c.probes[i]))
      && (forall i, j :: 0 <= i < j < |c.probes| ==> c.probes[i].name != c.probes[j].name)
  {
    hide SettingHas, ProbeHas, ProbeIsSound, InfluxIsSound, ListenersAreSound;
    SettingFaults(ps, c.settings);
    forall p: ProbeConfig ensures ProbeIsSound(ps, p) <==> forall f :: !ProbeHas(ps, p, f) {
      ProbeFaults(ps, p);
    }
    if Valid(ps, c) {
      forall f ensures !SettingHas(ps, c.settings, f) {
        assert !Has(ps, c, InSettings(f));
      }
      forall i, f | 0 <= i < |c.probes| ensures !ProbeHas(ps, c.probes[i], f) {
        assert !Has(ps, c, AtProbe(i, f));
      }
      forall i, j | 0 <= i < j < |c.probes| ensures c.probes[i].name != c.probes[j].name {
        assert !Has(ps, c, AtProbe(j, DuplicateName));
      }
    }
  }

  // ----- normalisation ------------------------------------------------------

  function Normal(s: string): string { Encode(s, ControlCode) }

  function NormalProbe(p: ProbeConfig): ProbeConfig {
    p.(name := Normal(p.name), target := Normal(p.target))
  }

  function NormalProbes(probes: seq<ProbeConfig>): (r: seq<ProbeConfig>)
    ensures |r| == |probes| && forall i :: 0 <= i < |r| ==> r[i] == NormalProbe(probes[i])
  {
    seq(|probes|, i requires 0 <= i < |probes| => NormalProbe(probes[i]))
  }

  function Normalised(c: Config): Config { c.(probes := NormalProbes(c.probes)) }

  datatype Field = Name | Target
  datatype Warning = Rewritten(field: Field, text: string)

  /** A warning for each string that had a control character, showing its new form. */
  function WarningFor(field: Field, value: string): seq<Warning> {
    if ControlFree(value) then [] else [Rewritten(field, Normal(value))]
  }

  function WarningsFor(probes: seq<ProbeConfig>): seq<Warning> {
    if probes == [] then []
    else
      var n := |probes| - 1;
      WarningsFor(probes[..n]) + WarningFor(Name, probes[n].name) + WarningFor(Target, probes[n].target)
  }

  lemma WarningsNext(probes: seq<ProbeConfig>, i: nat)
    requires i < |probes|
    ensures WarningsFor(probes[..i + 1])
         == WarningsFor(probes[..i]) + WarningFor(Name, probes[i].name) + WarningFor(Target, probes[i].target)
  {
    assert probes[..i + 1][..i] == probes[..i];
  }

  /** No warning repeats the control character it reports, and silence means the
      names and targets were already clean. */
  lemma {:induction false} WarningsAreClean(probes: seq<ProbeConfig>)
    ensures forall w :: w in WarningsFor(probes) ==> ControlFree(w.text)
    ensures WarningsFor(probes) == [] <==> forall p :: p in probes ==> ControlFree(p.name) && ControlFree(p.target)
  {
    if probes != [] {
      var n := |probes| - 1;
      WarningsAreClean(probes[..n]);
      EscapedIsControlFree(probes[n].name);
      EscapedIsControlFree(probes[n].target);
      assert probes == probes[..n] + [probes[n]];
    }
  }

  class AppConfig {
    const settings: Settings
    var probes: seq<ProbeConfig>

    ghost function Value(): Config reads this { Config(settings, probes) }

    constructor (c: Config)
      ensures Value() == c
    {
      settings, probes := c.settings, c.probes;
    }

    static method Rewrite(field: Field, value: string) returns (escaped: string, warning: seq<Warning>)
      ensures escaped == Normal(value) && warning == WarningFor(field, value)
    {
      escaped := EscapeControlChars(value);
      warning := if escaped != value then [Rewritten(field, escaped)] else [];
    }

    method EscapeNames() returns (warnings: seq<Warning>)
      modifies this
      ensures Value() == Normalised(old(Value()))
      ensures warnings == WarningsFor(old(probes))
    {
      hide Normal, WarningFor;
      ghost var raw := probes;
      warnings := [];
      for i := 0 to |probes|
        invariant |probes| == |raw|
        invariant forall k :: 0 <= k < i ==> probes[k] == NormalProbe(raw[k])
        invariant forall k :: i <= k < |raw| ==> probes[k] == raw[k]
        invariant warnings == WarningsFor(raw[..i])
      {
        var name, w1 := Rewrite(Name, probes[i].name);
        var target, w2 := Rewrite(Target, probes[i].target);
        WarningsNext(raw, i);
        probes := probes[i := probes[i].(name := name, target := target)];
        warnings := warnings + w1 + w2;
      }
      assert raw[..|raw|] == raw;
      assert probes == NormalProbes(raw);
    }

    method ValidateInflux(ps: Parsers) returns (fault: Option<SettingFault>)
      ensures fault.Some? ==> SettingHas(ps, settings, fault.value) && SettingRank(fault.value) < 11
      ensures fault.Some? ==> forall f: SettingFault :: SettingHas(ps, settings, f) ==> SettingRank(f) >= SettingRank(fault.value)
      ensures fault.None? ==> forall f: SettingFault ::
        !f.BadBind? && !f.PortZero? && !f.EmptyKeyPath? && !f.UiMeetsMetrics? && !f.MeetsHealth?
        ==> !SettingHas(ps, settings, f)
    {
      var i := settings.influx;
      if i.url == "" { return Some(EmptyUrl); }
      if !AbsoluteUrl(i.url) { return Some(RelativeUrl); }
      if i.org == "" { return Some(EmptyOrg); }
      if i.bucket == "" { return Some(EmptyBucket); }
      if i.batchSize == 0 { return Some(ZeroBatchSize); }
      if i.batchTimeoutMs == 0 { return Some(ZeroBatchTimeout); }
      if i.maxBufferedBytes == 0 { return Some(ZeroBuffer); }
      if i.retryInitialMs == 0 { return Some(ZeroInitialBackoff); }
      if i.retryMaxMs == 0 { return Some(ZeroMaxBackoff); }
      if i.retryMaxMs < i.retryInitialMs { return Some(MaxBelowInitial); }
      if settings.hubCapacity == 0 { return Some(ZeroHubCapacity); }
      return None;
    }

    method ValidateListeners(ps: Parsers) returns (fault: Option<SettingFault>)
      ensures fault.Some? ==> SettingHas(ps, settings, fault.value)
      ensures fault.Some? ==> forall f: SettingFault ::
        SettingHas(ps, settings, f) && SettingRank(f) > 10 ==> SettingRank(f) >= SettingRank(fault.value)
      ensures fault.None? ==> forall f: SettingFault ::
        f.BadBind? || f.PortZero? || f.EmptyKeyPath? || f.UiMeetsMetrics? || f.MeetsHealth?
        ==> !SettingHas(ps, settings, f)
    {
      hide Overlap;
      var s := settings;
      var uiAddr, metricsAddr := ps.ip(s.ui.bind), ps.ip(s.metrics.bind);
      if uiAddr.None? { return Some(BadBind(Ui)); }
      if metricsAddr.None? { return Some(BadBind(Metrics)); }
      if s.ui.enabled && s.ui.port == 0 { return Some(PortZero(Ui)); }
      if s.metrics.enabled && s.metrics.port == 0 { return Some(PortZero(Metrics)); }
      if s.apiKeyFile == Some("") { return Some(EmptyKeyPath); }
      ContendMeansOverlap(uiAddr.value, metricsAddr.value);
      ContendMeansOverlap(uiAddr.value, LOOPBACK);
      ContendMeansOverlap(metricsAddr.value, LOOPBACK);
      if s.ui.enabled && s.metrics.enabled && AddressesContend(uiAddr.value, metricsAddr.value)
        && s.ui.port == s.metrics.port
      {
        return Some(UiMeetsMetrics);
      }
      if s.healthEnabled {
        if s.ui.enabled && s.ui.port == s.healthPort && AddressesContend(uiAddr.value, LOOPBACK) {
          return Some(MeetsHealth(Ui));
        }
        if s.metrics.enabled && s.metrics.port == s.healthPort && AddressesContend(metricsAddr.value, LOOPBACK) {
          return Some(MeetsHealth(Metrics));
        }
      }
      return None;
    }

    static method ValidateProbe(ps: Parsers, p: ProbeConfig) returns (fault: Option<ProbeFault>)
      ensures fault.Some? ==> ProbeHas(ps, p, fault.value) && ProbeRank(fault.value) > 1
      ensures fault.Some? ==> forall f: ProbeFault ::
        ProbeHas(ps, p, f) && ProbeRank(f) > 1 ==> ProbeRank(f) >= ProbeRank(fault.value)
      ensures fault.None? ==> forall f: ProbeFault :: f.EmptyName? || !ProbeHas(ps, p, f)
    {
      if p.target == "" { return Some(EmptyTarget); }
      if p.intervalSecs == 0 { return Some(ZeroInterval); }
      if p.timeoutSecs == 0 { return Some(ZeroTimeout); }
      if p.tlsExpiryFailDays.Some? {
        if p.tlsExpiryFailDays.value.NotFinite? { return Some(ExpiryNotFinite); }
        if p.tlsExpiryFailDays.value.days < 0.0 { return Some(NegativeExpiry); }
      }
      if p.expectedStatus.Some? && !(100 <= p.expectedStatus.value <= 599) { return Some(StatusOutOfRange); }
      if p.dnsExpectedIp.Some? && ps.ip(p.dnsExpectedIp.value).None? { return Some(BadExpectedIp); }
      if !TargetFits(p, ps.isSocketAddr) { return Some(BadTarget); }
      return None;
    }

    /** Accepts exactly the valid configurations. What it reports is really wrong,
        and nothing that is looked for before it is. */
    method Validate(ps: Parsers) returns (fault: Option<Fault>)
      ensures fault.None? <==> Valid(ps, Value())
      ensures fault.Some? ==> Has(ps, Value(), fault.value) && forall f :: Has(ps, Value(), f) ==> !Before(f, fault.value)
    {
      var sf := ValidateInflux(ps);
      if sf.None? {
        sf := ValidateListeners(ps);
      }
      if sf.Some? {
        assert Has(ps, Value(), InSettings(sf.value));
        return Some(InSettings(sf.value));
      }
      var seen: set<string> := {};
      for i := 0 to |probes|
        invariant seen == set j | 0 <= j < i :: probes[j].name
        invariant forall f :: Has(ps, Value(), f) ==> f.AtProbe? && f.index >= i
      {
        var p := probes[i];
        var pf: Option<ProbeFault>;
        if p.name == "" {
          pf := Some(EmptyName);
        } else if p.name in seen {
          pf := Some(DuplicateName);
        } else {
          pf := ValidateProbe(ps, p);
        }
        if pf.Some? {
          assert Has(ps, Value(), AtProbe(i, pf.value));
          return Some(AtProbe(i, pf.value));
        }
        seen := seen + {p.name};
      }
      return None;
    }

    /** Normalise first, validate the normalised names. */
    method Load(ps: Parsers) returns (fault: Option<Fault>, warnings: seq<Warning>)
      modifies this
      ensures Value() == Normalised(old(Value()))
      ensures fault.None? <==> Valid(ps, Normalised(old(Value())))
      ensures fault.Some? ==> Has(ps, Value(), fault.value) && forall f :: Has(ps, Value(), f) ==> !Before(f, fault.value)
      ensures warnings == WarningsFor(old(probes))
    {
      warnings := EscapeNames();
      fault := Validate(ps);
    }
  }

  // ----- what a loaded configuration guarantees -----------------------------

  ghost predicate Loads(ps: Parsers, raw: Config) { Valid(ps, Normalised(raw)) }

  /** No two enabled listeners share a port at any address, and none was dropped
      for an address that does not parse. */
  lemma LoadedListenersBindTogether(ps: Parsers, raw: Config)
    requires Loads(ps, raw)
    ensures var s := raw.settings; var socks := Sockets(ps, s);
      && |socks| == (if s.ui.enabled then 1 else 0) + (if s.metrics.enabled then 1 else 0) + (if s.healthEnabled then 1 else 0)
      && forall i, j, x :: 0 <= i < j < |socks| && socks[i].port == socks[j].port
           ==> !(Covers(socks[i].addr, x) && Covers(socks[j].addr, x))
  {
    var c, s := Normalised(raw), raw.settings;
    assert !Has(ps, c, InSettings(BadBind(Ui))) && !Has(ps, c, InSettings(BadBind(Metrics)));
    assert !Has(ps, c, InSettings(UiMeetsMetrics));
    assert !Has(ps, c, InSettings(MeetsHealth(Ui))) && !Has(ps, c, InSettings(MeetsHealth(Metrics)));
  }

  /** Probe names key the page's rows, the metric labels and the stored series:
      they are non-empty, pairwise distinct and free of control characters. */
  lemma LoadedNamesAreKeys(ps: Parsers, raw: Config)
    requires Loads(ps, raw)
    ensures var probes := Normalised(raw).probes;
      && (forall i :: 0 <= i < |probes| ==> probes[i].name != "" && ControlFree(probes[i].name) && ControlFree(probes[i].target))
      && (forall i, j :: 0 <= i < j < |probes| ==> probes[i].name != probes[j].name)
  {
    var c := Normalised(raw);
    forall i | 0 <= i < |c.probes|
      ensures c.probes[i].name != "" && ControlFree(c.probes[i].name) && ControlFree(c.probes[i].target)
    {
      assert !Has(ps, c, AtProbe(i, EmptyName));
      EscapedIsControlFree(raw.probes[i].name);
      EscapedIsControlFree(raw.probes[i].target);
    }
    forall i, j | 0 <= i < j < |c.probes| ensures c.probes[i].name != c.probes[j].name {
      assert !Has(ps, c, AtProbe(j, DuplicateName));
    }
  }

  /** Validating before normalising would not do: any valid one-probe setup extends
      to two probes whose names are distinct as written and equal as used. */
  lemma OrderMatters(ps: Parsers, c: Config)
    requires Valid(ps, c) && |c.probes| == 1
    ensures var p := c.probes[0];
      var two := c.(probes := [p.(name := ['\n']), p.(name := ['\\', 'n'])]);
      && Valid(ps, two)
      && !Loads(ps, two) && Has(ps, Normalised(two), AtProbe(1, DuplicateName))
  {
    var p := c.probes[0];
    var two := c.(probes := [p.(name := ['\n']), p.(name := ['\\', 'n'])]);
    forall f ensures !Has(ps, two, f) {
      assert !Has(ps, c, if f.InSettings? then f else AtProbe(0, f.probe));
    }
    EscapingCollides();
    var c2 := Normalised(two);
    assert c2.probes[0].name == Normal(['\n']) == Normal(['\\', 'n']) == c2.probes[1].name;
    assert Has(ps, c2, AtProbe(1, DuplicateName));
  }

  // ----- what the pipeline relies on ----------------------------------------

  function KindName(k: Kind): string {
    match k
    case Http => "http" case Https => "https" case Tcp => "tcp" case Udp => "udp"
    case Dns => "dns" case Smtp => "smtp" case Imap => "imap" case Tls => "tls"
  }

  const EXPIRY_KEY: MetricsPage.NamePart := "tls_cert_expiry_days"

  /** A result some configured probe can publish: its name, kind and target are
      copied over, anything may stand in the error, and the only extra reading is
      the certificate's expiry. */
  predicate PublishedBy(p: ProbeConfig, r: ProbeResult) {
    && r.name == p.name && r.kind == KindName(p.kind) && r.target == p.target
    && forall m :: m in r.metrics ==> m.key == EXPIRY_KEY
  }

  predicate Published(c: Config, r: ProbeResult) {
    exists i :: 0 <= i < |c.probes| && PublishedBy(c.probes[i], r)
  }

  lemma KindNamesAreClean(k: Kind)
    ensures ControlFree(KindName(k)) && ControlFree(EXPIRY_KEY)
  {
  }

  lemma ExpiryIsNotBuiltIn()
    ensures !BuiltInKey(EXPIRY_KEY)
  {
  }

  lemma PublishedIsFramable(ps: Parsers, raw: Config, r: ProbeResult)
    requires Loads(ps, raw) && Published(Normalised(raw), r)
    ensures Framable(r)
  {
    hide ControlFree, Encode, Framable, Valid;
    LoadedNamesAreKeys(ps, raw);
    var i :| 0 <= i < |raw.probes| && PublishedBy(Normalised(raw).probes[i], r);
    KindNamesAreClean(raw.probes[i].kind);
    NormalisedIsFramable(r);
  }

  /** Splitting a queued batch on newlines gives back one line per result, although
      the tag escaping itself lets a newline through. */
  lemma LoadedBatchesFrame(ps: Parsers, raw: Config, batch: seq<ProbeResult>)
    requires Loads(ps, raw) && batch != []
    requires forall r :: r in batch ==> Published(Normalised(raw), r)
    ensures Split(Body(batch)) == Lines(batch) && |Lines(batch)| == |batch|
  {
    hide Framable, Split, Body, Lines, Loads, Published;
    forall r | r in batch ensures Framable(r) {
      PublishedIsFramable(ps, raw, r);
    }
    BatchFraming(batch);
    LinesCount(batch);
  }

  lemma LinesCount(batch: seq<ProbeResult>)
    ensures |Lines(batch)| == |batch|
  {
  }

  /** Each of those lines reads back as the result it was printed from. */
  lemma LoadedLinesReadBack(c: Config, r: ProbeResult)
    requires Published(c, r)
    ensures ParseLine(Line(r)) == Some(r)
  {
    hide BuiltInKey, ParseLine, Line;
    LineRoundTrip(r);
    ExpiryIsNotBuiltIn();
    assert forall i :: 0 <= i < |r.metrics| ==> r.metrics[i] in r.metrics;
  }

  lemma ExpiryStartsApart()
    ensures EXPIRY_KEY[0] == 't'
    ensures MetricsPage.SUCCESS[0] == 's' && MetricsPage.DURATION[0] == 'd'
    ensures MetricsPage.STATUS[0] == 'h' && MetricsPage.LAST_RUN[0] == 'l'
  {
  }

  lemma ExpiryIsCleanAndNotBuiltIn(probes: seq<ProbeResult>)
    ensures Exposition.Sanitise(EXPIRY_KEY) == EXPIRY_KEY
    ensures !MetricsPage.Taken(probes, EXPIRY_KEY)
  {
    hide EXPIRY_KEY, MetricsPage.SUCCESS, MetricsPage.DURATION, MetricsPage.STATUS, MetricsPage.LAST_RUN;
    Exposition.SanitisedIsName(EXPIRY_KEY);
    ExpiryStartsApart();
  }

  /** The same results make a page with every family and every series once. Each
      result's readings are keyed by name, so no key stands twice in it. */
  lemma LoadedPageIsWellFormed(c: Config, p: MetricsPage.Printer, values: seq<ProbeResult>, s: MetricsPage.Stats)
    requires MetricsPage.UniqueNames(values)
    requires forall r :: r in values ==> Published(c, r)
    requires forall r, i, j :: r in values && 0 <= i < j < |r.metrics| ==> r.metrics[i].key != r.metrics[j].key
    ensures var doc := MetricsPage.Document(p, MetricsPage.SortByName(values), s);
      && Exposition.Read(Exposition.Print(doc)) == Some(doc)
      && MetricsPage.UniqueFamilies(doc)
      && forall f :: f in doc ==> MetricsPage.UniqueSeries(f.samples)
  {
    hide MetricsPage.Document, MetricsPage.SortByName, MetricsPage.UniqueFamilies, MetricsPage.UniqueSeries,
         MetricsPage.Taken, Exposition.Sanitise, Exposition.Read, Exposition.Print, EXPIRY_KEY;
    ExpiryIsCleanAndNotBuiltIn(values);
    MetricsPage.PageReadsBack(p, values, s);
    MetricsPage.EachFamilyOnce(p, values, s);
    MetricsPage.EachSeriesOnce(p, values, s);
    forall r | r in values ensures MetricsPage.KeysApart(r, |r.metrics|) {
      assert forall i :: 0 <= i < |r.metrics| ==> r.metrics[i] in r.metrics;
    }
  }

  /** The accepted settings start the retries at the configured first delay and
      never let a computed wait drop to zero or below it. */
  lemma LoadedBackoffStartsRight(ps: Parsers, raw: Config, attempt: nat)
    requires Loads(ps, raw)
    ensures var i := raw.settings.influx;
      var wait := BackoffDelay(FromMillis(i.retryInitialMs), FromMillis(i.retryMaxMs), attempt).Total();
      && 0 < i.retryInitialMs * 1_000_000 <= wait <= i.retryMaxMs * 1_000_000
      && (attempt == 0 ==> wait == i.retryInitialMs * 1_000_000)
  {
    var c, i := Normalised(raw), raw.settings.influx;
    assert !Has(ps, c, InSettings(ZeroInitialBackoff)) && !Has(ps, c, InSettings(MaxBelowInitial));
    BackoffIsCappedDoubling(i.retryInitialMs, i.retryMaxMs, 0);
    BackoffIsCappedDoubling(i.retryInitialMs, i.retryMaxMs, attempt);
    BackoffMonotone(i.retryInitialMs, i.retryMaxMs, 0, attempt);
    assert Pow2(0) == 1;
  }

  /** The settings at which the documented backoff fails pass the gate. */
  lemma ShiftRunsOutAfterLoading(ps: Parsers, raw: Config)
    requires Loads(ps, raw)
    ensures var s := raw.settings;
      var long := raw.(settings := s.(influx := s.influx.(retryInitialMs := 1, retryMaxMs := 0xFFFF_FFFF_FFFF)));
      var i := long.settings.influx;
      && Loads(ps, long)
      && BackoffDelay(FromMillis(i.retryInitialMs), FromMillis(i.retryMaxMs), 32).Total()
         != Backoff.Min(i.retryMaxMs, i.retryInitialMs * Pow2(32)) * 1_000_000
  {
    hide BackoffDelay, Pow2;
    var s := raw.settings;
    var long := raw.(settings := s.(influx := s.influx.(retryInitialMs := 1, retryMaxMs := 0xFFFF_FFFF_FFFF)));
    ShiftRunsOut();
    forall f ensures !Has(ps, Normalised(long), f) {
      assert !Has(ps, Normalised(raw), f);
    }
  }
}
