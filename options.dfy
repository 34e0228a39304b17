/** The option resolver of `tgt.opentelemetry.options`.

    Every setting of `TgtOptions` is taken from three places, in a fixed
    order of precedence: the process environment, the constructor's
    parameters and the module's defaults. The environment is an immutable
    map read once; a Python `None` parameter is `None` of `PyStr.Option`.

    The module has three layers:
    - the module-level constants and helpers (`AppendPath`, `ParseBool`,
      `GetDefaultInsecure`, `DetectEnvironment`);
    - one specification function per field, written as the precedence chain
      it implements, and `Resolve`, which gathers them into a `Resolved`;
    - the class `TgtOptions`, whose constructor assigns its fields step by
      step as the source does, proved equal to `Resolve`. */
module Options {
  import opened PyStr

  /** The process environment: variable name to value (possibly empty). */
  type Env = map<string, string>

  // Environment variables read by the resolver.
  const OtelExporterOtlpEndpoint := "OTEL_EXPORTER_OTLP_ENDPOINT"
  const OtelExporterOtlpInsecure := "OTEL_EXPORTER_OTLP_INSECURE"
  const OtelExporterOtlpProtocol := "OTEL_EXPORTER_OTLP_PROTOCOL"
  const OtelExporterOtlpTracesEndpoint := "OTEL_EXPORTER_OTLP_TRACES_ENDPOINT"
  const OtelExporterOtlpTracesInsecure := "OTEL_EXPORTER_OTLP_TRACES_INSECURE"
  const OtelExporterOtlpTracesProtocol := "OTEL_EXPORTER_OTLP_TRACES_PROTOCOL"
  const OtelExporterOtlpMetricsEndpoint := "OTEL_EXPORTER_OTLP_METRICS_ENDPOINT"
  const OtelExporterOtlpMetricsInsecure := "OTEL_EXPORTER_OTLP_METRICS_INSECURE"
  const OtelExporterOtlpMetricsProtocol := "OTEL_EXPORTER_OTLP_METRICS_PROTOCOL"
  const OtelLogLevel := "OTEL_LOG_LEVEL"
  const OtelServiceName := "OTEL_SERVICE_NAME"
  const OtelServiceVersion := "OTEL_SERVICE_VERSION"
  const DebugVar := "DEBUG"
  const CloudApplication := "CLOUD_APPLICATION"
  const MetricsDisabledVar := "METRICS_DISABLED"
  const TracesDisabledVar := "TRACES_DISABLED"
  const ContainerVar := "container"
  const SiteNameVar := "SITE_NAME"

  // Deployment names.
  const TapDeployment := "TAP"
  const StoresDeployment := "STORES"
  const UnknownDeployment := "UNKNOWN"

  // Defaults.
  const DefaultExporterOtlpEndpoint := "telemetry.prod.target.com"
  const TapExporterOtlpEndpoint := "127.0.0.1:4318"
  const StoresExporterOtlpEndpoint := "telemetry.storeapi.target.com"
  const DefaultExporterProtocol := "http/protobuf"
  const DefaultServiceName := "unknown_service:python"
  const DefaultLogLevel := "ERROR"
  const DefaultDeployment := UnknownDeployment

  // Warnings the resolver logs.
  const InvalidExporterProtocolError :=
    "Invalid OTLP exporter protocol detected. Must be one of ['http/protobuf']. Defaulting to http/protobuf."
  const MissingServiceNameError :=
    "Missing service name. Specify either OTEL_SERVICE_NAME environment variable or service_name in the options parameter. If left unset, this will show up in UI as unknown_service:python"

  /** Level name to the number of the `logging` module. */
  const LogLevels: map<string, int> :=
    map["NOTSET" := 0, "DEBUG" := 10, "INFO" := 20, "WARNING" := 30, "ERROR" := 40, "CRITICAL" := 50]

  const ExporterProtocolHttpProto := "http/protobuf"
  const TracesHttpPath := "v1/traces"
  const MetricsHttpPath := "v1/metrics"

  /** The protocols the resolver accepts. */
  const ExporterProtocols: set<string> := {ExporterProtocolHttpProto}

  /** The constructor's parameters. The three insecure flags, `debug` and the
      two `disabled` flags are `bool`: a `None` passed for them behaves as
      `False` in every `x or y` the resolver applies to them. */
  datatype Params = Params(
    serviceName: Option<string>,
    serviceVersion: Option<string>,
    tracesEndpoint: Option<string>,
    metricsEndpoint: Option<string>,
    endpointInsecure: bool,
    tracesEndpointInsecure: bool,
    metricsEndpointInsecure: bool,
    logLevel: Option<string>,
    exporterProtocol: Option<string>,
    tracesExporterProtocol: Option<string>,
    metricsExporterProtocol: Option<string>,
    debug: bool,
    deployment: string,
    metricsDisabled: bool,
    tracesDisabled: bool)

  /** `TgtOptions()` with every parameter left at its default. */
  function DefaultParams(): (p: Params)
    ensures p.serviceName == p.serviceVersion == p.tracesEndpoint == p.metricsEndpoint == None
    ensures p.logLevel == p.tracesExporterProtocol == p.metricsExporterProtocol == None
    ensures p.exporterProtocol == Some(ExporterProtocolHttpProto) && p.deployment == UnknownDeployment
    ensures !p.endpointInsecure && !p.tracesEndpointInsecure && !p.metricsEndpointInsecure
    ensures !p.debug && !p.metricsDisabled && !p.tracesDisabled
  {
    Params(None, None, None, None, false, false, false, None,
           Some(ExporterProtocolHttpProto), None, None, false, DefaultDeployment, false, false)
  }

  /** The deployment classes `detect_environment` tells apart. */
  datatype Deployment = Tap | Stores | Unknown
  {
    /** The string `detect_environment` returns for the class. */
    function Name(): (name: string)
      ensures name == TapDeployment <==> this == Tap
      ensures name == StoresDeployment <==> this == Stores
      ensures name == UnknownDeployment <==> this == Unknown
    {
      match this
      case Tap => TapDeployment
      case Stores => StoresDeployment
      case Unknown => UnknownDeployment
    }
  }

  /** The two telemetry signals, with the names and parameters that belong
      to each of them. */
  datatype Signal = Traces | Metrics
  {
    /** The OTLP/HTTP path of the signal. */
    function HttpPath(): string
    {
      if Traces? then TracesHttpPath else MetricsHttpPath
    }

    function EndpointVar(): string
    {
      if Traces? then OtelExporterOtlpTracesEndpoint else OtelExporterOtlpMetricsEndpoint
    }

    function ProtocolVar(): string
    {
      if Traces? then OtelExporterOtlpTracesProtocol else OtelExporterOtlpMetricsProtocol
    }

    function InsecureVar(): string
    {
      if Traces? then OtelExporterOtlpTracesInsecure else OtelExporterOtlpMetricsInsecure
    }

    function EndpointParam(p: Params): Option<string>
    {
      if Traces? then p.tracesEndpoint else p.metricsEndpoint
    }

    function ProtocolParam(p: Params): Option<string>
    {
      if Traces? then p.tracesExporterProtocol else p.metricsExporterProtocol
    }

    function InsecureParam(p: Params): bool
    {
      if Traces? then p.tracesEndpointInsecure else p.metricsEndpointInsecure
    }
  }

  /** A path is appended after a `/`, so it must not begin or end with one. */
  predicate ValidPath(path: string)
  {
    |path| > 0 && path[0] != '/' && path[|path| - 1] != '/'
  }

  lemma SignalPathsValid(signal: Signal)
    ensures ValidPath(signal.HttpPath())
  {
  }

  /** `os.environ.get(key, default)` */
  function Get(env: Env, key: string, default: Option<string>): (v: Option<string>)
    ensures key in env ==> v == Some(env[key])
    ensures key !in env ==> v == default
  {
    if key in env then Some(env[key]) else default
  }

  /** `os.environ.get(key, default)` with a string default. */
  function GetOr(env: Env, key: string, default: string): (v: string)
    ensures key in env ==> v == env[key]
    ensures key !in env ==> v == default
  {
    if key in env then env[key] else default
  }

  /** The variable is present and not empty, that is, truthy. */
  predicate IsSet(env: Env, key: string)
  {
    key in env && env[key] != ""
  }

  /** `lstrip` stops at the first character that is not `c`. */
  lemma LStripStopsAt(s: string, c: char, k: int)
    requires 0 <= k < |s| && s[k] != c
    ensures |LStrip(s, c)| >= |s| - k
  {
  }

  /** Whatever precedes `/` + path, stripping `/` from both ends of the whole
      leaves the path at its end; so a joined endpoint is never suffixed
      twice. */
  lemma {:induction false} StripKeepsPathSuffix(prefix: string, path: string)
    requires ValidPath(path)
    ensures EndsWith(Strip(prefix + "/" + path, '/'), path)
  {
    var s := prefix + "/" + path;
    assert s[|s| - |path|..] == path;
    assert s[|s| - |path|] == path[0];
    LStripStopsAt(s, '/', |s| - |path|);
    var l := LStrip(s, '/');
    assert l[|l| - |path|..] == path by {
      calc {
        l[|l| - |path|..];
        s[|s| - |l|..][|l| - |path|..];
        s[|s| - |path|..];
      }
    }
    assert l[|l| - 1] != '/' by {
      assert l[|l| - 1] == path[|path| - 1];
    }
    assert RStrip(l, '/') == l;
  }

  /** `_append_traces_path` / `_append_metrics_path`: under `http/protobuf`
      a non-empty endpoint gets the signal's path, unless its stripped form
      already ends with it. */
  function AppendPath(signal: Signal, protocol: string, endpoint: string): (r: string)
    ensures endpoint != "" && protocol == ExporterProtocolHttpProto ==>
              EndsWith(Strip(r, '/'), signal.HttpPath())
    ensures r == endpoint || r == Strip(endpoint, '/') + "/" + signal.HttpPath()
    ensures (endpoint == "" || protocol != ExporterProtocolHttpProto
             || EndsWith(Strip(endpoint, '/'), signal.HttpPath())) ==> r == endpoint
    ensures r == "" <==> endpoint == ""
  {
    if endpoint != "" && protocol == ExporterProtocolHttpProto
       && !EndsWith(Strip(endpoint, '/'), signal.HttpPath())
    then
      SignalPathsValid(signal);
      StripKeepsPathSuffix(Strip(endpoint, '/'), signal.HttpPath());
      Strip(endpoint, '/') + "/" + signal.HttpPath()
    else
      endpoint
  }

  /** `parse_bool` as its callers use it: any non-empty value of the variable
      reads as `True` (Python's `bool(str)`, which never fails, so the
      warning branch cannot be taken); otherwise the fallback. */
  function ParseBool(env: Env, name: string, fallback: bool): (b: bool)
    ensures IsSet(env, name) ==> b
    ensures !IsSet(env, name) ==> b == fallback
  {
    var val := Get(env, name, None);
    if Truthy(val) then true else fallback
  }

  /** `get_default_insecure`: only a TAP deployment defaults to insecure. */
  function GetDefaultInsecure(deployment: string): (insecure: bool)
    ensures insecure <==> deployment == TapDeployment
  {
    deployment == TapDeployment
  }

  /** `detect_environment`: a non-empty `container` means TAP, else a
      non-empty `SITE_NAME` means STORES, else UNKNOWN. */
  function DetectEnvironment(env: Env): (d: Deployment)
    ensures d == Tap <==> IsSet(env, ContainerVar)
    ensures d == Stores <==> !IsSet(env, ContainerVar) && IsSet(env, SiteNameVar)
    ensures d == Unknown <==> !IsSet(env, ContainerVar) && !IsSet(env, SiteNameVar)
  {
    if Truthy(Get(env, ContainerVar, None)) then Tap
    else if Truthy(Get(env, SiteNameVar, None)) then Stores
    else Unknown
  }

  /** The base endpoint chosen by deployment; UNKNOWN keeps the module
      default. Every base is non-empty, has no `/` at either end and carries
      no signal path yet. */
  function DefaultBase(d: Deployment): (base: string)
    ensures base != "" && base[0] != '/' && base[|base| - 1] != '/'
    ensures !EndsWith(base, TracesHttpPath) && !EndsWith(base, MetricsHttpPath)
    ensures d == Tap ==> base == TapExporterOtlpEndpoint
    ensures d == Stores ==> base == StoresExporterOtlpEndpoint
    ensures d == Unknown ==> base == DefaultExporterOtlpEndpoint
  {
    match d
    case Tap => TapExporterOtlpEndpoint
    case Stores => StoresExporterOtlpEndpoint
    case Unknown => DefaultExporterOtlpEndpoint
  }

  /** The first non-empty candidate, or `""` when all are empty: the shape
      of every `if not x: x = ...` chain of the constructor. */
  function FirstNonEmpty(candidates: seq<string>): (r: string)
    ensures r == "" <==> forall i :: 0 <= i < |candidates| ==> candidates[i] == ""
    ensures r == "" || r in candidates
  {
    if |candidates| == 0 then ""
    else if candidates[0] != "" then candidates[0]
    else FirstNonEmpty(candidates[1..])
  }

  /** Candidate `i` is non-empty and every candidate before it is empty. */
  predicate FirstNonEmptyAt(candidates: seq<string>, i: int)
  {
    0 <= i < |candidates| && candidates[i] != ""
    && forall j :: 0 <= j < i ==> candidates[j] == ""
  }

  lemma {:induction false} FirstNonEmptyPicks(candidates: seq<string>, i: int)
    requires FirstNonEmptyAt(candidates, i)
    ensures FirstNonEmpty(candidates) == candidates[i]
  {
    if i > 0 {
      assert FirstNonEmptyAt(candidates[1..], i - 1);
      FirstNonEmptyPicks(candidates[1..], i - 1);
    }
  }

  /** The protocol value a signal parameter carries that is not accepted. */
  predicate InvalidProtocolParam(param: Option<string>)
    ensures InvalidProtocolParam(param)
            <==> param.Some? && param.value != "" && param.value != ExporterProtocolHttpProto
  {
    Truthy(param) && param.value !in ExporterProtocols
  }

  /** The generic protocol before validation: environment, else parameter,
      else the default. */
  function RequestedProtocol(env: Env, p: Params): (requested: string)
    ensures OtelExporterOtlpProtocol in env ==> requested == env[OtelExporterOtlpProtocol]
    ensures OtelExporterOtlpProtocol !in env && Truthy(p.exporterProtocol) ==> requested == p.exporterProtocol.value
    ensures OtelExporterOtlpProtocol !in env && !Truthy(p.exporterProtocol) ==> requested == DefaultExporterProtocol
  {
    GetOr(env, OtelExporterOtlpProtocol, Or(p.exporterProtocol, DefaultExporterProtocol))
  }

  /** The generic protocol: the requested one if accepted, else the
      default. With a single accepted protocol it is always the default. */
  function GenericProtocol(env: Env, p: Params): (protocol: string)
    ensures protocol in ExporterProtocols
    ensures protocol == DefaultExporterProtocol
    ensures RequestedProtocol(env, p) in ExporterProtocols ==> protocol == RequestedProtocol(env, p)
  {
    var requested := RequestedProtocol(env, p);
    if requested in ExporterProtocols then requested else DefaultExporterProtocol
  }

  /** A signal's protocol. An invalid signal parameter resets it to the
      generic protocol even over the environment; otherwise the signal's
      variable is taken verbatim when present (even empty or invalid), else
      the parameter, else the generic protocol. */
  function SignalProtocol(signal: Signal, env: Env, p: Params): (protocol: string)
    ensures InvalidProtocolParam(signal.ProtocolParam(p)) ==> protocol == GenericProtocol(env, p)
    ensures !InvalidProtocolParam(signal.ProtocolParam(p)) && signal.ProtocolVar() in env ==>
              protocol == env[signal.ProtocolVar()]
    ensures signal.ProtocolVar() !in env ==> protocol in ExporterProtocols
    ensures (signal.ProtocolVar() !in env && Truthy(signal.ProtocolParam(p))
             && !InvalidProtocolParam(signal.ProtocolParam(p))) ==> protocol == signal.ProtocolParam(p).value
  {
    var generic := GenericProtocol(env, p);
    var param := signal.ProtocolParam(p);
    if InvalidProtocolParam(param) then generic
    else GetOr(env, signal.ProtocolVar(), Or(param, generic))
  }

  /** The four endpoint sources of a signal, highest precedence first: its
      own variable verbatim, the generic variable with the signal's path,
      its parameter verbatim, the deployment's base with the signal's path. */
  function EndpointCandidates(signal: Signal, env: Env, p: Params): (candidates: seq<string>)
    ensures |candidates| == 4 && candidates[3] != ""
  {
    var protocol := SignalProtocol(signal, env, p);
    [ GetOr(env, signal.EndpointVar(), ""),
      AppendPath(signal, protocol, GetOr(env, OtelExporterOtlpEndpoint, "")),
      OrEmpty(signal.EndpointParam(p)),
      AppendPath(signal, protocol, DefaultBase(DetectEnvironment(env))) ]
  }

  /** A signal's endpoint: the first non-empty of its candidates, so never
      empty. */
  function SignalEndpoint(signal: Signal, env: Env, p: Params): (endpoint: string)
    ensures endpoint != ""
  {
    FirstNonEmpty(EndpointCandidates(signal, env, p))
  }

  /** A chain of four fallbacks written out as the nested tests it stands for. */
  lemma FirstNonEmptyOfFour(c: seq<string>)
    requires |c| == 4
    ensures FirstNonEmpty(c)
            == if c[0] != "" then c[0] else if c[1] != "" then c[1] else if c[2] != "" then c[2] else c[3]
  {
    if c[0] != "" {
      FirstNonEmptyPicks(c, 0);
    } else if c[1] != "" {
      FirstNonEmptyPicks(c, 1);
    } else if c[2] != "" {
      FirstNonEmptyPicks(c, 2);
    } else if c[3] != "" {
      FirstNonEmptyPicks(c, 3);
    }
  }

  /** The endpoint chain as the nested fallbacks of the constructor. */
  lemma SignalEndpointChain(signal: Signal, env: Env, p: Params)
    ensures var protocol := SignalProtocol(signal, env, p);
            var generic := AppendPath(signal, protocol, GetOr(env, OtelExporterOtlpEndpoint, ""));
            SignalEndpoint(signal, env, p)
            == if GetOr(env, signal.EndpointVar(), "") != "" then GetOr(env, signal.EndpointVar(), "")
               else if generic != "" then generic
               else if OrEmpty(signal.EndpointParam(p)) != "" then OrEmpty(signal.EndpointParam(p))
               else AppendPath(signal, protocol, DefaultBase(DetectEnvironment(env)))
  {
    FirstNonEmptyOfFour(EndpointCandidates(signal, env, p));
  }

  /** The generic insecure flag: the variable, else the parameter or the
      default for the deployment PARAMETER (not the detected one). */
  function GenericInsecure(env: Env, p: Params): (insecure: bool)
    ensures insecure <==> IsSet(env, OtelExporterOtlpInsecure) || p.endpointInsecure
                          || p.deployment == TapDeployment
  {
    ParseBool(env, OtelExporterOtlpInsecure, p.endpointInsecure || GetDefaultInsecure(p.deployment))
  }

  /** A signal's insecure flag: its variable, else its parameter or the
      generic flag. */
  function SignalInsecure(signal: Signal, env: Env, p: Params): (insecure: bool)
    ensures IsSet(env, signal.InsecureVar()) ==> insecure
    ensures !IsSet(env, signal.InsecureVar()) ==>
              insecure == (signal.InsecureParam(p) || GenericInsecure(env, p))
  {
    ParseBool(env, signal.InsecureVar(), signal.InsecureParam(p) || GenericInsecure(env, p))
  }

  /** The debug flag: the variable beats the parameter; the default is off. */
  function Debug(env: Env, p: Params): (debug: bool)
    ensures debug <==> IsSet(env, DebugVar) || p.debug
  {
    ParseBool(env, DebugVar, p.debug)
  }

  /** A level name accepted once upper-cased. */
  predicate ValidLevel(level: Option<string>)
    ensures ValidLevel(level) <==> level.Some? && Upper(level.value) in LogLevels
  {
    Truthy(level) && Upper(level.value) in LogLevels
  }

  /** The log level: `DEBUG` when debugging; otherwise the variable, else
      the parameter, upper-cased if that names a level, else `ERROR`. */
  function LogLevel(env: Env, p: Params): (level: string)
    ensures level in LogLevels
    ensures Debug(env, p) ==> level == "DEBUG"
    ensures !Debug(env, p) && ValidLevel(Get(env, OtelLogLevel, p.logLevel)) ==>
              level == Upper(Get(env, OtelLogLevel, p.logLevel).value)
    ensures !Debug(env, p) && !ValidLevel(Get(env, OtelLogLevel, p.logLevel)) ==>
              level == DefaultLogLevel
  {
    if Debug(env, p) then "DEBUG"
    else
      var chosen := Get(env, OtelLogLevel, p.logLevel);
      if ValidLevel(chosen) then Upper(chosen.value) else DefaultLogLevel
  }

  /** The service name: the variable, else the parameter; if that is empty
      or missing, `CLOUD_APPLICATION`, else `unknown_service:python`. It is
      empty only when `CLOUD_APPLICATION` is present but empty. */
  function ServiceName(env: Env, p: Params): (name: string)
    ensures IsSet(env, OtelServiceName) ==> name == env[OtelServiceName]
    ensures OtelServiceName !in env && Truthy(p.serviceName) ==> name == p.serviceName.value
    ensures !Truthy(Get(env, OtelServiceName, p.serviceName)) ==>
              name == GetOr(env, CloudApplication, DefaultServiceName)
    ensures name == "" <==> (!Truthy(Get(env, OtelServiceName, p.serviceName))
                             && CloudApplication in env && env[CloudApplication] == "")
  {
    var named := Get(env, OtelServiceName, p.serviceName);
    if Truthy(named) then named.value else GetOr(env, CloudApplication, DefaultServiceName)
  }

  /** The service version: the variable (even empty), else the parameter. */
  function ServiceVersion(env: Env, p: Params): (version: Option<string>)
    ensures OtelServiceVersion in env ==> version == Some(env[OtelServiceVersion])
    ensures OtelServiceVersion !in env ==> version == p.serviceVersion
  {
    Get(env, OtelServiceVersion, p.serviceVersion)
  }

  /** A run of `x`s followed by a run of `y`s, with `x != y`: the counts
      are the run lengths, and no `x` comes after a `y`. */
  lemma TwoBlocks(xs: seq<string>, ys: seq<string>, x: string, y: string)
    requires x != y
    requires forall i :: 0 <= i < |xs| ==> xs[i] == x
    requires forall i :: 0 <= i < |ys| ==> ys[i] == y
    ensures multiset(xs + ys)[x] == |xs| && multiset(xs + ys)[y] == |ys|
    ensures forall w :: w in xs + ys ==> w == x || w == y
    ensures forall i, j :: 0 <= i < j < |xs + ys| && (xs + ys)[j] == x ==> (xs + ys)[i] == x
  {
    assert multiset(xs + ys) == multiset(xs) + multiset(ys);
    assert xs == seq(|xs|, _ => x);
    assert ys == seq(|ys|, _ => y);
    SameCount(xs, x);
    SameCount(ys, y);
    assert forall j :: |xs| <= j < |xs + ys| ==> (xs + ys)[j] == y;
  }

  /** A sequence of one repeated value holds that value as often as it is
      long, and no other value. */
  lemma {:induction false} SameCount(s: seq<string>, v: string)
    requires forall i :: 0 <= i < |s| ==> s[i] == v
    ensures multiset(s)[v] == |s|
    ensures forall w :: w != v ==> multiset(s)[w] == 0
  {
    if s != [] {
      assert s == [v] + s[1..];
      SameCount(s[1..], v);
      assert multiset(s) == multiset{v} + multiset(s[1..]);
    }
  }

  /** The warnings the constructor logs, in order: one per failed service
      name test (two when `CLOUD_APPLICATION` is empty), then one per
      rejected protocol (generic, traces parameter, metrics parameter). All
      protocol warnings carry the same text, so their counts say it all. */
  function Warnings(env: Env, p: Params): (warnings: seq<string>)
    ensures forall w :: w in warnings ==> w == MissingServiceNameError || w == InvalidExporterProtocolError
    ensures multiset(warnings)[MissingServiceNameError]
            == if Truthy(Get(env, OtelServiceName, p.serviceName)) then 0
               else if GetOr(env, CloudApplication, DefaultServiceName) != "" then 1
               else 2
    ensures multiset(warnings)[InvalidExporterProtocolError]
            == (if RequestedProtocol(env, p) in ExporterProtocols then 0 else 1)
               + (if InvalidProtocolParam(p.tracesExporterProtocol) then 1 else 0)
               + (if InvalidProtocolParam(p.metricsExporterProtocol) then 1 else 0)
    ensures forall i, j :: 0 <= i < j < |warnings| && warnings[j] == MissingServiceNameError ==>
              warnings[i] == MissingServiceNameError
    ensures MissingServiceNameError in warnings <==> !Truthy(Get(env, OtelServiceName, p.serviceName))
    ensures InvalidExporterProtocolError in warnings <==>
              RequestedProtocol(env, p) !in ExporterProtocols
              || InvalidProtocolParam(p.tracesExporterProtocol)
              || InvalidProtocolParam(p.metricsExporterProtocol)
  {
    var named := Get(env, OtelServiceName, p.serviceName);
    var nameCount :=
      if Truthy(named) then 0
      else if GetOr(env, CloudApplication, DefaultServiceName) != "" then 1
      else 2;
    var protocolCount :=
      (if RequestedProtocol(env, p) in ExporterProtocols then 0 else 1)
      + (if InvalidProtocolParam(p.tracesExporterProtocol) then 1 else 0)
      + (if InvalidProtocolParam(p.metricsExporterProtocol) then 1 else 0);
    var nameWarnings := seq(nameCount, _ => MissingServiceNameError);
    var protocolWarnings := seq(protocolCount, _ => InvalidExporterProtocolError);
    TwoBlocks(nameWarnings, protocolWarnings, MissingServiceNameError, InvalidExporterProtocolError);
    nameWarnings + protocolWarnings
  }

  /** The fields of a constructed `TgtOptions`. */
  datatype Resolved = Resolved(
    deployment: Deployment,
    metricsDisabled: bool,
    tracesDisabled: bool,
    debug: bool,
    logLevel: string,
    serviceName: string,
    serviceVersion: Option<string>,
    tracesExporterProtocol: string,
    metricsExporterProtocol: string,
    tracesEndpoint: string,
    metricsEndpoint: string,
    tracesEndpointInsecure: bool,
    metricsEndpointInsecure: bool)

  /** Every field resolved from the environment and the parameters. */
  function Resolve(env: Env, p: Params): (o: Resolved)
    ensures o.deployment == DetectEnvironment(env)
    ensures o.tracesEndpoint != "" && o.metricsEndpoint != ""
    ensures o.logLevel in LogLevels
    ensures o.debug ==> o.logLevel == "DEBUG"
    ensures o.debug <==> IsSet(env, DebugVar) || p.debug
    ensures o.tracesDisabled <==> IsSet(env, TracesDisabledVar) || p.tracesDisabled
    ensures o.metricsDisabled <==> IsSet(env, MetricsDisabledVar) || p.metricsDisabled
    ensures OtelExporterOtlpTracesProtocol !in env ==> o.tracesExporterProtocol in ExporterProtocols
    ensures OtelExporterOtlpMetricsProtocol !in env ==> o.metricsExporterProtocol in ExporterProtocols
    ensures o.tracesEndpointInsecure
            <==> IsSet(env, OtelExporterOtlpTracesInsecure) || IsSet(env, OtelExporterOtlpInsecure)
                 || p.tracesEndpointInsecure || p.endpointInsecure || p.deployment == TapDeployment
    ensures o.metricsEndpointInsecure
            <==> IsSet(env, OtelExporterOtlpMetricsInsecure) || IsSet(env, OtelExporterOtlpInsecure)
                 || p.metricsEndpointInsecure || p.endpointInsecure || p.deployment == TapDeployment
  {
    Resolved(
      deployment := DetectEnvironment(env),
      metricsDisabled := ParseBool(env, MetricsDisabledVar, p.metricsDisabled),
      tracesDisabled := ParseBool(env, TracesDisabledVar, p.tracesDisabled),
      debug := Debug(env, p),
      logLevel := LogLevel(env, p),
      serviceName := ServiceName(env, p),
      serviceVersion := ServiceVersion(env, p),
      tracesExporterProtocol := SignalProtocol(Traces, env, p),
      metricsExporterProtocol := SignalProtocol(Metrics, env, p),
      tracesEndpoint := SignalEndpoint(Traces, env, p),
      metricsEndpoint := SignalEndpoint(Metrics, env, p),
      tracesEndpointInsecure := SignalInsecure(Traces, env, p),
      metricsEndpointInsecure := SignalInsecure(Metrics, env, p))
  }

  // The steps of the constructor, each proved against the field it resolves.

  /** The log level block: `DEBUG` when debugging, else the chosen name
      upper-cased when it names a level; otherwise the level stays at its
      default. */
  method ResolveLogLevel(env: Env, p: Params, debugging: bool) returns (level: string)
    requires debugging == Debug(env, p)
    ensures level == LogLevel(env, p)
    ensures level in LogLevels
  {
    level := DefaultLogLevel;
    if debugging {
      level := "DEBUG";
    } else {
      var chosen := Get(env, OtelLogLevel, p.logLevel);
      if Truthy(chosen) && Upper(chosen.value) in LogLevels {
        level := Upper(chosen.value);
      }
    }
  }

  /** The service name block: the variable or parameter, then the same
      `CLOUD_APPLICATION` fallback tried twice; the second try can only
      repeat the first. */
  method ResolveServiceName(env: Env, p: Params) returns (name: string)
    ensures name == ServiceName(env, p)
    ensures name == "" ==> CloudApplication in env && env[CloudApplication] == ""
  {
    name := OrEmpty(Get(env, OtelServiceName, p.serviceName));
    if name == "" {
      name := GetOr(env, CloudApplication, DefaultServiceName);
    }
    if name == "" {
      name := GetOr(env, CloudApplication, DefaultServiceName);
    }
  }

  /** The protocol block: the generic protocol is validated and replaced by
      the default; each signal protocol is reset to the generic one only
      when its parameter is invalid. */
  method ResolveProtocols(env: Env, p: Params) returns (traces: string, metrics: string)
    ensures traces == SignalProtocol(Traces, env, p)
    ensures metrics == SignalProtocol(Metrics, env, p)
  {
    var exporterProtocol := GetOr(env, OtelExporterOtlpProtocol, Or(p.exporterProtocol, DefaultExporterProtocol));
    if exporterProtocol !in ExporterProtocols {
      exporterProtocol := DefaultExporterProtocol;
    }

    traces := GetOr(env, OtelExporterOtlpTracesProtocol, Or(p.tracesExporterProtocol, exporterProtocol));
    if Truthy(p.tracesExporterProtocol) && p.tracesExporterProtocol.value !in ExporterProtocols {
      traces := exporterProtocol;
    }

    metrics := GetOr(env, OtelExporterOtlpMetricsProtocol, Or(p.metricsExporterProtocol, exporterProtocol));
    if Truthy(p.metricsExporterProtocol) && p.metricsExporterProtocol.value !in ExporterProtocols {
      metrics := exporterProtocol;
    }
  }

  /** The endpoint block of one signal: each `if not endpoint` falls through
      to the next source. */
  method ResolveEndpoint(signal: Signal, env: Env, p: Params, protocol: string, defaultEndpoint: string)
    returns (endpoint: string)
    requires protocol == SignalProtocol(signal, env, p)
    requires defaultEndpoint == DefaultBase(DetectEnvironment(env))
    ensures endpoint == SignalEndpoint(signal, env, p)
    ensures endpoint != ""
  {
    endpoint := GetOr(env, signal.EndpointVar(), "");
    if endpoint == "" {
      endpoint := AppendPath(signal, protocol, GetOr(env, OtelExporterOtlpEndpoint, ""));
      if endpoint == "" {
        endpoint := OrEmpty(signal.EndpointParam(p));
        if endpoint == "" {
          endpoint := AppendPath(signal, protocol, defaultEndpoint);
        }
      }
    }
    SignalEndpointChain(signal, env, p);
  }

  /** The insecure block: the generic flag, then one flag per signal that
      falls back to it. */
  method ResolveInsecure(env: Env, p: Params) returns (traces: bool, metrics: bool)
    ensures traces == SignalInsecure(Traces, env, p)
    ensures metrics == SignalInsecure(Metrics, env, p)
  {
    var endpointInsecure := ParseBool(env, OtelExporterOtlpInsecure,
                                      p.endpointInsecure || GetDefaultInsecure(p.deployment));
    traces := ParseBool(env, OtelExporterOtlpTracesInsecure, p.tracesEndpointInsecure || endpointInsecure);
    metrics := ParseBool(env, OtelExporterOtlpMetricsInsecure, p.metricsEndpointInsecure || endpointInsecure);
  }

  /** `TgtOptions`: the constructor assigns the fields in the source's order;
      nothing changes them afterwards. */
  class TgtOptions {
    var serviceName: string
    var serviceVersion: Option<string>
    var tracesEndpoint: string
    var metricsEndpoint: string
    var tracesEndpointInsecure: bool
    var metricsEndpointInsecure: bool
    var tracesExporterProtocol: string
    var metricsExporterProtocol: string
    var debug: bool
    var deployment: Deployment
    var metricsDisabled: bool
    var tracesDisabled: bool
    var logLevel: string

    /** The fields as one value. */
    ghost function Fields(): Resolved
      reads this
    {
      Resolved(deployment, metricsDisabled, tracesDisabled, debug, logLevel, serviceName,
               serviceVersion, tracesExporterProtocol, metricsExporterProtocol,
               tracesEndpoint, metricsEndpoint, tracesEndpointInsecure, metricsEndpointInsecure)
    }

    ghost predicate Valid()
      reads this
    {
      tracesEndpoint != "" && metricsEndpoint != "" && logLevel in LogLevels
    }

    constructor (env: Env, p: Params)
      ensures Fields() == Resolve(env, p)
      ensures Valid()
    {
      // Every class-level default is overwritten below before it can be
      // read; `log_level`, which has none, takes DEFAULT_LOG_LEVEL.
      var detected := DetectEnvironment(env);
      deployment := detected;
      var defaultEndpoint := DefaultBase(detected);

      metricsDisabled := ParseBool(env, MetricsDisabledVar, p.metricsDisabled);
      tracesDisabled := ParseBool(env, TracesDisabledVar, p.tracesDisabled);
      var debugging := ParseBool(env, DebugVar, p.debug);
      debug := debugging;
      var level := ResolveLogLevel(env, p, debugging);
      logLevel := level;

      var name := ResolveServiceName(env, p);
      serviceName := name;
      serviceVersion := Get(env, OtelServiceVersion, p.serviceVersion);

      var tracesProtocol, metricsProtocol := ResolveProtocols(env, p);
      tracesExporterProtocol, metricsExporterProtocol := tracesProtocol, metricsProtocol;

      var traces := ResolveEndpoint(Traces, env, p, tracesProtocol, defaultEndpoint);
      tracesEndpoint := traces;
      var metrics := ResolveEndpoint(Metrics, env, p, metricsProtocol, defaultEndpoint);
      metricsEndpoint := metrics;

      var tracesInsecure, metricsInsecure := ResolveInsecure(env, p);
      tracesEndpointInsecure, metricsEndpointInsecure := tracesInsecure, metricsInsecure;
    }

    /** `get_traces_endpoint`: the stored traces endpoint, never empty. */
    method GetTracesEndpoint() returns (endpoint: string)
      requires Valid()
      ensures endpoint == tracesEndpoint && endpoint != ""
    {
      endpoint := tracesEndpoint;
    }

    /** `get_metrics_endpoint`: the stored metrics endpoint, never empty. */
    method GetMetricsEndpoint() returns (endpoint: string)
      requires Valid()
      ensures endpoint == metricsEndpoint && endpoint != ""
    {
      endpoint := metricsEndpoint;
    }
  }
}
