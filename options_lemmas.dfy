/** Properties of the option resolver: path suffixing, the precedence of
    each setting's sources, and the consequences of the resolver's quirks. */
module OptionsLemmas {
  import opened PyStr
  import opened Options

  // ---------------------------------------------------------------------
  // Path suffixing

  /** Suffixing an endpoint a second time changes nothing. */
  lemma AppendPathIdempotent(signal: Signal, protocol: string, endpoint: string)
    ensures AppendPath(signal, protocol, AppendPath(signal, protocol, endpoint))
            == AppendPath(signal, protocol, endpoint)
  {
  }

  /** An endpoint that already carries the signal's path after a `/` is
      left as it is. */
  lemma AppendPathKeepsSuffixed(signal: Signal, protocol: string, prefix: string)
    ensures AppendPath(signal, protocol, prefix + "/" + signal.HttpPath())
            == prefix + "/" + signal.HttpPath()
  {
    SignalPathsValid(signal);
    StripKeepsPathSuffix(prefix, signal.HttpPath());
  }

  /** An endpoint with no `/` at either end and no path yet simply gets
      `/` + path. */
  lemma AppendPathToBareEndpoint(signal: Signal, endpoint: string)
    requires endpoint != "" && endpoint[0] != '/' && endpoint[|endpoint| - 1] != '/'
    requires !EndsWith(endpoint, signal.HttpPath())
    ensures AppendPath(signal, ExporterProtocolHttpProto, endpoint) == endpoint + "/" + signal.HttpPath()
  {
    StripUnbordered(endpoint, '/');
  }

  // ---------------------------------------------------------------------
  // Endpoint precedence

  /** A non-empty signal-specific variable is used verbatim, whatever the
      generic variable and the parameters say. */
  lemma SignalVarEndpointWins(signal: Signal, env: Env, p: Params)
    requires IsSet(env, signal.EndpointVar())
    ensures SignalEndpoint(signal, env, p) == env[signal.EndpointVar()]
  {
    SignalEndpointChain(signal, env, p);
  }

  /** Without it, a non-empty generic variable wins, suffixed with the
      signal's path under the signal's protocol; it beats the parameter. */
  lemma GenericVarEndpointNext(signal: Signal, env: Env, p: Params)
    requires !IsSet(env, signal.EndpointVar())
    requires IsSet(env, OtelExporterOtlpEndpoint)
    ensures SignalEndpoint(signal, env, p)
            == AppendPath(signal, SignalProtocol(signal, env, p), env[OtelExporterOtlpEndpoint])
  {
    SignalEndpointChain(signal, env, p);
  }

  /** Without either variable, a non-empty parameter is used verbatim. */
  lemma ParamEndpointNext(signal: Signal, env: Env, p: Params)
    requires !IsSet(env, signal.EndpointVar()) && !IsSet(env, OtelExporterOtlpEndpoint)
    requires Truthy(signal.EndpointParam(p))
    ensures SignalEndpoint(signal, env, p) == signal.EndpointParam(p).value
  {
    SignalEndpointChain(signal, env, p);
  }

  /** Without any endpoint source, the deployment's base is used, suffixed
      under the signal's protocol. */
  lemma NoSourcesGivesBase(signal: Signal, env: Env, p: Params)
    requires !IsSet(env, signal.EndpointVar()) && !IsSet(env, OtelExporterOtlpEndpoint)
    requires !Truthy(signal.EndpointParam(p))
    ensures SignalEndpoint(signal, env, p)
            == AppendPath(signal, SignalProtocol(signal, env, p), DefaultBase(DetectEnvironment(env)))
  {
    SignalEndpointChain(signal, env, p);
  }

  /** Every deployment's base gets exactly `/` + the signal's path. */
  lemma DefaultBaseGetsPath(signal: Signal, d: Deployment)
    ensures AppendPath(signal, ExporterProtocolHttpProto, DefaultBase(d)) == DefaultBase(d) + "/" + signal.HttpPath()
  {
    var base := DefaultBase(d);
    assert !EndsWith(base, signal.HttpPath());
    AppendPathToBareEndpoint(signal, base);
  }

  /** Last comes the deployment's base, which under `http/protobuf` gets
      exactly `/` + the signal's path. */
  lemma DefaultEndpointLast(signal: Signal, env: Env, p: Params)
    requires !IsSet(env, signal.EndpointVar()) && !IsSet(env, OtelExporterOtlpEndpoint)
    requires !Truthy(signal.EndpointParam(p))
    requires SignalProtocol(signal, env, p) == ExporterProtocolHttpProto
    ensures SignalEndpoint(signal, env, p)
            == DefaultBase(DetectEnvironment(env)) + "/" + signal.HttpPath()
  {
    NoSourcesGivesBase(signal, env, p);
    DefaultBaseGetsPath(signal, DetectEnvironment(env));
  }

  /** With an empty environment and no parameters, each endpoint is the
      module default with its signal's path. */
  lemma DefaultEndpointsWithEmptyEnvironment()
    ensures SignalEndpoint(Traces, map[], DefaultParams()) == DefaultExporterOtlpEndpoint + "/" + TracesHttpPath
    ensures SignalEndpoint(Metrics, map[], DefaultParams()) == DefaultExporterOtlpEndpoint + "/" + MetricsHttpPath
  {
    DefaultEndpointLast(Traces, map[], DefaultParams());
    DefaultEndpointLast(Metrics, map[], DefaultParams());
  }

  /** In a container (TAP) the base is the local collector. */
  lemma TapEndpoints(container: string)
    requires container != ""
    ensures DetectEnvironment(map[ContainerVar := container]) == Tap
    ensures SignalEndpoint(Traces, map[ContainerVar := container], DefaultParams())
            == TapExporterOtlpEndpoint + "/" + TracesHttpPath
    ensures SignalEndpoint(Metrics, map[ContainerVar := container], DefaultParams())
            == TapExporterOtlpEndpoint + "/" + MetricsHttpPath
  {
    var env := map[ContainerVar := container];
    assert !IsSet(env, OtelExporterOtlpEndpoint);
    assert !IsSet(env, OtelExporterOtlpTracesEndpoint) && !IsSet(env, OtelExporterOtlpMetricsEndpoint);
    assert DetectEnvironment(env) == Tap;
    DefaultEndpointLast(Traces, env, DefaultParams());
    DefaultEndpointLast(Metrics, env, DefaultParams());
  }

  /** The generic variable gets the signal's path; the signal's own variable
      is taken verbatim. */
  lemma GenericAndSpecificVarEndpoints(endpoint: string)
    requires endpoint != "" && endpoint[0] != '/' && endpoint[|endpoint| - 1] != '/'
    requires !EndsWith(endpoint, TracesHttpPath)
    ensures SignalEndpoint(Traces, map[OtelExporterOtlpEndpoint := endpoint], DefaultParams())
            == endpoint + "/" + TracesHttpPath
    ensures SignalEndpoint(Traces, map[OtelExporterOtlpEndpoint := endpoint, OtelExporterOtlpTracesEndpoint := endpoint],
                           DefaultParams()) == endpoint
  {
    var env := map[OtelExporterOtlpEndpoint := endpoint];
    GenericVarEndpointNext(Traces, env, DefaultParams());
    AppendPathToBareEndpoint(Traces, endpoint);
    SignalVarEndpointWins(Traces, env[OtelExporterOtlpTracesEndpoint := endpoint], DefaultParams());
  }

  /** A signal protocol variable that is present but empty is kept, and then
      no path is appended to the default base. */
  lemma EmptySignalProtocolSkipsPath()
    ensures SignalProtocol(Traces, map[OtelExporterOtlpTracesProtocol := ""], DefaultParams()) == ""
    ensures SignalEndpoint(Traces, map[OtelExporterOtlpTracesProtocol := ""], DefaultParams())
            == DefaultExporterOtlpEndpoint
  {
    NoSourcesGivesBase(Traces, map[OtelExporterOtlpTracesProtocol := ""], DefaultParams());
  }

  // ---------------------------------------------------------------------
  // Protocols

  /** An invalid signal parameter resets the signal protocol to the generic
      one even over a signal variable; without it the variable is kept,
      however invalid. */
  lemma InvalidSignalProtocolParamBeatsVar(value: string, bogus: string)
    requires bogus != "" && bogus !in ExporterProtocols
    ensures SignalProtocol(Traces, map[OtelExporterOtlpTracesProtocol := value],
                           DefaultParams().(tracesExporterProtocol := Some(bogus))) == ExporterProtocolHttpProto
    ensures SignalProtocol(Traces, map[OtelExporterOtlpTracesProtocol := value], DefaultParams()) == value
  {
  }

  // ---------------------------------------------------------------------
  // Booleans

  /** `parse_bool` reads any non-empty text as true, `"FALSE"` included. */
  lemma ParseBoolFalseTextIsTrue(env: Env, name: string, fallback: bool)
    requires name in env && env[name] == "FALSE"
    ensures ParseBool(env, name, fallback)
  {
  }

  /** Each insecure flag in closed form: it is false only when neither
      insecure variable is set, no insecure parameter is true and the
      deployment parameter is not TAP. */
  lemma SignalInsecureClosedForm(signal: Signal, env: Env, p: Params)
    ensures SignalInsecure(signal, env, p)
            <==> IsSet(env, signal.InsecureVar()) || IsSet(env, OtelExporterOtlpInsecure)
                 || signal.InsecureParam(p) || p.endpointInsecure || p.deployment == TapDeployment
  {
  }

  /** The detected deployment does not reach the insecure default: only the
      `deployment` parameter does. */
  lemma DetectedTapKeepsSecureDefault(container: string)
    requires container != ""
    ensures DetectEnvironment(map[ContainerVar := container]) == Tap
    ensures !SignalInsecure(Traces, map[ContainerVar := container], DefaultParams())
    ensures !SignalInsecure(Metrics, map[ContainerVar := container], DefaultParams())
    ensures SignalInsecure(Traces, map[], DefaultParams().(deployment := TapDeployment))
  {
    var env := map[ContainerVar := container];
    assert !IsSet(env, OtelExporterOtlpInsecure);
    assert !IsSet(env, OtelExporterOtlpTracesInsecure) && !IsSet(env, OtelExporterOtlpMetricsInsecure);
  }

  /** The insecure default follows the deployment named by the parameter,
      which for the detected class is its name: only TAP defaults to
      insecure. */
  lemma InsecureDefaultOfDeployment(d: Deployment)
    ensures GetDefaultInsecure(d.Name()) <==> d == Tap
    ensures GetDefaultInsecure(DefaultParams().deployment) == false
  {
  }

  /** The `deployment` parameter changes the insecure flags and nothing
      else. */
  lemma DeploymentParamOnlyAffectsInsecure(env: Env, p: Params, deployment: string)
    ensures var a := Resolve(env, p);
            var b := Resolve(env, p.(deployment := deployment));
            a.(tracesEndpointInsecure := false, metricsEndpointInsecure := false)
            == b.(tracesEndpointInsecure := false, metricsEndpointInsecure := false)
  {
    SignalEndpointChain(Traces, env, p);
    SignalEndpointChain(Traces, env, p.(deployment := deployment));
    SignalEndpointChain(Metrics, env, p);
    SignalEndpointChain(Metrics, env, p.(deployment := deployment));
  }

  // ---------------------------------------------------------------------
  // Log level

  /** Debugging forces `DEBUG` over an explicit level. */
  lemma DebugOverridesLogLevelParam()
    ensures Resolve(map[], DefaultParams().(debug := true, logLevel := Some("INFO"))).logLevel == "DEBUG"
  {
  }

  /** When not debugging, a present `OTEL_LOG_LEVEL` decides alone: the
      parameter is never consulted, even when the variable is empty or names
      no level. */
  lemma LogLevelVarShadowsParam(env: Env, p: Params, other: Option<string>)
    requires OtelLogLevel in env
    ensures LogLevel(env, p) == LogLevel(env, p.(logLevel := other))
  {
  }

  /** Level names are accepted in any case and stored upper-cased. */
  lemma LowerCaseLevelAccepted()
    ensures LogLevel(map[OtelLogLevel := "info"], DefaultParams()) == "INFO"
  {
    var upper := Upper("info");
    assert upper == "INFO" by {
      assert |upper| == 4;
      assert upper[0] == 'I' && upper[1] == 'N' && upper[2] == 'F' && upper[3] == 'O';
    }
  }

  // ---------------------------------------------------------------------
  // Service name

  /** `OTEL_SERVICE_NAME` set but empty hides the parameter: the name comes
      from the fallbacks instead. */
  lemma EmptyServiceNameVarHidesParam(name: string)
    requires name != ""
    ensures ServiceName(map[OtelServiceName := ""], DefaultParams().(serviceName := Some(name)))
            == DefaultServiceName
  {
  }

  // ---------------------------------------------------------------------
  // Warnings

  /** An empty environment and no parameters give a service name warning
      and nothing else. */
  lemma DefaultWarnings()
    ensures Warnings(map[], DefaultParams()) == [MissingServiceNameError]
  {
  }

  /** A named service with valid protocols logs nothing. */
  lemma NoWarningsWhenConfigured(env: Env, p: Params)
    requires IsSet(env, OtelServiceName)
    requires RequestedProtocol(env, p) in ExporterProtocols
    requires !InvalidProtocolParam(p.tracesExporterProtocol) && !InvalidProtocolParam(p.metricsExporterProtocol)
    ensures Warnings(env, p) == []
  {
  }
}
