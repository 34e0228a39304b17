/** Three places where `options.py`, as written, raises instead of resolving
    a setting. Each is modelled here as the code stands, next to the
    exhibit that shows it; the `Options` module uses the evidently intended
    behaviour. Each as-written member models its own defect with the other
    two taken as corrected. */
module Findings {
  import opened PyStr
  import opened Options
  import opened OptionsLemmas

  /** The Python exceptions the defects raise. */
  datatype PyError = TypeError | UnboundLocalError | AttributeError

  /** A value, or the exception raised instead of computing it. */
  datatype Outcome<T> = Ok(value: T) | Raised(error: PyError)

  /** A positional argument of a call: left out, or passed (possibly as a
      Python `None`, here `PyStr.None`). */
  datatype Argument = Omitted | Passed(value: Option<string>)

  // ---------------------------------------------------------------------
  // parse_bool declares a fourth parameter that most callers omit

  /** `parse_bool` as declared: four positional parameters, none defaulted.
      A call that omits `deployment` raises `TypeError` before the body
      runs; a call that passes it, whatever its value, gets the intended
      `ParseBool`, since the body never reads it. */
  function ParseBoolAsWritten(env: Env, name: string, fallback: bool, deployment: Argument): (r: Outcome<bool>)
    ensures r == Raised(TypeError) <==> deployment == Omitted
    ensures r.Ok? ==> (r.value <==> IsSet(env, name) || fallback)
  {
    if deployment == Omitted then Raised(TypeError) else Ok(ParseBool(env, name, fallback))
  }

  /** The first call of the constructor passes three arguments, so every
      construction raises `TypeError`, whatever the environment; the
      intended flag is the variable or the parameter. */
  lemma MetricsDisabledCallRaises(env: Env, p: Params)
    ensures ParseBoolAsWritten(env, MetricsDisabledVar, p.metricsDisabled, Omitted) == Raised(TypeError)
    ensures ParseBool(env, MetricsDisabledVar, p.metricsDisabled) <==> IsSet(env, MetricsDisabledVar) || p.metricsDisabled
  {
  }

  // ---------------------------------------------------------------------
  // DEFAULT_EXPORTER_OTLP_ENDPOINT is a local of __init__

  /** The value the name `DEFAULT_EXPORTER_OTLP_ENDPOINT` has inside the
      constructor: the assignments for TAP and STORES make it a local
      variable, so for any other deployment it is unbound (`None`) rather
      than the module's constant. */
  function DefaultBaseAsWritten(d: Deployment): (base: Option<string>)
    ensures base.None? <==> d == Unknown
    ensures base.Some? ==> base.value == DefaultBase(d)
  {
    match d
    case Tap => Some(TapExporterOtlpEndpoint)
    case Stores => Some(StoresExporterOtlpEndpoint)
    case Unknown => None
  }

  /** A signal's endpoint chain as written: reaching the last fallback with
      an unbound default raises `UnboundLocalError`. Whenever it does not
      raise it agrees with the intended `SignalEndpoint`, and it raises
      exactly when no source supplies an endpoint outside TAP and STORES. */
  function SignalEndpointAsWritten(signal: Signal, env: Env, p: Params): (r: Outcome<string>)
    ensures r.Ok? ==> r.value == SignalEndpoint(signal, env, p)
    ensures r.Raised? <==> (GetOr(env, signal.EndpointVar(), "") == ""
                            && AppendPath(signal, SignalProtocol(signal, env, p), GetOr(env, OtelExporterOtlpEndpoint, "")) == ""
                            && !Truthy(signal.EndpointParam(p))
                            && DetectEnvironment(env) == Unknown)
    ensures r.Raised? ==> r.error == UnboundLocalError
  {
    SignalEndpointChain(signal, env, p);
    var protocol := SignalProtocol(signal, env, p);
    var own := GetOr(env, signal.EndpointVar(), "");
    var generic := AppendPath(signal, protocol, GetOr(env, OtelExporterOtlpEndpoint, ""));
    var param := OrEmpty(signal.EndpointParam(p));
    if own != "" then Ok(own)
    else if generic != "" then Ok(generic)
    else if param != "" then Ok(param)
    else
      var base := DefaultBaseAsWritten(DetectEnvironment(env));
      if base.None? then Raised(UnboundLocalError) else Ok(AppendPath(signal, protocol, base.value))
  }

  /** With an empty environment and no parameters the chain as written
      raises, where the intended endpoint is the module default with the
      signal's path. */
  lemma EmptyEnvironmentEndpointRaises()
    ensures SignalEndpointAsWritten(Traces, map[], DefaultParams()) == Raised(UnboundLocalError)
    ensures SignalEndpoint(Traces, map[], DefaultParams()) == DefaultExporterOtlpEndpoint + "/" + TracesHttpPath
  {
    DefaultEndpointsWithEmptyEnvironment();
  }

  // ---------------------------------------------------------------------
  // log_level has no class-level default

  /** The log level as written: without debugging and without a valid
      level, `self.log_level` is never assigned and has no class default,
      so reading it for `basicConfig` raises `AttributeError`. Whenever it
      does not raise it agrees with the intended `LogLevel`. */
  function LogLevelAsWritten(env: Env, p: Params): (r: Outcome<string>)
    ensures r.Ok? ==> r.value == LogLevel(env, p)
    ensures r.Raised? <==> !Debug(env, p) && !ValidLevel(Get(env, OtelLogLevel, p.logLevel))
    ensures r.Raised? ==> r.error == AttributeError
  {
    if Debug(env, p) then Ok("DEBUG")
    else
      var chosen := Get(env, OtelLogLevel, p.logLevel);
      if ValidLevel(chosen) then Ok(Upper(chosen.value)) else Raised(AttributeError)
  }

  /** With an empty environment and no parameters the level as written
      raises, where the intended level is `ERROR`. */
  lemma EmptyEnvironmentLogLevelRaises()
    ensures LogLevelAsWritten(map[], DefaultParams()) == Raised(AttributeError)
    ensures LogLevel(map[], DefaultParams()) == DefaultLogLevel
  {
  }
}
