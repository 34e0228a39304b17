# TgtOptions option resolver in Dafny

This project models the option resolver of the Target OpenTelemetry
distribution, `tgt.opentelemetry.options`. `TgtOptions` settles each
setting of the telemetry SDK once, when it is constructed. The settings are
the service name and version, the traces and metrics endpoints, their
protocols and insecure flags, the debug flag, the log level and the two
"disabled" switches. Each setting is read from three sources in a fixed
order: the process environment, then the constructor's parameters, then
the module's defaults. The default endpoint also depends on the deployment
the process runs in, which is detected from the environment:

- a container is TAP, with a local collector;
- a store site is STORES;
- anything else is UNKNOWN.

Under `http/protobuf`, generic endpoints get the signal's path
(`/v1/traces` or `/v1/metrics`) appended.

The Dafny files:

- `pystr.dfy` (module `PyStr`) holds the parts of Python the resolver leans
  on: `Optional[str]`, truthiness, `a or b`, `str.strip`, `str.endswith`
  and `str.upper`.
- `options.dfy` (module `Options`) holds the module constants and helpers.
  It has one specification function per field, written as the precedence
  chain that field follows, and `Resolve`, which gathers all of them. It
  also holds the class `TgtOptions`. Its constructor assigns the fields
  step by step, in the source's order, and is proved to produce exactly
  `Resolve(env, p)`.
- `options_lemmas.dfy` (module `OptionsLemmas`) holds the properties that
  relate several calls or settings. These cover path suffixing, the
  precedence of every source, the default endpoints, and the consequences
  of the resolver's quirks.
- `findings.dfy` (module `Findings`) holds three defects of the code as
  written. Each has an input that exposes it once the defects before it in
  the constructor are corrected; as written, the first one stops every
  construction. The `Options` module models the evidently intended
  behaviour in their place.

The environment is an immutable `map<string, string>`. A variable set to
`""` is present but falsy, just as it is for `os.environ.get`. A Python
`None` parameter is `None` of `PyStr.Option`.

## Model

| member | source | states |
|---|---|---|
| PyStr.Truthy | src/tgt/opentelemetry/options.py:122 | Python truthiness of an optional string: false exactly for `None` and `""` |
| PyStr.Or | src/tgt/opentelemetry/options.py:246-248 | `a or b` on an optional string: a non-empty `a`, otherwise `b` |
| PyStr.OrEmpty | src/tgt/opentelemetry/options.py:273-279 | the string an `if not x` test sees: empty exactly when the value is `None` or `""`, and otherwise the value itself |
| PyStr.EndsWith | src/tgt/opentelemetry/options.py:87 | `s.endswith(suffix)` holds iff `s` is some prefix followed by `suffix` |
| PyStr.LStrip | src/tgt/opentelemetry/options.py:88-89 | the result is the suffix left after a run of the stripped character, and it does not start with that character |
| PyStr.RStrip | src/tgt/opentelemetry/options.py:88-89 | the result is the prefix before a run of the stripped character, and it does not end with that character |
| PyStr.Strip | src/tgt/opentelemetry/options.py:88-89 | `strip("/")`: the result is the input with its leading run and its trailing run of `/` removed (every removed character is `/`, the rest is a contiguous slice of the input), and it has no `/` at either end |
| PyStr.StripUnbordered | src/tgt/opentelemetry/options.py:88-89 | a string with no `/` at either end strips to itself |
| PyStr.UpperChar | src/tgt/opentelemetry/options.py:225-226 | `a`-`z` map to `A`-`Z`, `ı` (U+0131) to `I`, `ſ` (U+017F) to `S`, and every other character is unchanged (the case mappings this leaves out are listed under "## Left out") |
| PyStr.Upper | src/tgt/opentelemetry/options.py:225-226 | `upper()` keeps the length and upper-cases character by character |
| Options.DefaultParams | src/tgt/opentelemetry/options.py:180-194 | the constructor's default arguments: every optional string `None` except `exporter_protocol`, which is `http/protobuf`; every flag false; deployment `UNKNOWN` |
| Options.Deployment.Name | src/tgt/opentelemetry/options.py:138-148 | the string `detect_environment` returns: `TAP`, `STORES` or `UNKNOWN`, one per deployment class |
| Options.Get | src/tgt/opentelemetry/options.py:224 | `os.environ.get(key, default)`: the variable's value when present (even empty), otherwise the default |
| Options.GetOr | src/tgt/opentelemetry/options.py:233-235 | the same lookup with a string default |
| Options.StripKeepsPathSuffix | src/tgt/opentelemetry/options.py:87-89 | whatever precedes `/` + path, the stripped whole still ends with the path, so a joined endpoint is never suffixed a second time |
| Options.AppendPath | src/tgt/opentelemetry/options.py:78-103 | under `http/protobuf` a non-empty endpoint ends, once stripped, with the signal's path. The result is the endpoint itself or its stripped form + `/` + path. It is unchanged when the endpoint is empty, the protocol differs or the path is already there. It is empty exactly when the endpoint is empty |
| Options.ParseBool | src/tgt/opentelemetry/options.py:105-127 | true when the variable holds any non-empty text (`bool(str)` never fails), otherwise the fallback |
| Options.GetDefaultInsecure | src/tgt/opentelemetry/options.py:129-135 | insecure by default exactly for the TAP deployment |
| Options.DetectEnvironment | src/tgt/opentelemetry/options.py:138-148 | TAP iff `container` is non-empty; STORES iff it is not but `SITE_NAME` is; UNKNOWN iff neither is |
| Options.DefaultBase | src/tgt/opentelemetry/options.py:198-202 | the default endpoint per deployment: `127.0.0.1:4318` for TAP, `telemetry.storeapi.target.com` for STORES, `telemetry.prod.target.com` otherwise. It is non-empty, has no `/` at either end and carries no signal path |
| Options.FirstNonEmpty | src/tgt/opentelemetry/options.py:269-284 | a chain of `if not x` fallbacks gives `""` iff every candidate is empty, otherwise one of the candidates |
| Options.FirstNonEmptyPicks | src/tgt/opentelemetry/options.py:269-284 | the chain picks the first non-empty candidate, after only empty ones |
| Options.FirstNonEmptyOfFour | src/tgt/opentelemetry/options.py:269-284 | a four-step chain equals its nested-`if` form |
| Options.InvalidProtocolParam | src/tgt/opentelemetry/options.py:256-257 | a signal protocol parameter is rejected iff it is non-empty and not `http/protobuf` |
| Options.RequestedProtocol | src/tgt/opentelemetry/options.py:246-248 | the generic protocol before validation: the variable when present, else a non-empty parameter, else `http/protobuf` |
| Options.GenericProtocol | src/tgt/opentelemetry/options.py:246-251 | the validated generic protocol is always accepted. It keeps an accepted request, and since only `http/protobuf` is accepted it is always the default |
| Options.SignalProtocol | src/tgt/opentelemetry/options.py:253-267 | an invalid signal parameter resets the protocol to the generic one even over the variable. Otherwise a present variable is kept verbatim, even empty or invalid. Without the variable the result is the parameter or the generic protocol, and always accepted |
| Options.EndpointCandidates | src/tgt/opentelemetry/options.py:269-303 | four sources in precedence order, the last of which (the deployment default) is never empty |
| Options.SignalEndpoint | src/tgt/opentelemetry/options.py:269-303 | a signal's endpoint is never empty |
| Options.SignalEndpointChain | src/tgt/opentelemetry/options.py:269-303 | the endpoint is the signal's variable, else the generic variable with the path, else the parameter, else the deployment default with the path |
| Options.GenericInsecure | src/tgt/opentelemetry/options.py:305-310 | generic insecure iff `OTEL_EXPORTER_OTLP_INSECURE` is non-empty, the parameter is true, or the deployment parameter is TAP |
| Options.SignalInsecure | src/tgt/opentelemetry/options.py:311-320 | a non-empty signal variable makes it insecure; otherwise it is the signal parameter or the generic flag |
| Options.Debug | src/tgt/opentelemetry/options.py:216-220 | debugging iff `DEBUG` is non-empty or the parameter is true |
| Options.ValidLevel | src/tgt/opentelemetry/options.py:225 | a chosen level passes iff it is present and its upper-cased form is a key of `log_levels` (the empty string is no key, so the truthiness test adds nothing) |
| Options.LogLevel | src/tgt/opentelemetry/options.py:221-226 | always a known level. It is `DEBUG` when debugging; otherwise the upper-cased variable-or-parameter when that names a level; otherwise `ERROR` |
| Options.ServiceName | src/tgt/opentelemetry/options.py:230-241 | the non-empty variable wins. Without the variable a non-empty parameter is used. Otherwise `CLOUD_APPLICATION` or `unknown_service:python` is used. The name is empty iff `CLOUD_APPLICATION` is present but empty and either the variable is set to `""`, or the variable is absent and the parameter is `None` or `""` |
| Options.ServiceVersion | src/tgt/opentelemetry/options.py:243-244 | the variable when present (even empty), else the parameter |
| Options.Warnings | src/tgt/opentelemetry/options.py:230-267 | only the two warning texts are logged, every service-name warning before every protocol warning. The service-name warning is logged 0 times when a non-empty name was given, twice when `CLOUD_APPLICATION` is present but empty, once otherwise. The protocol warning is logged once for each of the generic request, the traces parameter and the metrics parameter that is rejected |
| Options.Resolve | src/tgt/opentelemetry/options.py:178-320 | the detected deployment, non-empty endpoints, a known log level that is `DEBUG` when debugging, the debug, disabled and insecure flags in closed form (a signal is insecure iff its own or the generic insecure variable is non-empty, its own or the generic insecure parameter is true, or the deployment parameter is TAP), and accepted protocols when no signal variable is set; the service name and version are left to `ServiceName` and `ServiceVersion` |
| Options.ResolveLogLevel | src/tgt/opentelemetry/options.py:221-226 | the log-level block computes `LogLevel` |
| Options.ResolveServiceName | src/tgt/opentelemetry/options.py:230-241 | the service-name block, with its repeated fallback, computes `ServiceName`; the result is empty only when `CLOUD_APPLICATION` is empty |
| Options.ResolveProtocols | src/tgt/opentelemetry/options.py:246-267 | the protocol block computes `SignalProtocol` for both signals |
| Options.ResolveEndpoint | src/tgt/opentelemetry/options.py:269-303 | the endpoint block of a signal computes `SignalEndpoint` and is never empty |
| Options.ResolveInsecure | src/tgt/opentelemetry/options.py:305-320 | the insecure block computes `SignalInsecure` for both signals |
| Options.TgtOptions.constructor | src/tgt/opentelemetry/options.py:178-320 | the constructed fields are exactly `Resolve(env, p)`, so both endpoints are non-empty and the level is known |
| Options.TgtOptions.GetTracesEndpoint | src/tgt/opentelemetry/options.py:322-326 | returns the stored traces endpoint, which is never empty |
| Options.TgtOptions.GetMetricsEndpoint | src/tgt/opentelemetry/options.py:328-332 | returns the stored metrics endpoint, which is never empty |
| OptionsLemmas.AppendPathIdempotent | src/tgt/opentelemetry/options.py:78-103 | suffixing a second time changes nothing |
| OptionsLemmas.AppendPathKeepsSuffixed | src/tgt/opentelemetry/options.py:87-89 | an endpoint that already ends in `/` + the signal's path is left as it is, under any protocol |
| OptionsLemmas.AppendPathToBareEndpoint | src/tgt/opentelemetry/options.py:87-89 | an endpoint with no `/` at either end and no path gets exactly `/` + path |
| OptionsLemmas.SignalVarEndpointWins | src/tgt/opentelemetry/options.py:269-273 | a non-empty signal variable is the endpoint, verbatim, over the generic variable and every parameter |
| OptionsLemmas.GenericVarEndpointNext | src/tgt/opentelemetry/options.py:273-277 | without the signal variable, a non-empty generic variable wins, suffixed under the signal's protocol |
| OptionsLemmas.ParamEndpointNext | src/tgt/opentelemetry/options.py:278-279 | without either variable, a non-empty parameter is used verbatim |
| OptionsLemmas.NoSourcesGivesBase | src/tgt/opentelemetry/options.py:280-284 | without any source, the deployment default is used, suffixed under the signal's protocol |
| OptionsLemmas.DefaultBaseGetsPath | src/tgt/opentelemetry/options.py:198-202 | every deployment default gets exactly `/` + the signal's path under `http/protobuf` |
| OptionsLemmas.DefaultEndpointLast | src/tgt/opentelemetry/options.py:280-303 | without any source, under `http/protobuf`, the endpoint is the deployment default + `/` + path |
| OptionsLemmas.DefaultEndpointsWithEmptyEnvironment | src/tgt/opentelemetry/options.py:280-303 | with nothing set, the endpoints are `telemetry.prod.target.com/v1/traces` and `telemetry.prod.target.com/v1/metrics` |
| OptionsLemmas.TapEndpoints | src/tgt/opentelemetry/options.py:198-200 | in a container the deployment is TAP and the endpoints are `127.0.0.1:4318/v1/traces` and `127.0.0.1:4318/v1/metrics` |
| OptionsLemmas.GenericAndSpecificVarEndpoints | src/tgt/opentelemetry/options.py:269-277 | the generic variable gets `/v1/traces`; the traces variable is used verbatim |
| OptionsLemmas.EmptySignalProtocolSkipsPath | src/tgt/opentelemetry/options.py:253-284 | a traces protocol variable set to `""` is kept, and then the default endpoint gets no path |
| OptionsLemmas.InvalidSignalProtocolParamBeatsVar | src/tgt/opentelemetry/options.py:253-259 | an invalid traces parameter resets the protocol to `http/protobuf` over any variable; without it the variable is kept verbatim |
| OptionsLemmas.ParseBoolFalseTextIsTrue | src/tgt/opentelemetry/options.py:121-124 | `"FALSE"` reads as true |
| OptionsLemmas.SignalInsecureClosedForm | src/tgt/opentelemetry/options.py:305-320 | a signal is insecure iff either insecure variable is non-empty, either insecure parameter is true, or the deployment parameter is TAP |
| OptionsLemmas.DetectedTapKeepsSecureDefault | src/tgt/opentelemetry/options.py:305-310 | a detected TAP deployment leaves both flags secure; only the `deployment` parameter set to TAP makes them insecure |
| OptionsLemmas.InsecureDefaultOfDeployment | src/tgt/opentelemetry/options.py:129-135 | of the three deployment names only `TAP` defaults to insecure, and the default `deployment` argument does not |
| OptionsLemmas.DeploymentParamOnlyAffectsInsecure | src/tgt/opentelemetry/options.py:192-307 | the `deployment` parameter changes the two insecure flags and no other field |
| OptionsLemmas.DebugOverridesLogLevelParam | src/tgt/opentelemetry/options.py:216-222 | `debug=True, log_level="INFO"` gives `DEBUG` |
| OptionsLemmas.LogLevelVarShadowsParam | src/tgt/opentelemetry/options.py:224-226 | when not debugging, a present `OTEL_LOG_LEVEL` decides alone; the parameter is never consulted, even when the variable is empty or invalid |
| OptionsLemmas.LowerCaseLevelAccepted | src/tgt/opentelemetry/options.py:225-226 | `OTEL_LOG_LEVEL=info` gives `INFO` |
| OptionsLemmas.EmptyServiceNameVarHidesParam | src/tgt/opentelemetry/options.py:230-235 | `OTEL_SERVICE_NAME` set to `""` hides the parameter, and the name falls back to `unknown_service:python` |
| OptionsLemmas.DefaultWarnings | src/tgt/opentelemetry/options.py:230-267 | with nothing set, the one warning logged is the missing service name |
| OptionsLemmas.NoWarningsWhenConfigured | src/tgt/opentelemetry/options.py:230-267 | a named service with accepted protocols logs nothing |
| Findings.ParseBoolAsWritten | src/tgt/opentelemetry/options.py:105-108 | a call that omits the fourth argument raises `TypeError`; a call that passes it, even as `None`, agrees with `ParseBool` |
| Findings.MetricsDisabledCallRaises | src/tgt/opentelemetry/options.py:204-208 | the constructor's first `parse_bool` call raises, where the intended flag is the variable or the parameter |
| Findings.DefaultBaseAsWritten | src/tgt/opentelemetry/options.py:198-202 | the default endpoint name is unbound exactly for UNKNOWN, and otherwise agrees with `DefaultBase` |
| Findings.SignalEndpointAsWritten | src/tgt/opentelemetry/options.py:269-303 | the chain raises `UnboundLocalError` exactly when no source supplies an endpoint and the deployment is UNKNOWN; otherwise it agrees with `SignalEndpoint` |
| Findings.EmptyEnvironmentEndpointRaises | src/tgt/opentelemetry/options.py:280-284 | with nothing set, the traces chain raises, where the intended endpoint is `telemetry.prod.target.com/v1/traces` |
| Findings.LogLevelAsWritten | src/tgt/opentelemetry/options.py:221-228 | reading the level raises `AttributeError` exactly when not debugging and no valid level is given; otherwise it agrees with `LogLevel` |
| Findings.EmptyEnvironmentLogLevelRaises | src/tgt/opentelemetry/options.py:221-228 | with nothing set, reading the level raises, where the intended level is `ERROR` |

## Left out

- Logging: `logging.basicConfig` and the `_logger.warning` calls have no
  effect on any field. The warnings are modelled only as the `Warnings`
  sequence, which the constructor does not emit.
- The environment is read as one immutable map. A concurrent change of
  `os.environ` during construction is not modelled.
- A `None` passed for one of the boolean parameters behaves as `False`
  inside every `x or y` the resolver applies to it, so those parameters
  are plain `bool`.
- PyStr.Upper, PyStr.UpperChar: map only `a`-`z`, `ı` and `ſ`, one character to one.
  Python's other case mappings are left out, including those that change
  the length, such as `ß` to `SS` and the ligatures `ﬀ`, `ﬁ`, `ﬂ`, `ﬃ`,
  `ﬄ`, `ﬅ` and `ﬆ` to `FF`, `FI`, `FL`, `FFI`, `FFL`, `ST` and `ST`. None
  of them can change the `in log_levels` test. Every other character is
  left unchanged or upper-cases to text holding a non-ASCII character,
  which no level name contains. And none of the names `NOTSET`, `DEBUG`,
  `INFO`, `WARNING`, `ERROR` and `CRITICAL` contains `SS`, `FF`, `FI`,
  `FL` or `ST`.
- Options.ParseBool: the docstring of `parse_bool`
  (src/tgt/opentelemetry/options.py:110-111) says that a value that fails
  to parse gives the default. The code calls `bool(str)`, which reads any
  non-empty text as true and never raises, so the warning branch cannot be
  taken. This model follows the code.
- Options.Resolve: the defects under "## Findings" are corrected here.
  Every construction of the code as written raises `TypeError`.
- `tests/test_options.py` imports names that `options.py` does not define
  (`DEFAULT_API_ENDPOINT`, the `HONEYCOMB_*` settings, `SAMPLE_RATE`). Many
  of its tests also pass parameters the constructor does not declare
  (`endpoint`, API keys, sample rates, datasets). Those settings are not
  part of this model, and the tests are not used as a source of expected
  values.
- `trace.py`, `metrics.py`, `sampler.py`, `resource.py`, `distro.py` and
  the example application are not part of this model. They wire the
  resolved options into the SDK.

## Findings

| source | as written | input that shows it | evidently intended | confidence | as-written member | corrected member |
|---|---|---|---|---|---|---|
| src/tgt/opentelemetry/options.py:105-108 | `parse_bool` declares a fourth positional parameter `deployment`, but five of its six calls pass three arguments | any construction, e.g. `TgtOptions()` with an empty environment: the three-argument call at line 204 raises `TypeError` | `parse_bool` takes three arguments, and every flag is the variable or the fallback | not executed | Findings.MetricsDisabledCallRaises | Options.ParseBool |
| src/tgt/opentelemetry/options.py:198-202 | assigning `DEFAULT_EXPORTER_OTLP_ENDPOINT` inside `__init__` makes it a local, unbound for UNKNOWN | once the `parse_bool` calls pass four arguments and a valid level is chosen (for example `debug=True` or `log_level="INFO"`): empty environment and no endpoint parameter, so line 283 raises `UnboundLocalError` | the module default `telemetry.prod.target.com`, suffixed with the signal's path | not executed | Findings.EmptyEnvironmentEndpointRaises | Options.DefaultBase |
| src/tgt/opentelemetry/options.py:221-228 | `self.log_level` is set only when debugging or when a valid level is given, and the class has no default | once the `parse_bool` calls pass four arguments: empty environment, `debug=False`, no `log_level`, so line 228 raises `AttributeError` | `DEFAULT_LOG_LEVEL`, i.e. `ERROR` | not executed | Findings.EmptyEnvironmentLogLevelRaises | Options.LogLevel |
