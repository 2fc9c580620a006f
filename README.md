# Tracing backend factory, modelled in Dafny

This project models the tracing-backend factory of the tracing tutorial, `src/tracing_tutorial/tracing/backends.py`. The factory reads the process environment. It picks one of five backends (Langfuse, LangSmith, Arize Phoenix, a generic OTLP collector, or the console), builds a tracer provider carrying the service's resource attributes, and installs it as the global provider. It then lets the chosen adapter add one batching span processor around an OTLP exporter (or the console exporter), and returns a tracer named for the service.

The model is split by concern:

- `strings.dfy` holds the Python `str` operations the factory uses: `startswith`, `endswith`, substring `in`, `split(",")`, `split("=", 1)`, `strip()` and `lower()`.
- `utf8.dfy` and `base64.dfy` hold UTF-8 (RFC 3629) and base64 (section 4 of RFC 4648). These are the `credentials.encode()` and `base64.b64encode` inside the Langfuse Basic credentials of section 2 of RFC 7617. `base64.dfy` has a full decoder, with round trips in both directions. `utf8.dfy` encodes whole strings, but decodes only the bytes of a single character (`DecodeScalar`), so its round trip is per character.
- `environment.dfy` reads the environment, a finite map, the way `os.getenv` does, and gives Python truthiness and `or`.
- `header_parser.dfy` parses the `OTEL_EXPORTER_OTLP_HEADERS` list, as a loop proved against a fold.
- `transport.dfy` is the transport selector `_get_otlp_exporter`.
- `resolvers.dfy` holds the per-backend endpoint and header resolvers, as pure functions of the environment.
- `providers.dfy` holds the `TracerProvider` class and the five `_setup_*` adapters, as methods that append to its processors.
- `dispatch.dfy` has the backend selection, `_ensure_provider` and `configure_tracing`. `configure_tracing` is a method of a `Tracing` object whose `global` field holds the installed provider and is replaced on each call.
- `dispatch_properties.dfy` holds lemmas about selection and the default endpoints. It also has two callers: one configures from an empty environment, the other configures twice.

The environment, the value of `DEFAULT_SERVICE_NAME` and the outcome of the LangChain instrumentation attempt are parameters. The warning the source prints is returned as a value.

## Model

| member | source | states |
|---|---|---|
| Strings.StartsWith | src/tracing_tutorial/tracing/backends.py:50 | `s.startswith(p)`; its partner lemmas `StartsWithExtended`, `StartsWithItself` and `StartsWithPrefix` state that a prefix survives extension, that a string starts with itself, and that a prefix of a prefix is a prefix |
| Strings.EndsWith | src/tracing_tutorial/tracing/backends.py:55 | `s.endswith(p)`; its partner lemmas `EndsWithAppended` and `NotEndsWithLast` state that `s + p` ends with `p` and that a differing last character rules a suffix out |
| Strings.Contains | src/tracing_tutorial/tracing/backends.py:72-74 | the `in` substring test; its partner `ContainsIffOccurs` states that it holds exactly when `t` occurs at some index of `s` |
| Strings.ContainsIffOccurs | src/tracing_tutorial/tracing/backends.py:72-74 | `t in s` holds exactly when `t` occurs contiguously at some index of `s` |
| Strings.IsSpace | src/tracing_tutorial/tracing/backends.py:155 | exactly the characters `str.isspace` accepts, the set `strip()` removes from both ends |
| Strings.Trim | src/tracing_tutorial/tracing/backends.py:155 | `strip()` never lengthens its input, and a non-empty result neither starts nor ends with a character `str.isspace` accepts |
| Strings.TrimIsInfix | src/tracing_tutorial/tracing/backends.py:155 | the stripped string is the input with only whitespace cut from its two ends |
| Strings.TrimIdempotent | src/tracing_tutorial/tracing/backends.py:155 | stripping twice gives the same result as stripping once |
| Strings.Lower | src/tracing_tutorial/tracing/backends.py:178 | `lower()` keeps the length and lower-cases each character in place |
| Strings.LowerIdempotent | src/tracing_tutorial/tracing/backends.py:178 | lower-casing twice gives the same result as lower-casing once |
| Strings.Split | src/tracing_tutorial/tracing/backends.py:152 | `split(sep)` gives at least one piece, no piece holds `sep`, and joining the pieces with `sep` rebuilds the input |
| Strings.SplitJoin | src/tracing_tutorial/tracing/backends.py:152 | splitting undoes joining for any list of separator-free pieces |
| Strings.SplitFirst | src/tracing_tutorial/tracing/backends.py:154 | `split("=", 1)` gives a head with no `=` and a tail such that head, `=`, tail rebuild the segment |
| Utf8.EncodeChar | src/tracing_tutorial/tracing/backends.py:90 | a character encodes in the shortest form: one byte equal to the code point below 0x80, two bytes below 0x800, three below 0x10000, four otherwise; the lead byte lies in [0xC0, 0xE0), [0xE0, 0xF0) or [0xF0, 0xF8) as the length is two, three or four, and every continuation byte in [0x80, 0xC0) |
| Utf8.DecodeEncodeChar | src/tracing_tutorial/tracing/backends.py:90 | decoding the bytes of a character gives back its code point |
| Utf8.Encode | src/tracing_tutorial/tracing/backends.py:90 | `str.encode()`; its partner lemmas `EncodeConcat`, `EncodeAscii` and `EncodeLength` state that it is the concatenation of the per-character encodings, one byte per ASCII character, between n and 4n bytes |
| Utf8.EncodeConcat | src/tracing_tutorial/tracing/backends.py:89-90 | the encoding of a concatenation is the concatenation of the encodings |
| Utf8.EncodeAscii | src/tracing_tutorial/tracing/backends.py:90 | an ASCII string encodes to one byte per character, each byte its code point |
| Utf8.EncodeLength | src/tracing_tutorial/tracing/backends.py:90 | a string of n characters encodes to between n and 4n bytes |
| Base64.Encode | src/tracing_tutorial/tracing/backends.py:90 | `base64.b64encode`; its partner lemmas `DecodeEncode`, `EncodeDecode` and `EncodeLength` state that the decoder inverts it in both directions and that its length is four characters per started group of three bytes |
| Base64.DecodeEncode | src/tracing_tutorial/tracing/backends.py:90 | decoding the output of `b64encode` gives back exactly the input bytes |
| Base64.EncodeDecode | src/tracing_tutorial/tracing/backends.py:90 | every string the decoder accepts is the encoding of what it decodes to, so the padded encoding is canonical |
| Base64.EncodeLength | src/tracing_tutorial/tracing/backends.py:90 | the encoding has four characters for every started group of three bytes |
| Environment.GetEnv | src/tracing_tutorial/tracing/backends.py:83-84 | `os.getenv(name)` is present exactly when the variable is set, and then holds its value |
| Environment.GetEnvOr | src/tracing_tutorial/tracing/backends.py:69 | `os.getenv(name, default)` gives the value whenever the variable is set, even to `""`, and the default only when it is unset |
| Environment.Truthy | src/tracing_tutorial/tracing/backends.py:87 | an optional string is truthy exactly when it is set and non-empty, as `if public_key and secret_key:` (line 87), `if api_key:` (lines 112, 133), `if project:` (line 117) and the `or` of line 143 test it |
| Environment.Or | src/tracing_tutorial/tracing/backends.py:143-144 | Python's `a or b` picks `a` exactly when it is present and non-empty |
| HeaderParser.PairOf | src/tracing_tutorial/tracing/backends.py:153-155 | a segment contributes a header exactly when it holds `=` |
| HeaderParser.PairOfSegment | src/tracing_tutorial/tracing/backends.py:153-155 | the segment `k=v`, with no `=` in `k`, contributes the header `strip(k)`: `strip(v)`, whatever `=` the value holds |
| HeaderParser.ParseHeaderList | src/tracing_tutorial/tracing/backends.py:147-150 | an empty header variable gives no headers |
| HeaderParser.ParseHeaders | src/tracing_tutorial/tracing/backends.py:147-155 | the loop that fills the dictionary segment by segment computes the header map of the fold |
| HeaderParser.PairsOf | src/tracing_tutorial/tracing/backends.py:152-155 | the segments become one optional pair each, in order, a pair exactly for the segments holding `=` |
| HeaderParser.HeadersOf | src/tracing_tutorial/tracing/backends.py:148-155 | the dictionary the loop builds; its partners `HeadersOfKeys` and `HeadersOfLastWins` state that its keys are exactly those some segment sets and that the last such segment gives the value |
| HeaderParser.HeadersOfLast | src/tracing_tutorial/tracing/backends.py:155 | one loop step sets the segment's key to its value and leaves every other key as it was |
| HeaderParser.HeadersOfKeys | src/tracing_tutorial/tracing/backends.py:152-155 | a key is in the map exactly when some segment sets it |
| HeaderParser.HeadersOfLastWins | src/tracing_tutorial/tracing/backends.py:152-155 | a key's value comes from the last segment that sets it |
| HeaderParser.ParseHeaderListIsFold | src/tracing_tutorial/tracing/backends.py:150-152 | the `if headers_str:` guard changes nothing: the empty string splits into one segment without `=` |
| HeaderParser.ParseHeaderListKeys | src/tracing_tutorial/tracing/backends.py:147-155 | for any header string, its keys are exactly those of the segments holding `=` |
| HeaderParser.ParseHeaderListValue | src/tracing_tutorial/tracing/backends.py:147-155 | for any header string, a key maps to the value of the last segment with that key |
| HeaderParserExamples.ParseJoined | src/tracing_tutorial/tracing/backends.py:152 | parsing comma-free segments joined by `,` folds over exactly those segments |
| HeaderParserExamples.TwoPairs | src/tracing_tutorial/tracing/backends.py:147-155 | `k1=v1,k2=v2` gives `{strip(k1): strip(v1), strip(k2): strip(v2)}`, the second value winning when the keys coincide |
| HeaderParserExamples.MalformedSegmentDropped | src/tracing_tutorial/tracing/backends.py:152-155 | `bad,k=v` gives `{strip(k): strip(v)}`: the segment without `=` is dropped |
| Transport.IsHttpUrl | src/tracing_tutorial/tracing/backends.py:50 | the scheme test; `GetOtlpExporter` states that it holds exactly when the HTTP exporter is chosen |
| Transport.WithTracesPath | src/tracing_tutorial/tracing/backends.py:55-56 | the result ends in `/v1/traces` and extends the endpoint: unchanged if it already ends so, otherwise with the path appended |
| Transport.GetOtlpExporter | src/tracing_tutorial/tracing/backends.py:47-63 | an `http://` or `https://` endpoint, and only such an endpoint, gives the HTTP exporter, normalised to end in `/v1/traces`; any other gives the gRPC exporter with the endpoint unchanged; headers pass through as given |
| Transport.WithTracesPathIdempotent | src/tracing_tutorial/tracing/backends.py:55-56 | normalising twice gives the same endpoint as normalising once |
| Transport.GetOtlpExporterIdempotent | src/tracing_tutorial/tracing/backends.py:47-63 | feeding an exporter's own endpoint back through the selector gives the same exporter |
| Resolvers.LangfuseEndpoint | src/tracing_tutorial/tracing/backends.py:71-80 | every Langfuse endpoint ends in `/api/public/otel`; a `cloud.langfuse.com` host goes to the US or EU cloud endpoint as it mentions `us.cloud`; any other host gets the path appended |
| Resolvers.BasicCredentials | src/tracing_tutorial/tracing/backends.py:89-91 | the value starts with `Basic `, and its token base64-decodes to the UTF-8 bytes of the public key, `:`, and the secret key |
| Resolvers.LangfuseHeaders | src/tracing_tutorial/tracing/backends.py:83-91 | the only possible header is `Authorization`; it is present exactly when both keys are set and non-empty, and then holds their Basic credentials |
| Resolvers.LangsmithEndpoint | src/tracing_tutorial/tracing/backends.py:102-106 | every LangSmith endpoint ends in `/otel`; an `eu.api` URL goes to the fixed EU endpoint; any other URL gets `/otel` appended unless it already ends with it |
| Resolvers.LangsmithHeaders | src/tracing_tutorial/tracing/backends.py:108-118 | only `x-api-key` and `Langsmith-Project` can appear; each is present exactly when its variable is non-empty, and then holds that value |
| Resolvers.PhoenixHeaders | src/tracing_tutorial/tracing/backends.py:129-134 | only `authorization` can appear, present exactly when `PHOENIX_API_KEY` is non-empty, and then holds that key |
| Resolvers.GenericOtlpEndpoint | src/tracing_tutorial/tracing/backends.py:143-144 | a non-empty traces endpoint wins; otherwise the general endpoint variable, even when set to `""`; otherwise `localhost:4317` |
| Resolvers.Langfuse | src/tracing_tutorial/tracing/backends.py:69-91 | the Langfuse endpoint ends in `/api/public/otel`; the only possible header is `Authorization`, present exactly when both keys are non-empty |
| Resolvers.Langsmith | src/tracing_tutorial/tracing/backends.py:100-118 | the LangSmith endpoint ends in `/otel`, is the fixed EU endpoint for an `eu.api` URL, and only `x-api-key` and `Langsmith-Project` can appear as headers |
| Resolvers.Phoenix | src/tracing_tutorial/tracing/backends.py:127-134 | the Phoenix endpoint is the variable whenever it is set, even to `""`, and `http://localhost:6006` otherwise; only `authorization` can appear as a header |
| Resolvers.GenericOtlp | src/tracing_tutorial/tracing/backends.py:143-155 | a non-empty traces endpoint wins, with `localhost:4317` when neither endpoint variable applies; an unset or empty header variable gives no headers |
| Resolvers.LangfuseUsHostIgnoresPath | src/tracing_tutorial/tracing/backends.py:72-75 | a host containing `us.cloud.langfuse.com` goes to the US cloud endpoint whatever follows it |
| Resolvers.LangfuseDefaultHostIsLocal | src/tracing_tutorial/tracing/backends.py:69-72 | the default host is not a Langfuse cloud host |
| Resolvers.LangfuseDefaultHostEndpoint | src/tracing_tutorial/tracing/backends.py:69-80 | with `LANGFUSE_HOST` unset, the endpoint is the local default host followed by `/api/public/otel` |
| Resolvers.LangsmithEuEndpointIsEu | src/tracing_tutorial/tracing/backends.py:103-104 | the fixed EU endpoint is itself recognised as an EU URL |
| Resolvers.LangsmithEndpointIdempotent | src/tracing_tutorial/tracing/backends.py:103-106 | resolving a LangSmith endpoint a second time changes nothing |
| Providers.TracerProvider.constructor | src/tracing_tutorial/tracing/backends.py:42 | a new provider carries the given resource and no processors |
| Providers.TracerProvider.AddSpanProcessor | src/tracing_tutorial/tracing/backends.py:94 | the exporter is appended after the existing processors, which are kept |
| Providers.OtlpExporterFor | src/tracing_tutorial/tracing/backends.py:93 | an adapter's exporter carries the resolved headers, and uses HTTP exactly when the resolved endpoint is an HTTP(S) URL |
| Providers.SetupLangfuse | src/tracing_tutorial/tracing/backends.py:66-94 | the adapter appends exactly one processor: the exporter for the Langfuse endpoint and headers |
| Providers.SetupLangsmith | src/tracing_tutorial/tracing/backends.py:97-121 | the adapter appends exactly one processor: the exporter for the LangSmith endpoint and headers |
| Providers.SetupPhoenix | src/tracing_tutorial/tracing/backends.py:124-137 | the adapter appends exactly one processor: the exporter for the Phoenix endpoint and headers |
| Providers.SetupGenericOtlp | src/tracing_tutorial/tracing/backends.py:140-158 | the adapter appends exactly one processor: the exporter for the generic endpoint and the parsed headers |
| Providers.SetupConsole | src/tracing_tutorial/tracing/backends.py:161-163 | the adapter appends exactly one processor, the console exporter |
| Dispatch.SelectBackend | src/tracing_tutorial/tracing/backends.py:178 | the backend the lower-cased variable names; its partners `UnsetBackendIsConsole`, `EmptyBackendIsOtlp`, `SelectBackendIgnoresCase` and `ConsoleOnlyForConsole` state the console default, that `""` is not defaulted, case-insensitivity and when the console is chosen |
| Dispatch.DefaultServiceName | src/tracing_tutorial/tracing/backends.py:32 | the default service name is the variable whenever it is set, even to `""`, and `tracing-tutorial` otherwise |
| Dispatch.TargetFor | src/tracing_tutorial/tracing/backends.py:184-194 | each OTLP backend resolves its own endpoint and headers: Langfuse and LangSmith endpoints on their OTLP paths, Phoenix from its variable, generic OTLP from the endpoint chain and the parsed header variable |
| Dispatch.BackendNamed | src/tracing_tutorial/tracing/backends.py:184-194 | each of `langfuse`, `langsmith`, `phoenix`, `console` selects its own backend, and exactly every other name selects generic OTLP |
| Dispatch.ResourceAttributes | src/tracing_tutorial/tracing/backends.py:37-41 | the resource has exactly the keys `service.name`, `service.version` and `deployment.environment`, with the service name and the set values, defaulting to `0.1.0` and `dev` |
| Dispatch.ExporterFor | src/tracing_tutorial/tracing/backends.py:184-194 | the console exporter is chosen exactly for the console backend; every other backend gets an OTLP exporter with the resolved headers, over HTTP exactly when the resolved endpoint is an HTTP(S) URL |
| Dispatch.SetupBackend | src/tracing_tutorial/tracing/backends.py:184-194 | the dispatch hands the provider to exactly one adapter, which appends that backend's exporter |
| Dispatch.InstrumentationWarning | src/tracing_tutorial/tracing/backends.py:196-207 | a warning is produced exactly when attaching did not succeed, with the message for a missing package or for a failed attach |
| Dispatch.Tracing.EnsureProvider | src/tracing_tutorial/tracing/backends.py:35-44 | a fresh provider with the resource attributes and no processors becomes the global provider |
| Dispatch.Tracing.ConfigureTracing | src/tracing_tutorial/tracing/backends.py:178-209 | once the exporter packages import, configuration succeeds: the global provider is replaced by a fresh one with the service's attributes and exactly the selected backend's exporter; the tracer is named for the service and bound to it; an instrumentation failure only yields a warning |
| DispatchProperties.BackendNameRoundTrip | src/tracing_tutorial/tracing/backends.py:184-194 | naming a non-OTLP backend and selecting by that name are inverse |
| DispatchProperties.UnsetBackendIsConsole | src/tracing_tutorial/tracing/backends.py:178-191 | with `TRACING_BACKEND` unset the console backend is chosen |
| DispatchProperties.EmptyBackendIsOtlp | src/tracing_tutorial/tracing/backends.py:178-194 | `TRACING_BACKEND` set to `""` is not defaulted and selects generic OTLP |
| DispatchProperties.SelectBackendIgnoresCase | src/tracing_tutorial/tracing/backends.py:178 | lower-casing the variable beforehand never changes the backend |
| DispatchProperties.MixedCaseLangfuse | src/tracing_tutorial/tracing/backends.py:178-185 | `LangFuse` selects the Langfuse adapter |
| DispatchProperties.UnknownBackendIsOtlp | src/tracing_tutorial/tracing/backends.py:192-194 | `weird-value` falls back to generic OTLP |
| DispatchProperties.ConsoleOnlyForConsole | src/tracing_tutorial/tracing/backends.py:178-194 | spans go to the console exactly when the lower-cased backend name is `console` |
| DispatchProperties.LocalGrpcUnchanged | src/tracing_tutorial/tracing/backends.py:59-63 | `localhost:4317` gives the gRPC exporter with the endpoint and headers unchanged |
| DispatchProperties.GenericDefaultIsLocalGrpc | src/tracing_tutorial/tracing/backends.py:143-158 | with no OTLP variables, the generic adapter exports over gRPC to `localhost:4317` without headers |
| DispatchProperties.LangfuseDefaultIsLocalHttp | src/tracing_tutorial/tracing/backends.py:69-94 | with no Langfuse host, spans go over HTTP to `http://localhost:3000/api/public/otel/v1/traces` |
| DispatchProperties.PhoenixDefaultIsLocalHttp | src/tracing_tutorial/tracing/backends.py:127-137 | with no Phoenix endpoint, spans go over HTTP to `http://localhost:6006/v1/traces` |
| DispatchProperties.LangsmithDefaultIsHttps | src/tracing_tutorial/tracing/backends.py:100-121 | with no LangSmith endpoint, spans go over HTTPS to `https://api.smith.langchain.com/otel/v1/traces` |
| DispatchProperties.ConsoleByDefault | src/tracing_tutorial/tracing/backends.py:178-209 | configuring from an empty environment succeeds and gives a tracer whose provider exports only to the console |
| DispatchProperties.ConfigureTwice | src/tracing_tutorial/tracing/backends.py:35-44 | a second configuration installs a distinct provider; the first keeps its own single processor, so a tracer obtained earlier still exports through it |

## Left out

- The OpenTelemetry SDK is not modelled. That covers `Resource.create` (its merge of SDK default attributes), `TracerProvider` internals, `BatchSpanProcessor` batching and background flushing, and the exporters' network I/O. A processor is represented by the exporter it wraps.
- `trace.set_tracer_provider` is modelled as replacing the global provider on every call, because `_ensure_provider` hands it a new provider at line 43 each time `configure_tracing` runs. The OpenTelemetry API itself accepts only the first provider and ignores later ones with a warning. That library rule lives outside this repository and is not modelled.
- The exporter imports inside `_get_otlp_exporter` (lines 52 and 61) are assumed to succeed. If the HTTP or gRPC exporter package is missing, the `ImportError` propagates out of `configure_tracing`, unlike the guarded LangChain import; that failure is not modelled.
- `trace.get_tracer(service)` is a library lookup. It is modelled as a tracer named for the service and bound to the installed provider.
- `load_dotenv()` and the import-time read of `DEFAULT_SERVICE_NAME` (line 32) are file and environment I/O. The default name is a parameter of `ConfigureTracing`, and `Dispatch.DefaultServiceName` gives the value that read would produce.
- The LangChain instrumentation attach (lines 196-207) is a dynamic import into foreign code. Its outcome is a parameter, and the warning is returned instead of printed.
- Strings.Lower: lower-cases ASCII `A`-`Z` and the Kelvin sign (lower-cased to `k`) only. Other characters are left unchanged, although Python would lower-case other non-ASCII letters. No other character lower-cases to text made only of ASCII letters, so backend selection is unaffected.
- Utf8.EncodeChar: has no error path for lone surrogates, because a Dafny `char` is always a Unicode scalar value.
- src/tracing_tutorial/supervisor_demo.py, src/tracing_tutorial/scripts/run_demo.py and tests/test_imports.py are not part of this model. They are demo wiring, an entry point and an import check, and hold none of the factory's logic.
