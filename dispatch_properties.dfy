/**
 * Properties of backend selection and of the exporters the adapters build
 * under default settings, and a caller that configures tracing twice.
 */
module DispatchProperties {
  import opened Wrappers
  import opened Strings
  import opened Environment
  import opened Transport
  import opened Resolvers
  import opened Dispatch

  /** Naming a backend and selecting by that name are inverse. */
  lemma BackendNameRoundTrip(b: Backend, name: string)
    ensures b != Otlp ==> BackendNamed(NameOf(b)) == b
    ensures BackendNamed(name) != Otlp ==> NameOf(BackendNamed(name)) == name
  {
  }

  /** A string with no upper-case letter and no Kelvin sign is already lower-case. */
  lemma {:induction false} LowerOfLowerCase(s: string)
    requires forall k :: 0 <= k < |s| ==> !('A' <= s[k] <= 'Z') && s[k] != '\U{212A}'
    ensures Lower(s) == s
  {
    if s != [] {
      LowerOfLowerCase(s[1..]);
      assert s == [s[0]] + s[1..];
    }
  }

  /** With `TRACING_BACKEND` unset, the console backend is chosen. */
  lemma UnsetBackendIsConsole(env: Env)
    requires "TRACING_BACKEND" !in env
    ensures SelectBackend(env) == Backend.Console
  {
    LowerOfLowerCase("console");
  }

  /** `TRACING_BACKEND` set to the empty string is not the default: it is generic OTLP. */
  lemma EmptyBackendIsOtlp(env: Env)
    requires "TRACING_BACKEND" in env && env["TRACING_BACKEND"] == ""
    ensures SelectBackend(env) == Otlp
  {
  }

  /** The name is matched without regard to case: lower-casing it first changes nothing. */
  lemma SelectBackendIgnoresCase(env: Env, name: string)
    requires "TRACING_BACKEND" in env && env["TRACING_BACKEND"] == name
    ensures SelectBackend(env) == SelectBackend(env["TRACING_BACKEND" := Lower(name)])
  {
    LowerIdempotent(name);
  }

  /** `LangFuse` selects the Langfuse adapter. */
  lemma MixedCaseLangfuse(env: Env)
    requires "TRACING_BACKEND" in env && env["TRACING_BACKEND"] == "LangFuse"
    ensures SelectBackend(env) == Backend.Langfuse
  {
    assert Lower("LangFuse") == "langfuse";
  }

  /**
   * An unrecognised name such as `weird-value` falls back to generic OTLP:
   * lower-casing keeps its length, which no backend name has.
   */
  lemma UnknownBackendIsOtlp(env: Env)
    requires "TRACING_BACKEND" in env && env["TRACING_BACKEND"] == "weird-value"
    ensures SelectBackend(env) == Otlp
  {
    assert |Lower("weird-value")| == 11;
  }

  /** Only the console backend exports to the console. */
  lemma ConsoleOnlyForConsole(env: Env)
    ensures ExporterFor(SelectBackend(env), env).Console?
            <==> Lower(GetEnvOr(env, "TRACING_BACKEND", "console")) == "console"
  {
  }

  /** `localhost:4317` is a gRPC target and is passed through unchanged, with its headers. */
  lemma LocalGrpcUnchanged(headers: map<string, string>)
    ensures GetOtlpExporter(OtlpDefaultEndpoint, headers) == Grpc(OtlpDefaultEndpoint, headers)
  {
    assert OtlpDefaultEndpoint[0] == 'l';
  }

  /**
   * With no endpoint and no header variables, the generic adapter exports
   * over gRPC to `localhost:4317` without headers.
   */
  lemma GenericDefaultIsLocalGrpc(env: Env)
    requires "OTEL_EXPORTER_OTLP_TRACES_ENDPOINT" !in env && "OTEL_EXPORTER_OTLP_ENDPOINT" !in env
    requires "OTEL_EXPORTER_OTLP_HEADERS" !in env
    ensures ExporterFor(Otlp, env) == Grpc(OtlpDefaultEndpoint, map[])
  {
    assert OtlpDefaultEndpoint[0] == 'l';
    assert !IsHttpUrl(OtlpDefaultEndpoint);
  }

  /** An OTLP backend whose endpoint is an HTTP URL without the traces path gets it appended. */
  lemma HttpExporterFor(b: Backend, env: Env, endpoint: string)
    requires b != Backend.Console && TargetFor(b, env).endpoint == endpoint
    requires IsHttpUrl(endpoint) && !EndsWith(endpoint, TracesPath)
    ensures ExporterFor(b, env) == Http(endpoint + TracesPath, TargetFor(b, env).headers)
  {
  }

  /** The default Langfuse OTLP endpoint is an HTTP URL without the traces path. */
  lemma LangfuseDefaultEndpointIsHttp()
    ensures IsHttpUrl(LangfuseDefaultHost + LangfuseOtelPath)
    ensures !EndsWith(LangfuseDefaultHost + LangfuseOtelPath, TracesPath)
  {
    assert LangfuseDefaultHost == "http://" + "localhost:3000";
    StartsWithItself("http://", "localhost:3000");
    StartsWithExtended(LangfuseDefaultHost, "http://", LangfuseOtelPath);
    var endpoint := LangfuseDefaultHost + LangfuseOtelPath;
    assert endpoint[|endpoint| - 1] == LangfuseOtelPath[|LangfuseOtelPath| - 1] == 'l';
    NotEndsWithLast(endpoint, TracesPath);
  }

  /**
   * With no host set, the Langfuse adapter exports over HTTP to the local
   * instance's OTLP path followed by `/v1/traces`.
   */
  lemma LangfuseDefaultIsLocalHttp(env: Env)
    requires "LANGFUSE_HOST" !in env
    ensures ExporterFor(Backend.Langfuse, env) == Http(LangfuseDefaultHost + LangfuseOtelPath + TracesPath, LangfuseHeaders(env))
  {
    LangfuseDefaultHostEndpoint(env);
    LangfuseDefaultEndpointIsHttp();
    HttpExporterFor(Backend.Langfuse, env, LangfuseDefaultHost + LangfuseOtelPath);
  }

  /** With no endpoint set, the Phoenix adapter exports over HTTP to the local instance. */
  lemma PhoenixDefaultIsLocalHttp(env: Env)
    requires "PHOENIX_ENDPOINT" !in env
    ensures ExporterFor(Backend.Phoenix, env) == Http(PhoenixDefaultEndpoint + TracesPath, PhoenixHeaders(env))
  {
    assert PhoenixDefaultEndpoint == "http://" + "localhost:6006";
    StartsWithItself("http://", "localhost:6006");
    assert PhoenixDefaultEndpoint[|PhoenixDefaultEndpoint| - 1] == '6';
    NotEndsWithLast(PhoenixDefaultEndpoint, TracesPath);
    HttpExporterFor(Backend.Phoenix, env, PhoenixDefaultEndpoint);
  }

  /** The default LangSmith URL is not an EU URL and lacks the OTLP path. */
  lemma LangsmithDefaultUrlIsUs()
    ensures !Contains(LangsmithDefaultUrl, "eu.api")
    ensures !EndsWith(LangsmithDefaultUrl, LangsmithOtelPath)
  {
    NotContainsFirstChar(LangsmithDefaultUrl, "eu.api");
    assert LangsmithDefaultUrl[|LangsmithDefaultUrl| - 1] == 'm';
    NotEndsWithLast(LangsmithDefaultUrl, LangsmithOtelPath);
  }

  /** The default LangSmith OTLP endpoint is an HTTPS URL without the traces path. */
  lemma LangsmithDefaultEndpointIsHttp()
    ensures IsHttpUrl(LangsmithDefaultUrl + LangsmithOtelPath)
    ensures !EndsWith(LangsmithDefaultUrl + LangsmithOtelPath, TracesPath)
  {
    assert LangsmithDefaultUrl == "https://" + "api.smith.langchain.com";
    StartsWithItself("https://", "api.smith.langchain.com");
    StartsWithExtended(LangsmithDefaultUrl, "https://", LangsmithOtelPath);
    var endpoint := LangsmithDefaultUrl + LangsmithOtelPath;
    assert endpoint[|endpoint| - 1] == LangsmithOtelPath[|LangsmithOtelPath| - 1] == 'l';
    NotEndsWithLast(endpoint, TracesPath);
  }

  /** With no endpoint set, the LangSmith adapter exports over HTTPS to the US API's OTLP path. */
  lemma LangsmithDefaultIsHttps(env: Env)
    requires "LANGSMITH_ENDPOINT" !in env
    ensures ExporterFor(LangSmith, env) == Http(LangsmithDefaultUrl + LangsmithOtelPath + TracesPath, LangsmithHeaders(env))
  {
    LangsmithDefaultUrlIsUs();
    LangsmithDefaultEndpointIsHttp();
    HttpExporterFor(LangSmith, env, LangsmithDefaultUrl + LangsmithOtelPath);
  }

  /** Configuring with an empty environment succeeds and exports to the console only. */
  method ConsoleByDefault(serviceName: Option<string>) returns (tracer: Tracer)
    ensures tracer.provider.processors == [Transport.Console]
    ensures tracer.name == if Truthy(serviceName) then serviceName.value else FallbackServiceName
  {
    var tracing := new Tracing();
    var env: Env := map[];
    var warning;
    UnsetBackendIsConsole(env);
    tracer, warning := tracing.ConfigureTracing(env, DefaultServiceName(env), serviceName, Attached);
  }

  /**
   * Configuring twice installs a second, distinct provider; the first keeps
   * its own processor, so a tracer obtained before still exports through it.
   */
  method ConfigureTwice(first: Env, second: Env, name: string)
    returns (before: Tracer, after: Tracer)
    ensures before.provider != after.provider
    ensures before.provider.processors == [ExporterFor(SelectBackend(first), first)]
    ensures after.provider.processors == [ExporterFor(SelectBackend(second), second)]
    ensures before.name == after.name == if name == "" then FallbackServiceName else name
  {
    var tracing := new Tracing();
    var warning;
    before, warning := tracing.ConfigureTracing(first, FallbackServiceName, Some(name), Attached);
    after, warning := tracing.ConfigureTracing(second, FallbackServiceName, Some(name), Attached);
  }
}
