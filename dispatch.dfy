/**
 * `configure_tracing`: read the backend name, build and install a fresh
 * provider with the service's resource attributes, let the chosen adapter add
 * its single processor, try to attach the LangChain instrumentation, and
 * return a tracer named for the service.
 */
module Dispatch {
  import opened Wrappers
  import opened Strings
  import opened Environment
  import Transport
  import Resolvers
  import HeaderParser
  import opened Providers

  /** The closed set of backends; an unrecognised name means generic OTLP. */
  datatype Backend = Langfuse | LangSmith | Phoenix | Console | Otlp

  /** The backend a lower-cased name selects. */
  function BackendNamed(name: string): (b: Backend)
    ensures b == Langfuse <==> name == "langfuse"
    ensures b == LangSmith <==> name == "langsmith"
    ensures b == Phoenix <==> name == "phoenix"
    ensures b == Console <==> name == "console"
    ensures b == Otlp <==> name !in {"langfuse", "langsmith", "phoenix", "console"}
  {
    if name == "langfuse" then Langfuse
    else if name == "langsmith" then LangSmith
    else if name == "phoenix" then Phoenix
    else if name == "console" then Console
    else Otlp
  }

  /** The name that selects a backend other than generic OTLP. */
  function NameOf(b: Backend): string
    requires b != Otlp
  {
    match b
    case Langfuse => "langfuse"
    case LangSmith => "langsmith"
    case Phoenix => "phoenix"
    case Console => "console"
  }

  /** `os.getenv("TRACING_BACKEND", "console").lower()`, resolved to a backend. */
  function SelectBackend(env: Env): Backend {
    BackendNamed(Lower(GetEnvOr(env, "TRACING_BACKEND", "console")))
  }

  /** The service name used when the variable is unset at import time. */
  const FallbackServiceName := "tracing-tutorial"

  /**
   * `DEFAULT_SERVICE_NAME`, as the environment read at import time gives it:
   * the variable whenever it is set, even to `""`, and the fallback otherwise.
   */
  function DefaultServiceName(env: Env): (r: string)
    ensures "OTEL_SERVICE_NAME" in env ==> r == env["OTEL_SERVICE_NAME"]
    ensures "OTEL_SERVICE_NAME" !in env ==> r == FallbackServiceName
  {
    GetEnvOr(env, "OTEL_SERVICE_NAME", FallbackServiceName)
  }

  /** The resource attributes of a provider for `service`. */
  function ResourceAttributes(service: string, env: Env): (r: map<string, string>)
    ensures r.Keys == {"service.name", "service.version", "deployment.environment"}
    ensures r["service.name"] == service
    ensures "OTEL_SERVICE_VERSION" in env ==> r["service.version"] == env["OTEL_SERVICE_VERSION"]
    ensures "OTEL_SERVICE_VERSION" !in env ==> r["service.version"] == "0.1.0"
    ensures "OTEL_ENVIRONMENT" in env ==> r["deployment.environment"] == env["OTEL_ENVIRONMENT"]
    ensures "OTEL_ENVIRONMENT" !in env ==> r["deployment.environment"] == "dev"
  {
    map[
      "service.name" := service,
      "service.version" := GetEnvOr(env, "OTEL_SERVICE_VERSION", "0.1.0"),
      "deployment.environment" := GetEnvOr(env, "OTEL_ENVIRONMENT", "dev")
    ]
  }

  /**
   * The endpoint and headers an OTLP backend resolves: each backend reads its
   * own variables and builds its own headers.
   */
  function TargetFor(b: Backend, env: Env): (t: Resolvers.Target)
    requires b != Console
    ensures b == Langfuse ==> EndsWith(t.endpoint, Resolvers.LangfuseOtelPath) && t.headers == Resolvers.LangfuseHeaders(env)
    ensures b == LangSmith ==> EndsWith(t.endpoint, Resolvers.LangsmithOtelPath) && t.headers == Resolvers.LangsmithHeaders(env)
    ensures b == Phoenix ==> t.endpoint == GetEnvOr(env, "PHOENIX_ENDPOINT", Resolvers.PhoenixDefaultEndpoint) && t.headers == Resolvers.PhoenixHeaders(env)
    ensures b == Otlp ==> t.endpoint == Resolvers.GenericOtlpEndpoint(env)
    ensures b == Otlp ==> t.headers == HeaderParser.ParseHeaderList(GetEnvOr(env, "OTEL_EXPORTER_OTLP_HEADERS", ""))
  {
    match b
    case Langfuse => Resolvers.Langfuse(env)
    case LangSmith => Resolvers.Langsmith(env)
    case Phoenix => Resolvers.Phoenix(env)
    case Otlp => Resolvers.GenericOtlp(env)
  }

  /**
   * The exporter of the one processor the adapter for `b` adds: the console
   * sink for the console backend, and for every other backend an OTLP
   * exporter whose transport follows the scheme of the resolved endpoint and
   * which carries the resolved headers.
   */
  function ExporterFor(b: Backend, env: Env): (e: Transport.Exporter)
    ensures e.Console? <==> b == Console
    ensures b != Console ==> (e.Http? <==> Transport.IsHttpUrl(TargetFor(b, env).endpoint))
    ensures b != Console ==> e.headers == TargetFor(b, env).headers
  {
    if b == Console then Transport.Console else OtlpExporterFor(TargetFor(b, env))
  }

  /** The `if`/`elif` chain that hands the provider to one adapter. */
  method SetupBackend(provider: TracerProvider, b: Backend, env: Env)
    modifies provider
    ensures provider.processors == old(provider.processors) + [ExporterFor(b, env)]
  {
    if b == Langfuse {
      SetupLangfuse(provider, env);
    } else if b == LangSmith {
      SetupLangsmith(provider, env);
    } else if b == Phoenix {
      SetupPhoenix(provider, env);
    } else if b == Console {
      SetupConsole(provider);
    } else {
      SetupGenericOtlp(provider, env);
    }
  }

  /** A tracer handle: the instrumentation name it was requested under and its provider. */
  datatype Tracer = Tracer(name: string, provider: TracerProvider)

  /**
   * What the attempt to attach the LangChain instrumentation to the provider
   * came to: attached, the package could not be imported, or attaching raised.
   */
  datatype Instrumentation = Attached | NotInstalled(error: string) | AttachFailed(error: string)

  const NotAvailablePrefix := "Warning: LangChain instrumentation not available: "
  const FailedPrefix := "Warning: Failed to instrument LangChain: "

  /** The warning printed for an instrumentation outcome; nothing when it attached. */
  function InstrumentationWarning(o: Instrumentation): (w: Option<string>)
    ensures w.None? <==> o.Attached?
    ensures o.NotInstalled? ==> w == Some(NotAvailablePrefix + o.error)
    ensures o.AttachFailed? ==> w == Some(FailedPrefix + o.error)
  {
    match o
    case Attached => None
    case NotInstalled(e) => Some(NotAvailablePrefix + e)
    case AttachFailed(e) => Some(FailedPrefix + e)
  }

  /** The process-wide tracing state: the installed global provider, if any. */
  class Tracing {
    var global: TracerProvider?

    constructor ()
      ensures global == null
    {
      global := null;
    }

    /** `_ensure_provider(service_name)`: a new provider, installed as the global one. */
    method EnsureProvider(service: string, env: Env) returns (provider: TracerProvider)
      modifies this
      ensures fresh(provider)
      ensures provider.attributes == ResourceAttributes(service, env)
      ensures provider.processors == []
      ensures global == provider
    {
      provider := new TracerProvider(ResourceAttributes(service, env));
      global := provider;
    }

    /**
     * `configure_tracing(service_name)`.  The value of `DEFAULT_SERVICE_NAME`
     * and the outcome of the instrumentation attempt are parameters.  Any
     * earlier global provider is replaced, not changed.
     */
    method ConfigureTracing(env: Env, defaultName: string, serviceName: Option<string>, instrumentation: Instrumentation)
      returns (tracer: Tracer, warning: Option<string>)
      modifies this
      ensures global != null && fresh(global)
      ensures global.attributes == ResourceAttributes(Or(serviceName, defaultName), env)
      ensures global.processors == [ExporterFor(SelectBackend(env), env)]
      ensures tracer == Tracer(Or(serviceName, defaultName), global)
      ensures warning == InstrumentationWarning(instrumentation)
    {
      var backend := SelectBackend(env);
      var service := Or(serviceName, defaultName);
      var provider := EnsureProvider(service, env);
      SetupBackend(provider, backend, env);
      warning := InstrumentationWarning(instrumentation);
      tracer := Tracer(service, global);
    }
  }
}
