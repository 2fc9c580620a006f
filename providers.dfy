/**
 * The tracer provider and the backend adapters that configure it.  Each
 * adapter resolves its endpoint and headers from the environment, picks the
 * transport, and appends one batching span processor around the resulting
 * exporter to the provider.
 */
module Providers {
  import opened Environment
  import opened HeaderParser
  import opened Transport
  import opened Resolvers
  import Utf8
  import Base64

  /**
   * A tracer provider: a fixed resource descriptor and the exporters of its
   * span processors, in the order they were added.  Every processor the
   * adapters add is a batching processor, so a processor is represented by
   * the exporter it wraps.
   */
  class TracerProvider {
    const attributes: map<string, string>
    var processors: seq<Exporter>

    constructor (attributes: map<string, string>)
      ensures this.attributes == attributes
      ensures processors == []
    {
      this.attributes := attributes;
      processors := [];
    }

    /** `add_span_processor(BatchSpanProcessor(exporter))` */
    method AddSpanProcessor(exporter: Exporter)
      modifies this
      ensures processors == old(processors) + [exporter]
    {
      processors := processors + [exporter];
    }
  }

  /** The exporter an OTLP adapter builds for its resolved target. */
  function OtlpExporterFor(t: Target): (e: Exporter)
    ensures !e.Console? && e.headers == t.headers
    ensures e.Http? <==> IsHttpUrl(t.endpoint)
  {
    GetOtlpExporter(t.endpoint, t.headers)
  }

  /** `_setup_langfuse_otlp(provider)` */
  method SetupLangfuse(provider: TracerProvider, env: Env)
    modifies provider
    ensures provider.processors == old(provider.processors) + [OtlpExporterFor(Langfuse(env))]
  {
    var host := GetEnvOr(env, "LANGFUSE_HOST", LangfuseDefaultHost);
    var endpoint := LangfuseEndpoint(host);
    var publicKey := GetEnv(env, "LANGFUSE_PUBLIC_KEY");
    var secretKey := GetEnv(env, "LANGFUSE_SECRET_KEY");
    var headers: HeaderMap := map[];
    if Truthy(publicKey) && Truthy(secretKey) {
      var credentials := publicKey.value + ":" + secretKey.value;
      var encoded := Base64.Encode(Utf8.Encode(credentials));
      headers := headers["Authorization" := "Basic " + encoded];
    }
    assert headers == LangfuseHeaders(env);
    provider.AddSpanProcessor(GetOtlpExporter(endpoint, headers));
  }

  /** `_setup_langsmith_otlp(provider)` */
  method SetupLangsmith(provider: TracerProvider, env: Env)
    modifies provider
    ensures provider.processors == old(provider.processors) + [OtlpExporterFor(Langsmith(env))]
  {
    var url := GetEnvOr(env, "LANGSMITH_ENDPOINT", LangsmithDefaultUrl);
    var endpoint := LangsmithEndpoint(url);
    var headers: HeaderMap := map[];
    var apiKey := GetEnv(env, "LANGSMITH_API_KEY");
    if Truthy(apiKey) {
      headers := headers["x-api-key" := apiKey.value];
    }
    ghost var withKey := headers;
    assert withKey == if Truthy(apiKey) then map["x-api-key" := apiKey.value] else map[];
    var project := GetEnv(env, "LANGSMITH_PROJECT");
    if Truthy(project) {
      headers := headers["Langsmith-Project" := project.value];
    }
    assert headers == if Truthy(project) then withKey["Langsmith-Project" := project.value] else withKey;
    provider.AddSpanProcessor(GetOtlpExporter(endpoint, headers));
  }

  /** `_setup_phoenix_otlp(provider)` */
  method SetupPhoenix(provider: TracerProvider, env: Env)
    modifies provider
    ensures provider.processors == old(provider.processors) + [OtlpExporterFor(Phoenix(env))]
  {
    var endpoint := GetEnvOr(env, "PHOENIX_ENDPOINT", PhoenixDefaultEndpoint);
    var headers: HeaderMap := map[];
    var apiKey := GetEnv(env, "PHOENIX_API_KEY");
    if Truthy(apiKey) {
      headers := headers["authorization" := apiKey.value];
    }
    provider.AddSpanProcessor(GetOtlpExporter(endpoint, headers));
  }

  /** `_setup_generic_otlp(provider)`: the headers come from the parsing loop. */
  method SetupGenericOtlp(provider: TracerProvider, env: Env)
    modifies provider
    ensures provider.processors == old(provider.processors) + [OtlpExporterFor(GenericOtlp(env))]
  {
    var endpoint := Or(GetEnv(env, "OTEL_EXPORTER_OTLP_TRACES_ENDPOINT"),
                       GetEnvOr(env, "OTEL_EXPORTER_OTLP_ENDPOINT", OtlpDefaultEndpoint));
    var headers := ParseHeaders(GetEnvOr(env, "OTEL_EXPORTER_OTLP_HEADERS", ""));
    provider.AddSpanProcessor(GetOtlpExporter(endpoint, headers));
  }

  /** `_setup_console(provider)` */
  method SetupConsole(provider: TracerProvider)
    modifies provider
    ensures provider.processors == old(provider.processors) + [Console]
  {
    provider.AddSpanProcessor(Console);
  }
}
