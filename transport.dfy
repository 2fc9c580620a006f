/**
 * The exporter a span processor sends to, and the transport selector shared
 * by every OTLP adapter: an `http://` or `https://` endpoint gets the
 * OTLP/HTTP exporter, normalised to end in `/v1/traces`; anything else is a
 * gRPC target (`host:port`) and passes through unchanged.
 */
module Transport {
  import opened Strings
  import opened HeaderParser

  /** An OTLP/HTTP exporter, an OTLP/gRPC exporter, or the console sink. */
  datatype Exporter =
    | Http(endpoint: string, headers: HeaderMap)
    | Grpc(endpoint: string, headers: HeaderMap)
    | Console

  const TracesPath := "/v1/traces"

  /** The endpoint names an HTTP(S) URL. */
  predicate IsHttpUrl(endpoint: string) {
    StartsWith(endpoint, "http://") || StartsWith(endpoint, "https://")
  }

  /** `endpoint` with `/v1/traces` appended unless it already ends with it. */
  function WithTracesPath(endpoint: string): (r: string)
    ensures EndsWith(r, TracesPath)
    ensures StartsWith(r, endpoint)
    ensures EndsWith(endpoint, TracesPath) ==> r == endpoint
    ensures !EndsWith(endpoint, TracesPath) ==> r == endpoint + TracesPath
  {
    if EndsWith(endpoint, TracesPath) then endpoint
    else
      EndsWithAppended(endpoint, TracesPath);
      assert (endpoint + TracesPath)[..|endpoint|] == endpoint;
      endpoint + TracesPath
  }

  /** `_get_otlp_exporter(endpoint, headers)` */
  function GetOtlpExporter(endpoint: string, headers: HeaderMap): (e: Exporter)
    ensures e.Http? <==> IsHttpUrl(endpoint)
    ensures e.Grpc? <==> !IsHttpUrl(endpoint)
    ensures e.Http? ==> EndsWith(e.endpoint, TracesPath) && StartsWith(e.endpoint, endpoint)
    ensures e.Http? ==> (EndsWith(endpoint, TracesPath) ==> e.endpoint == endpoint)
    ensures e.Http? ==> (!EndsWith(endpoint, TracesPath) ==> e.endpoint == endpoint + TracesPath)
    ensures e.Grpc? ==> e.endpoint == endpoint
    ensures !e.Console? && e.headers == headers
  {
    if IsHttpUrl(endpoint) then Http(WithTracesPath(endpoint), headers)
    else Grpc(endpoint, headers)
  }

  /** Normalising an already normalised endpoint changes nothing. */
  lemma WithTracesPathIdempotent(endpoint: string)
    ensures WithTracesPath(WithTracesPath(endpoint)) == WithTracesPath(endpoint)
  {
  }

  /**
   * Feeding an exporter's own endpoint back through the selector yields the
   * same exporter: the scheme survives normalisation, and the suffix is
   * not appended twice.
   */
  lemma GetOtlpExporterIdempotent(endpoint: string, headers: HeaderMap)
    ensures GetOtlpExporter(GetOtlpExporter(endpoint, headers).endpoint, headers) == GetOtlpExporter(endpoint, headers)
  {
    if IsHttpUrl(endpoint) {
      var normalised := WithTracesPath(endpoint);
      if StartsWith(endpoint, "http://") {
        StartsWithPrefix(normalised, endpoint, "http://");
      } else {
        StartsWithPrefix(normalised, endpoint, "https://");
      }
    }
  }
}
