/**
 * The per-provider endpoint resolvers: for each backend, the endpoint and the
 * headers its adapter hands to the transport selector, as functions of the
 * environment.
 */
module Resolvers {
  import opened Wrappers
  import opened Strings
  import Utf8
  import Base64
  import opened Environment
  import opened HeaderParser

  /** The endpoint and headers an adapter passes to the transport selector. */
  datatype Target = Target(endpoint: string, headers: HeaderMap)

  // Langfuse

  const LangfuseDefaultHost := "http://localhost:3000"
  const LangfuseOtelPath := "/api/public/otel"
  const LangfuseUsEndpoint := "https://us.cloud.langfuse.com/api/public/otel"
  const LangfuseCloudEndpoint := "https://cloud.langfuse.com/api/public/otel"

  /**
   * A host on `cloud.langfuse.com` is sent to one of the two cloud
   * endpoints, chosen by whether it mentions `us.cloud`, whatever path it
   * carries; any other host gets the OTLP path appended.
   */
  function LangfuseEndpoint(host: string): (r: string)
    ensures EndsWith(r, LangfuseOtelPath)
    ensures Contains(host, "cloud.langfuse.com") && Contains(host, "us.cloud") ==> r == LangfuseUsEndpoint
    ensures Contains(host, "cloud.langfuse.com") && !Contains(host, "us.cloud") ==> r == LangfuseCloudEndpoint
    ensures !Contains(host, "cloud.langfuse.com") ==> r == host + LangfuseOtelPath
  {
    if Contains(host, "cloud.langfuse.com") then
      if Contains(host, "us.cloud") then LangfuseUsEndpoint else LangfuseCloudEndpoint
    else
      EndsWithAppended(host, LangfuseOtelPath);
      host + LangfuseOtelPath
  }

  /**
   * The HTTP Basic credentials of section 2 of RFC 7617: `Basic ` followed by
   * the base64 form of the UTF-8 bytes of `user:password`; decoding the token
   * gives back exactly those bytes.
   */
  function BasicCredentials(user: string, password: string): (r: string)
    ensures StartsWith(r, "Basic ")
    ensures Base64.Decode(r[6..]) == Some(Utf8.Encode(user) + [':' as int] + Utf8.Encode(password))
  {
    var bytes := Utf8.Encode(user + ":" + password);
    Utf8.EncodeConcat(user + ":", password);
    Utf8.EncodeConcat(user, ":");
    assert Utf8.Encode(":") == [':' as int];
    Base64.DecodeEncode(bytes);
    var r := "Basic " + Base64.Encode(bytes);
    assert r[6..] == Base64.Encode(bytes);
    r
  }

  /**
   * The Langfuse headers: `Authorization` with Basic credentials exactly when
   * both keys are set and non-empty, and nothing else.
   */
  function LangfuseHeaders(env: Env): (h: HeaderMap)
    ensures h.Keys <= {"Authorization"}
    ensures "Authorization" in h <==> Truthy(GetEnv(env, "LANGFUSE_PUBLIC_KEY")) && Truthy(GetEnv(env, "LANGFUSE_SECRET_KEY"))
    ensures "Authorization" in h ==> h["Authorization"] == BasicCredentials(env["LANGFUSE_PUBLIC_KEY"], env["LANGFUSE_SECRET_KEY"])
  {
    var publicKey, secretKey := GetEnv(env, "LANGFUSE_PUBLIC_KEY"), GetEnv(env, "LANGFUSE_SECRET_KEY");
    if Truthy(publicKey) && Truthy(secretKey) then
      map["Authorization" := BasicCredentials(publicKey.value, secretKey.value)]
    else map[]
  }

  /**
   * What `_setup_langfuse_otlp` resolves: an endpoint on the OTLP path, and
   * credentials only when both keys are non-empty.
   */
  function Langfuse(env: Env): (t: Target)
    ensures EndsWith(t.endpoint, LangfuseOtelPath)
    ensures t.headers.Keys <= {"Authorization"}
    ensures "Authorization" in t.headers <==> Truthy(GetEnv(env, "LANGFUSE_PUBLIC_KEY")) && Truthy(GetEnv(env, "LANGFUSE_SECRET_KEY"))
  {
    Target(LangfuseEndpoint(GetEnvOr(env, "LANGFUSE_HOST", LangfuseDefaultHost)), LangfuseHeaders(env))
  }

  // LangSmith

  const LangsmithDefaultUrl := "https://api.smith.langchain.com"
  const LangsmithOtelPath := "/otel"
  const LangsmithEuEndpoint := "https://eu.api.smith.langchain.com/otel"

  /**
   * An `eu.api` URL goes to the fixed EU endpoint; any other URL gets `/otel`
   * appended unless it already ends with it.  Either way the result ends in `/otel`.
   */
  function LangsmithEndpoint(url: string): (r: string)
    ensures EndsWith(r, LangsmithOtelPath)
    ensures Contains(url, "eu.api") ==> r == LangsmithEuEndpoint
    ensures !Contains(url, "eu.api") && EndsWith(url, LangsmithOtelPath) ==> r == url
    ensures !Contains(url, "eu.api") && !EndsWith(url, LangsmithOtelPath) ==> r == url + LangsmithOtelPath
  {
    if Contains(url, "eu.api") then LangsmithEuEndpoint
    else if EndsWith(url, LangsmithOtelPath) then url
    else
      EndsWithAppended(url, LangsmithOtelPath);
      url + LangsmithOtelPath
  }

  /**
   * The LangSmith headers: `x-api-key` exactly when the API key is non-empty,
   * `Langsmith-Project` exactly when the project is non-empty, nothing else.
   */
  function LangsmithHeaders(env: Env): (h: HeaderMap)
    ensures h.Keys <= {"x-api-key", "Langsmith-Project"}
    ensures "x-api-key" in h <==> Truthy(GetEnv(env, "LANGSMITH_API_KEY"))
    ensures "x-api-key" in h ==> h["x-api-key"] == env["LANGSMITH_API_KEY"]
    ensures "Langsmith-Project" in h <==> Truthy(GetEnv(env, "LANGSMITH_PROJECT"))
    ensures "Langsmith-Project" in h ==> h["Langsmith-Project"] == env["LANGSMITH_PROJECT"]
  {
    var apiKey, project := GetEnv(env, "LANGSMITH_API_KEY"), GetEnv(env, "LANGSMITH_PROJECT");
    var withKey: HeaderMap := if Truthy(apiKey) then map["x-api-key" := apiKey.value] else map[];
    if Truthy(project) then withKey["Langsmith-Project" := project.value] else withKey
  }

  /**
   * What `_setup_langsmith_otlp` resolves: an endpoint on the `/otel` path,
   * the fixed EU endpoint for an `eu.api` URL, and at most the key and
   * project headers.
   */
  function Langsmith(env: Env): (t: Target)
    ensures EndsWith(t.endpoint, LangsmithOtelPath)
    ensures "LANGSMITH_ENDPOINT" in env && Contains(env["LANGSMITH_ENDPOINT"], "eu.api") ==> t.endpoint == LangsmithEuEndpoint
    ensures t.headers.Keys <= {"x-api-key", "Langsmith-Project"}
  {
    Target(LangsmithEndpoint(GetEnvOr(env, "LANGSMITH_ENDPOINT", LangsmithDefaultUrl)), LangsmithHeaders(env))
  }

  // Phoenix

  const PhoenixDefaultEndpoint := "http://localhost:6006"

  /** The Phoenix headers: `authorization` exactly when the API key is non-empty. */
  function PhoenixHeaders(env: Env): (h: HeaderMap)
    ensures h.Keys <= {"authorization"}
    ensures "authorization" in h <==> Truthy(GetEnv(env, "PHOENIX_API_KEY"))
    ensures "authorization" in h ==> h["authorization"] == env["PHOENIX_API_KEY"]
  {
    var apiKey := GetEnv(env, "PHOENIX_API_KEY");
    if Truthy(apiKey) then map["authorization" := apiKey.value] else map[]
  }

  /**
   * What `_setup_phoenix_otlp` resolves: the endpoint variable as set, even
   * to `""`, or the local instance, and at most the `authorization` header.
   */
  function Phoenix(env: Env): (t: Target)
    ensures "PHOENIX_ENDPOINT" in env ==> t.endpoint == env["PHOENIX_ENDPOINT"]
    ensures "PHOENIX_ENDPOINT" !in env ==> t.endpoint == PhoenixDefaultEndpoint
    ensures t.headers.Keys <= {"authorization"}
  {
    Target(GetEnvOr(env, "PHOENIX_ENDPOINT", PhoenixDefaultEndpoint), PhoenixHeaders(env))
  }

  // Generic OTLP

  const OtlpDefaultEndpoint := "localhost:4317"

  /**
   * The traces-specific variable when it is non-empty; otherwise the general
   * one, which may be set to `""`, defaulting to the local gRPC collector.
   */
  function GenericOtlpEndpoint(env: Env): (r: string)
    ensures Truthy(GetEnv(env, "OTEL_EXPORTER_OTLP_TRACES_ENDPOINT")) ==> r == env["OTEL_EXPORTER_OTLP_TRACES_ENDPOINT"]
    ensures !Truthy(GetEnv(env, "OTEL_EXPORTER_OTLP_TRACES_ENDPOINT")) && "OTEL_EXPORTER_OTLP_ENDPOINT" in env ==> r == env["OTEL_EXPORTER_OTLP_ENDPOINT"]
    ensures !Truthy(GetEnv(env, "OTEL_EXPORTER_OTLP_TRACES_ENDPOINT")) && "OTEL_EXPORTER_OTLP_ENDPOINT" !in env ==> r == OtlpDefaultEndpoint
  {
    Or(GetEnv(env, "OTEL_EXPORTER_OTLP_TRACES_ENDPOINT"), GetEnvOr(env, "OTEL_EXPORTER_OTLP_ENDPOINT", OtlpDefaultEndpoint))
  }

  /**
   * What `_setup_generic_otlp` resolves: its headers come from the header
   * parser, and an unset or empty header variable gives none.
   */
  function GenericOtlp(env: Env): (t: Target)
    ensures Truthy(GetEnv(env, "OTEL_EXPORTER_OTLP_TRACES_ENDPOINT")) ==> t.endpoint == env["OTEL_EXPORTER_OTLP_TRACES_ENDPOINT"]
    ensures !Truthy(GetEnv(env, "OTEL_EXPORTER_OTLP_TRACES_ENDPOINT")) && "OTEL_EXPORTER_OTLP_ENDPOINT" !in env ==> t.endpoint == OtlpDefaultEndpoint
    ensures !Truthy(GetEnv(env, "OTEL_EXPORTER_OTLP_HEADERS")) ==> t.headers == map[]
  {
    Target(GenericOtlpEndpoint(env), ParseHeaderList(GetEnvOr(env, "OTEL_EXPORTER_OTLP_HEADERS", "")))
  }

  // Properties of the resolvers

  /**
   * A host on the US cloud goes to the US endpoint whatever path or suffix
   * follows it.
   */
  lemma LangfuseUsHostIgnoresPath(host: string, path: string)
    requires Contains(host, "us.cloud.langfuse.com")
    ensures LangfuseEndpoint(host + path) == LangfuseUsEndpoint
  {
    ContainsAppended(host, "us.cloud.langfuse.com", path);
    UsCloudHostParts();
    ContainsPartOf(host + path, "us.", "cloud.langfuse.com", "");
    ContainsPartOf(host + path, "", "us.cloud", ".langfuse.com");
  }

  /** A substring of `s` is still one after `path` is appended. */
  lemma ContainsAppended(s: string, t: string, path: string)
    requires Contains(s, t)
    ensures Contains(s + path, t)
  {
    ContainsExtended(s, t, "", path);
    assert "" + s + path == s + path;
  }

  /** The US cloud host, split around the two names the resolver looks for. */
  lemma UsCloudHostParts()
    ensures "us." + "cloud.langfuse.com" + "" == "us.cloud.langfuse.com"
    ensures "" + "us.cloud" + ".langfuse.com" == "us.cloud.langfuse.com"
  {
  }

  /** The default host is not on the Langfuse cloud. */
  lemma LangfuseDefaultHostIsLocal()
    ensures !Contains(LangfuseDefaultHost, "cloud.langfuse.com")
  {
    NotContainsFirstChar(LangfuseDefaultHost, "cloud.langfuse.com");
  }

  /** With `LANGFUSE_HOST` unset, spans go to the local Langfuse's OTLP path. */
  lemma LangfuseDefaultHostEndpoint(env: Env)
    requires "LANGFUSE_HOST" !in env
    ensures Langfuse(env).endpoint == LangfuseDefaultHost + LangfuseOtelPath
  {
    LangfuseDefaultHostIsLocal();
  }

  /** The fixed EU endpoint is itself recognised as an EU URL. */
  lemma LangsmithEuEndpointIsEu()
    ensures Contains(LangsmithEuEndpoint, "eu.api")
  {
    assert LangsmithEuEndpoint[8..14] == "eu.api" by {
      assert LangsmithEuEndpoint[8] == 'e';
      assert LangsmithEuEndpoint[9] == 'u';
      assert LangsmithEuEndpoint[10] == '.';
      assert LangsmithEuEndpoint[11] == 'a';
      assert LangsmithEuEndpoint[12] == 'p';
      assert LangsmithEuEndpoint[13] == 'i';
    }
    ContainsAt(LangsmithEuEndpoint, "eu.api", 8);
  }

  /** Resolving a LangSmith endpoint a second time changes nothing. */
  lemma LangsmithEndpointIdempotent(url: string)
    ensures LangsmithEndpoint(LangsmithEndpoint(url)) == LangsmithEndpoint(url)
  {
    LangsmithEuEndpointIsEu();
    if !Contains(url, "eu.api") && !EndsWith(url, LangsmithOtelPath) {
      var r := url + LangsmithOtelPath;
      if Contains(r, "eu.api") {
        ContainsAppendedAvoiding(url, LangsmithOtelPath, "eu.api");
        if Contains(LangsmithOtelPath, "eu.api") {
          ContainsIffOccurs(LangsmithOtelPath, "eu.api");
        }
      }
    }
  }
}
