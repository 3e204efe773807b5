/**
 * The embeddable page: reads the stream endpoint, merchant and encryption
 * flag from the URL's query parameters and renders either the player or a
 * missing-configuration error. The query arrives as its decoded name/value
 * pairs; the build-time stream domain and merchant are inputs.
 */
module EmbedApp {
  import opened Common

  datatype EmbedEnv = EmbedEnv(streamDomain: string, merchant: string)

  datatype EmbedParams = EmbedParams(endpoint: string, merchant: string, encrypted: bool)

  /** The page: nothing before the parameters are parsed, then the error
      panel or the player with the parsed properties. */
  datatype View = Blank | MissingConfiguration | PlayerView(endpoint: string, merchant: string, encrypted: bool)

  /** A non-empty endpoint that does not start with "http" is a path on the
      stream domain. */
  function ResolveEndpoint(param: Option<string>, streamDomain: string): string
  {
    var endpoint := if param.Some? then param.value else "";
    if endpoint != "" && !StartsWith(endpoint, "http") then streamDomain + endpoint else endpoint
  }

  function ParseParams(query: seq<(string, string)>, env: EmbedEnv): EmbedParams
  {
    var merchant := QueryGet(query, "merchant");
    EmbedParams(
      ResolveEndpoint(QueryGet(query, "endpoint"), env.streamDomain),
      OrElse(if merchant.Some? then merchant.value else "", env.merchant),
      QueryGet(query, "encrypted") == Some("true"))
  }

  function Render(params: Option<EmbedParams>): View
  {
    if params.None? then Blank
    else if params.value.endpoint == "" then MissingConfiguration
    else PlayerView(params.value.endpoint, params.value.merchant, params.value.encrypted)
  }

  /** The endpoint is the parameter, or empty when absent; a relative one
      is prefixed with the stream domain, an "http…" one is kept as is. */
  lemma EndpointResolution(param: Option<string>, domain: string)
    ensures param.None? ==> ResolveEndpoint(param, domain) == ""
    ensures param.Some? && StartsWith(param.value, "http") ==> ResolveEndpoint(param, domain) == param.value
    ensures param.Some? && param.value != "" && !StartsWith(param.value, "http") ==>
              ResolveEndpoint(param, domain) == domain + param.value
    ensures ResolveEndpoint(param, domain) == "" <==> param.None? || param.value == ""
  {
  }

  /** The merchant is the parameter when non-empty, else the build default;
      encryption is on exactly for the value "true" (not "1", not "TRUE"). */
  lemma MerchantAndEncryption(query: seq<(string, string)>, env: EmbedEnv)
    ensures var p := ParseParams(query, env);
      && (QueryGet(query, "merchant").Some? && QueryGet(query, "merchant").value != "" ==>
            p.merchant == QueryGet(query, "merchant").value)
      && (QueryGet(query, "merchant").None? || QueryGet(query, "merchant").value == "" ==>
            p.merchant == env.merchant)
      && (p.encrypted <==> QueryGet(query, "encrypted") == Some("true"))
  {
  }

  /** The error panel appears exactly when the endpoint parameter is absent
      or empty, whatever the stream domain; otherwise the player gets the
      resolved endpoint. */
  lemma MissingEndpointIff(query: seq<(string, string)>, env: EmbedEnv)
    ensures var v := Render(Some(ParseParams(query, env)));
      && (v == MissingConfiguration <==>
            QueryGet(query, "endpoint").None? || QueryGet(query, "endpoint").value == "")
      && (v.PlayerView? ==> v.endpoint == ResolveEndpoint(QueryGet(query, "endpoint"), env.streamDomain))
  {
  }

  /** The two page scenarios: an absolute endpoint renders the player with
      it unchanged; an empty query renders the error. */
  lemma EmbedScenarios(env: EmbedEnv)
    ensures Render(Some(ParseParams([("endpoint", "http://test.com")], env))).PlayerView?
    ensures Render(Some(ParseParams([("endpoint", "http://test.com")], env))).endpoint == "http://test.com"
    ensures Render(Some(ParseParams([], env))) == MissingConfiguration
  {
    assert StartsWith("http://test.com", "http");
  }
}
