/** The provider's configuration step: where the endpoint and the API key
    come from, and the client the resources and data sources share. */
module Provider {
  import opened Wrappers
  import opened Framework
  import opened ApiClient

  /** The provider block; an unset or null attribute reads as "". */
  datatype ProviderModel = ProviderModel(endpoint: string, apiKey: string)

  /** os.Getenv: the variable's value, or "" when it is not set. */
  function Getenv(osEnv: map<string, string>, key: string): string {
    if key in osEnv then osEnv[key] else ""
  }

  const EndpointRequired := Diagnostic("endpoint is required", "Please set the endpoint in the provider configuration block.")
  const ApiKeyRequired := Diagnostic("apikey is required", "Please set the apikey in the provider configuration block.")

  /** Configure. A non-empty value in the provider block overrides the
      environment (SHIELDOO_ENDPOINT, SHIELDOO_API_KEY). A missing endpoint
      is reported first, then a missing key; otherwise one client with the
      chosen endpoint and key becomes both the data sources' and the
      resources' client. */
  method Configure(config: ProviderModel, osEnv: map<string, string>)
    returns (diags: seq<Diagnostic>, dataSourceData: Option<Client>, resourceData: Option<Client>)
    ensures dataSourceData == resourceData
    ensures var envEndpoint := Getenv(osEnv, "SHIELDOO_ENDPOINT");
      config.endpoint == "" && envEndpoint == "" ==> diags == [EndpointRequired] && resourceData.None?
    ensures var envEndpoint := Getenv(osEnv, "SHIELDOO_ENDPOINT");
      var envKey := Getenv(osEnv, "SHIELDOO_API_KEY");
      (config.endpoint != "" || envEndpoint != "") && config.apiKey == "" && envKey == "" ==>
        diags == [ApiKeyRequired] && resourceData.None?
    ensures resourceData.Some? <==>
      && (config.endpoint != "" || Getenv(osEnv, "SHIELDOO_ENDPOINT") != "")
      && (config.apiKey != "" || Getenv(osEnv, "SHIELDOO_API_KEY") != "")
    ensures resourceData.Some? ==> diags == []
    ensures resourceData.Some? && config.endpoint != "" ==> resourceData.value.uri == config.endpoint
    ensures resourceData.Some? && config.endpoint == "" ==> resourceData.value.uri == osEnv["SHIELDOO_ENDPOINT"]
    ensures resourceData.Some? && config.apiKey != "" ==> resourceData.value.apiKey == config.apiKey
    ensures resourceData.Some? && config.apiKey == "" ==> resourceData.value.apiKey == osEnv["SHIELDOO_API_KEY"]
  {
    var apiKey := Getenv(osEnv, "SHIELDOO_API_KEY");
    var endpoint := Getenv(osEnv, "SHIELDOO_ENDPOINT");
    if config.endpoint != "" {
      endpoint := config.endpoint;
    }
    if config.apiKey != "" {
      apiKey := config.apiKey;
    }
    if endpoint == "" {
      return [EndpointRequired], None, None;
    }
    if apiKey == "" {
      return [ApiKeyRequired], None, None;
    }
    var client := Client(endpoint, apiKey);
    return [], Some(client), Some(client);
  }
}
