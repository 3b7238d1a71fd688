/**
 * checkConfiguration: the adapter's own settings are checked first, then one
 * probe request to the models endpoint is classified into a diagnosis.
 */
module ConfigurationCheck {
  import opened Wrappers
  import opened TextUtil
  import opened Provider

  /** The outcome of the probe request: a status, or a failure to connect with its message. */
  datatype Probe = Responded(status: nat) | ConnectionFailed(message: string)

  datatype ProviderStatus = ProviderStatus(
    isConfigured: bool,
    errorMessage: Option<string>,
    configInstructions: Option<string>)

  /** `response.ok`: a status in the 2xx range. */
  predicate Ok(status: nat)
  {
    200 <= status <= 299
  }

  const NoKeyMessage: string := "No API key configured"
  const NoKeyInstructions: string := "Set CUSTOM_API_KEY environment variable"
  const NoEndpointMessage: string := "No API endpoint configured"
  const NoEndpointInstructions: string := "Set CUSTOM_API_ENDPOINT environment variable"
  const InvalidKeyMessage: string := "Invalid API key"
  const InvalidKeyInstructions: string := "Check your CUSTOM_API_KEY is valid"
  const ApiErrorPrefix: string := "API error: "
  const ApiErrorInstructions: string := "Check your CUSTOM_API_ENDPOINT and CUSTOM_API_KEY"
  const ConnectionErrorPrefix: string := "Connection error: "
  const ConnectionErrorInstructions: string := "Ensure CUSTOM_API_ENDPOINT is reachable and CUSTOM_API_KEY is set"

  function NotConfigured(message: string, instructions: string): ProviderStatus
  {
    ProviderStatus(false, Some(message), Some(instructions))
  }

  /** Whether the probe is made at all: only when both the key and the base URL are set. */
  predicate Probes(adapter: Adapter)
  {
    adapter.apiKey != "" && adapter.baseUrl != ""
  }

  /**
   * The diagnosis. A missing key, then a missing base URL, are reported without
   * a probe; a 2xx or 404 probe means configured, 401 an invalid key, any other
   * status an API error naming it, and a failed connection its message.
   */
  function CheckConfiguration(adapter: Adapter, probe: Probe): (r: ProviderStatus)
    ensures r.isConfigured <==> Probes(adapter) && probe.Responded? && (Ok(probe.status) || probe.status == 404)
    ensures r.isConfigured <==> r.errorMessage.None?
    ensures r.errorMessage.None? <==> r.configInstructions.None?
    ensures adapter.apiKey == "" ==> r == NotConfigured(NoKeyMessage, NoKeyInstructions)
    ensures adapter.apiKey != "" && adapter.baseUrl == "" ==> r == NotConfigured(NoEndpointMessage, NoEndpointInstructions)
    ensures Probes(adapter) && probe == Responded(401) ==> r == NotConfigured(InvalidKeyMessage, InvalidKeyInstructions)
    ensures Probes(adapter) && probe.Responded? && !Ok(probe.status) && probe.status !in {401, 404} ==>
      r == NotConfigured(ApiErrorPrefix + NatToDecimal(probe.status), ApiErrorInstructions)
    ensures Probes(adapter) && probe.ConnectionFailed? ==>
      r == NotConfigured(ConnectionErrorPrefix + probe.message, ConnectionErrorInstructions)
  {
    if adapter.apiKey == "" then NotConfigured(NoKeyMessage, NoKeyInstructions)
    else if adapter.baseUrl == "" then NotConfigured(NoEndpointMessage, NoEndpointInstructions)
    else match probe
      case ConnectionFailed(message) => NotConfigured(ConnectionErrorPrefix + message, ConnectionErrorInstructions)
      case Responded(status) =>
        if Ok(status) || status == 404 then ProviderStatus(true, None, None)
        else if status == 401 then NotConfigured(InvalidKeyMessage, InvalidKeyInstructions)
        else NotConfigured(ApiErrorPrefix + NatToDecimal(status), ApiErrorInstructions)
  }

  /** Two probes that fail with different statuses are told apart by the message. */
  lemma ApiErrorNamesTheStatus(adapter: Adapter, a: nat, b: nat)
    requires Probes(adapter)
    requires !Ok(a) && a !in {401, 404} && !Ok(b) && b !in {401, 404}
    requires a != b
    ensures CheckConfiguration(adapter, Responded(a)).errorMessage != CheckConfiguration(adapter, Responded(b)).errorMessage
  {
    var ma := ApiErrorPrefix + NatToDecimal(a);
    var mb := ApiErrorPrefix + NatToDecimal(b);
    if ma == mb {
      assert NatToDecimal(a) == ma[|ApiErrorPrefix|..];
      assert NatToDecimal(b) == mb[|ApiErrorPrefix|..];
      DecimalInjective(a, b);
    }
  }

  /**
   * An endpoint of a single slash passes the constructor, but the adapter it
   * builds is then reported as having no endpoint, without any probe.
   */
  lemma SlashOnlyEndpointIsReportedUnconfigured(key: string, model: string, probe: Probe)
    requires key != ""
    ensures var a := NewAdapter(Config(Some(key), model, Some("/"), None));
      && a.Success?
      && CheckConfiguration(a.value, probe) == NotConfigured(NoEndpointMessage, NoEndpointInstructions)
  {
    SlashOnlyEndpointLeavesEmptyBaseUrl(key, model);
  }

  /** An adapter built by the constructor from a usable endpoint other than "/" is always probed. */
  lemma ConstructedAdaptersAreProbed(config: Config)
    requires NewAdapter(config).Success?
    requires config.customEndpoint.value != "/"
    ensures Probes(NewAdapter(config).value)
  {
  }
}
