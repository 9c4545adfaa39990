/**
 * `validateInvocation`: refuse a configuration that lacks any of the three
 * credentials, otherwise build a client and probe the API with it.
 */
module Invocation {
  import opened Types
  import opened Http
  import opened Fetch
  import opened Client

  const CONFIG_ERROR := "Config requires all of {apiKey, apiSecret, shopperId}"

  /** How an invocation ends: accepted, refused for its configuration, or
      refused because the probe raised. */
  datatype Verdict = Accepted | ValidationError(message: string) | ProbeFailed(error: ProviderError)

  /** All three credentials are present (a missing one is ""). */
  predicate ConfigComplete(config: IntegrationConfig)
  {
    config.apiKey != "" && config.apiSecret != "" && config.shopperId != ""
  }

  function ValidateInvocationSpec<T>(config: IntegrationConfig, script: seq<Reply<T>>): Run<T, Verdict>
  {
    if !ConfigComplete(config) then Run(ValidationError(CONFIG_ERROR), [], script)
    else
      var probe := VerifyAuthenticationSpec(RequestHeaders(config.apiKey, config.apiSecret), script);
      Run(if probe.result.Thrown? then ProbeFailed(probe.result.error) else Accepted, probe.trace, probe.rest)
  }

  method ValidateInvocation<T>(config: IntegrationConfig, script: seq<Reply<T>>)
    returns (verdict: Verdict, trace: seq<Event>, rest: seq<Reply<T>>)
    ensures Run(verdict, trace, rest) == ValidateInvocationSpec(config, script)
  {
    if config.apiKey == "" || config.apiSecret == "" || config.shopperId == "" {
      return ValidationError(CONFIG_ERROR), [], script;
    }
    var apiClient := new APIClient(config);
    var outcome;
    outcome, trace, rest := apiClient.VerifyAuthentication(script);
    verdict := if outcome.Thrown? then ProbeFailed(outcome.error) else Accepted;
  }

  /** An incomplete configuration is refused with the fixed message before
      any request is sent; a complete one is never refused for it. */
  lemma IncompleteConfigRefused<T>(config: IntegrationConfig, script: seq<Reply<T>>)
    ensures var r := ValidateInvocationSpec(config, script);
      && (r.result.ValidationError? <==> !ConfigComplete(config))
      && (r.result.ValidationError? ==> r.result.message == CONFIG_ERROR && r.trace == [] && r.rest == script)
  {
  }

  /** With a complete configuration the invocation sends between one and
      `MAX_RETRIES` requests, all to the agreements endpoint, all carrying the
      configured key and secret. */
  lemma ProbeRequests<T>(config: IntegrationConfig, script: seq<Reply<T>>)
    requires ConfigComplete(config)
    ensures var sent := SentRequests(ValidateInvocationSpec(config, script).trace);
      && 1 <= |sent| <= MAX_RETRIES
      && forall q <- sent :: q.url == AGREEMENTS_ENDPOINT && q.headers == RequestHeaders(config.apiKey, config.apiSecret)
  {
    var headers := RequestHeaders(config.apiKey, config.apiSecret);
    VerifyAuthenticationCollapses(headers, script);
    RequestBound(AgreementsRequest(headers), script);
    AgreementsEndpoint();
  }

  /** The invocation fails its probe exactly when the agreements request
      raises, and then always with an authentication error naming the
      agreements endpoint. */
  lemma ProbeFailureIsAuthentication<T>(config: IntegrationConfig, script: seq<Reply<T>>)
    ensures var r := ValidateInvocationSpec(config, script);
      var got := GetDataSpec(AgreementsRequest(RequestHeaders(config.apiKey, config.apiSecret)), script);
      && (r.result.ProbeFailed? <==> ConfigComplete(config) && got.result.Raised?)
      && (r.result.ProbeFailed? ==>
            r.result.error.kind == AuthenticationError && r.result.error.endpoint == AGREEMENTS_ENDPOINT
            && r.result.error.cause == Some(got.result.error))
  {
    VerifyAuthenticationCollapses(RequestHeaders(config.apiKey, config.apiSecret), script);
  }

  /** A complete configuration is accepted when the probe gets data, a 404,
      or only 429s until the retry budget is spent. */
  lemma AcceptedInvocations<T>(config: IntegrationConfig, script: seq<Reply<T>>)
    ensures var n, last := LeadingRateLimits(script), FinalReply(script);
      ValidateInvocationSpec(config, script).result == Accepted <==>
        ConfigComplete(config) && (n >= MAX_RETRIES || last.Ok? || (last.Rejected? && last.status == 404))
  {
    VerifyAuthenticationSucceeds(RequestHeaders(config.apiKey, config.apiSecret), script);
  }
}
