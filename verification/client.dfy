/**
 * The API access client. Its credentials are set once by the constructor;
 * every operation runs against a script of replies and returns what it
 * produced, the events it caused and the replies it left unconsumed. Each
 * operation is proved to behave as the specification function of the
 * `Fetch` or `Paging` module that describes it.
 */
module Client {
  import opened Types
  import opened Decimal
  import opened Http
  import opened Fetch
  import opened Paging

  class APIClient {
    const apiKey: string
    const apiSecret: string
    const shopperId: string

    constructor (config: IntegrationConfig)
      ensures apiKey == config.apiKey && apiSecret == config.apiSecret && shopperId == config.shopperId
    {
      apiKey := config.apiKey;
      apiSecret := config.apiSecret;
      shopperId := config.shopperId;
    }

    /** The headers of every request this client sends. */
    function Headers(): seq<Header>
    {
      RequestHeaders(apiKey, apiSecret)
    }

    /** `getData`: request `path` until a reply other than 429 arrives or the
        retry budget is spent, sleeping after each 429. */
    method GetData<T>(path: string, script: seq<Reply<T>>) returns (result: Fetched<T>, trace: seq<Event>, rest: seq<Reply<T>>)
      ensures Run(result, trace, rest) == GetDataSpec(HttpRequest(RequestUrl(path), Headers()), script)
    {
      var url := ORIGIN + (if StartsWithSlash(path) then "" else "/") + path;
      var request := HttpRequest(url, Headers());
      ghost var spec := GetDataSpec(request, script);
      var retryCounter: nat := 0;
      var abortRetry := false;
      trace, rest := [], script;
      while true
        invariant retryCounter < MAX_RETRIES && !abortRetry
        invariant spec == Resume(trace, Attempt(request, retryCounter, rest))
        decreases MAX_RETRIES - retryCounter
      {
        var reply := Head(rest);
        ghost var before, remaining := trace, rest;
        trace := trace + [Sent(request)];
        rest := Tail(rest);
        if reply.Ok? {
          assert spec == Run(Data(reply.body), trace, rest) by {
            SettleStep(request, retryCounter, remaining);
          }
          return Data(reply.body), trace, rest;
        }
        var status := if reply.Rejected? then reply.status else 404;
        var statusText := if reply.Rejected? then reply.statusText else NO_RESPONSE_TEXT;
        if reply.Rejected? && reply.status == 429 {
          var sleepTime := SleepTime(reply.retryAfterSec);
          retryCounter := retryCounter + 1;
          trace := trace + [Slept(sleepTime)];
          if retryCounter < MAX_RETRIES {
            assert spec == Resume(trace, Attempt(request, retryCounter, rest)) by {
              RetryStep(request, retryCounter - 1, remaining);
              ResumeTwice(before, [Sent(request), Slept(sleepTime)], Attempt(request, retryCounter, rest));
              assert before + [Sent(request), Slept(sleepTime)] == trace;
            }
          } else {
            assert spec == Run(Absent, trace, rest) by {
              LastRetryStep(request, retryCounter - 1, remaining);
              assert before + [Sent(request), Slept(sleepTime)] == trace;
            }
          }
        } else if reply.Rejected? && reply.status == 401 {
          var error := ProviderError(AuthenticationError, status, statusText, url, None);
          assert spec == Run(Raised(error), trace, rest) by {
            SettleStep(request, retryCounter, remaining);
          }
          return Raised(error), trace, rest;
        } else if reply.Rejected? && reply.status == 403 {
          var error := ProviderError(AuthorizationError, status, statusText, url, None);
          assert spec == Run(Raised(error), trace, rest) by {
            SettleStep(request, retryCounter, remaining);
          }
          return Raised(error), trace, rest;
        } else if reply.Rejected? && reply.status == 404 {
          abortRetry := true;
          assert spec == Run(Absent, trace, rest) by {
            SettleStep(request, retryCounter, remaining);
          }
        } else {
          var error := ProviderError(ApiError, status, statusText, url, None);
          assert spec == Run(Raised(error), trace, rest) by {
            SettleStep(request, retryCounter, remaining);
          }
          return Raised(error), trace, rest;
        }
        if !(retryCounter < MAX_RETRIES && !abortRetry) {
          break;
        }
      }
      result := Absent;
    }

    /** `verifyAuthentication`: probe the agreements endpoint and re-raise any
        failure as an authentication error. */
    method VerifyAuthentication<T>(script: seq<Reply<T>>) returns (outcome: Outcome<()>, trace: seq<Event>, rest: seq<Reply<T>>)
      ensures Run(outcome, trace, rest) == VerifyAuthenticationSpec(Headers(), script)
    {
      var result;
      result, trace, rest := GetData(AGREEMENTS_PATH, script);
      if result.Raised? {
        var err := result.error;
        return Thrown(ProviderError(AuthenticationError, err.status, err.statusText, AGREEMENTS_ENDPOINT, Some(err))), trace, rest;
      }
      outcome := Success(());
    }

    /** `getAccountDetails`: one `getData` for the shopper. */
    method GetAccountDetails<T>(script: seq<Reply<T>>) returns (result: Fetched<T>, trace: seq<Event>, rest: seq<Reply<T>>)
      ensures Run(result, trace, rest) == GetDataSpec(HttpRequest(RequestUrl("/v1/shoppers/" + shopperId), Headers()), script)
      ensures forall q <- SentRequests(trace) :: q.url == ORIGIN + "/v1/shoppers/" + shopperId && q.headers == Headers()
    {
      result, trace, rest := GetData("/v1/shoppers/" + shopperId, script);
      RequestBound(HttpRequest(RequestUrl("/v1/shoppers/" + shopperId), Headers()), script);
    }

    /** `getDomainDetails`: one `getData` for the named domain. */
    method GetDomainDetails<T>(domainName: string, script: seq<Reply<T>>) returns (result: Fetched<T>, trace: seq<Event>, rest: seq<Reply<T>>)
      ensures Run(result, trace, rest) == GetDataSpec(HttpRequest(RequestUrl("/v1/domains/" + domainName), Headers()), script)
      ensures forall q <- SentRequests(trace) :: q.url == ORIGIN + "/v1/domains/" + domainName && q.headers == Headers()
    {
      result, trace, rest := GetData("/v1/domains/" + domainName, script);
      RequestBound(HttpRequest(RequestUrl("/v1/domains/" + domainName), Headers()), script);
    }

    /** `getDomainRecords`: request pages of 50 records at offsets 1, 51, 101,
        ... and gather them until a page is empty or absent. */
    method GetDomainRecords<R>(domainName: string, script: seq<Reply<seq<R>>>)
      returns (outcome: Outcome<seq<R>>, trace: seq<Event>, rest: seq<Reply<seq<R>>>)
      ensures Run(outcome, trace, rest) == RecordsSpec(Headers(), domainName, script)
    {
      var limit := PAGE_LIMIT;
      var hasNext := true;
      var limitParam, offset := NatToString(limit), "1";
      var records: seq<R> := [];
      ghost var page: nat := 0;
      ghost var spec := RecordsSpec(Headers(), domainName, script);
      trace, rest := [], script;
      assert offset == NatToString(Offset(page));
      assert spec == Gathered(records, trace, RecordsFrom(Headers(), domainName, page, rest)) by {
        GatheredNothing(spec);
      }
      while hasNext
        invariant hasNext ==> offset == NatToString(Offset(page))
        invariant hasNext ==> spec == Gathered(records, trace, RecordsFrom(Headers(), domainName, page, rest))
        invariant !hasNext ==> spec == Run(Success(records), trace, rest)
        decreases |rest|
      {
        var path := WithSearchParams(RecordsPath(domainName), [("limit", limitParam), ("offset", offset)]);
        var response, sent, left := GetData(path, rest);
        ghost var got := Run(response, sent, left);
        assert got == GetDataSpec(RecordsRequest(Headers(), domainName, page), rest) by {
          RecordsRequestOf(Headers(), domainName, page, limitParam, offset);
        }
        assert |left| < |rest| || response.Raised?;
        if response.Raised? {
          assert spec == Run(Thrown(response.error), trace + sent, left) by {
            RecordsFail(Headers(), domainName, page, rest, response.error, sent, left);
          }
          return Thrown(response.error), trace + sent, left;
        }
        if !response.Data? || |response.value| == 0 {
          hasNext := false;
          assert spec == Run(Success(records), trace + sent, left) by {
            RecordsEnd(Headers(), domainName, page, rest, sent, left, spec, records, trace);
          }
        }
        ghost var before, remaining := trace, rest;
        trace, rest := trace + sent, left;
        if hasNext && response.Data? {
          ghost var previousPage, previousOffset, previousRecords := page, offset, records;
          offset := NatToString(ParseNat(offset) + limit);
          records := records + response.value;
          page := page + 1;
          RecordsAdvance(Headers(), domainName, previousPage, remaining, previousOffset, response.value, sent, left,
                         spec, previousRecords, before, page, offset, records, trace);
        }
      }
      outcome := Success(records);
    }

    /** `iterateDomains`: request pages of 50 domains, each after the marker
        taken from the previous page, and call the visitor on every item. */
    method IterateDomains(script: seq<Reply<seq<DomainSummary>>>)
      returns (outcome: Outcome<()>, trace: seq<Event>, rest: seq<Reply<seq<DomainSummary>>>)
      ensures Run(outcome, trace, rest) == DomainsSpec(Headers(), script)
    {
      var hasNext := true;
      var marker: Option<string> := None;
      ghost var spec := DomainsSpec(Headers(), script);
      trace, rest := [], script;
      while hasNext
        invariant hasNext ==> spec == Resume(trace, DomainsFrom(Headers(), marker, rest))
        invariant !hasNext ==> spec == Run(Success(()), trace, rest)
        decreases |rest|
      {
        ghost var request := DomainsRequest(Headers(), marker);
        var response, sent, left := GetData(WithSearchParams(DOMAINS_PATH, DomainsQuery(marker)), rest);
        ghost var got := GetDataSpec(request, rest);
        assert Run(response, sent, left) == got;
        assert |left| < |rest| || response.Raised?;
        if response.Raised? {
          assert spec == Run(Thrown(response.error), trace + sent, left) by {
            DomainsFail(Headers(), marker, rest, response.error, sent, left);
          }
          return Thrown(response.error), trace + sent, left;
        }
        if !response.Data? || |response.value| == 0 {
          hasNext := false;
          assert spec == Run(Success(()), trace + sent, left) by {
            DomainsLast(Headers(), marker, rest, sent, left);
          }
        }
        ghost var before := trace;
        trace := trace + sent;
        if hasNext && response.Data? {
          var page := response.value;
          ghost var previous := marker;
          marker := Some(page[|page| - 1].domain);
          ghost var start := trace;
          for i := 0 to |page|
            invariant trace == start + Visits(page[..i])
          {
            VisitsExtend(page, i);
            trace := trace + [Visited(page[i])];
          }
          DomainsAdvance(Headers(), previous, rest, page, sent, left, spec, before, start, trace, marker);
        }
        rest := left;
      }
      outcome := Success(());
    }
  }
}
