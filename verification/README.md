# GoDaddy API access client, modelled in Dafny

This project models the API access layer of the GoDaddy integration: the
`APIClient` class of `src/client.ts` and the `validateInvocation` entry point
of `src/validateInvocation.ts`.

The model covers the following:

- the credentials the client keeps;
- the request primitive `getData`, with its fixed host, its path
  normalisation, its two headers and its bounded retry on 429 with a sleep
  taken from `retryAfterSec` or the 5000 ms fallback;
- its classification of every other answer: 401 raises an authentication
  error, 403 an authorization error, 404 returns absent, and anything else
  (including no response at all, read as status 404) raises an API error;
- `verifyAuthentication`, which re-raises any failure as an authentication
  error naming the agreements endpoint;
- the two single-request accessors;
- the query-string builder `withURLSeachParams`;
- the offset paging of `getDomainRecords` (`limit=50`, offsets 1, 51, 101, …);
- the marker paging of `iterateDomains`, where the next marker is the
  `domain` of the last item of the page;
- the credential check of `validateInvocation`.

The network is a script of replies (`Types.Reply`). Each reply is a body, a
rejection carrying status, status text and an optional `retryAfterSec`, or no
response; once the script is used up, every further request gets no response.
Every operation takes such a script and returns three things: its result, the
events it caused (requests sent, sleeps, visitor calls) and the replies it
left unread.

The files are layered as follows:

- `types.dfy`: the entities (configuration, request, reply, error, run).
- `decimal.dfy`: `String(n)` and `Number(s)` on the offset.
- `http.dfy`: URL, query string and headers.
- `fetch.dfy`: the specification of `getData` and `verifyAuthentication`, and
  the lemmas about them.
- `paging.dfy`: the specifications of the two paging loops, and their lemmas.
- `client.dfy`: the `APIClient` class. Its methods are the source's loops,
  each proved to produce exactly what its specification function describes.
- `validate_invocation.dfy`: `validateInvocation`.

The code (`src/client.ts:161`) adds the page limit, 50, to the records
offset after every non-empty page, whatever that page's size, so the offset
does not count the records consumed. `Paging.Offset` computes it the same
way, step by step from 1, and `Paging.OffsetOfPage` shows that the `page`-th
request asks for offset `1 + 50 * page`. The listing also ends only on an
empty or absent page, not on a short one (`Paging.RecordsListing`).

The listing lemmas take the replies as one run per request. A run may hold
429s before its page, so a listing that is rate-limited halfway through is
covered. The run that closes the listing is any run on which the request
gives an empty page or nothing: a 404, or three 429s
(`Paging.ExhaustionCloses`).

A listing can also fail part-way. When the request after some served pages
raises (401, 403, any other error status, or no response), `getDomainRecords`
raises that same error and returns none of the records gathered so far
(`Paging.RecordsRaise`, `Paging.RecordsFailure`). `iterateDomains` raises it
after visiting exactly the items of the served pages (`Paging.DomainsRaise`,
`Paging.DomainsFailure`).

## Model

| member | source | states |
|---|---|---|
| Client.APIClient.constructor | src/client.ts:28-35 | the client keeps the configuration's key, secret and shopper id |
| Client.APIClient.GetData | src/client.ts:37-105 | the retry loop produces exactly the result, events and unread replies of `Fetch.GetDataSpec` for the normalised URL and the two headers |
| Client.APIClient.VerifyAuthentication | src/client.ts:107-118 | the probe produces exactly what `Fetch.VerifyAuthenticationSpec` describes |
| Client.APIClient.GetAccountDetails | src/client.ts:129-131 | one `getData` of `/v1/shoppers/{shopperId}`; every request it sends goes to that URL with the client's headers |
| Client.APIClient.GetDomainDetails | src/client.ts:133-135 | one `getData` of `/v1/domains/{domainName}`; every request it sends goes to that URL with the client's headers |
| Client.APIClient.GetDomainRecords | src/client.ts:137-168 | the paging loop, with its offset kept as a string and advanced by `String(Number(offset) + limit)`, produces exactly the records, events and unread replies of `Paging.RecordsSpec` |
| Client.APIClient.IterateDomains | src/client.ts:170-196 | the paging loop with its inner visiting loop produces exactly the events and unread replies of `Paging.DomainsSpec` |
| Http.RequestUrl | src/client.ts:41 | computes the URL `getData` requests: the fixed origin, a '/' unless the path starts with one, then the path |
| Http.RequestUrlForm | src/client.ts:41 | the URL is the origin, exactly one '/', then the path unchanged |
| Http.SlashNormalisation | src/client.ts:41 | a path without a leading '/' names the same URL as the path with one |
| Http.QueryString | src/client.ts:124 | the query string is empty exactly when there are no parameters |
| Http.WithSearchParams | src/client.ts:120-127 | no parameters leave the URL unchanged; otherwise the URL, '?' and the query string |
| Http.QueryRoundTrip | src/client.ts:124 | parsing the query string gives back the parameters, in order |
| Http.SearchParamsRoundTrip | src/client.ts:120-127 | a '?' appears exactly when there are parameters; the text before it is the URL and the text after it parses back to the parameters |
| Http.RequestHeaders | src/client.ts:47-51 | computes the two headers of every request: `Accept: application/json` and the `sso-key` authorization |
| Http.AuthorizationHeader | src/client.ts:47-51 | for any key and secret, the `Accept` header is `application/json` and the `Authorization` header is `sso-key {key}:{secret}` |
| Http.HeadersCarryCredentials | src/client.ts:47-51 | every request asks for JSON and carries an `sso-key` authorization from which the key and the secret are read back |
| Decimal.NatToString | src/client.ts:143 | `String(n)` is a non-empty string of digits, starting with '0' only for zero |
| Decimal.ParseNat | src/client.ts:161 | computes `Number(s)` on a string of decimal digits |
| Decimal.ParseNatToString | src/client.ts:161 | `Number(String(n)) == n` |
| Decimal.NatToStringInjective | src/client.ts:161 | distinct offsets are rendered as distinct strings |
| Fetch.SleepTime | src/client.ts:63-65 | computes the pause after a 429: `retryAfterSec * 1000` ms when that field is present and non-zero, 5000 ms otherwise |
| Fetch.SleepNeverZero | src/client.ts:63-65 | the pause is a whole number of seconds and at least one second; the 5000 ms fallback applies exactly when the field is missing or zero, or is itself 5 |
| Fetch.Settle | src/client.ts:73-102 | computes how a reply other than 429 ends the call: data on a body; absent on 404; an authentication error on 401; an authorization error on 403; an API error on any other status; on no response, an API error with status 404 and "No Response Received" |
| Fetch.Attempt | src/client.ts:45-104 | the rest of the loop, from the turn where `retryCounter` 429s have been seen, never reads more replies than it has, and reads at least one unless it raises |
| Fetch.RetryStep | src/client.ts:59-72 | a 429 with budget left sends the request, sleeps, and retries with the counter one higher on the next reply |
| Fetch.LastRetryStep | src/client.ts:59-72 | the 429 that spends the budget sends the request, sleeps and ends with absent |
| Fetch.SettleStep | src/client.ts:46-102 | any other reply ends the loop with that reply classified, after one request |
| Fetch.ExhaustedForm | src/client.ts:45-104 | with at least as many leading 429s as the budget, the loop returns absent after one request and one sleep per 429 of the budget, and reads nothing more |
| Fetch.SettledForm | src/client.ts:45-104 | with fewer leading 429s than the budget, the loop backs off once per 429, then settles on the next reply and reads nothing after it |
| Fetch.AttemptClosedForm | src/client.ts:45-104 | the loop is always one of those two forms |
| Fetch.Classification | src/client.ts:55-102 | each outcome occurs if and only if its reply does: data on a body, absent on exhaustion or 404, each error kind on its status, an API error on no response or any other status; raised errors carry the status, text and URL |
| Fetch.RateLimitExhaustion | src/client.ts:59-72 | three 429s give three requests, each followed by a sleep of the advertised or fallback length, then absent without raising |
| Fetch.NoRetryAfterOtherReply | src/client.ts:73-104 | a reply other than 429 is not retried: after n 429s exactly n + 1 requests go out and nothing after that reply is read |
| Fetch.BackoffRequests | src/client.ts:59-72 | every retried request is the identical request |
| Fetch.BackoffEvents | src/client.ts:63-72 | each 429 contributes its request and then a sleep of `retryAfterSec * 1000` ms, or 5000 ms when that field is missing or zero, in arrival order |
| Fetch.ConsumesFromFront | src/client.ts:45-104 | the unread replies are a suffix of the given ones |
| Fetch.RequestBound | src/client.ts:45-104 | between one and three requests are sent, all identical |
| Fetch.PageAtFirstTry | src/client.ts:45-104 | a page as first reply is returned after one request, and nothing else is read |
| Fetch.PageAfterOneRetry | src/client.ts:59-72 | a 429 and then a page: the request is sent, the sleep follows, the same request is sent again, and the page is returned |
| Fetch.AttemptFrame | src/client.ts:45-104 | a call that does not raise gives the same result and events whatever replies follow the ones it reads, and leaves those unread |
| Fetch.AttemptVisitsNothing | src/client.ts:37-105 | a call of `getData` never calls the visitor |
| Fetch.CallsRequests | src/client.ts:45-104 | calls made one after another send their requests in order, each one between one and three times in a row, and send nothing else |
| Fetch.VerifyAuthenticationCollapses | src/client.ts:107-118 | the probe raises exactly when its request raises, always as an authentication error naming the agreements endpoint, keeping the status and text and the original error as cause |
| Fetch.AgreementsEndpoint | src/client.ts:109-113 | the endpoint named in the error is the URL the probe requested |
| Fetch.VerifyAuthenticationSucceeds | src/client.ts:107-118 | the probe succeeds exactly on data, on a 404 or on retry exhaustion |
| Paging.RecordsRequestOf | src/client.ts:142-155 | the request built from the loop's two string parameters is the request for that page |
| Paging.RecordsFrom | src/client.ts:148-165 | the listing never reads more replies than it has |
| Paging.RecordsNext | src/client.ts:156-164 | a non-empty page is gathered and the next offset is requested |
| Paging.RecordsFail | src/client.ts:148-154 | an error raised by a page request ends the listing with that error |
| Paging.RecordsLast | src/client.ts:156-158 | an empty or absent page ends the listing with nothing more gathered |
| Paging.RecordsAdvance | src/client.ts:160-164 | the next offset string is the rendering of the next page's offset, and what remains to be gathered is the listing from the next page |
| Paging.RecordsEnd | src/client.ts:156-167 | after an empty or absent page, the records gathered so far are the result |
| Paging.LimitParam | src/client.ts:143 | the limit parameter is "50" |
| Paging.RecordsQueryString | src/client.ts:142-145 | the records query is `limit=50&offset=` followed by the page's offset |
| Paging.RecordsUrl | src/client.ts:149-154 | the page-th records URL is `/v1/domains/{domainName}/records?limit=50&offset={1 + 50 * page}` on the fixed host |
| Paging.Offset | src/client.ts:161 | computes the offset of the `page`-th request: 1, then 50 more after each page |
| Paging.OffsetOfPage | src/client.ts:161 | the offset, 1 at first and 50 more after each page, is `1 + 50 * page` for the `page`-th request |
| Paging.RecordsRequestsAt | src/client.ts:148-165 | the i-th request of a listing from `page` is the request for page `page + i` |
| Paging.ClosesFrame | src/client.ts:156-158 | a call that closes a listing gives an empty page or nothing, and reads only its own replies |
| Paging.AnswersFrame | src/client.ts:149-154 | a call that answers a page reads only its own replies |
| Paging.ExhaustionCloses | src/client.ts:59-72 | three 429s in a row give nothing, and so close a listing |
| Paging.RecordsCallAfterRequest | src/client.ts:148-161 | the call `count` pages after `page` is the call for the last request of the listing from `page` |
| Paging.RecordsClosed | src/client.ts:156-158 | replies that close the listing at its first request give an empty list, after that one call's events |
| Paging.RecordsGather | src/client.ts:156-164 | a page answered by its own replies comes first in the result, followed by the listing from the next page |
| Paging.RecordsCalls | src/client.ts:148-165 | the calls for consecutive pages are the call for the first page, then the calls from the next page on |
| Paging.RecordsStep | src/client.ts:148-165 | one step of the listing induction: with no page left the closing replies end it; otherwise the first page comes first, then the listing from the next page |
| Paging.RecordsOfPages | src/client.ts:148-165 | for replies that serve pages (retried 429s included) and then close the listing, the result is the pages concatenated in order, and the events are the calls for pages `page`, `page + 1`, … and the closing one; a short page does not end the listing, and nothing after the closing replies is read |
| Paging.RecordsRaised | src/client.ts:148-154 | a first request that raises ends the listing with that error, after that one call's events, leaving the replies that call left |
| Paging.RecordsGatherRaise | src/client.ts:148-164 | a page answered by its own replies before a raising listing from the next page: the same error, with no records returned, after that page's call |
| Paging.RecordsRaise | src/client.ts:148-165 | pages served and then a request that raises: the listing raises that same error and returns none of the records gathered; its events are one call per served page and the failing call, and the replies left are those the failing call left |
| Paging.RecordsUrlAt | src/client.ts:149-161 | the i-th records request asks for `limit=50&offset={1 + 50 * i}` |
| Paging.RecordsUrls | src/client.ts:149-161 | the i-th records request of a listing asks for `limit=50&offset={1 + 50 * i}` |
| Paging.RecordsListing | src/client.ts:137-168 | for any such replies, `getDomainRecords` returns every record of every page in order, requests the offsets 1, 51, 101, … in order, each one to three times in a row, and reads nothing after the closing replies |
| Paging.RecordsFailure | src/client.ts:137-168 | when the request after some served pages raises, `getDomainRecords` raises that error and returns no records, having requested offsets 1, 51, 101, … in order up to and including the failing one, each one to three times in a row |
| Paging.RetriedPage | src/client.ts:148-165 | a 429 before the second page: that page's request is sent again after 5000 ms, and both pages' records are returned |
| Paging.Visits | src/client.ts:191-193 | the visits of a page are one event per item, for that item, in page order |
| Paging.NextMarker | src/client.ts:189 | computes the next marker: the `domain` of the page's last item |
| Paging.VisitsExtend | src/client.ts:191-193 | visiting one more item adds exactly its event |
| Paging.DomainsFrom | src/client.ts:179-195 | the iteration never reads more replies than it has |
| Paging.DomainsNext | src/client.ts:184-194 | a non-empty page is visited item by item and the next page is requested with its last item's domain as marker |
| Paging.DomainsLast | src/client.ts:184-186 | an empty or absent page ends the iteration |
| Paging.DomainsFail | src/client.ts:179-182 | an error raised by a page request ends the iteration with that error |
| Paging.DomainsAdvance | src/client.ts:188-194 | after visiting a page, what remains is the iteration from the new marker |
| Paging.DomainsRequestsAt | src/client.ts:188-189 | the request after page i carries the domain of page i's last item as marker |
| Paging.DomainsRequestsFirst | src/client.ts:175-189 | the first request of an iteration carries its marker; the rest are the requests from the first page's last domain on |
| Paging.DomainsCallAfterRequest | src/client.ts:179-189 | the call after the last of the pages is the call for the last request of the iteration |
| Paging.DomainsClosed | src/client.ts:184-186 | replies that close the iteration at its first request end it after that one call's events |
| Paging.DomainsGather | src/client.ts:184-194 | a page answered by its own replies is visited item by item, followed by the iteration from the page's last domain |
| Paging.TourFirst | src/client.ts:179-194 | a tour of at least one page is the first call, its visits, then the rest of the tour |
| Paging.DomainsTour | src/client.ts:179-194 | the tour of consecutive pages is the first page's call and visits, then the tour from that page's last domain on |
| Paging.DomainsStep | src/client.ts:179-195 | one step of the iteration induction: with no page left the closing replies end it; otherwise the first page is visited, then the iteration from its last domain |
| Paging.DomainsRaised | src/client.ts:179-182 | a first request that raises ends the iteration with that error, after that one call's events, leaving the replies that call left |
| Paging.DomainsGatherRaise | src/client.ts:179-194 | a page answered by its own replies and visited before a raising iteration from its last domain: the same error, after that page's call and visits |
| Paging.DomainsRaise | src/client.ts:179-195 | pages served and then a request that raises: the iteration raises that same error; its events are the tour of the served pages (each call, then a visit of each item) and the failing call, and the replies left are those the failing call left |
| Paging.DomainsOfPages | src/client.ts:179-195 | for replies that serve pages (retried 429s included) and then close the iteration, it completes, its events are exactly the tour (each page's call, then a visit of each of its items), and nothing after the closing replies is read |
| Paging.TourVisitsEachItem | src/client.ts:191-193 | the visitor is called exactly once per item, in page order |
| Paging.VisitsVisitEach | src/client.ts:191-193 | visiting a page calls the visitor on its items and sends no request |
| Paging.TourVisitsSendNothing | src/client.ts:191-193 | the visits between a call and the rest of a tour send no request |
| Paging.TourRequestsStep | src/client.ts:191-193 | one step of the induction below: the first call's requests, then the rest of the tour's |
| Paging.TourRequests | src/client.ts:191-193 | visiting sends no request: the tour sends exactly its calls' requests |
| Paging.FirstDomainsUrl | src/client.ts:175-181 | the first domains URL is `/v1/domains?limit=50` on the fixed host |
| Paging.DomainsQueryString | src/client.ts:175-189 | a later domains query is `limit=50&marker=` followed by the marker |
| Paging.NextDomainsUrl | src/client.ts:179-189 | a later domains URL is `/v1/domains?limit=50&marker={marker}` on the fixed host |
| Paging.DomainsUrls | src/client.ts:179-189 | the request after page i asks for `limit=50&marker=` and the domain of page i's last item |
| Paging.DomainsListing | src/client.ts:170-196 | for any such replies, `iterateDomains` completes, calls the visitor once per item in page order, sends its first request without a marker and each later one with the domain of the previous page's last item, each one to three times in a row, and reads nothing after the closing replies |
| Paging.DomainsFailure | src/client.ts:170-196 | when the request after some served pages raises, `iterateDomains` raises that error after calling the visitor once per item of the served pages and for nothing else, having sent its requests in order, each one to three times in a row |
| Invocation.ConfigComplete | src/validateInvocation.ts:14 | holds when all three of key, secret and shopper id are present |
| Invocation.ValidateInvocation | src/validateInvocation.ts:9-22 | the invocation produces exactly what `Invocation.ValidateInvocationSpec` describes |
| Invocation.IncompleteConfigRefused | src/validateInvocation.ts:14-18 | a configuration lacking any credential is refused with the fixed message before any request, and only such a configuration is refused |
| Invocation.ProbeRequests | src/validateInvocation.ts:20-21 | a complete configuration leads to one to three requests, all to the agreements endpoint with the configured credentials |
| Invocation.ProbeFailureIsAuthentication | src/validateInvocation.ts:20-21 | the invocation fails its probe exactly when the agreements request raises, always with an authentication error wrapping that failure |
| Invocation.AcceptedInvocations | src/validateInvocation.ts:9-22 | the invocation is accepted exactly when the configuration is complete and the probe gets data, a 404 or only 429s until the budget is spent |

## Left out

- HTTP transport (axios): replies come from a script given as a parameter, and a request past the end of the script gets no response.
- Timing: `setTimeout` is not modelled. Each sleep is recorded as an event with its length in milliseconds.
- `retryAfterSec` is a whole number of seconds in the model. A fractional value is not represented.
- Async scheduling: each `await` becomes a sequential step, and no requests overlap.
- Percent-encoding by `URLSearchParams` is not modelled. The query round trip is proved for keys and values without '&' or '='.
- The logger: the info line on a 429 and the warning on a 404 are not modelled.
- SDK error classes: they become the `ProviderError` datatype, with a kind, status, status text, endpoint and optional cause.
- The visitor passed to `iterateDomains`: its calls are recorded as events. Its own effects, and any error it raises, are not modelled.
- Missing configuration fields are modelled as the empty string, which `!x` treats the same as an absent field.
- A rejection always carries a status text. The "No Response Received" fallback applies only when there is no response at all.
- `createAPIClient` (src/client.ts:199-204) only calls the constructor, which is modelled.
- Replies are typed: a records reply is a list of records and a domains reply is a list of domain summaries. Bodies of other shapes are not modelled.
- The declared return type of `getDomainRecords` allows `undefined`, but the code always returns the array. The model returns the array, or the raised error.
- The optional `args` of `getData` (src/client.ts:39, 52) are not modelled, because no caller in the client passes them.
- The offset arithmetic runs on JavaScript numbers, which are exact only up to 2^53. The model's offsets are unbounded naturals, so a listing of more than about 1.8 * 10^14 pages is not represented faithfully.
- The context files src/steps/*.ts, src/types.ts and src/instanceConfigFields.ts are not part of this model.
