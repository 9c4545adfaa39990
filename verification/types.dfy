/**
 * Values shared by the API access client: credentials, requests, what the
 * upstream API answers, the classified failures, and the trace of observable
 * effects (requests sent, rate-limit sleeps, visitor calls).
 */
module Types {

  datatype Option<T> = None | Some(value: T)

  /** The three credentials an integration instance is configured with.
      A field that is missing from the configuration is represented by "". */
  datatype IntegrationConfig = IntegrationConfig(apiKey: string, apiSecret: string, shopperId: string)

  datatype Header = Header(name: string, value: string)

  /** One GET request as handed to the transport: full URL and headers. */
  datatype HttpRequest = HttpRequest(url: string, headers: seq<Header>)

  /** What the transport made of one request:
      a 2xx answer with its decoded JSON body, a non-2xx answer (with the
      `retryAfterSec` field of its body, when present), or no answer at all. */
  datatype Reply<T> =
    | Ok(body: T)
    | Rejected(status: int, statusText: string, retryAfterSec: Option<nat>)
    | NoResponse

  /** An entry of the shopper's domain listing; the client reads only `domain`. */
  datatype DomainSummary = DomainSummary(domain: string, fields: map<string, string>)

  /** Observable effects, in the order they happen. */
  datatype Event =
    | Sent(request: HttpRequest)
    | Slept(ms: nat)
    | Visited(item: DomainSummary)

  datatype ErrorKind = AuthenticationError | AuthorizationError | ApiError

  /** A provider error as raised by the client: its kind, the HTTP status and
      status text, the endpoint, and the error it was raised for, if any. */
  datatype ProviderError = ProviderError(
    kind: ErrorKind, status: int, statusText: string, endpoint: string, cause: Option<ProviderError>)

  /** Result of the request primitive: decoded data, "absent", or a raised error. */
  datatype Fetched<T> = Data(value: T) | Absent | Raised(error: ProviderError)

  /** Result of an operation that either completes with a value or raises. */
  datatype Outcome<T> = Success(value: T) | Thrown(error: ProviderError)

  /** A run of an operation against a script of replies: its result, the
      events it produced, and the replies it left unconsumed. */
  datatype Run<T, X> = Run(result: X, trace: seq<Event>, rest: seq<Reply<T>>)

  /** `r` run after the events `before` already happened. */
  function Resume<T, X>(before: seq<Event>, r: Run<T, X>): Run<T, X>
  {
    Run(r.result, before + r.trace, r.rest)
  }

  /** Resuming twice is resuming after both sets of events. */
  lemma ResumeTwice<T, X>(a: seq<Event>, b: seq<Event>, r: Run<T, X>)
    ensures Resume(a, Resume(b, r)) == Resume(a + b, r)
  {
    assert a + (b + r.trace) == a + b + r.trace;
  }

  /** `rest` is what remains of `s` after some prefix was consumed. */
  ghost predicate IsSuffix<T>(rest: seq<T>, s: seq<T>)
  {
    |rest| <= |s| && rest == s[|s| - |rest|..]
  }

  /** The requests of a trace, in order. */
  function SentRequests(trace: seq<Event>): seq<HttpRequest>
  {
    if |trace| == 0 then []
    else (if trace[0].Sent? then [trace[0].request] else []) + SentRequests(trace[1..])
  }

  /** The items handed to the visitor, in order. */
  function VisitedItems(trace: seq<Event>): seq<DomainSummary>
  {
    if |trace| == 0 then []
    else (if trace[0].Visited? then [trace[0].item] else []) + VisitedItems(trace[1..])
  }

  lemma {:induction false} SentRequestsAppend(a: seq<Event>, b: seq<Event>)
    ensures SentRequests(a + b) == SentRequests(a) + SentRequests(b)
  {
    if |a| > 0 {
      assert (a + b)[1..] == a[1..] + b;
      SentRequestsAppend(a[1..], b);
    } else {
      assert a + b == b;
    }
  }

  lemma {:induction false} VisitedItemsAppend(a: seq<Event>, b: seq<Event>)
    ensures VisitedItems(a + b) == VisitedItems(a) + VisitedItems(b)
  {
    if |a| > 0 {
      assert (a + b)[1..] == a[1..] + b;
      VisitedItemsAppend(a[1..], b);
    } else {
      assert a + b == b;
    }
  }

  /** The pages concatenated in order. */
  function Flatten<T>(pages: seq<seq<T>>): seq<T>
  {
    if |pages| == 0 then [] else pages[0] + Flatten(pages[1..])
  }

  /** Runs of replies laid end to end, then more: the first run comes first. */
  lemma FlattenFirst<T>(segs: seq<seq<T>>, end: seq<T>, tail: seq<T>)
    requires |segs| > 0
    ensures Flatten(segs) + end + tail == segs[0] + (Flatten(segs[1..]) + end + tail)
  {
    var first, rest := segs[0], Flatten(segs[1..]);
    AppendAssoc(first, rest, end);
    AppendAssoc(first, rest + end, tail);
  }

  lemma AppendAssoc<T>(a: seq<T>, b: seq<T>, c: seq<T>)
    ensures a + b + c == a + (b + c)
  {
  }

  /** Appending one element after a non-empty sequence keeps its head and
      appends the element after its tail. */
  lemma AppendLast<T>(xs: seq<T>, x: T)
    requires |xs| > 0
    ensures (xs + [x])[0] == xs[0]
    ensures (xs + [x])[1..] == xs[1..] + [x]
  {
  }
}
