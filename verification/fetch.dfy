/**
 * The request primitive `getData` as a specification over a script of
 * replies: one request per loop turn, bounded retry on 429 with a recorded
 * sleep, and the classification of every other answer; and
 * `verifyAuthentication`, which collapses every raised error into an
 * authentication error.
 */
module Fetch {
  import opened Types
  import opened Http

  const MAX_RETRIES: nat := 3
  const RATE_LIMIT_SLEEP_TIME: nat := 5000
  const NO_RESPONSE_TEXT := "No Response Received"

  /** The pause after a 429: `retryAfterSec` seconds when that field is
      present and non-zero, the fallback otherwise. */
  function SleepTime(retryAfterSec: Option<nat>): nat
  {
    if retryAfterSec.Some? && retryAfterSec.value != 0 then retryAfterSec.value * 1000
    else RATE_LIMIT_SLEEP_TIME
  }

  /** A 429 never leads to a retry without a pause: a zero `retryAfterSec`
      falls back like a missing one, and the pause is a whole number of
      seconds, at least one. */
  lemma SleepNeverZero(retryAfterSec: Option<nat>)
    ensures SleepTime(retryAfterSec) >= 1000 && SleepTime(retryAfterSec) % 1000 == 0
    ensures SleepTime(retryAfterSec) == RATE_LIMIT_SLEEP_TIME <==>
      retryAfterSec.None? || retryAfterSec.value == 0 || retryAfterSec.value == 5
  {
  }

  predicate RateLimited<T>(reply: Reply<T>)
  {
    reply.Rejected? && reply.status == 429
  }

  /** The reply to the next request; once the script is used up no answer comes. */
  function Head<T>(script: seq<Reply<T>>): Reply<T>
  {
    if |script| == 0 then NoResponse else script[0]
  }

  function Tail<T>(script: seq<Reply<T>>): seq<Reply<T>>
  {
    if |script| == 0 then [] else script[1..]
  }

  /** How `getData` ends on a reply that is not a 429. */
  function Settle<T>(reply: Reply<T>, url: string): Fetched<T>
    requires !RateLimited(reply)
  {
    match reply
    case Ok(body) => Data(body)
    case NoResponse => Raised(ProviderError(ApiError, 404, NO_RESPONSE_TEXT, url, None))
    case Rejected(status, statusText, _) =>
      if status == 401 then Raised(ProviderError(AuthenticationError, status, statusText, url, None))
      else if status == 403 then Raised(ProviderError(AuthorizationError, status, statusText, url, None))
      else if status == 404 then Absent
      else Raised(ProviderError(ApiError, status, statusText, url, None))
  }

  /** The loop of `getData` from the turn where `retryCounter` 429s have been
      seen: each 429 sends the request and sleeps, and is retried while the
      budget lasts; any other reply settles the call. It consumes at least one
      reply unless it raises. */
  function Attempt<T>(req: HttpRequest, retryCounter: nat, script: seq<Reply<T>>): (r: Run<T, Fetched<T>>)
    requires retryCounter < MAX_RETRIES
    ensures |r.rest| <= |script|
    ensures r.result.Raised? || |r.rest| < |script|
    decreases MAX_RETRIES - retryCounter
  {
    var reply, rest := Head(script), Tail(script);
    if RateLimited(reply) then
      var backoff := [Sent(req), Slept(SleepTime(reply.retryAfterSec))];
      if retryCounter + 1 < MAX_RETRIES then
        Resume(backoff, Attempt(req, retryCounter + 1, rest))
      else
        Run(Absent, backoff, rest)
    else
      Run(Settle(reply, req.url), [Sent(req)], rest)
  }

  /** One call of `getData` for `req`. */
  function GetDataSpec<T>(req: HttpRequest, script: seq<Reply<T>>): Run<T, Fetched<T>>
  {
    Attempt(req, 0, script)
  }

  // ------------------------------------------------- closed form of the loop

  /** The number of 429 replies at the start of the script. */
  function LeadingRateLimits<T>(script: seq<Reply<T>>): (n: nat)
    ensures n <= |script|
    ensures forall i :: 0 <= i < n ==> RateLimited(script[i])
    ensures n < |script| ==> !RateLimited(script[n])
  {
    if |script| > 0 && RateLimited(script[0]) then 1 + LeadingRateLimits(script[1..]) else 0
  }

  /** The events of a run of 429 replies: each request followed by its sleep. */
  function Backoff<T>(req: HttpRequest, limited: seq<Reply<T>>): seq<Event>
    requires forall i :: 0 <= i < |limited| ==> RateLimited(limited[i])
  {
    if |limited| == 0 then []
    else
      assert RateLimited(limited[0]);
      [Sent(req), Slept(SleepTime(limited[0].retryAfterSec))] + Backoff(req, limited[1..])
  }

  /** One turn of the loop on a 429 that leaves budget for another turn. */
  lemma RetryStep<T>(req: HttpRequest, retryCounter: nat, script: seq<Reply<T>>)
    requires retryCounter + 1 < MAX_RETRIES
    requires |script| > 0 && RateLimited(script[0])
    ensures Attempt(req, retryCounter, script) ==
      Resume([Sent(req), Slept(SleepTime(script[0].retryAfterSec))], Attempt(req, retryCounter + 1, script[1..]))
  {
    assert Head(script) == script[0] && Tail(script) == script[1..];
  }

  /** The turn of the loop on the last 429 the budget allows. */
  lemma LastRetryStep<T>(req: HttpRequest, retryCounter: nat, script: seq<Reply<T>>)
    requires retryCounter + 1 == MAX_RETRIES
    requires |script| > 0 && RateLimited(script[0])
    ensures Attempt(req, retryCounter, script) ==
      Run(Absent, [Sent(req), Slept(SleepTime(script[0].retryAfterSec))], script[1..])
  {
    assert Head(script) == script[0] && Tail(script) == script[1..];
  }

  /** The turn of the loop on a reply other than 429. */
  lemma SettleStep<T>(req: HttpRequest, retryCounter: nat, script: seq<Reply<T>>)
    requires retryCounter < MAX_RETRIES
    requires !RateLimited(Head(script))
    ensures Attempt(req, retryCounter, script) == Run(Settle(Head(script), req.url), [Sent(req)], Tail(script))
  {
  }

  /** The loop, unrolled, when the retry budget runs out: it sleeps after
      each 429 and returns absent, having consumed exactly the budget. */
  lemma {:induction false} ExhaustedForm<T>(req: HttpRequest, retryCounter: nat, script: seq<Reply<T>>)
    requires retryCounter < MAX_RETRIES
    requires LeadingRateLimits(script) >= MAX_RETRIES - retryCounter
    ensures var budget := MAX_RETRIES - retryCounter;
      Attempt(req, retryCounter, script) == Run(Absent, Backoff(req, script[..budget]), script[budget..])
    decreases MAX_RETRIES - retryCounter
  {
    var budget := MAX_RETRIES - retryCounter;
    var rest := script[1..];
    assert RateLimited(script[0]);
    var backoff := [Sent(req), Slept(SleepTime(script[0].retryAfterSec))];
    assert Backoff(req, script[..budget]) == backoff + Backoff(req, script[..budget][1..]);
    if retryCounter + 1 < MAX_RETRIES {
      RetryStep(req, retryCounter, script);
      ExhaustedForm(req, retryCounter + 1, rest);
      assert script[..budget][1..] == rest[..budget - 1];
      assert script[budget..] == rest[budget - 1..];
    } else {
      LastRetryStep(req, retryCounter, script);
      assert script[..budget][1..] == [];
    }
  }

  /** The loop, unrolled, when a reply other than 429 comes within the budget:
      it sleeps after each 429 before it, then stops at that reply, classified
      by `Settle`, consuming nothing after it. */
  lemma {:induction false} SettledForm<T>(req: HttpRequest, retryCounter: nat, script: seq<Reply<T>>)
    requires retryCounter < MAX_RETRIES
    requires LeadingRateLimits(script) < MAX_RETRIES - retryCounter
    ensures var n := LeadingRateLimits(script);
      Attempt(req, retryCounter, script) ==
        Run(Settle(Head(script[n..]), req.url), Backoff(req, script[..n]) + [Sent(req)], Tail(script[n..]))
    decreases MAX_RETRIES - retryCounter
  {
    var n := LeadingRateLimits(script);
    if n == 0 {
      assert script[..0] == [] && script[0..] == script;
      SettleStep(req, retryCounter, script);
    } else {
      var rest := script[1..];
      assert RateLimited(script[0]);
      assert LeadingRateLimits(rest) == n - 1;
      var backoff := [Sent(req), Slept(SleepTime(script[0].retryAfterSec))];
      var inner := Backoff(req, rest[..n - 1]);
      var last := rest[n - 1..];
      assert script[n..] == last;
      assert Backoff(req, script[..n]) == backoff + inner by {
        assert script[..n][1..] == rest[..n - 1];
      }
      assert Attempt(req, retryCounter, script) == Resume(backoff, Attempt(req, retryCounter + 1, rest)) by {
        RetryStep(req, retryCounter, script);
      }
      assert Attempt(req, retryCounter + 1, rest) == Run(Settle(Head(last), req.url), inner + [Sent(req)], Tail(last)) by {
        SettledForm(req, retryCounter + 1, rest);
      }
      assert backoff + (inner + [Sent(req)]) == (backoff + inner) + [Sent(req)];
    }
  }

  /** The loop, unrolled: the two forms together. */
  lemma AttemptClosedForm<T>(req: HttpRequest, retryCounter: nat, script: seq<Reply<T>>)
    requires retryCounter < MAX_RETRIES
    ensures var n, budget := LeadingRateLimits(script), MAX_RETRIES - retryCounter;
      Attempt(req, retryCounter, script) ==
        if n >= budget then Run(Absent, Backoff(req, script[..budget]), script[budget..])
        else Run(Settle(Head(script[n..]), req.url), Backoff(req, script[..n]) + [Sent(req)], Tail(script[n..]))
  {
    if LeadingRateLimits(script) >= MAX_RETRIES - retryCounter {
      ExhaustedForm(req, retryCounter, script);
    } else {
      SettledForm(req, retryCounter, script);
    }
  }

  /** The reply that ends the loop when fewer than MAX_RETRIES 429s precede it. */
  function FinalReply<T>(script: seq<Reply<T>>): Reply<T>
  {
    Head(script[LeadingRateLimits(script)..])
  }

  /** Error classification of `getData`, each outcome in both directions. */
  lemma Classification<T>(req: HttpRequest, script: seq<Reply<T>>)
    ensures var r, n, last := GetDataSpec(req, script).result, LeadingRateLimits(script), FinalReply(script);
      && (r.Data? <==> n < MAX_RETRIES && last.Ok?)
      && (r.Data? ==> r.value == last.body)
      && (r.Absent? <==> n >= MAX_RETRIES || (last.Rejected? && last.status == 404))
      && (r.Raised? && r.error.kind == AuthenticationError <==> n < MAX_RETRIES && last.Rejected? && last.status == 401)
      && (r.Raised? && r.error.kind == AuthorizationError <==> n < MAX_RETRIES && last.Rejected? && last.status == 403)
      && (r.Raised? && r.error.kind == ApiError <==>
            n < MAX_RETRIES && (last.NoResponse? || (last.Rejected? && last.status !in {401, 403, 404, 429})))
      && (r.Raised? ==> r.error.endpoint == req.url && r.error.cause == None)
      && (r.Raised? && last.Rejected? ==> r.error.status == last.status && r.error.statusText == last.statusText)
      && (r.Raised? && last.NoResponse? ==> r.error.status == 404 && r.error.statusText == NO_RESPONSE_TEXT)
  {
    AttemptClosedForm(req, 0, script);
  }

  /** Three 429s in a row: three requests, three sleeps of the advertised (or
      fallback) length, then "absent" without raising; nothing more is consumed. */
  lemma RateLimitExhaustion<T>(req: HttpRequest, script: seq<Reply<T>>)
    requires LeadingRateLimits(script) >= MAX_RETRIES
    ensures var r := GetDataSpec(req, script);
      && r.result == Absent
      && r.rest == script[MAX_RETRIES..]
      && r.trace == [Sent(req), Slept(SleepTime(script[0].retryAfterSec)),
                     Sent(req), Slept(SleepTime(script[1].retryAfterSec)),
                     Sent(req), Slept(SleepTime(script[2].retryAfterSec))]
  {
    AttemptClosedForm(req, 0, script);
    var s := script[..3];
    assert s[1..][1..][1..] == [];
  }

  /** A reply other than 429 ends the call at once: after `n` rate-limited
      requests exactly one more request is sent, and no further reply is read. */
  lemma NoRetryAfterOtherReply<T>(req: HttpRequest, script: seq<Reply<T>>)
    requires LeadingRateLimits(script) < MAX_RETRIES
    ensures var r, n := GetDataSpec(req, script), LeadingRateLimits(script);
      && |SentRequests(r.trace)| == n + 1
      && r.rest == Tail(script[n..])
  {
    AttemptClosedForm(req, 0, script);
    var n := LeadingRateLimits(script);
    BackoffRequests(req, script[..n]);
    SentRequestsAppend(Backoff(req, script[..n]), [Sent(req)]);
    assert SentRequests([Sent(req)]) == [req];
  }

  lemma {:induction false} BackoffRequests<T>(req: HttpRequest, limited: seq<Reply<T>>)
    requires forall i :: 0 <= i < |limited| ==> RateLimited(limited[i])
    ensures SentRequests(Backoff(req, limited)) == seq(|limited|, _ => req)
  {
    if |limited| > 0 {
      var head := [Sent(req), Slept(SleepTime(limited[0].retryAfterSec))];
      assert SentRequests(head) == [req] by {
        assert head[1..][1..] == [];
        assert SentRequests(head[1..]) == [];
      }
      BackoffRequests(req, limited[1..]);
      SentRequestsAppend(head, Backoff(req, limited[1..]));
    }
  }

  /** Each 429 contributes its request and then a sleep of the length it
      advertised (or the fallback), in the order the 429s arrived. */
  lemma {:induction false} BackoffEvents<T>(req: HttpRequest, limited: seq<Reply<T>>)
    requires forall i :: 0 <= i < |limited| ==> RateLimited(limited[i])
    ensures |Backoff(req, limited)| == 2 * |limited|
    ensures forall i :: 0 <= i < |limited| ==>
      Backoff(req, limited)[2 * i] == Sent(req) && Backoff(req, limited)[2 * i + 1] == Slept(SleepTime(limited[i].retryAfterSec))
  {
    if |limited| > 0 {
      var tail := limited[1..];
      BackoffEvents(req, tail);
      var b := Backoff(req, limited);
      assert b == [Sent(req), Slept(SleepTime(limited[0].retryAfterSec))] + Backoff(req, tail);
      forall i | 1 <= i < |limited|
        ensures b[2 * i] == Sent(req) && b[2 * i + 1] == Slept(SleepTime(limited[i].retryAfterSec))
      {
        assert b[2 * i] == Backoff(req, tail)[2 * (i - 1)];
        assert b[2 * i + 1] == Backoff(req, tail)[2 * (i - 1) + 1];
        assert tail[i - 1] == limited[i];
      }
    }
  }

  /** `getData` reads replies from the front of the script only: what it
      leaves is a suffix of what it was given. */
  lemma ConsumesFromFront<T>(req: HttpRequest, script: seq<Reply<T>>)
    ensures IsSuffix(GetDataSpec(req, script).rest, script)
  {
    var n := LeadingRateLimits(script);
    if n >= MAX_RETRIES {
      ExhaustedForm(req, 0, script);
    } else {
      SettledForm(req, 0, script);
      var last := script[n..];
      if |last| > 0 {
        assert Tail(last) == script[n + 1..];
      }
    }
  }

  /** `getData` issues between one and MAX_RETRIES requests, all of them the
      same request (same URL, same headers). */
  lemma RequestBound<T>(req: HttpRequest, script: seq<Reply<T>>)
    ensures var sent := SentRequests(GetDataSpec(req, script).trace);
      1 <= |sent| <= MAX_RETRIES && forall q <- sent :: q == req
  {
    var trace := GetDataSpec(req, script).trace;
    var n := LeadingRateLimits(script);
    if n >= MAX_RETRIES {
      assert trace == Backoff(req, script[..MAX_RETRIES]) by {
        ExhaustedForm(req, 0, script);
      }
      BackoffRequests(req, script[..MAX_RETRIES]);
    } else {
      assert trace == Backoff(req, script[..n]) + [Sent(req)] by {
        SettledForm(req, 0, script);
      }
      BackoffRequests(req, script[..n]);
      SentRequestsAppend(Backoff(req, script[..n]), [Sent(req)]);
      assert SentRequests([Sent(req)]) == [req];
    }
  }

  /** A page at the first try: one request. */
  lemma PageAtFirstTry<T>(req: HttpRequest, page: T)
    ensures GetDataSpec(req, [Ok(page)]) == Run(Data(page), [Sent(req)], [])
  {
    SettleStep(req, 0, [Ok(page)]);
  }

  /** One 429, then a page: the request is sent again after the pause. */
  lemma PageAfterOneRetry<T>(req: HttpRequest, statusText: string, retryAfterSec: Option<nat>, page: T)
    ensures GetDataSpec(req, [Rejected(429, statusText, retryAfterSec), Ok(page)]) ==
      Run(Data(page), [Sent(req), Slept(SleepTime(retryAfterSec)), Sent(req)], [])
  {
    var script := [Rejected(429, statusText, retryAfterSec), Ok(page)];
    RetryStep(req, 0, script);
    assert script[1..] == [Ok(page)];
    SettleStep(req, 1, [Ok(page)]);
  }

  // ------------------------------------------------- calls in sequence

  /** One `getData` call for `req` on the script `seg` ends with `result`
      having read all of `seg`. */
  ghost predicate Answers<T>(req: HttpRequest, seg: seq<Reply<T>>, result: Fetched<T>)
  {
    var got := GetDataSpec(req, seg);
    got.result == result && got.rest == []
  }

  /** A call that does not raise depends only on the replies it reads: the
      replies after them do not change what it does, and stay unread. */
  lemma {:induction false} AttemptFrame<T>(req: HttpRequest, retryCounter: nat, seg: seq<Reply<T>>, later: seq<Reply<T>>)
    requires retryCounter < MAX_RETRIES
    requires !Attempt(req, retryCounter, seg).result.Raised?
    ensures var r := Attempt(req, retryCounter, seg);
      Attempt(req, retryCounter, seg + later) == Run(r.result, r.trace, r.rest + later)
    decreases MAX_RETRIES - retryCounter
  {
    assert |seg| > 0;
    var s := seg + later;
    assert Head(s) == Head(seg) && Tail(s) == Tail(seg) + later by {
      assert s[1..] == seg[1..] + later;
    }
    if RateLimited(Head(seg)) && retryCounter + 1 < MAX_RETRIES {
      AttemptFrame(req, retryCounter + 1, Tail(seg), later);
    }
  }

  /** `getData` never calls the visitor: its events are requests and sleeps. */
  lemma {:induction false} AttemptVisitsNothing<T>(req: HttpRequest, retryCounter: nat, script: seq<Reply<T>>)
    requires retryCounter < MAX_RETRIES
    ensures VisitedItems(Attempt(req, retryCounter, script).trace) == []
    decreases MAX_RETRIES - retryCounter
  {
    var reply := Head(script);
    if RateLimited(reply) {
      var backoff := [Sent(req), Slept(SleepTime(reply.retryAfterSec))];
      assert VisitedItems(backoff) == [] by {
        assert VisitedItems(backoff[1..][1..]) == [] by { assert backoff[1..][1..] == []; }
        assert VisitedItems(backoff[1..]) == [];
      }
      if retryCounter + 1 < MAX_RETRIES {
        AttemptVisitsNothing(req, retryCounter + 1, Tail(script));
        VisitedItemsAppend(backoff, Attempt(req, retryCounter + 1, Tail(script)).trace);
      }
    } else {
      assert VisitedItems([Sent(req)]) == [];
    }
  }

  /** The events of one `getData` call per request, each on its own segment. */
  function Calls<T>(reqs: seq<HttpRequest>, segs: seq<seq<Reply<T>>>): seq<Event>
    requires |reqs| == |segs|
  {
    if |reqs| == 0 then [] else GetDataSpec(reqs[0], segs[0]).trace + Calls(reqs[1..], segs[1..])
  }

  /** How many times each of those calls sent its request. */
  function Tries<T>(reqs: seq<HttpRequest>, segs: seq<seq<Reply<T>>>): (tries: seq<nat>)
    requires |reqs| == |segs|
    ensures |tries| == |reqs|
  {
    if |reqs| == 0 then [] else [|SentRequests(GetDataSpec(reqs[0], segs[0]).trace)|] + Tries(reqs[1..], segs[1..])
  }

  /** A single call's events. */
  lemma OneCall<T>(reqs: seq<HttpRequest>, segs: seq<seq<Reply<T>>>)
    requires |reqs| == |segs| == 1
    ensures Calls(reqs, segs) == GetDataSpec(reqs[0], segs[0]).trace
  {
    assert Calls(reqs[1..], segs[1..]) == [];
  }

  /** Each request repeated as many times as it was tried, in order. */
  function Repeat(reqs: seq<HttpRequest>, tries: seq<nat>): seq<HttpRequest>
    requires |reqs| == |tries|
  {
    if |reqs| == 0 then [] else seq(tries[0], _ => reqs[0]) + Repeat(reqs[1..], tries[1..])
  }

  /** Calls in sequence send their requests in order, each one to three times
      in a row and nothing else in between. */
  lemma {:induction false} CallsRequests<T>(reqs: seq<HttpRequest>, segs: seq<seq<Reply<T>>>)
    requires |reqs| == |segs|
    ensures var tries := Tries(reqs, segs);
      && SentRequests(Calls(reqs, segs)) == Repeat(reqs, tries)
      && forall i :: 0 <= i < |tries| ==> 1 <= tries[i] <= MAX_RETRIES
  {
    if |reqs| > 0 {
      var first := GetDataSpec(reqs[0], segs[0]).trace;
      var sent := SentRequests(first);
      RequestBound(reqs[0], segs[0]);
      forall i | 0 <= i < |sent|
        ensures sent[i] == reqs[0]
      {
        assert sent[i] in sent;
      }
      assert sent == seq(|sent|, _ => reqs[0]);
      SentRequestsAppend(first, Calls(reqs[1..], segs[1..]));
      CallsRequests(reqs[1..], segs[1..]);
      var tries := Tries(reqs, segs);
      forall i | 0 <= i < |tries|
        ensures 1 <= tries[i] <= MAX_RETRIES
      {
        if i > 0 {
          assert tries[i] == Tries(reqs[1..], segs[1..])[i - 1];
        }
      }
    }
  }

  // ------------------------------------------------- verifyAuthentication

  const AGREEMENTS_PATH := "v1/agreements"
  const AGREEMENTS_ENDPOINT := "https://api.godaddy.com/v1/agreements"

  function AgreementsRequest(headers: seq<Header>): HttpRequest
  {
    HttpRequest(RequestUrl(AGREEMENTS_PATH), headers)
  }

  /** `verifyAuthentication`: probe the agreements endpoint; any raised error
      is re-raised as an authentication error carrying its status and text. */
  function VerifyAuthenticationSpec<T>(headers: seq<Header>, script: seq<Reply<T>>): Run<T, Outcome<()>>
  {
    var got := GetDataSpec(AgreementsRequest(headers), script);
    match got.result
    case Raised(e) =>
      Run(Thrown(ProviderError(AuthenticationError, e.status, e.statusText, AGREEMENTS_ENDPOINT, Some(e))), got.trace, got.rest)
    case _ => Run(Success(()), got.trace, got.rest)
  }

  /** The probe raises only authentication errors, exactly when its request
      raises, keeping that error's status and text; it sends and consumes
      exactly what its request does. */
  lemma VerifyAuthenticationCollapses<T>(headers: seq<Header>, script: seq<Reply<T>>)
    ensures var v, got := VerifyAuthenticationSpec(headers, script), GetDataSpec(AgreementsRequest(headers), script);
      && v.trace == got.trace && v.rest == got.rest
      && (v.result.Thrown? <==> got.result.Raised?)
      && (v.result.Thrown? ==>
            && v.result.error.kind == AuthenticationError
            && v.result.error.endpoint == AGREEMENTS_ENDPOINT
            && v.result.error.status == got.result.error.status
            && v.result.error.statusText == got.result.error.statusText
            && v.result.error.cause == Some(got.result.error))
  {
  }

  /** The endpoint the probe's error names is the URL its request went to. */
  lemma AgreementsEndpoint()
    ensures RequestUrl(AGREEMENTS_PATH) == AGREEMENTS_ENDPOINT
  {
    assert !StartsWithSlash(AGREEMENTS_PATH);
    assert ORIGIN == "https://api.godaddy.com";
  }

  /** The probe succeeds on data, on a 404 and on retry exhaustion alike. */
  lemma VerifyAuthenticationSucceeds<T>(headers: seq<Header>, script: seq<Reply<T>>)
    ensures var n, last := LeadingRateLimits(script), FinalReply(script);
      VerifyAuthenticationSpec(headers, script).result.Success? <==>
        n >= MAX_RETRIES || last.Ok? || (last.Rejected? && last.status == 404)
  {
    var req := AgreementsRequest(headers);
    var got := GetDataSpec(req, script);
    assert VerifyAuthenticationSpec(headers, script).result.Success? <==> !got.result.Raised?;
    Classification(req, script);
  }
}
