/**
 * The two pagination strategies of the client, as specifications over a
 * script of replies: offset paging for a domain's DNS records and marker
 * paging over the shopper's domains. Both stop at the first page that is
 * empty or absent and propagate a raised error at once.
 */
module Paging {
  import opened Types
  import opened Decimal
  import opened Http
  import opened Fetch

  const PAGE_LIMIT: nat := 50
  const DOMAINS_PATH := "/v1/domains"

  // ---------------------------------------------------------- DNS records

  function RecordsPath(domainName: string): string
  {
    "/v1/domains/" + domainName + "/records"
  }

  /** The offset of the `page`-th request: it starts at 1 and grows by the
      page limit after each page. */
  function Offset(page: nat): nat
  {
    if page == 0 then 1 else Offset(page - 1) + PAGE_LIMIT
  }

  /** The offsets requested are 1, 51, 101, ... */
  lemma {:induction false} OffsetOfPage(page: nat)
    ensures Offset(page) == 1 + 50 * page
  {
    if page > 0 {
      OffsetOfPage(page - 1);
    }
  }

  function RecordsQuery(page: nat): seq<Param>
  {
    [("limit", NatToString(PAGE_LIMIT)), ("offset", NatToString(Offset(page)))]
  }

  function RecordsRequest(headers: seq<Header>, domainName: string, page: nat): HttpRequest
  {
    HttpRequest(RequestUrl(WithSearchParams(RecordsPath(domainName), RecordsQuery(page))), headers)
  }

  /** The request built from the two query parameters as the loop keeps them. */
  lemma RecordsRequestOf(headers: seq<Header>, domainName: string, page: nat, limit: string, offset: string)
    requires limit == NatToString(PAGE_LIMIT) && offset == NatToString(Offset(page))
    ensures HttpRequest(RequestUrl(WithSearchParams(RecordsPath(domainName), [("limit", limit), ("offset", offset)])), headers)
      == RecordsRequest(headers, domainName, page)
  {
    assert RecordsQuery(page) == [("limit", limit), ("offset", offset)];
  }

  /** `records` gathered before the run `r`, and the events that came before it. */
  function Gathered<R>(records: seq<R>, before: seq<Event>, r: Run<seq<R>, Outcome<seq<R>>>): Run<seq<R>, Outcome<seq<R>>>
  {
    Run(if r.result.Success? then Success(records + r.result.value) else r.result, before + r.trace, r.rest)
  }

  /** Gathering nothing before a run leaves the run as it is. */
  lemma GatheredNothing<R>(r: Run<seq<R>, Outcome<seq<R>>>)
    ensures Gathered([], [], r) == r
  {
    assert [] + r.trace == r.trace;
    if r.result.Success? {
      assert [] + r.result.value == r.result.value;
    }
  }

  /** Gathering twice in a row is gathering both batches at once. */
  lemma GatheredTwice<R>(records: seq<R>, items: seq<R>, before: seq<Event>, sent: seq<Event>,
                         r: Run<seq<R>, Outcome<seq<R>>>)
    ensures Gathered(records, before, Gathered(items, sent, r)) == Gathered(records + items, before + sent, r)
  {
    assert before + (sent + r.trace) == before + sent + r.trace;
    if r.result.Success? {
      assert records + (items + r.result.value) == records + items + r.result.value;
    }
  }

  /** `getDomainRecords` from the `page`-th request on. */
  function RecordsFrom<R>(headers: seq<Header>, domainName: string, page: nat, script: seq<Reply<seq<R>>>)
    : (r: Run<seq<R>, Outcome<seq<R>>>)
    ensures |r.rest| <= |script|
    decreases |script|
  {
    var got := GetDataSpec(RecordsRequest(headers, domainName, page), script);
    match got.result
    case Raised(e) => Run(Thrown(e), got.trace, got.rest)
    case Absent => Run(Success([]), got.trace, got.rest)
    case Data(items) =>
      if |items| == 0 then Run(Success([]), got.trace, got.rest)
      else
        var next := RecordsFrom(headers, domainName, page + 1, got.rest);
        Gathered(items, got.trace, next)
  }

  function RecordsSpec<R>(headers: seq<Header>, domainName: string, script: seq<Reply<seq<R>>>)
    : Run<seq<R>, Outcome<seq<R>>>
  {
    RecordsFrom(headers, domainName, 0, script)
  }

  /** A non-empty page is gathered and the next page is requested. */
  lemma RecordsNext<R>(headers: seq<Header>, domainName: string, page: nat, script: seq<Reply<seq<R>>>,
                       items: seq<R>, before: seq<Event>, rest: seq<Reply<seq<R>>>)
    requires GetDataSpec(RecordsRequest(headers, domainName, page), script) == Run(Data(items), before, rest)
    requires |items| > 0
    ensures RecordsFrom(headers, domainName, page, script) ==
      Gathered(items, before, RecordsFrom(headers, domainName, page + 1, rest))
  {
  }

  /** A raised error ends the listing with that error. */
  lemma RecordsFail<R>(headers: seq<Header>, domainName: string, page: nat, script: seq<Reply<seq<R>>>,
                       e: ProviderError, before: seq<Event>, rest: seq<Reply<seq<R>>>)
    requires GetDataSpec(RecordsRequest(headers, domainName, page), script) == Run(Raised(e), before, rest)
    ensures RecordsFrom(headers, domainName, page, script) == Run(Thrown(e), before, rest)
  {
  }

  /** An empty or absent page ends the listing. */
  lemma RecordsLast<R>(headers: seq<Header>, domainName: string, page: nat, script: seq<Reply<seq<R>>>,
                       before: seq<Event>, rest: seq<Reply<seq<R>>>)
    requires GetDataSpec(RecordsRequest(headers, domainName, page), script) == Run(Absent, before, rest)
          || GetDataSpec(RecordsRequest(headers, domainName, page), script) == Run(Data([]), before, rest)
    ensures RecordsFrom(headers, domainName, page, script) == Run(Success([]), before, rest)
  {
  }

  /** The listing state after one more non-empty page has been gathered,
      with the offset written back for the next page: `page'`, `offset'`,
      `records'` and `trace'` are the updated values. */
  lemma RecordsAdvance<R>(headers: seq<Header>, domainName: string, page: nat, script: seq<Reply<seq<R>>>,
                          offset: string, items: seq<R>, sent: seq<Event>, rest: seq<Reply<seq<R>>>,
                          spec: Run<seq<R>, Outcome<seq<R>>>, records: seq<R>, before: seq<Event>,
                          page': nat, offset': string, records': seq<R>, trace': seq<Event>)
    requires offset == NatToString(Offset(page))
    requires spec == Gathered(records, before, RecordsFrom(headers, domainName, page, script))
    requires GetDataSpec(RecordsRequest(headers, domainName, page), script) == Run(Data(items), sent, rest)
    requires |items| > 0
    requires page' == page + 1 && offset' == NatToString(ParseNat(offset) + PAGE_LIMIT)
    requires records' == records + items && trace' == before + sent
    ensures offset' == NatToString(Offset(page'))
    ensures spec == Gathered(records', trace', RecordsFrom(headers, domainName, page', rest))
  {
    ParseNatToString(Offset(page));
    RecordsNext(headers, domainName, page, script, items, sent, rest);
    GatheredTwice(records, items, before, sent, RecordsFrom(headers, domainName, page + 1, rest));
  }

  /** The listing state once an empty or absent page has ended it. */
  lemma RecordsEnd<R>(headers: seq<Header>, domainName: string, page: nat, script: seq<Reply<seq<R>>>,
                      sent: seq<Event>, rest: seq<Reply<seq<R>>>,
                      spec: Run<seq<R>, Outcome<seq<R>>>, records: seq<R>, before: seq<Event>)
    requires spec == Gathered(records, before, RecordsFrom(headers, domainName, page, script))
    requires GetDataSpec(RecordsRequest(headers, domainName, page), script) == Run(Absent, sent, rest)
          || GetDataSpec(RecordsRequest(headers, domainName, page), script) == Run(Data([]), sent, rest)
    ensures spec == Run(Success(records), before + sent, rest)
  {
    RecordsLast(headers, domainName, page, script, sent, rest);
    assert records + [] == records;
  }

  /** The limit parameter is the decimal "50". */
  lemma LimitParam()
    ensures NatToString(PAGE_LIMIT) == "50"
  {
    assert NatToString(5) == "5";
  }

  lemma RecordsQueryString(page: nat)
    ensures QueryString(RecordsQuery(page)) == "limit=50&offset=" + NatToString(Offset(page))
  {
    LimitParam();
    OffsetQueryString(NatToString(Offset(page)));
  }

  lemma OffsetQueryString(offset: string)
    ensures QueryString([("limit", "50"), ("offset", offset)]) == "limit=50&offset=" + offset
  {
    var params := [("limit", "50"), ("offset", offset)];
    assert params[1..] == [params[1]];
    assert QueryString(params) == Field(params[0]) + "&" + Field(params[1]);
  }

  /** The URL of the `page`-th records request carries `limit=50` and the
      offset 1 + 50 * page, after a single '?'. */
  lemma RecordsUrl(headers: seq<Header>, domainName: string, page: nat)
    ensures RecordsRequest(headers, domainName, page).url ==
      ORIGIN + "/v1/domains/" + domainName + "/records?limit=50&offset=" + NatToString(1 + 50 * page)
  {
    var n := NatToString(Offset(page));
    OffsetOfPage(page);
    RecordsQueryString(page);
    var path := RecordsPath(domainName) + "?" + ("limit=50&offset=" + n);
    assert StartsWithSlash(path);
    calc {
      RecordsRequest(headers, domainName, page).url;
      ORIGIN + path;
      ORIGIN + "/v1/domains/" + domainName + "/records?limit=50&offset=" + n;
    }
  }

  /** The requests for `count` consecutive pages, starting at `page`. */
  function RecordsRequests(headers: seq<Header>, domainName: string, page: nat, count: nat): (reqs: seq<HttpRequest>)
    ensures |reqs| == count
    decreases count
  {
    if count == 0 then [] else [RecordsRequest(headers, domainName, page)] + RecordsRequests(headers, domainName, page + 1, count - 1)
  }

  /** The i-th of those requests is for page `page + i`. */
  lemma {:induction false} RecordsRequestsAt(headers: seq<Header>, domainName: string, page: nat, count: nat, i: nat)
    requires i < count
    ensures RecordsRequests(headers, domainName, page, count)[i] == RecordsRequest(headers, domainName, page + i)
    decreases count
  {
    if i > 0 {
      RecordsRequestsAt(headers, domainName, page + 1, count - 1, i - 1);
      assert page + 1 + (i - 1) == page + i;
    }
  }

  /** A call that ends a listing: having read all its replies, it gives an
      empty page or nothing (a 404, or three 429s). */
  ghost predicate Ends<T>(got: Run<seq<T>, Fetched<seq<T>>>)
  {
    got.rest == [] && (got.result == Absent || got.result == Data([]))
  }

  /** The replies `seg` end a listing at `req`. */
  ghost predicate Closes<T>(req: HttpRequest, seg: seq<Reply<seq<T>>>)
  {
    Ends(GetDataSpec(req, seg))
  }

  /** A call that ends a listing reads only its own replies. */
  lemma ClosesFrame<T>(req: HttpRequest, seg: seq<Reply<seq<T>>>, later: seq<Reply<seq<T>>>)
    requires Closes(req, seg)
    ensures var got := GetDataSpec(req, seg + later);
      got == Run(got.result, GetDataSpec(req, seg).trace, later)
      && (got.result == Absent || got.result == Data([]))
  {
    AttemptFrame(req, 0, seg, later);
  }

  /** A call that answers a page reads only its own replies. */
  lemma AnswersFrame<T>(req: HttpRequest, seg: seq<Reply<T>>, later: seq<Reply<T>>, page: T)
    requires Answers(req, seg, Data(page))
    ensures GetDataSpec(req, seg + later) == Run(Data(page), GetDataSpec(req, seg).trace, later)
  {
    AttemptFrame(req, 0, seg, later);
  }

  /** Three 429s in a row close a listing as a 404 or an empty page does:
      the call gives up with nothing and the loop stops. */
  lemma ExhaustionCloses<T>(req: HttpRequest, seg: seq<Reply<seq<T>>>)
    requires |seg| == MAX_RETRIES && LeadingRateLimits(seg) == MAX_RETRIES
    ensures Closes(req, seg)
    ensures GetDataSpec(req, seg).result == Absent
  {
    RateLimitExhaustion(req, seg);
  }

  /** The replies `segs` serve `pages` to a records listing from `page` on:
      each page is non-empty and is what the call for its page answers, read
      from its own run of replies (which may hold 429s that were retried). */
  ghost predicate RecordsPages<R>(headers: seq<Header>, domainName: string, page: nat, pages: seq<seq<R>>,
                                  segs: seq<seq<Reply<seq<R>>>>)
    decreases |pages|
  {
    && |segs| == |pages|
    && (|pages| > 0 ==>
         && |pages[0]| > 0
         && Answers(RecordsRequest(headers, domainName, page), segs[0], Data(pages[0]))
         && RecordsPages(headers, domainName, page + 1, pages[1..], segs[1..]))
  }

  /** The call for the request `count` pages after `page`, on the replies `seg`. */
  function RecordsCallAfter<R>(headers: seq<Header>, domainName: string, page: nat, count: nat, seg: seq<Reply<seq<R>>>)
    : Run<seq<R>, Fetched<seq<R>>>
    decreases count
  {
    if count == 0 then GetDataSpec(RecordsRequest(headers, domainName, page), seg)
    else RecordsCallAfter(headers, domainName, page + 1, count - 1, seg)
  }

  /** That call is the call for the last of the requests from `page` on. */
  lemma {:induction false} RecordsCallAfterRequest<R>(headers: seq<Header>, domainName: string, page: nat, count: nat,
                                               seg: seq<Reply<seq<R>>>)
    ensures RecordsCallAfter(headers, domainName, page, count, seg) ==
      GetDataSpec(RecordsRequests(headers, domainName, page, count + 1)[count], seg)
    decreases count
  {
    if count > 0 {
      RecordsCallAfterRequest(headers, domainName, page + 1, count - 1, seg);
    }
  }

  /** The replies `segs` serve `pages`, and then `end` closes the listing at
      the request after the last page. */
  ghost predicate ServesRecords<R>(headers: seq<Header>, domainName: string, page: nat, pages: seq<seq<R>>,
                                   segs: seq<seq<Reply<seq<R>>>>, end: seq<Reply<seq<R>>>)
  {
    && RecordsPages(headers, domainName, page, pages, segs)
    && Ends(RecordsCallAfter(headers, domainName, page, |pages|, end))
  }

  /** Replies that end the listing at its first request. */
  lemma RecordsClosed<R>(headers: seq<Header>, domainName: string, page: nat, pages: seq<seq<R>>,
                         segs: seq<seq<Reply<seq<R>>>>, end: seq<Reply<seq<R>>>, tail: seq<Reply<seq<R>>>)
    requires |pages| == 0 && ServesRecords(headers, domainName, page, pages, segs, end)
    ensures RecordsFrom(headers, domainName, page, Flatten(segs) + end + tail) ==
      Run(Success(Flatten(pages)), Calls(RecordsRequests(headers, domainName, page, |pages| + 1), segs + [end]), tail)
  {
    var req := RecordsRequest(headers, domainName, page);
    var t := GetDataSpec(req, end).trace;
    assert RecordsRequests(headers, domainName, page, |pages| + 1) == [req] + [];
    assert Flatten(segs) + end + tail == end + tail && segs + [end] == [end];
    assert RecordsFrom(headers, domainName, page, end + tail) == Run(Success([]), t, tail) by {
      ClosesFrame(req, end, tail);
      RecordsLast(headers, domainName, page, end + tail, t, tail);
    }
    OneCall([req], [end]);
  }

  /** A first page answered by its own replies, followed by the listing
      from the next page on. */
  lemma RecordsGather<R>(headers: seq<Header>, domainName: string, page: nat, pages: seq<seq<R>>,
                         segs: seq<seq<Reply<seq<R>>>>, end: seq<Reply<seq<R>>>, tail: seq<Reply<seq<R>>>)
    requires |pages| > 0 && RecordsPages(headers, domainName, page, pages, segs)
    requires RecordsFrom(headers, domainName, page + 1, Flatten(segs[1..]) + end + tail) ==
      Run(Success(Flatten(pages[1..])), Calls(RecordsRequests(headers, domainName, page + 1, |pages[1..]| + 1), segs[1..] + [end]), tail)
    ensures RecordsFrom(headers, domainName, page, Flatten(segs) + end + tail) ==
      Run(Success(Flatten(pages)), Calls(RecordsRequests(headers, domainName, page, |pages| + 1), segs + [end]), tail)
  {
    var req := RecordsRequest(headers, domainName, page);
    var script := Flatten(segs) + end + tail;
    var more := Flatten(segs[1..]) + end + tail;
    var t := GetDataSpec(req, segs[0]).trace;
    FlattenFirst(segs, end, tail);
    AnswersFrame(req, segs[0], more, pages[0]);
    RecordsNext(headers, domainName, page, script, pages[0], t, more);
    RecordsCalls(headers, domainName, page, segs, end);
  }

  /** The calls for consecutive pages: the first, then those from the next page on. */
  lemma RecordsCalls<R>(headers: seq<Header>, domainName: string, page: nat,
                        segs: seq<seq<Reply<seq<R>>>>, end: seq<Reply<seq<R>>>)
    requires |segs| > 0
    ensures Calls(RecordsRequests(headers, domainName, page, |segs| + 1), segs + [end]) ==
      GetDataSpec(RecordsRequest(headers, domainName, page), segs[0]).trace +
      Calls(RecordsRequests(headers, domainName, page + 1, |segs|), segs[1..] + [end])
  {
    AppendLast(segs, end);
  }

  /** Pages answered one after another, each by its own run of replies
      (which may hold 429s that were retried), then a run of replies that
      ends the listing: the records are the pages concatenated in order,
      the events are those of one call per consecutive page, and nothing
      after the ending replies is read. A short page does not end the
      listing. */
  lemma {:induction false} RecordsOfPages<R>(
    headers: seq<Header>, domainName: string, page: nat, pages: seq<seq<R>>,
    segs: seq<seq<Reply<seq<R>>>>, end: seq<Reply<seq<R>>>, tail: seq<Reply<seq<R>>>)
    requires ServesRecords(headers, domainName, page, pages, segs, end)
    ensures RecordsFrom(headers, domainName, page, Flatten(segs) + end + tail) ==
      Run(Success(Flatten(pages)), Calls(RecordsRequests(headers, domainName, page, |pages| + 1), segs + [end]), tail)
    decreases |pages|
  {
    if |pages| > 0 {
      RecordsOfPages(headers, domainName, page + 1, pages[1..], segs[1..], end, tail);
    }
    RecordsStep(headers, domainName, page, pages, segs, end, tail);
  }

  /** One step of the induction above: no page left, or one page more. */
  lemma RecordsStep<R>(
    headers: seq<Header>, domainName: string, page: nat, pages: seq<seq<R>>,
    segs: seq<seq<Reply<seq<R>>>>, end: seq<Reply<seq<R>>>, tail: seq<Reply<seq<R>>>)
    requires ServesRecords(headers, domainName, page, pages, segs, end)
    requires |pages| > 0 ==>
      RecordsFrom(headers, domainName, page + 1, Flatten(segs[1..]) + end + tail) ==
        Run(Success(Flatten(pages[1..])), Calls(RecordsRequests(headers, domainName, page + 1, |pages[1..]| + 1), segs[1..] + [end]), tail)
    ensures RecordsFrom(headers, domainName, page, Flatten(segs) + end + tail) ==
      Run(Success(Flatten(pages)), Calls(RecordsRequests(headers, domainName, page, |pages| + 1), segs + [end]), tail)
  {
    if |pages| == 0 {
      RecordsClosed(headers, domainName, page, pages, segs, end, tail);
    } else {
      RecordsGather(headers, domainName, page, pages, segs, end, tail);
    }
  }

  /** A listing whose first request raises. */
  lemma RecordsRaised<R>(headers: seq<Header>, domainName: string, page: nat, pages: seq<seq<R>>,
                         segs: seq<seq<Reply<seq<R>>>>, more: seq<Reply<seq<R>>>, e: ProviderError)
    requires |pages| == 0 && |segs| == 0
    requires RecordsCallAfter(headers, domainName, page, |pages|, more).result == Raised(e)
    ensures RecordsFrom(headers, domainName, page, Flatten(segs) + more) ==
      Run(Thrown(e), Calls(RecordsRequests(headers, domainName, page, |pages| + 1), segs + [more]),
          RecordsCallAfter(headers, domainName, page, |pages|, more).rest)
  {
    var req := RecordsRequest(headers, domainName, page);
    var got := GetDataSpec(req, more);
    assert RecordsRequests(headers, domainName, page, |pages| + 1) == [req] + [];
    assert Flatten(segs) + more == more && segs + [more] == [more];
    RecordsFail(headers, domainName, page, more, e, got.trace, got.rest);
    OneCall([req], [more]);
  }

  /** A first page answered by its own replies, before a listing from the
      next page on that raises. */
  lemma RecordsGatherRaise<R>(headers: seq<Header>, domainName: string, page: nat, pages: seq<seq<R>>,
                              segs: seq<seq<Reply<seq<R>>>>, more: seq<Reply<seq<R>>>, e: ProviderError,
                              rest: seq<Reply<seq<R>>>)
    requires |pages| > 0 && RecordsPages(headers, domainName, page, pages, segs)
    requires RecordsFrom(headers, domainName, page + 1, Flatten(segs[1..]) + more) ==
      Run(Thrown(e), Calls(RecordsRequests(headers, domainName, page + 1, |pages[1..]| + 1), segs[1..] + [more]), rest)
    ensures RecordsFrom(headers, domainName, page, Flatten(segs) + more) ==
      Run(Thrown(e), Calls(RecordsRequests(headers, domainName, page, |pages| + 1), segs + [more]), rest)
  {
    var req := RecordsRequest(headers, domainName, page);
    var later := Flatten(segs[1..]) + more;
    var t := GetDataSpec(req, segs[0]).trace;
    assert Flatten(segs) + more == segs[0] + later by {
      AppendAssoc(segs[0], Flatten(segs[1..]), more);
    }
    AnswersFrame(req, segs[0], later, pages[0]);
    RecordsNext(headers, domainName, page, Flatten(segs) + more, pages[0], t, later);
    RecordsCalls(headers, domainName, page, segs, more);
  }

  /** Pages served, then a page request that raises (401, 403, any other
      error status, or no response): the listing raises that same error and
      returns none of the records gathered so far; the events are those of
      one call per served page and of the failing call, and the replies left
      are those the failing call left. */
  lemma {:induction false} RecordsRaise<R>(headers: seq<Header>, domainName: string, page: nat, pages: seq<seq<R>>,
                                           segs: seq<seq<Reply<seq<R>>>>, more: seq<Reply<seq<R>>>, e: ProviderError)
    requires RecordsPages(headers, domainName, page, pages, segs)
    requires RecordsCallAfter(headers, domainName, page, |pages|, more).result == Raised(e)
    ensures RecordsFrom(headers, domainName, page, Flatten(segs) + more) ==
      Run(Thrown(e), Calls(RecordsRequests(headers, domainName, page, |pages| + 1), segs + [more]),
          RecordsCallAfter(headers, domainName, page, |pages|, more).rest)
    decreases |pages|
  {
    if |pages| == 0 {
      RecordsRaised(headers, domainName, page, pages, segs, more, e);
    } else {
      RecordsRaise(headers, domainName, page + 1, pages[1..], segs[1..], more, e);
      RecordsGatherRaise(headers, domainName, page, pages, segs, more, e,
                         RecordsCallAfter(headers, domainName, page, |pages|, more).rest);
    }
  }

  /** The URL of the i-th records request carries the offset 1 + 50 * i. */
  lemma RecordsUrls(headers: seq<Header>, domainName: string, count: nat)
    ensures forall i :: 0 <= i < count ==>
      RecordsRequests(headers, domainName, 0, count)[i].url ==
        ORIGIN + "/v1/domains/" + domainName + "/records?limit=50&offset=" + NatToString(1 + 50 * i)
  {
    forall i | 0 <= i < count
      ensures RecordsRequests(headers, domainName, 0, count)[i].url ==
        ORIGIN + "/v1/domains/" + domainName + "/records?limit=50&offset=" + NatToString(1 + 50 * i)
    {
      RecordsUrlAt(headers, domainName, count, i);
    }
  }

  lemma RecordsUrlAt(headers: seq<Header>, domainName: string, count: nat, i: nat)
    requires i < count
    ensures RecordsRequests(headers, domainName, 0, count)[i].url ==
      ORIGIN + "/v1/domains/" + domainName + "/records?limit=50&offset=" + NatToString(1 + 50 * i)
  {
    RecordsRequestsAt(headers, domainName, 0, count, i);
    assert RecordsRequests(headers, domainName, 0, count)[i] == RecordsRequest(headers, domainName, i);
    RecordsUrl(headers, domainName, i);
  }

  /** What `getDomainRecords` does with any replies that serve pages and
      then end the listing: it returns every record of every page in order,
      requests the offsets 1, 51, 101, ... in order, each one to three times
      in a row (once more per 429), and reads nothing after the ending
      replies. */
  lemma RecordsListing<R>(headers: seq<Header>, domainName: string, pages: seq<seq<R>>,
                              segs: seq<seq<Reply<seq<R>>>>, end: seq<Reply<seq<R>>>, tail: seq<Reply<seq<R>>>)
    requires ServesRecords(headers, domainName, 0, pages, segs, end)
    ensures var r := RecordsSpec(headers, domainName, Flatten(segs) + end + tail);
      var reqs := RecordsRequests(headers, domainName, 0, |pages| + 1);
      var tries := Tries(reqs, segs + [end]);
      && r.result == Success(Flatten(pages))
      && r.rest == tail
      && SentRequests(r.trace) == Repeat(reqs, tries)
      && (forall i :: 0 <= i < |tries| ==> 1 <= tries[i] <= MAX_RETRIES)
      && forall i :: 0 <= i <= |pages| ==>
           reqs[i].url == ORIGIN + "/v1/domains/" + domainName + "/records?limit=50&offset=" + NatToString(1 + 50 * i)
  {
    var reqs := RecordsRequests(headers, domainName, 0, |pages| + 1);
    RecordsOfPages(headers, domainName, 0, pages, segs, end, tail);
    CallsRequests(reqs, segs + [end]);
    RecordsUrls(headers, domainName, |pages| + 1);
  }

  /** What `getDomainRecords` does when the request after some served pages
      raises: it raises that same error and returns no records, having
      requested the offsets 1, 51, 101, ... in order up to and including the
      failing one, each one to three times in a row. */
  lemma RecordsFailure<R>(headers: seq<Header>, domainName: string, pages: seq<seq<R>>,
                          segs: seq<seq<Reply<seq<R>>>>, more: seq<Reply<seq<R>>>, e: ProviderError)
    requires RecordsPages(headers, domainName, 0, pages, segs)
    requires GetDataSpec(RecordsRequests(headers, domainName, 0, |pages| + 1)[|pages|], more).result == Raised(e)
    ensures var r := RecordsSpec(headers, domainName, Flatten(segs) + more);
      var reqs := RecordsRequests(headers, domainName, 0, |pages| + 1);
      var tries := Tries(reqs, segs + [more]);
      && r.result == Thrown(e)
      && r.rest == GetDataSpec(reqs[|pages|], more).rest
      && SentRequests(r.trace) == Repeat(reqs, tries)
      && (forall i :: 0 <= i < |tries| ==> 1 <= tries[i] <= MAX_RETRIES)
      && reqs[|pages|].url == ORIGIN + "/v1/domains/" + domainName + "/records?limit=50&offset=" + NatToString(1 + 50 * |pages|)
  {
    var reqs := RecordsRequests(headers, domainName, 0, |pages| + 1);
    assert RecordsSpec(headers, domainName, Flatten(segs) + more) ==
      Run(Thrown(e), Calls(reqs, segs + [more]), GetDataSpec(reqs[|pages|], more).rest) by {
      RecordsCallAfterRequest(headers, domainName, 0, |pages|, more);
      RecordsRaise(headers, domainName, 0, pages, segs, more, e);
    }
    CallsRequests(reqs, segs + [more]);
    RecordsUrlAt(headers, domainName, |pages| + 1, |pages|);
  }

  /** The replies of the example below serve its two pages. */
  lemma RetriedPageServes(headers: seq<Header>, domainName: string, page: nat)
    ensures ServesRecords(headers, domainName, page, [[1], [2]],
                          [[Ok([1])], [Rejected(429, "Too Many Requests", None), Ok([2])]], [Ok([])])
  {
    var segs: seq<seq<Reply<seq<int>>>> := [[Ok([1])], [Rejected(429, "Too Many Requests", None), Ok([2])]];
    var end: seq<Reply<seq<int>>> := [Ok([])];
    var pages: seq<seq<int>> := [[1], [2]];
    PageAtFirstTry(RecordsRequest(headers, domainName, page), [1]);
    PageAfterOneRetry(RecordsRequest(headers, domainName, page + 1), "Too Many Requests", None, [2]);
    PageAtFirstTry<seq<int>>(RecordsRequest(headers, domainName, page + 1 + 1), []);
    assert pages[1..] == [[2]] && segs[1..] == [segs[1]] && pages[1..][1..] == [];
    assert RecordsPages(headers, domainName, page + 1 + 1, pages[1..][1..], segs[1..][1..]);
    assert RecordsPages(headers, domainName, page + 1, pages[1..], segs[1..]);
  }

  /** The events of the example below: four requests and one pause. */
  lemma RetriedPageCalls(headers: seq<Header>, domainName: string, page: nat)
    ensures Calls(RecordsRequests(headers, domainName, page, 3),
                  [[Ok([1])], [Rejected(429, "Too Many Requests", None), Ok([2])], [Ok([])]]) ==
      [Sent(RecordsRequest(headers, domainName, page)), Sent(RecordsRequest(headers, domainName, page + 1)),
       Slept(RATE_LIMIT_SLEEP_TIME), Sent(RecordsRequest(headers, domainName, page + 1)),
       Sent(RecordsRequest(headers, domainName, page + 2))]
  {
    var req0, req1, req2 := RecordsRequest(headers, domainName, page), RecordsRequest(headers, domainName, page + 1),
                            RecordsRequest(headers, domainName, page + 2);
    var segs: seq<seq<Reply<seq<int>>>> := [[Ok([1])], [Rejected(429, "Too Many Requests", None), Ok([2])], [Ok([])]];
    var reqs := [req0, req1, req2];
    assert RecordsRequests(headers, domainName, page, 3) == reqs by {
      assert RecordsRequests(headers, domainName, page + 1 + 1, 1) == [req2] + [] by {
        assert page + 1 + 1 == page + 2;
      }
      assert RecordsRequests(headers, domainName, page + 1, 2) == [req1] + [req2];
    }
    PageAtFirstTry(req0, [1]);
    PageAfterOneRetry(req1, "Too Many Requests", None, [2]);
    PageAtFirstTry<seq<int>>(req2, []);
    assert reqs[1..][1..][1..] == [] && segs[1..][1..][1..] == [];
    assert Calls(reqs[1..][1..], segs[1..][1..]) == [Sent(req2)] + [];
    assert Calls(reqs[1..], segs[1..]) == [Sent(req1), Slept(RATE_LIMIT_SLEEP_TIME), Sent(req1)] + ([Sent(req2)] + []);
    assert Calls(reqs, segs) == [Sent(req0)] + ([Sent(req1), Slept(RATE_LIMIT_SLEEP_TIME), Sent(req1)] + ([Sent(req2)] + []));
  }

  /** A 429 in the middle of a listing: the page is asked for again after the
      default pause and the listing goes on, so two pages of one record each
      and an empty page, with a 429 before the second, give both records. */
  lemma RetriedPage(headers: seq<Header>, domainName: string, page: nat)
    ensures var tooMany: Reply<seq<int>> := Rejected(429, "Too Many Requests", None);
      var r := RecordsFrom(headers, domainName, page, [Ok([1]), tooMany, Ok([2]), Ok([])]);
      && r.result == Success([1, 2])
      && r.trace == [Sent(RecordsRequest(headers, domainName, page)), Sent(RecordsRequest(headers, domainName, page + 1)),
                     Slept(RATE_LIMIT_SLEEP_TIME), Sent(RecordsRequest(headers, domainName, page + 1)),
                     Sent(RecordsRequest(headers, domainName, page + 2))]
  {
    var tooMany: Reply<seq<int>> := Rejected(429, "Too Many Requests", None);
    var segs: seq<seq<Reply<seq<int>>>> := [[Ok([1])], [tooMany, Ok([2])]];
    var end: seq<Reply<seq<int>>> := [Ok([])];
    var pages: seq<seq<int>> := [[1], [2]];
    RetriedPageServes(headers, domainName, page);
    RecordsOfPages(headers, domainName, page, pages, segs, end, []);
    assert Flatten(segs) + end + [] == [Ok([1]), tooMany, Ok([2]), Ok([])] by {
      assert Flatten(segs[1..][1..]) == [] by { assert segs[1..][1..] == []; }
      assert Flatten(segs[1..]) == segs[1] + [];
      assert Flatten(segs) == [Ok([1])] + [tooMany, Ok([2])];
    }
    assert Flatten(pages) == [1, 2] by {
      assert Flatten(pages[1..][1..]) == [] by { assert pages[1..][1..] == []; }
      assert Flatten(pages[1..]) == [2] + [];
    }
    assert segs + [end] == [[Ok([1])], [tooMany, Ok([2])], [Ok([])]];
    RetriedPageCalls(headers, domainName, page);
  }

  // ---------------------------------------------------------- domains

  /** `{limit: '50'}`, then `marker` once a page has been seen. */
  function DomainsQuery(marker: Option<string>): seq<Param>
  {
    [("limit", NatToString(PAGE_LIMIT))] + (if marker.Some? then [("marker", marker.value)] else [])
  }

  function DomainsRequest(headers: seq<Header>, marker: Option<string>): HttpRequest
  {
    HttpRequest(RequestUrl(WithSearchParams(DOMAINS_PATH, DomainsQuery(marker))), headers)
  }

  /** The visitor called on each item of a page, in order. */
  function Visits(items: seq<DomainSummary>): (v: seq<Event>)
    ensures |v| == |items| && forall i :: 0 <= i < |items| ==> v[i] == Visited(items[i])
  {
    seq(|items|, i requires 0 <= i < |items| => Visited(items[i]))
  }

  /** Visiting one more item adds one more event. */
  lemma VisitsExtend(items: seq<DomainSummary>, i: nat)
    requires i < |items|
    ensures Visits(items[..i + 1]) == Visits(items[..i]) + [Visited(items[i])]
  {
  }

  /** The marker for the page after `page`: the domain of its last item. */
  function NextMarker(page: seq<DomainSummary>): Option<string>
    requires |page| > 0
  {
    Some(page[|page| - 1].domain)
  }

  /** `iterateDomains` from the request carrying `marker` on. */
  function DomainsFrom(headers: seq<Header>, marker: Option<string>, script: seq<Reply<seq<DomainSummary>>>)
    : (r: Run<seq<DomainSummary>, Outcome<()>>)
    ensures |r.rest| <= |script|
    decreases |script|
  {
    var got := GetDataSpec(DomainsRequest(headers, marker), script);
    match got.result
    case Raised(e) => Run(Thrown(e), got.trace, got.rest)
    case Absent => Run(Success(()), got.trace, got.rest)
    case Data(page) =>
      if |page| == 0 then Run(Success(()), got.trace, got.rest)
      else
        var next := DomainsFrom(headers, NextMarker(page), got.rest);
        Resume(got.trace + Visits(page), next)
  }

  /** A non-empty page is visited item by item and the next page is requested. */
  lemma DomainsNext(headers: seq<Header>, marker: Option<string>, script: seq<Reply<seq<DomainSummary>>>,
                    page: seq<DomainSummary>, before: seq<Event>, rest: seq<Reply<seq<DomainSummary>>>)
    requires GetDataSpec(DomainsRequest(headers, marker), script) == Run(Data(page), before, rest)
    requires |page| > 0
    ensures DomainsFrom(headers, marker, script) ==
      Resume(before + Visits(page), DomainsFrom(headers, NextMarker(page), rest))
  {
  }

  /** An empty or absent page ends the iteration. */
  lemma DomainsLast(headers: seq<Header>, marker: Option<string>, script: seq<Reply<seq<DomainSummary>>>,
                    before: seq<Event>, rest: seq<Reply<seq<DomainSummary>>>)
    requires GetDataSpec(DomainsRequest(headers, marker), script) == Run(Absent, before, rest)
          || GetDataSpec(DomainsRequest(headers, marker), script) == Run(Data([]), before, rest)
    ensures DomainsFrom(headers, marker, script) == Run(Success(()), before, rest)
  {
  }

  /** A raised error ends the iteration with that error. */
  lemma DomainsFail(headers: seq<Header>, marker: Option<string>, script: seq<Reply<seq<DomainSummary>>>,
                    e: ProviderError, before: seq<Event>, rest: seq<Reply<seq<DomainSummary>>>)
    requires GetDataSpec(DomainsRequest(headers, marker), script) == Run(Raised(e), before, rest)
    ensures DomainsFrom(headers, marker, script) == Run(Thrown(e), before, rest)
  {
  }

  /** The iteration state after a non-empty page has been visited. */
  lemma DomainsAdvance(headers: seq<Header>, marker: Option<string>, script: seq<Reply<seq<DomainSummary>>>,
                       page: seq<DomainSummary>, sent: seq<Event>, rest: seq<Reply<seq<DomainSummary>>>,
                       spec: Run<seq<DomainSummary>, Outcome<()>>, before: seq<Event>,
                       start: seq<Event>, trace: seq<Event>, next: Option<string>)
    requires spec == Resume(before, DomainsFrom(headers, marker, script))
    requires GetDataSpec(DomainsRequest(headers, marker), script) == Run(Data(page), sent, rest)
    requires |page| > 0
    requires start == before + sent && trace == start + Visits(page[..|page|]) && next == NextMarker(page)
    ensures spec == Resume(trace, DomainsFrom(headers, next, rest))
  {
    assert trace == before + (sent + Visits(page)) by {
      assert page[..|page|] == page;
      assert (before + sent) + Visits(page) == before + (sent + Visits(page));
    }
    DomainsNext(headers, marker, script, page, sent, rest);
    ResumeTwice(before, sent + Visits(page), DomainsFrom(headers, next, rest));
  }

  function DomainsSpec(headers: seq<Header>, script: seq<Reply<seq<DomainSummary>>>): Run<seq<DomainSummary>, Outcome<()>>
  {
    DomainsFrom(headers, None, script)
  }

  /** The requests of an iteration over `pages`: the first carries
      `marker`, each later one the marker taken from the page before, and
      there is one more request than pages. */
  function DomainsRequests(headers: seq<Header>, marker: Option<string>, pages: seq<seq<DomainSummary>>): (reqs: seq<HttpRequest>)
    requires forall i :: 0 <= i < |pages| ==> |pages[i]| > 0
    ensures |reqs| == |pages| + 1
    decreases |pages|
  {
    [DomainsRequest(headers, marker)] +
      if |pages| == 0 then [] else DomainsRequests(headers, NextMarker(pages[0]), pages[1..])
  }

  /** The request after page i carries the domain of page i's last item. */
  lemma {:induction false} DomainsRequestsAt(headers: seq<Header>, marker: Option<string>, pages: seq<seq<DomainSummary>>, i: nat)
    requires forall i :: 0 <= i < |pages| ==> |pages[i]| > 0
    requires i < |pages|
    ensures DomainsRequests(headers, marker, pages)[i + 1] == DomainsRequest(headers, NextMarker(pages[i]))
    decreases |pages|
  {
    var later := DomainsRequests(headers, NextMarker(pages[0]), pages[1..]);
    assert DomainsRequests(headers, marker, pages)[i + 1] == later[i];
    if i > 0 {
      DomainsRequestsAt(headers, NextMarker(pages[0]), pages[1..], i - 1);
      assert pages[1..][i - 1] == pages[i];
    }
  }

  /** The events of an iteration over `pages`: the call for each page, each
      on its own replies, followed by a visit of each of its items, then the
      ending call. */
  function Tour(reqs: seq<HttpRequest>, segs: seq<seq<Reply<seq<DomainSummary>>>>, pages: seq<seq<DomainSummary>>): seq<Event>
    requires |reqs| == |segs| == |pages| + 1
    decreases |pages|
  {
    GetDataSpec(reqs[0], segs[0]).trace +
      if |pages| == 0 then [] else Visits(pages[0]) + Tour(reqs[1..], segs[1..], pages[1..])
  }

  /** The replies `segs` serve `pages` to an iteration from the request
      carrying `marker` on: each page is non-empty and is what the call with
      the marker from the page before answers, read from its own run of
      replies (which may hold 429s that were retried). */
  ghost predicate DomainsPages(headers: seq<Header>, marker: Option<string>, pages: seq<seq<DomainSummary>>,
                               segs: seq<seq<Reply<seq<DomainSummary>>>>)
    decreases |pages|
  {
    && |segs| == |pages|
    && (|pages| > 0 ==>
         && |pages[0]| > 0
         && Answers(DomainsRequest(headers, marker), segs[0], Data(pages[0]))
         && DomainsPages(headers, NextMarker(pages[0]), pages[1..], segs[1..]))
  }

  /** The call for the request after the last of `pages`, on the replies `seg`. */
  function DomainsCallAfter(headers: seq<Header>, marker: Option<string>, pages: seq<seq<DomainSummary>>,
                            seg: seq<Reply<seq<DomainSummary>>>): Run<seq<DomainSummary>, Fetched<seq<DomainSummary>>>
    requires forall i :: 0 <= i < |pages| ==> |pages[i]| > 0
    decreases |pages|
  {
    if |pages| == 0 then GetDataSpec(DomainsRequest(headers, marker), seg)
    else DomainsCallAfter(headers, NextMarker(pages[0]), pages[1..], seg)
  }

  /** That call is the call for the last of the iteration's requests. */
  lemma {:induction false} DomainsCallAfterRequest(headers: seq<Header>, marker: Option<string>, pages: seq<seq<DomainSummary>>,
                                                   seg: seq<Reply<seq<DomainSummary>>>)
    requires forall i :: 0 <= i < |pages| ==> |pages[i]| > 0
    ensures DomainsCallAfter(headers, marker, pages, seg) ==
      GetDataSpec(DomainsRequests(headers, marker, pages)[|pages|], seg)
    decreases |pages|
  {
    if |pages| > 0 {
      DomainsCallAfterRequest(headers, NextMarker(pages[0]), pages[1..], seg);
    }
  }

  /** The replies `segs` serve `pages`, and then `end` closes the iteration
      at the request after the last page. */
  ghost predicate ServesDomains(headers: seq<Header>, marker: Option<string>, pages: seq<seq<DomainSummary>>,
                                segs: seq<seq<Reply<seq<DomainSummary>>>>, end: seq<Reply<seq<DomainSummary>>>)
  {
    && (forall i :: 0 <= i < |pages| ==> |pages[i]| > 0)
    && DomainsPages(headers, marker, pages, segs)
    && Ends(DomainsCallAfter(headers, marker, pages, end))
  }

  /** Replies that end the iteration at its first request. */
  lemma DomainsClosed(headers: seq<Header>, marker: Option<string>, pages: seq<seq<DomainSummary>>,
                      segs: seq<seq<Reply<seq<DomainSummary>>>>, end: seq<Reply<seq<DomainSummary>>>,
                      tail: seq<Reply<seq<DomainSummary>>>)
    requires |pages| == 0 && ServesDomains(headers, marker, pages, segs, end)
    ensures DomainsFrom(headers, marker, Flatten(segs) + end + tail) ==
      Run(Success(()), Tour(DomainsRequests(headers, marker, pages), segs + [end], pages), tail)
  {
    var req := DomainsRequest(headers, marker);
    var t := GetDataSpec(req, end).trace;
    assert Flatten(segs) + end + tail == end + tail && segs + [end] == [end];
    ClosesFrame(req, end, tail);
    DomainsLast(headers, marker, end + tail, t, tail);
    assert DomainsRequests(headers, marker, pages) == [req] + [];
    assert Tour([req], [end], pages) == t + [];
  }

  /** A first page answered by its own replies and visited, followed by the
      iteration from the next marker on. */
  lemma DomainsGather(headers: seq<Header>, marker: Option<string>, pages: seq<seq<DomainSummary>>,
                      segs: seq<seq<Reply<seq<DomainSummary>>>>, end: seq<Reply<seq<DomainSummary>>>,
                      tail: seq<Reply<seq<DomainSummary>>>)
    requires forall i :: 0 <= i < |pages| ==> |pages[i]| > 0
    requires |pages| > 0 && DomainsPages(headers, marker, pages, segs)
    requires DomainsFrom(headers, NextMarker(pages[0]), Flatten(segs[1..]) + end + tail) ==
      Run(Success(()), Tour(DomainsRequests(headers, NextMarker(pages[0]), pages[1..]), segs[1..] + [end], pages[1..]), tail)
    ensures DomainsFrom(headers, marker, Flatten(segs) + end + tail) ==
      Run(Success(()), Tour(DomainsRequests(headers, marker, pages), segs + [end], pages), tail)
  {
    var req := DomainsRequest(headers, marker);
    var script := Flatten(segs) + end + tail;
    var more := Flatten(segs[1..]) + end + tail;
    var t := GetDataSpec(req, segs[0]).trace;
    var later := Tour(DomainsRequests(headers, NextMarker(pages[0]), pages[1..]), segs[1..] + [end], pages[1..]);
    FlattenFirst(segs, end, tail);
    AnswersFrame(req, segs[0], more, pages[0]);
    DomainsNext(headers, marker, script, pages[0], t, more);
    DomainsTour(headers, marker, pages, segs, end);
    AppendAssoc(t, Visits(pages[0]), later);
  }

  /** The tour of consecutive pages: the first call and its visits, then the
      tour from the next marker on. */
  lemma DomainsTour(headers: seq<Header>, marker: Option<string>, pages: seq<seq<DomainSummary>>,
                    segs: seq<seq<Reply<seq<DomainSummary>>>>, end: seq<Reply<seq<DomainSummary>>>)
    requires forall i :: 0 <= i < |pages| ==> |pages[i]| > 0
    requires |pages| > 0 && |segs| == |pages|
    ensures Tour(DomainsRequests(headers, marker, pages), segs + [end], pages) ==
      GetDataSpec(DomainsRequest(headers, marker), segs[0]).trace +
        (Visits(pages[0]) + Tour(DomainsRequests(headers, NextMarker(pages[0]), pages[1..]), segs[1..] + [end], pages[1..]))
  {
    var s := segs + [end];
    TourFirst(DomainsRequests(headers, marker, pages), s, pages);
    DomainsRequestsFirst(headers, marker, pages);
    AppendLast(segs, end);
  }

  /** The first request carries `marker`; the rest are the requests from the
      marker of the first page on. */
  lemma DomainsRequestsFirst(headers: seq<Header>, marker: Option<string>, pages: seq<seq<DomainSummary>>)
    requires forall i :: 0 <= i < |pages| ==> |pages[i]| > 0
    requires |pages| > 0
    ensures DomainsRequests(headers, marker, pages)[0] == DomainsRequest(headers, marker)
    ensures DomainsRequests(headers, marker, pages)[1..] == DomainsRequests(headers, NextMarker(pages[0]), pages[1..])
  {
  }

  /** A tour of at least one page: the first call, its visits, then the rest. */
  lemma TourFirst(reqs: seq<HttpRequest>, segs: seq<seq<Reply<seq<DomainSummary>>>>, pages: seq<seq<DomainSummary>>)
    requires |reqs| == |segs| == |pages| + 1 && |pages| > 0
    ensures Tour(reqs, segs, pages) ==
      GetDataSpec(reqs[0], segs[0]).trace + (Visits(pages[0]) + Tour(reqs[1..], segs[1..], pages[1..]))
  {
  }

  /** Pages answered one after another, each by its own run of replies
      (which may hold 429s that were retried) to the request carrying the
      marker from the page before, then a run of replies that ends the
      listing: the iteration completes, its events are exactly the tour, and
      nothing after the ending replies is read. */
  lemma {:induction false} DomainsOfPages(
    headers: seq<Header>, marker: Option<string>, pages: seq<seq<DomainSummary>>,
    segs: seq<seq<Reply<seq<DomainSummary>>>>, end: seq<Reply<seq<DomainSummary>>>, tail: seq<Reply<seq<DomainSummary>>>)
    requires ServesDomains(headers, marker, pages, segs, end)
    ensures DomainsFrom(headers, marker, Flatten(segs) + end + tail) ==
      Run(Success(()), Tour(DomainsRequests(headers, marker, pages), segs + [end], pages), tail)
    decreases |pages|
  {
    if |pages| > 0 {
      DomainsOfPages(headers, NextMarker(pages[0]), pages[1..], segs[1..], end, tail);
    }
    DomainsStep(headers, marker, pages, segs, end, tail);
  }

  /** One step of the induction above: no page left, or one page more. */
  lemma DomainsStep(
    headers: seq<Header>, marker: Option<string>, pages: seq<seq<DomainSummary>>,
    segs: seq<seq<Reply<seq<DomainSummary>>>>, end: seq<Reply<seq<DomainSummary>>>, tail: seq<Reply<seq<DomainSummary>>>)
    requires ServesDomains(headers, marker, pages, segs, end)
    requires |pages| > 0 ==>
      DomainsFrom(headers, NextMarker(pages[0]), Flatten(segs[1..]) + end + tail) ==
        Run(Success(()), Tour(DomainsRequests(headers, NextMarker(pages[0]), pages[1..]), segs[1..] + [end], pages[1..]), tail)
    ensures DomainsFrom(headers, marker, Flatten(segs) + end + tail) ==
      Run(Success(()), Tour(DomainsRequests(headers, marker, pages), segs + [end], pages), tail)
  {
    if |pages| == 0 {
      DomainsClosed(headers, marker, pages, segs, end, tail);
    } else {
      DomainsGather(headers, marker, pages, segs, end, tail);
    }
  }

  /** An iteration whose first request raises. */
  lemma DomainsRaised(headers: seq<Header>, marker: Option<string>, pages: seq<seq<DomainSummary>>,
                      segs: seq<seq<Reply<seq<DomainSummary>>>>, more: seq<Reply<seq<DomainSummary>>>, e: ProviderError)
    requires |pages| == 0 && |segs| == 0
    requires DomainsCallAfter(headers, marker, pages, more).result == Raised(e)
    ensures DomainsFrom(headers, marker, Flatten(segs) + more) ==
      Run(Thrown(e), Tour(DomainsRequests(headers, marker, pages), segs + [more], pages),
          DomainsCallAfter(headers, marker, pages, more).rest)
  {
    var req := DomainsRequest(headers, marker);
    var got := GetDataSpec(req, more);
    assert Flatten(segs) + more == more && segs + [more] == [more];
    DomainsFail(headers, marker, more, e, got.trace, got.rest);
    assert DomainsRequests(headers, marker, pages) == [req] + [];
    assert Tour([req], [more], pages) == got.trace + [];
  }

  /** A first page answered by its own replies and visited, before an
      iteration from the next marker on that raises. */
  lemma DomainsGatherRaise(headers: seq<Header>, marker: Option<string>, pages: seq<seq<DomainSummary>>,
                           segs: seq<seq<Reply<seq<DomainSummary>>>>, more: seq<Reply<seq<DomainSummary>>>,
                           e: ProviderError, rest: seq<Reply<seq<DomainSummary>>>)
    requires forall i :: 0 <= i < |pages| ==> |pages[i]| > 0
    requires |pages| > 0 && DomainsPages(headers, marker, pages, segs)
    requires DomainsFrom(headers, NextMarker(pages[0]), Flatten(segs[1..]) + more) ==
      Run(Thrown(e), Tour(DomainsRequests(headers, NextMarker(pages[0]), pages[1..]), segs[1..] + [more], pages[1..]), rest)
    ensures DomainsFrom(headers, marker, Flatten(segs) + more) ==
      Run(Thrown(e), Tour(DomainsRequests(headers, marker, pages), segs + [more], pages), rest)
  {
    var req := DomainsRequest(headers, marker);
    var script := Flatten(segs) + more;
    var later := Flatten(segs[1..]) + more;
    var t := GetDataSpec(req, segs[0]).trace;
    var tour := Tour(DomainsRequests(headers, NextMarker(pages[0]), pages[1..]), segs[1..] + [more], pages[1..]);
    assert script == segs[0] + later by {
      AppendAssoc(segs[0], Flatten(segs[1..]), more);
    }
    AnswersFrame(req, segs[0], later, pages[0]);
    DomainsNext(headers, marker, script, pages[0], t, later);
    DomainsTour(headers, marker, pages, segs, more);
    AppendAssoc(t, Visits(pages[0]), tour);
  }

  /** Pages served and visited, then a page request that raises (401, 403,
      any other error status, or no response): the iteration raises that
      same error after visiting exactly the items of the served pages; its
      events are the tour of those pages and the failing call, and the
      replies left are those the failing call left. */
  lemma {:induction false} DomainsRaise(headers: seq<Header>, marker: Option<string>, pages: seq<seq<DomainSummary>>,
                                        segs: seq<seq<Reply<seq<DomainSummary>>>>, more: seq<Reply<seq<DomainSummary>>>,
                                        e: ProviderError)
    requires forall i :: 0 <= i < |pages| ==> |pages[i]| > 0
    requires DomainsPages(headers, marker, pages, segs)
    requires DomainsCallAfter(headers, marker, pages, more).result == Raised(e)
    ensures DomainsFrom(headers, marker, Flatten(segs) + more) ==
      Run(Thrown(e), Tour(DomainsRequests(headers, marker, pages), segs + [more], pages),
          DomainsCallAfter(headers, marker, pages, more).rest)
    decreases |pages|
  {
    if |pages| == 0 {
      DomainsRaised(headers, marker, pages, segs, more, e);
    } else {
      DomainsRaise(headers, NextMarker(pages[0]), pages[1..], segs[1..], more, e);
      DomainsGatherRaise(headers, marker, pages, segs, more, e, DomainsCallAfter(headers, marker, pages, more).rest);
    }
  }

  /** The tour calls the visitor exactly once per item, in page order. */
  lemma {:induction false} TourVisitsEachItem(reqs: seq<HttpRequest>, segs: seq<seq<Reply<seq<DomainSummary>>>>, pages: seq<seq<DomainSummary>>)
    requires |reqs| == |segs| == |pages| + 1
    ensures VisitedItems(Tour(reqs, segs, pages)) == Flatten(pages)
    decreases |pages|
  {
    var first := GetDataSpec(reqs[0], segs[0]).trace;
    AttemptVisitsNothing(reqs[0], 0, segs[0]);
    if |pages| == 0 {
      assert Tour(reqs, segs, pages) == first + [];
      VisitedItemsAppend(first, []);
    } else {
      var later := Tour(reqs[1..], segs[1..], pages[1..]);
      VisitedItemsAppend(first, Visits(pages[0]) + later);
      VisitedItemsAppend(Visits(pages[0]), later);
      VisitsVisitEach(pages[0]);
      TourVisitsEachItem(reqs[1..], segs[1..], pages[1..]);
    }
  }

  lemma {:induction false} VisitsVisitEach(items: seq<DomainSummary>)
    ensures VisitedItems(Visits(items)) == items
    ensures SentRequests(Visits(items)) == []
  {
    if |items| > 0 {
      assert Visits(items)[1..] == Visits(items[1..]);
      VisitsVisitEach(items[1..]);
    }
  }

  /** The tour sends the same requests as its calls alone: visiting sends nothing. */
  lemma {:induction false} TourRequests(reqs: seq<HttpRequest>, segs: seq<seq<Reply<seq<DomainSummary>>>>, pages: seq<seq<DomainSummary>>)
    requires |reqs| == |segs| == |pages| + 1
    ensures SentRequests(Tour(reqs, segs, pages)) == SentRequests(Calls(reqs, segs))
    decreases |pages|
  {
    if |pages| > 0 {
      TourRequests(reqs[1..], segs[1..], pages[1..]);
    }
    TourRequestsStep(reqs, segs, pages);
  }

  /** One step of the induction above: the first call, then its visits. */
  lemma TourRequestsStep(reqs: seq<HttpRequest>, segs: seq<seq<Reply<seq<DomainSummary>>>>, pages: seq<seq<DomainSummary>>)
    requires |reqs| == |segs| == |pages| + 1
    requires |pages| > 0 ==>
      SentRequests(Tour(reqs[1..], segs[1..], pages[1..])) == SentRequests(Calls(reqs[1..], segs[1..]))
    ensures SentRequests(Tour(reqs, segs, pages)) == SentRequests(Calls(reqs, segs))
  {
    var first := GetDataSpec(reqs[0], segs[0]).trace;
    var calls := Calls(reqs[1..], segs[1..]);
    assert Calls(reqs, segs) == first + calls;
    SentRequestsAppend(first, calls);
    if |pages| == 0 {
      assert calls == [];
      assert Tour(reqs, segs, pages) == first + calls;
    } else {
      TourVisitsSendNothing(first, pages[0], Tour(reqs[1..], segs[1..], pages[1..]));
      TourFirst(reqs, segs, pages);
    }
  }

  /** Visits between a call and the rest of a tour send nothing. */
  lemma TourVisitsSendNothing(first: seq<Event>, items: seq<DomainSummary>, later: seq<Event>)
    ensures SentRequests(first + (Visits(items) + later)) == SentRequests(first) + SentRequests(later)
  {
    SentRequestsAppend(first, Visits(items) + later);
    SentRequestsAppend(Visits(items), later);
    VisitsVisitEach(items);
  }

  /** The first domains request asks for 50 domains and carries no marker. */
  lemma FirstDomainsUrl(headers: seq<Header>)
    ensures DomainsRequest(headers, None).url == ORIGIN + "/v1/domains?limit=50"
  {
    LimitParam();
    assert DomainsQuery(None) == [("limit", "50")];
    assert StartsWithSlash(DOMAINS_PATH + "?" + "limit=50");
  }

  lemma DomainsQueryString(marker: string)
    ensures QueryString(DomainsQuery(Some(marker))) == "limit=50&marker=" + marker
  {
    LimitParam();
    var params := DomainsQuery(Some(marker));
    assert params == [("limit", "50"), ("marker", marker)];
    assert params[1..] == [params[1]];
    assert QueryString(params) == Field(params[0]) + "&" + Field(params[1]);
  }

  /** Every later one carries the marker after the limit. */
  lemma NextDomainsUrl(headers: seq<Header>, marker: string)
    ensures DomainsRequest(headers, Some(marker)).url == ORIGIN + "/v1/domains?limit=50&marker=" + marker
  {
    DomainsQueryString(marker);
    var path := DOMAINS_PATH + "?" + ("limit=50&marker=" + marker);
    assert StartsWithSlash(path);
    calc {
      DomainsRequest(headers, Some(marker)).url;
      ORIGIN + path;
      ORIGIN + "/v1/domains?limit=50&marker=" + marker;
    }
  }

  /** The marker of each later request, on the wire. */
  lemma DomainsUrls(headers: seq<Header>, pages: seq<seq<DomainSummary>>)
    requires forall i :: 0 <= i < |pages| ==> |pages[i]| > 0
    ensures var reqs := DomainsRequests(headers, None, pages);
      forall i :: 0 <= i < |pages| ==>
        reqs[i + 1].url == ORIGIN + "/v1/domains?limit=50&marker=" + pages[i][|pages[i]| - 1].domain
  {
    var reqs := DomainsRequests(headers, None, pages);
    forall i | 0 <= i < |pages|
      ensures reqs[i + 1].url == ORIGIN + "/v1/domains?limit=50&marker=" + pages[i][|pages[i]| - 1].domain
    {
      DomainsRequestsAt(headers, None, pages, i);
      NextDomainsUrl(headers, pages[i][|pages[i]| - 1].domain);
    }
  }

  /** What `iterateDomains` does with any replies that serve pages and then
      end the listing: it completes, calls the visitor once per item in page
      order, sends its first request without a marker and each later one
      with the domain of the previous page's last item, each one to three
      times in a row (once more per 429), and reads nothing after the ending
      replies. */
  lemma DomainsListing(headers: seq<Header>, pages: seq<seq<DomainSummary>>,
                       segs: seq<seq<Reply<seq<DomainSummary>>>>, end: seq<Reply<seq<DomainSummary>>>,
                       tail: seq<Reply<seq<DomainSummary>>>)
    requires forall i :: 0 <= i < |pages| ==> |pages[i]| > 0
    requires ServesDomains(headers, None, pages, segs, end)
    ensures var r := DomainsSpec(headers, Flatten(segs) + end + tail);
      var reqs := DomainsRequests(headers, None, pages);
      var tries := Tries(reqs, segs + [end]);
      && r.result == Success(())
      && r.rest == tail
      && VisitedItems(r.trace) == Flatten(pages)
      && SentRequests(r.trace) == Repeat(reqs, tries)
      && (forall i :: 0 <= i < |tries| ==> 1 <= tries[i] <= MAX_RETRIES)
      && reqs[0].url == ORIGIN + "/v1/domains?limit=50"
      && forall i :: 0 <= i < |pages| ==>
           reqs[i + 1].url == ORIGIN + "/v1/domains?limit=50&marker=" + pages[i][|pages[i]| - 1].domain
  {
    var reqs := DomainsRequests(headers, None, pages);
    assert reqs[0] == DomainsRequest(headers, None);
    DomainsOfPages(headers, None, pages, segs, end, tail);
    TourVisitsEachItem(reqs, segs + [end], pages);
    TourRequests(reqs, segs + [end], pages);
    CallsRequests(reqs, segs + [end]);
    FirstDomainsUrl(headers);
    DomainsUrls(headers, pages);
  }

  /** What `iterateDomains` does when the request after some served pages
      raises: it raises that same error after calling the visitor once per
      item of the served pages and for nothing else, having sent its
      requests in order, each one to three times in a row. */
  lemma DomainsFailure(headers: seq<Header>, pages: seq<seq<DomainSummary>>,
                       segs: seq<seq<Reply<seq<DomainSummary>>>>, more: seq<Reply<seq<DomainSummary>>>,
                       e: ProviderError)
    requires forall i :: 0 <= i < |pages| ==> |pages[i]| > 0
    requires DomainsPages(headers, None, pages, segs)
    requires GetDataSpec(DomainsRequests(headers, None, pages)[|pages|], more).result == Raised(e)
    ensures var r := DomainsSpec(headers, Flatten(segs) + more);
      var reqs := DomainsRequests(headers, None, pages);
      var tries := Tries(reqs, segs + [more]);
      && r.result == Thrown(e)
      && r.rest == GetDataSpec(reqs[|pages|], more).rest
      && VisitedItems(r.trace) == Flatten(pages)
      && SentRequests(r.trace) == Repeat(reqs, tries)
      && (forall i :: 0 <= i < |tries| ==> 1 <= tries[i] <= MAX_RETRIES)
  {
    var reqs := DomainsRequests(headers, None, pages);
    assert DomainsSpec(headers, Flatten(segs) + more) ==
      Run(Thrown(e), Tour(reqs, segs + [more], pages), GetDataSpec(reqs[|pages|], more).rest) by {
      DomainsCallAfterRequest(headers, None, pages, more);
      DomainsRaise(headers, None, pages, segs, more, e);
    }
    TourVisitsEachItem(reqs, segs + [more], pages);
    TourRequests(reqs, segs + [more], pages);
    CallsRequests(reqs, segs + [more]);
  }
}
