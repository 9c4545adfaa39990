/**
 * Building the requests the client sends: the URL on the fixed host, the
 * query string appended by `withURLSeachParams`, and the two headers every
 * request carries.
 */
module Http {
  import opened Types

  const HOSTNAME := "api.godaddy.com"
  const ORIGIN := "https://" + HOSTNAME

  predicate StartsWithSlash(path: string)
  {
    |path| > 0 && path[0] == '/'
  }

  /** The URL `getData` requests for `path`. */
  function RequestUrl(path: string): string
  {
    ORIGIN + (if StartsWithSlash(path) then "" else "/") + path
  }

  /** The requested URL is the origin, exactly one '/', then the path
      unchanged (the '/' is the path's own when it has one). */
  lemma RequestUrlForm(path: string)
    ensures var url := RequestUrl(path);
      && |url| > |ORIGIN| && url[..|ORIGIN|] == ORIGIN && url[|ORIGIN|] == '/'
      && (StartsWithSlash(path) ==> url[|ORIGIN|..] == path)
      && (!StartsWithSlash(path) ==> url[|ORIGIN| + 1..] == path)
  {
  }

  /** A path with and without its leading slash names the same URL. */
  lemma SlashNormalisation(path: string)
    requires !StartsWithSlash(path)
    ensures RequestUrl(path) == RequestUrl("/" + path)
  {
    assert ORIGIN + "/" + path == ORIGIN + "" + ("/" + path);
  }

  // ---------------------------------------------------------------- query

  /** A query parameter, in the order it is given. */
  type Param = (string, string)

  function Field(p: Param): string
  {
    p.0 + "=" + p.1
  }

  /** The `key=value` fields joined by '&' (percent-encoding is not modelled). */
  function QueryString(params: seq<Param>): (qs: string)
    ensures qs == "" <==> params == []
  {
    if |params| == 0 then ""
    else if |params| == 1 then Field(params[0])
    else Field(params[0]) + "&" + QueryString(params[1..])
  }

  /** `withURLSeachParams`: the query string is appended after '?' only when
      it is non-empty. */
  function WithSearchParams(url: string, params: seq<Param>): (r: string)
    ensures params == [] ==> r == url
    ensures params != [] ==> r == url + "?" + QueryString(params)
  {
    var qs := QueryString(params);
    url + (if qs != "" then "?" + qs else "")
  }

  /** The first position of `c` in `s`. */
  function IndexOf(s: string, c: char): (i: nat)
    requires c in s
    ensures i < |s| && s[i] == c && c !in s[..i]
  {
    if s[0] == c then 0 else 1 + IndexOf(s[1..], c)
  }

  /** `c` splits `a + [c] + b` right after `a` when `a` does not contain it. */
  lemma IndexOfAfter(a: string, c: char, b: string)
    requires c !in a
    ensures c in a + [c] + b && IndexOf(a + [c] + b, c) == |a|
  {
    var s := a + [c] + b;
    assert s[|a|] == c;
    assert forall k :: 0 <= k < |a| ==> s[k] == a[k];
  }

  /** The pieces of `s` between the occurrences of `sep`. */
  function Split(s: string, sep: char): (parts: seq<string>)
    ensures |parts| > 0
    decreases |s|
  {
    if sep in s then
      var i := IndexOf(s, sep);
      [s[..i]] + Split(s[i + 1..], sep)
    else [s]
  }

  function ParseField(f: string): Param
  {
    if '=' in f then
      var i := IndexOf(f, '=');
      (f[..i], f[i + 1..])
    else (f, "")
  }

  function ParseFields(fs: seq<string>): (ps: seq<Param>)
    ensures |ps| == |fs|
  {
    if |fs| == 0 then [] else [ParseField(fs[0])] + ParseFields(fs[1..])
  }

  /** Reads a query string back into its parameters. */
  function ParseQuery(qs: string): seq<Param>
  {
    if qs == "" then [] else ParseFields(Split(qs, '&'))
  }

  /** Keys and values that need no escaping in a query string. */
  predicate Plain(s: string)
  {
    '&' !in s && '=' !in s
  }

  lemma ParseFieldOfField(p: Param)
    requires Plain(p.0)
    ensures ParseField(Field(p)) == p
  {
    IndexOfAfter(p.0, '=', p.1);
    var f := Field(p);
    assert f == p.0 + ['='] + p.1;
    var i := IndexOf(f, '=');
    assert f[..i] == p.0 && f[i + 1..] == p.1;
  }

  function Fields(params: seq<Param>): (fs: seq<string>)
    ensures |fs| == |params|
  {
    if |params| == 0 then [] else [Field(params[0])] + Fields(params[1..])
  }

  lemma {:induction false} SplitQueryString(params: seq<Param>)
    requires params != []
    requires forall p <- params :: Plain(p.0) && Plain(p.1)
    ensures Split(QueryString(params), '&') == Fields(params)
  {
    var f := Field(params[0]);
    assert '&' !in f by {
      assert f == params[0].0 + ['='] + params[0].1;
    }
    if |params| == 1 {
      assert QueryString(params) == f;
    } else {
      var tail := QueryString(params[1..]);
      assert QueryString(params) == f + ['&'] + tail;
      IndexOfAfter(f, '&', tail);
      var s := f + ['&'] + tail;
      assert s[..|f|] == f && s[|f| + 1..] == tail;
      SplitQueryString(params[1..]);
    }
  }

  lemma {:induction false} ParseFieldsOfFields(params: seq<Param>)
    requires forall p <- params :: Plain(p.0)
    ensures ParseFields(Fields(params)) == params
  {
    if |params| > 0 {
      ParseFieldOfField(params[0]);
      ParseFieldsOfFields(params[1..]);
    }
  }

  /** The query string loses nothing: parsing it gives the parameters back. */
  lemma QueryRoundTrip(params: seq<Param>)
    requires forall p <- params :: Plain(p.0) && Plain(p.1)
    ensures ParseQuery(QueryString(params)) == params
  {
    if params != [] {
      SplitQueryString(params);
      ParseFieldsOfFields(params);
    }
  }

  /** The URL built by `withURLSeachParams` can be taken apart again: a '?'
      appears exactly when there are parameters, what precedes it is the URL
      and what follows it parses back to the parameters. */
  lemma SearchParamsRoundTrip(url: string, params: seq<Param>)
    requires '?' !in url
    requires forall p <- params :: Plain(p.0) && Plain(p.1)
    ensures var r := WithSearchParams(url, params);
      && ('?' in r <==> params != [])
      && (params != [] ==> r[..IndexOf(r, '?')] == url && ParseQuery(r[IndexOf(r, '?') + 1..]) == params)
  {
    if params != [] {
      var qs := QueryString(params);
      var r := url + ['?'] + qs;
      assert WithSearchParams(url, params) == r;
      IndexOfAfter(url, '?', qs);
      assert r[..|url|] == url && r[|url| + 1..] == qs;
      QueryRoundTrip(params);
    }
  }

  // ---------------------------------------------------------------- headers

  const SSO_KEY := "sso-key "

  /** The `Authorization` header value built from the key and the secret. */
  function AuthorizationValue(apiKey: string, apiSecret: string): string
  {
    SSO_KEY + apiKey + ":" + apiSecret
  }

  /** The headers every request carries. */
  function RequestHeaders(apiKey: string, apiSecret: string): seq<Header>
  {
    [Header("Accept", "application/json"), Header("Authorization", AuthorizationValue(apiKey, apiSecret))]
  }

  /** The value of the first header called `name`, if any. */
  function HeaderValue(headers: seq<Header>, name: string): Option<string>
  {
    if |headers| == 0 then None
    else if headers[0].name == name then Some(headers[0].value)
    else HeaderValue(headers[1..], name)
  }

  /** Reads the key and the secret back from an `Authorization` value. */
  function ParseAuthorization(value: string): Option<(string, string)>
  {
    if |value| >= |SSO_KEY| && value[..|SSO_KEY|] == SSO_KEY && ':' in value[|SSO_KEY|..] then
      var creds := value[|SSO_KEY|..];
      var i := IndexOf(creds, ':');
      Some((creds[..i], creds[i + 1..]))
    else None
  }

  /** Every request asks for JSON and is authorised with `sso-key`, the
      key, ':' and the secret, whatever the key and the secret are. */
  lemma AuthorizationHeader(apiKey: string, apiSecret: string)
    ensures HeaderValue(RequestHeaders(apiKey, apiSecret), "Accept") == Some("application/json")
    ensures HeaderValue(RequestHeaders(apiKey, apiSecret), "Authorization") == Some("sso-key " + apiKey + ":" + apiSecret)
  {
    assert RequestHeaders(apiKey, apiSecret)[1..][0].name == "Authorization";
  }

  /** Every request asks for JSON and carries credentials from which the key
      and the secret can be read back (provided the key itself has no ':'). */
  lemma HeadersCarryCredentials(apiKey: string, apiSecret: string)
    requires ':' !in apiKey
    ensures HeaderValue(RequestHeaders(apiKey, apiSecret), "Accept") == Some("application/json")
    ensures var auth := HeaderValue(RequestHeaders(apiKey, apiSecret), "Authorization");
      auth.Some? && ParseAuthorization(auth.value) == Some((apiKey, apiSecret))
  {
    var v := AuthorizationValue(apiKey, apiSecret);
    assert HeaderValue(RequestHeaders(apiKey, apiSecret), "Authorization") == Some(v);
    var creds := apiKey + [':'] + apiSecret;
    assert v == SSO_KEY + creds;
    assert v[..|SSO_KEY|] == SSO_KEY && v[|SSO_KEY|..] == creds;
    IndexOfAfter(apiKey, ':', apiSecret);
    assert creds[..|apiKey|] == apiKey && creds[|apiKey| + 1..] == apiSecret;
  }
}
