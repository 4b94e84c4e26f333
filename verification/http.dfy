/** The request gateway: it holds the response format and the chosen mirror, checks the
    format, and composes the URL and headers of each GET. The HTTP session, the GET
    itself and the decoding of the body are outside the model: a request is described
    by the `Get` it would send. */
module Http {
  import opened Common
  import BaseUrl

  /** A query-string value as a caller passes it. */
  datatype Param = Text(text: string) | Flag(flag: bool) | Number(number: int) | Null

  /** How the response body is handed back: parsed as JSON, or as the raw text. */
  datatype Decoding = ParsedJson | RawText

  /** The GET that `request` sends and how it decodes the answer. */
  datatype Get = Get(url: string, params: map<string, Param>, headers: map<string, string>, decoding: Decoding)

  const UserAgent: string := "aioradios/dev"

  /** `str.lower()` on one character, for the ASCII letters. */
  function LowerChar(c: char): char
  {
    if 'A' <= c <= 'Z' then (c as int - 'A' as int + 'a' as int) as char else c
  }

  /** `str.lower()`, for the ASCII letters. */
  function Lower(s: string): (r: string)
    ensures |r| == |s| && forall i :: 0 <= i < |s| ==> r[i] == LowerChar(s[i])
  {
    if s == [] then [] else [LowerChar(s[0])] + Lower(s[1..])
  }

  /** The format check: only `xml` and `json` are accepted, in any letter case. */
  predicate SupportedFormat(fmt: string)
    ensures SupportedFormat(fmt) ==> |fmt| == 3 || |fmt| == 4
  {
    Lower(fmt) == "xml" || Lower(fmt) == "json"
  }

  /** `s` spells the lower-case word `w` with each letter in either case. */
  ghost predicate CaseVariant(s: string, w: string)
  {
    |s| == |w| && forall i :: 0 <= i < |w| ==> s[i] == w[i] || s[i] as int == w[i] as int - 32
  }

  /** The format check accepts exactly the case variants of "json" and "xml". */
  lemma SupportedFormatCases(fmt: string)
    ensures SupportedFormat(fmt) <==> CaseVariant(fmt, "json") || CaseVariant(fmt, "xml")
  {
    forall w: string | w == "json" || w == "xml"
      ensures Lower(fmt) == w <==> CaseVariant(fmt, w)
    {
      if CaseVariant(fmt, w) {
        assert forall i :: 0 <= i < |w| ==> Lower(fmt)[i] == w[i];
      }
      if Lower(fmt) == w {
        assert forall i :: 0 <= i < |w| ==> LowerChar(fmt[i]) == w[i];
      }
    }
  }

  /** Lower-casing twice is lower-casing once, so a format that passed the check is
      still accepted after being lower-cased, and the other way round. */
  lemma {:induction false} LowerIdempotent(s: string)
    ensures Lower(Lower(s)) == Lower(s)
  {
    if s != [] {
      LowerIdempotent(s[1..]);
      assert Lower(s)[1..] == Lower(s[1..]);
    }
  }

  /** The upper-case spelling "JSON" passes the check and selects JSON decoding. */
  lemma UpperCaseJsonAccepted()
    ensures SupportedFormat("JSON") && Lower("JSON") == "json"
  {
    assert Lower("JSON") == "json";
  }

  /** The fixed request headers. */
  function Headers(fmt: string): (h: map<string, string>)
    ensures h.Keys == {"content-type", "User-Agent"}
    ensures h["content-type"] == "application/" + fmt && h["User-Agent"] == UserAgent
  {
    map["content-type" := "application/" + fmt, "User-Agent" := UserAgent]
  }

  /** The request URL: base URL, format and endpoint joined by slashes. */
  function Url(route: string, fmt: string, endpoint: string): (u: string)
    ensures |u| == |route| + |fmt| + |endpoint| + 2
    ensures route + "/" <= u
  {
    route + "/" + fmt + "/" + endpoint
  }

  /** The URL can be taken apart again: it starts with the base URL, carries the format
      exactly as stored (not lower-cased) and ends with the endpoint. */
  lemma UrlParts(route: string, fmt: string, endpoint: string)
    ensures var u := Url(route, fmt, endpoint);
      && |u| == |route| + |fmt| + |endpoint| + 2
      && u[..|route|] == route
      && u[|route|] == '/'
      && u[|route| + 1..|route| + 1 + |fmt|] == fmt
      && u[|route| + 1 + |fmt|] == '/'
      && u[|route| + |fmt| + 2..] == endpoint
  {
    var u := Url(route, fmt, endpoint);
    assert u == route + ("/" + fmt + "/" + endpoint);
    assert u[|route|..] == "/" + fmt + "/" + endpoint;
    assert u[|route| + 1..] == fmt + "/" + endpoint;
  }

  /** Requests to two endpoints of the same gateway go to two URLs. */
  lemma UrlInjective(route: string, fmt: string, e1: string, e2: string)
    requires Url(route, fmt, e1) == Url(route, fmt, e2)
    ensures e1 == e2
  {
    UrlParts(route, fmt, e1);
    UrlParts(route, fmt, e2);
  }

  class HTTP {
    /** The response format as given at construction; it is never reassigned. */
    const fmt: string
    /** The base URL of the chosen mirror; `None` until `Init` has succeeded. */
    var route: Option<string>

    constructor(fmt: string)
      ensures this.fmt == fmt && route == None
    {
      this.fmt := fmt;
      route := None;
    }

    /** Picks a mirror and stores its base URL. When picking raises, nothing changes. */
    method Init(dns: BaseUrl.Dns) returns (outcome: Result<()>)
      modifies this
      ensures BaseUrl.DnsFails(dns) ==> outcome == Failure(DnsFailure)
      ensures !BaseUrl.DnsFails(dns) && dns.lookups == [] ==> outcome == Failure(NoHostFound)
      ensures !BaseUrl.DnsFails(dns) && dns.lookups != [] ==> outcome.Success?
      ensures outcome.Success? ==> route.Some? && BaseUrl.PickedFrom(route.value, dns)
      ensures outcome.Failure? ==> route == old(route)
    {
      var picked;
      ghost var urls;
      picked, urls := BaseUrl.PickUrl(dns);
      if picked.Failure? {
        return Failure(picked.error);
      }
      route := Some(picked.value);
      outcome := Success(());
    }

    /** The GET for `endpoint` with `params`. The format is checked before anything
        else; the URL uses the format as stored, the decoding its lower-case form. */
    function Request(endpoint: string, params: map<string, Param>): (r: Result<Get>)
      reads this
      ensures r.Failure? <==> !SupportedFormat(fmt) || route.None?
      ensures !SupportedFormat(fmt) ==> r.error == UnsupportedFormat
      ensures SupportedFormat(fmt) && route.None? ==> r.error == RouteUnset
      ensures r.Success? ==> r.value.url == Url(route.value, fmt, endpoint)
      ensures r.Success? ==> r.value.params == params && r.value.headers == Headers(fmt)
      ensures r.Success? ==> (r.value.decoding == ParsedJson <==> Lower(fmt) == "json")
      ensures r.Success? ==> (r.value.decoding == RawText <==> Lower(fmt) == "xml")
    {
      if !SupportedFormat(fmt) then Failure(UnsupportedFormat)
      else if route.None? then Failure(RouteUnset)
      else
        var decoding := if Lower(fmt) == "json" then ParsedJson else RawText;
        Success(Get(Url(route.value, fmt, endpoint), params, Headers(fmt), decoding))
    }
  }
}
