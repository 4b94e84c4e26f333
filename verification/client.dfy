/** The client facade: one flag that says whether `Init` has completed, and one query
    per endpoint of the directory. Each query checks the flag, builds its endpoint path
    and query parameters, and hands them to the gateway; a query is modelled by the
    GET it makes the gateway send. */
module Client {
  import opened Common
  import opened Http
  import BaseUrl

  /** Python truthiness of an optional string: `None` and `""` count as absent. */
  predicate Given(o: Option<string>)
    ensures Given(o) <==> o != None && o != Some("")
  {
    o.Some? && o.value != ""
  }

  /** `str(b).lower()`. */
  function BoolText(b: bool): (t: string)
    ensures t == "true" <==> b
    ensures t == "false" <==> !b
  {
    if b then "true" else "false"
  }

  /** The path of the list endpoints: the resource, a slash, and the search keyword
      when one is given. */
  function ListPath(resource: string, search: Option<string>): (p: string)
    ensures resource + "/" <= p
    ensures |p| == |resource| + 1 + (if Given(search) then |search.value| else 0)
  {
    if Given(search) then resource + "/" + search.value else resource + "/"
  }

  /** A list path names its resource and carries the keyword exactly when it is given. */
  lemma ListPathParts(resource: string, search: Option<string>)
    ensures var p := ListPath(resource, search);
      && p[..|resource| + 1] == resource + "/"
      && p[|resource| + 1..] == (if Given(search) then search.value else "")
  {
  }

  /** An empty keyword is treated like no keyword at all. */
  lemma EmptySearchIsAbsent(resource: string)
    ensures ListPath(resource, Some("")) == ListPath(resource, None)
  {
  }

  /** The parameters of the list endpoints: sort field, direction and broken-station
      filter, the two flags sent as the words "true" and "false". */
  function ListParams(orderby: string, reverse: bool, hidebroken: bool): (p: map<string, Param>)
    ensures p.Keys == {"order", "reverse", "hidebroken"}
    ensures forall k :: k in p ==> p[k].Text?
    ensures p["order"] == Text(orderby)
    ensures (p["reverse"] == Text("true") <==> reverse) && (p["reverse"] == Text("false") <==> !reverse)
    ensures (p["hidebroken"] == Text("true") <==> hidebroken) && (p["hidebroken"] == Text("false") <==> !hidebroken)
  {
    map["order" := Text(orderby), "reverse" := Text(BoolText(reverse)), "hidebroken" := Text(BoolText(hidebroken))]
  }

  /** The path `states` builds: under `codecs/`, with the country before the keyword
      when both are given. */
  function StatesPath(search: Option<string>, country: Option<string>): (p: string)
    ensures Given(search) && Given(country) ==> p == "codecs/" + country.value + "/" + search.value
    ensures Given(search) && !Given(country) ==> p == "codecs/" + search.value
    ensures !Given(search) ==> p == "codecs/"
  {
    if Given(search) && Given(country) then "codecs/" + country.value + "/" + search.value
    else if Given(search) && !Given(country) then "codecs/" + search.value
    else "codecs/"
  }

  /** A states path can be read back: `codecs/`, then the country and the keyword, the
      keyword alone, or nothing, by which of them are given. */
  lemma StatesPathParts(search: Option<string>, country: Option<string>)
    ensures var p := StatesPath(search, country);
      && p[..7] == "codecs/"
      && p[7..] == (if Given(search) && Given(country) then country.value + "/" + search.value
                    else if Given(search) then search.value
                    else "")
  {
  }

  /** Without a country, `states` requests exactly the path `codecs` requests. */
  lemma StatesWithoutCountryIsCodecs(search: Option<string>, country: Option<string>)
    requires !Given(country)
    ensures StatesPath(search, country) == ListPath("codecs", search)
  {
  }

  /** The parameters of `states`: those of the list endpoints and a `country` entry,
      present even when the country is `None`. */
  function StatesParams(orderby: string, reverse: bool, hidebroken: bool, country: Option<string>): (p: map<string, Param>)
    ensures p.Keys == {"order", "reverse", "hidebroken", "country"}
    ensures p["country"] == (if country.Some? then Text(country.value) else Null)
    ensures forall k :: k in p && k != "country" ==> p[k] == ListParams(orderby, reverse, hidebroken)[k]
  {
    ListParams(orderby, reverse, hidebroken)["country" := if country.Some? then Text(country.value) else Null]
  }

  /** The parameters of `stations`: no broken-station filter, but paging. */
  function StationsParams(orderby: string, reverse: bool, offset: int, limit: int): (p: map<string, Param>)
    ensures p.Keys == {"order", "reverse", "offset", "limit"}
    ensures "hidebroken" !in p
    ensures p["order"] == Text(orderby) && p["offset"] == Number(offset) && p["limit"] == Number(limit)
    ensures (p["reverse"] == Text("true") <==> reverse) && (p["reverse"] == Text("false") <==> !reverse)
  {
    map["order" := Text(orderby), "reverse" := Text(BoolText(reverse)), "offset" := Number(offset), "limit" := Number(limit)]
  }

  /** A keyword argument of `search` after normalisation: a boolean becomes its word. */
  function FlagAsText(v: Param): (w: Param)
    ensures !w.Flag?
    ensures v.Flag? ==> w == Text(BoolText(v.flag))
    ensures !v.Flag? ==> w == v
  {
    if v.Flag? then Text(BoolText(v.flag)) else v
  }

  /** The keyword arguments of `search` with every boolean value replaced by its word. */
  function FlagsAsText(kwargs: map<string, Param>): (t: map<string, Param>)
    ensures t.Keys == kwargs.Keys
    ensures forall k :: k in t ==> !t[k].Flag?
    ensures forall k :: k in kwargs && !kwargs[k].Flag? ==> t[k] == kwargs[k]
    ensures forall k :: k in kwargs && kwargs[k].Flag? ==>
      (t[k] == Text("true") <==> kwargs[k].flag) && (t[k] == Text("false") <==> !kwargs[k].flag)
  {
    map k | k in kwargs :: FlagAsText(kwargs[k])
  }

  /** The loop of `search` that rewrites, in place and key by key, every boolean value
      of its copy of the keyword arguments. */
  method NormaliseFlags(kwargs: map<string, Param>) returns (di: map<string, Param>)
    ensures di == FlagsAsText(kwargs)
  {
    di := kwargs;
    var pending := di.Keys;
    while pending != {}
      invariant pending <= kwargs.Keys && di.Keys == kwargs.Keys
      invariant forall k :: k in kwargs ==> di[k] == if k in pending then kwargs[k] else FlagAsText(kwargs[k])
      decreases pending
    {
      var key :| key in pending;
      if di[key].Flag? {
        di := di[key := Text(BoolText(di[key].flag))];
      }
      pending := pending - {key};
    }
  }

  class RadioBrowser {
    /** The gateway; created with the client and never replaced. */
    const http: HTTP
    /** Set once `Init` has completed. */
    var initialized: bool

    /** The flag is set only once the gateway holds a base URL. */
    ghost predicate Valid()
      reads this, http
    {
      initialized ==> http.route.Some?
    }

    constructor(fmt: string)
      ensures fresh(http) && http.fmt == fmt && http.route == None
      ensures !initialized && Valid()
    {
      http := new HTTP(fmt);
      initialized := false;
    }

    /** Lets the gateway pick a mirror, then sets the flag. When picking raises, the
        flag and the gateway are left as they were. */
    method Init(dns: BaseUrl.Dns) returns (outcome: Result<()>)
      requires Valid()
      modifies this, http
      ensures Valid()
      ensures initialized == (old(initialized) || outcome.Success?)
      ensures BaseUrl.DnsFails(dns) ==> outcome == Failure(DnsFailure)
      ensures !BaseUrl.DnsFails(dns) && dns.lookups == [] ==> outcome == Failure(NoHostFound)
      ensures !BaseUrl.DnsFails(dns) && dns.lookups != [] ==> outcome.Success?
      ensures outcome.Success? ==> http.route.Some? && BaseUrl.PickedFrom(http.route.value, dns)
      ensures outcome.Failure? ==> http.route == old(http.route)
    {
      outcome := http.Init(dns);
      if outcome.Failure? {
        return;
      }
      initialized := true;
    }

    /** The shared shape of the five list queries. */
    function ListQuery(resource: string, search: Option<string>, orderby: string, reverse: bool, hidebroken: bool): (r: Result<Get>)
      reads this, http
      ensures !initialized ==> r == Failure(NotInitialized)
      ensures initialized ==> r == http.Request(ListPath(resource, search), ListParams(orderby, reverse, hidebroken))
      ensures Valid() && initialized ==> (r.Success? <==> SupportedFormat(http.fmt))
    {
      if !initialized then Failure(NotInitialized)
      else http.Request(ListPath(resource, search), ListParams(orderby, reverse, hidebroken))
    }

    function Countries(search: Option<string>, orderby: string, reverse: bool, hidebroken: bool): (r: Result<Get>)
      reads this, http
      ensures !initialized ==> r == Failure(NotInitialized)
      ensures Valid() && initialized ==> (r.Success? <==> SupportedFormat(http.fmt))
      ensures r.Success? ==> http.route.Some? && r.value.url == Url(http.route.value, http.fmt, ListPath("countries", search))
      ensures r.Success? ==> r.value.params == ListParams(orderby, reverse, hidebroken)
    {
      ListQuery("countries", search, orderby, reverse, hidebroken)
    }

    function CountryCodes(search: Option<string>, orderby: string, reverse: bool, hidebroken: bool): (r: Result<Get>)
      reads this, http
      ensures !initialized ==> r == Failure(NotInitialized)
      ensures Valid() && initialized ==> (r.Success? <==> SupportedFormat(http.fmt))
      ensures r.Success? ==> http.route.Some? && r.value.url == Url(http.route.value, http.fmt, ListPath("countrycodes", search))
      ensures r.Success? ==> r.value.params == ListParams(orderby, reverse, hidebroken)
    {
      ListQuery("countrycodes", search, orderby, reverse, hidebroken)
    }

    function Codecs(search: Option<string>, orderby: string, reverse: bool, hidebroken: bool): (r: Result<Get>)
      reads this, http
      ensures !initialized ==> r == Failure(NotInitialized)
      ensures Valid() && initialized ==> (r.Success? <==> SupportedFormat(http.fmt))
      ensures r.Success? ==> http.route.Some? && r.value.url == Url(http.route.value, http.fmt, ListPath("codecs", search))
      ensures r.Success? ==> r.value.params == ListParams(orderby, reverse, hidebroken)
    {
      ListQuery("codecs", search, orderby, reverse, hidebroken)
    }

    /** The state list. The flag is checked first; then a country without a keyword is
        refused. The path is built under `codecs/`, as the code does. */
    function States(search: Option<string>, orderby: string, reverse: bool, hidebroken: bool, country: Option<string>): (r: Result<Get>)
      reads this, http
      ensures !initialized ==> r == Failure(NotInitialized)
      ensures initialized && Given(country) && !Given(search) ==> r == Failure(RequiredMissing)
      ensures Valid() && initialized && !(Given(country) && !Given(search)) ==> (r.Success? <==> SupportedFormat(http.fmt))
      ensures r.Success? ==> http.route.Some? && r.value.url == Url(http.route.value, http.fmt, StatesPath(search, country))
      ensures r.Success? ==> r.value.params == StatesParams(orderby, reverse, hidebroken, country)
    {
      if !initialized then Failure(NotInitialized)
      else if Given(country) && !Given(search) then Failure(RequiredMissing)
      else http.Request(StatesPath(search, country), StatesParams(orderby, reverse, hidebroken, country))
    }

    function Languages(search: Option<string>, orderby: string, reverse: bool, hidebroken: bool): (r: Result<Get>)
      reads this, http
      ensures !initialized ==> r == Failure(NotInitialized)
      ensures Valid() && initialized ==> (r.Success? <==> SupportedFormat(http.fmt))
      ensures r.Success? ==> http.route.Some? && r.value.url == Url(http.route.value, http.fmt, ListPath("languages", search))
      ensures r.Success? ==> r.value.params == ListParams(orderby, reverse, hidebroken)
    {
      ListQuery("languages", search, orderby, reverse, hidebroken)
    }

    function Tags(search: Option<string>, orderby: string, reverse: bool, hidebroken: bool): (r: Result<Get>)
      reads this, http
      ensures !initialized ==> r == Failure(NotInitialized)
      ensures Valid() && initialized ==> (r.Success? <==> SupportedFormat(http.fmt))
      ensures r.Success? ==> http.route.Some? && r.value.url == Url(http.route.value, http.fmt, ListPath("tags", search))
      ensures r.Success? ==> r.value.params == ListParams(orderby, reverse, hidebroken)
    {
      ListQuery("tags", search, orderby, reverse, hidebroken)
    }

    function Stations(orderby: string, reverse: bool, offset: int, limit: int): (r: Result<Get>)
      reads this, http
      ensures !initialized ==> r == Failure(NotInitialized)
      ensures Valid() && initialized ==> (r.Success? <==> SupportedFormat(http.fmt))
      ensures r.Success? ==> http.route.Some? && r.value.url == Url(http.route.value, http.fmt, "stations/")
      ensures r.Success? ==> r.value.params == StationsParams(orderby, reverse, offset, limit)
    {
      if !initialized then Failure(NotInitialized)
      else http.Request("stations/", StationsParams(orderby, reverse, offset, limit))
    }

    /** The advanced station search: the keyword arguments are sent as given, except
        that boolean values become their words. */
    method Search(kwargs: map<string, Param>) returns (r: Result<Get>)
      ensures !initialized ==> r == Failure(NotInitialized)
      ensures initialized ==> r == http.Request("stations/search", FlagsAsText(kwargs))
      ensures Valid() && initialized ==> (r.Success? <==> SupportedFormat(http.fmt))
      ensures r.Success? ==> http.route.Some? && r.value.url == Url(http.route.value, http.fmt, "stations/search")
      ensures r.Success? ==> r.value.params == FlagsAsText(kwargs)
    {
      if !initialized {
        return Failure(NotInitialized);
      }
      var di := NormaliseFlags(kwargs);
      r := http.Request("stations/search", di);
    }

    function SearchByUuid(uuids: string): (r: Result<Get>)
      reads this, http
      ensures !initialized ==> r == Failure(NotInitialized)
      ensures Valid() && initialized ==> (r.Success? <==> SupportedFormat(http.fmt))
      ensures r.Success? ==> http.route.Some? && r.value.url == Url(http.route.value, http.fmt, "stations/byuuid")
      ensures r.Success? ==> r.value.params == map["uuids" := Text(uuids)]
    {
      if !initialized then Failure(NotInitialized)
      else http.Request("stations/byuuid", map["uuids" := Text(uuids)])
    }

    function VoteForStation(uuid: string): (r: Result<Get>)
      reads this, http
      ensures !initialized ==> r == Failure(NotInitialized)
      ensures Valid() && initialized ==> (r.Success? <==> SupportedFormat(http.fmt))
      ensures r.Success? ==> http.route.Some? && r.value.url == Url(http.route.value, http.fmt, "vote/" + uuid)
      ensures r.Success? ==> r.value.params == map[]
    {
      if !initialized then Failure(NotInitialized)
      else http.Request("vote/" + uuid, map[])
    }
  }
}
