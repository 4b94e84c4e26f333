/** Mirror discovery: the list of base URLs of the directory's mirrors, and the choice
    of one of them. The resolver's answers are inputs; the random choice is a
    nondeterministic choice of an index. */
module BaseUrl {
  import opened Common
  import opened StringOrder

  /** The name whose forward resolution (port 80, TCP) lists one address per mirror.
      The resolution itself is an input (`Dns`), so this constant only records the name
      the source resolves. */
  const DiscoveryHost: string := "all.api.radio-browser.info"

  /** Every base URL is this scheme followed by a mirror's host name. */
  const Scheme: string := "https://"

  /** The outcome of the reverse lookup of one forward-resolved address. */
  datatype Reverse = Host(name: string) | LookupError

  /** The resolver's answers for one discovery pass: either the forward lookup of
      DiscoveryHost raised, or it gave a list of addresses, here represented by the
      outcome of each address's reverse lookup, in the order they were returned. */
  datatype Dns = ForwardError | Addresses(lookups: seq<Reverse>)

  /** Some lookup of the pass raised. The lookups are awaited one after the other and
      nothing catches their exceptions, so one failure aborts the whole pass. */
  predicate DnsFails(dns: Dns)
  {
    dns.ForwardError? || exists i :: 0 <= i < |dns.lookups| && dns.lookups[i].LookupError?
  }

  /** `urls` is a mirror list for `lookups`: every resolved name appears as a URL,
      every URL is the scheme followed by a resolved name, there are no duplicates,
      the list is ascending and no longer than the list of addresses. */
  ghost predicate IsMirrorList(urls: seq<string>, lookups: seq<Reverse>)
    ensures IsMirrorList(urls, lookups) ==> NoDuplicates(urls)
  {
    && StrictlySorted(urls)
    && |urls| <= |lookups|
    && (forall i :: 0 <= i < |lookups| && lookups[i].Host? ==> Scheme + lookups[i].name in urls)
    && (forall k :: 0 <= k < |urls| ==>
          exists i :: 0 <= i < |lookups| && lookups[i].Host? && urls[k] == Scheme + lookups[i].name)
  }

  /** A mirror list is empty exactly when no reverse lookup gave a name. */
  lemma MirrorListEmptyIffNoName(urls: seq<string>, lookups: seq<Reverse>)
    requires IsMirrorList(urls, lookups)
    ensures urls == [] <==> forall i :: 0 <= i < |lookups| ==> lookups[i].LookupError?
  {
    if urls != [] {
      var i :| 0 <= i < |lookups| && lookups[i].Host? && urls[0] == Scheme + lookups[i].name;
    }
  }

  /** `url` is the scheme followed by one of the names the pass resolved. */
  ghost predicate PickedFrom(url: string, dns: Dns)
  {
    dns.Addresses? &&
    exists i :: 0 <= i < |dns.lookups| && dns.lookups[i].Host? && url == Scheme + dns.lookups[i].name
  }

  /** The prefixing `map` over the sorted host names. */
  function WithScheme(hosts: seq<string>): (urls: seq<string>)
    ensures |urls| == |hosts|
    ensures forall i :: 0 <= i < |hosts| ==> urls[i] == Scheme + hosts[i]
  {
    if hosts == [] then [] else [Scheme + hosts[0]] + WithScheme(hosts[1..])
  }

  /** Prefixing keeps a strictly ascending list of hosts strictly ascending. */
  lemma WithSchemeKeepsOrder(hosts: seq<string>)
    requires StrictlySorted(hosts)
    ensures StrictlySorted(WithScheme(hosts))
  {
    var urls := WithScheme(hosts);
    forall i, j | 0 <= i < j < |urls| ensures Below(urls[i], urls[j]) && urls[i] != urls[j] {
      BelowUnderPrefix(Scheme, hosts[i], hosts[j]);
      assert urls[i][|Scheme|..] == hosts[i] && urls[j][|Scheme|..] == hosts[j];
    }
  }

  /** What the deduplicating loop has built after the first `n` lookups: every name
      resolved so far once, nothing else, and no more names than lookups. */
  ghost predicate Collected(hosts: seq<string>, lookups: seq<Reverse>, n: nat)
  {
    && n <= |lookups|
    && NoDuplicates(hosts) && |hosts| <= n
    && (forall k :: 0 <= k < n ==> lookups[k].Host? && lookups[k].name in hosts)
    && (forall j :: 0 <= j < |hosts| ==> exists k :: 0 <= k < n && lookups[k] == Host(hosts[j]))
  }

  /** Sorting a list without duplicates keeps its elements and makes it strictly
      ascending. */
  lemma SortDistinct(hosts: seq<string>)
    requires NoDuplicates(hosts)
    ensures |Sort(hosts)| == |hosts| && StrictlySorted(Sort(hosts))
    ensures forall x :: x in Sort(hosts) <==> x in hosts
  {
    var sorted := Sort(hosts);
    NoDuplicatesPermutation(hosts, sorted);
    assert |sorted| == |multiset(sorted)| == |multiset(hosts)| == |hosts|;
    forall x ensures x in sorted <==> x in hosts {
      assert x in sorted <==> x in multiset(sorted);
      assert x in hosts <==> x in multiset(hosts);
    }
  }

  /** Every name the loop saw is listed, prefixed, in the arrangement. */
  lemma ArrangementListsEveryName(sorted: seq<string>, hosts: seq<string>, lookups: seq<Reverse>)
    requires Collected(hosts, lookups, |lookups|)
    requires forall x :: x in sorted <==> x in hosts
    ensures forall i :: 0 <= i < |lookups| && lookups[i].Host? ==> Scheme + lookups[i].name in WithScheme(sorted)
  {
    var urls := WithScheme(sorted);
    forall i | 0 <= i < |lookups| && lookups[i].Host? ensures Scheme + lookups[i].name in urls {
      assert lookups[i].name in sorted;
      var j :| 0 <= j < |sorted| && sorted[j] == lookups[i].name;
      assert urls[j] == Scheme + lookups[i].name;
    }
  }

  /** Every URL of the arrangement is a resolved name, prefixed. */
  lemma ArrangementOnlyResolvedNames(sorted: seq<string>, hosts: seq<string>, lookups: seq<Reverse>)
    requires Collected(hosts, lookups, |lookups|)
    requires forall x :: x in sorted <==> x in hosts
    ensures forall k :: 0 <= k < |sorted| ==>
      exists i :: 0 <= i < |lookups| && lookups[i].Host? && WithScheme(sorted)[k] == Scheme + lookups[i].name
  {
    var urls := WithScheme(sorted);
    forall k | 0 <= k < |sorted|
      ensures exists i :: 0 <= i < |lookups| && lookups[i].Host? && urls[k] == Scheme + lookups[i].name
    {
      assert sorted[k] in hosts;
      var j :| 0 <= j < |hosts| && hosts[j] == sorted[k];
      var i :| 0 <= i < |lookups| && lookups[i] == Host(hosts[j]);
      assert urls[k] == Scheme + lookups[i].name;
    }
  }

  /** Prefixing any strictly ascending arrangement of the collected names gives a
      mirror list. */
  lemma ArrangementGivesMirrorList(sorted: seq<string>, hosts: seq<string>, lookups: seq<Reverse>)
    requires Collected(hosts, lookups, |lookups|)
    requires StrictlySorted(sorted) && |sorted| == |hosts|
    requires forall x :: x in sorted <==> x in hosts
    ensures IsMirrorList(WithScheme(sorted), lookups)
  {
    WithSchemeKeepsOrder(sorted);
    ArrangementListsEveryName(sorted, hosts, lookups);
    ArrangementOnlyResolvedNames(sorted, hosts, lookups);
  }

  /** After the deduplicating loop, sorting and prefixing give a mirror list. */
  lemma CollectedGivesMirrorList(hosts: seq<string>, lookups: seq<Reverse>)
    requires Collected(hosts, lookups, |lookups|)
    ensures IsMirrorList(WithScheme(Sort(hosts)), lookups)
  {
    SortDistinct(hosts);
    ArrangementGivesMirrorList(Sort(hosts), hosts, lookups);
  }

  /** The list of base URLs of the mirrors the resolver reports. */
  method GetBaseUrls(dns: Dns) returns (r: Result<seq<string>>)
    ensures r.Failure? <==> DnsFails(dns)
    ensures r.Failure? ==> r.error == DnsFailure
    ensures r.Success? ==> IsMirrorList(r.value, dns.lookups)
  {
    if dns.ForwardError? {
      return Failure(DnsFailure);
    }
    var lookups := dns.lookups;
    var hosts: seq<string> := [];
    var i := 0;
    while i < |lookups|
      invariant Collected(hosts, lookups, i)
    {
      match lookups[i] {
        case LookupError =>
          return Failure(DnsFailure);
        case Host(name) =>
          if name !in hosts {
            hosts := hosts + [name];
          }
      }
      i := i + 1;
    }
    CollectedGivesMirrorList(hosts, lookups);
    hosts := Sort(hosts);
    r := Success(WithScheme(hosts));
  }

  /** One base URL, chosen among the mirrors of a fresh discovery pass. The ghost
      `urls` is the list that pass computed. */
  method PickUrl(dns: Dns) returns (r: Result<string>, ghost urls: seq<string>)
    ensures DnsFails(dns) ==> r == Failure(DnsFailure)
    ensures !DnsFails(dns) && dns.lookups == [] ==> r == Failure(NoHostFound)
    ensures !DnsFails(dns) && dns.lookups != [] ==> r.Success? && PickedFrom(r.value, dns)
    ensures r.Success? ==> IsMirrorList(urls, dns.lookups) && r.value in urls
  {
    var found := GetBaseUrls(dns);
    if found.Failure? {
      return Failure(found.error), [];
    }
    var candidates := found.value;
    urls := candidates;
    assert dns.lookups == [] || Scheme + dns.lookups[0].name in candidates;
    if |candidates| == 0 {
      return Failure(NoHostFound), urls;
    }
    var i :| 0 <= i < |candidates|;
    r := Success(candidates[i]);
  }

  /** The mirror list of a pass is determined by the resolver's answers alone. */
  lemma MirrorListUnique(u: seq<string>, v: seq<string>, lookups: seq<Reverse>)
    requires IsMirrorList(u, lookups) && IsMirrorList(v, lookups)
    ensures u == v
  {
    forall x ensures x in u <==> x in v {
      if x in u {
        var k :| 0 <= k < |u| && u[k] == x;
        var i :| 0 <= i < |lookups| && lookups[i].Host? && u[k] == Scheme + lookups[i].name;
        assert Scheme + lookups[i].name in v;
      }
      if x in v {
        var k :| 0 <= k < |v| && v[k] == x;
        var i :| 0 <= i < |lookups| && lookups[i].Host? && v[k] == Scheme + lookups[i].name;
        assert Scheme + lookups[i].name in u;
      }
    }
    StrictlySortedUnique(u, v);
  }

  /** Three addresses whose reverse lookups give `b`, `a` and `a` again yield exactly
      two URLs, `a`'s first when `a` sorts before `b`. */
  lemma DuplicateAddressesScenario(a: string, b: string, urls: seq<string>)
    requires Below(a, b) && a != b
    requires IsMirrorList(urls, [Host(b), Host(a), Host(a)])
    ensures urls == [Scheme + a, Scheme + b]
  {
    var lookups := [Host(b), Host(a), Host(a)];
    var expected := [Scheme + a, Scheme + b];
    assert StrictlySorted(expected) by {
      BelowUnderPrefix(Scheme, a, b);
      assert expected[0][|Scheme|..] == a && expected[1][|Scheme|..] == b;
      PairStrictlySorted(expected[0], expected[1]);
    }
    assert Scheme + lookups[0].name == expected[1];
    assert Scheme + lookups[1].name == expected[0];
    assert Scheme + lookups[2].name == expected[0];
    assert IsMirrorList(expected, lookups);
    MirrorListUnique(urls, expected, lookups);
  }

  /** The same with the host names "b.example.com" and "a.example.com". */
  lemma ExampleHostsScenario(urls: seq<string>)
    requires IsMirrorList(urls, [Host("b.example.com"), Host("a.example.com"), Host("a.example.com")])
    ensures urls == ["https://a.example.com", "https://b.example.com"]
  {
    assert Below("a.example.com", "b.example.com");
    assert "a.example.com"[0] != "b.example.com"[0];
    DuplicateAddressesScenario("a.example.com", "b.example.com", urls);
    assert Scheme + "a.example.com" == "https://a.example.com";
    assert Scheme + "b.example.com" == "https://b.example.com";
  }
}
