# aioradios, modelled in Dafny

aioradios is an asynchronous Python client for the radio-browser directory of internet
radio stations. The directory is served by several mirrors, found through DNS: the name
`all.api.radio-browser.info` resolves to one address per mirror, and the reverse lookup
of each address gives that mirror's host name. The client

- builds the list of mirror base URLs: it keeps the first occurrence of each host name,
  sorts the names and prefixes each with `https://`, and picks one at random, raising
  `noHostFound` when the list is empty (`aioradios/base_url.py`);
- holds, in its gateway `HTTP`, the response format and the chosen base URL, refuses any
  format other than `xml` or `json` (in any letter case), and sends each GET to
  `<base URL>/<format>/<endpoint>` with fixed headers (`aioradios/http.py`);
- offers, in the facade `RadioBrowser`, one query per endpoint, each refused with
  `NotInitialized` until `init` has completed, each building an endpoint path and a
  parameter map with booleans written as `"true"`/`"false"` (`aioradios/client.py`).

The model has five modules, one file each:

- `common.dfy` (`Common`): `Option` for Python's optional arguments, `Error` with one
  variant per exception, and `Result`.
- `string_order.dfy` (`StringOrder`): Python's ordering of strings (`Below`), proved
  to be a total order, and `Sort`, the result of `list.sort()`. `Sort` is an insertion
  sort, but `SortedPermutationUnique` shows that every algorithm that sorts gives the same
  list, so the model does not depend on the runtime's algorithm.
- `base_url.dfy` (`BaseUrl`): the resolver's answers are the input `Dns`: either the
  forward lookup raised, or it gave one reverse-lookup outcome per address. `GetBaseUrls`
  is the deduplicating loop, then the sort and the prefixing. `PickUrl` chooses an index
  nondeterministically. `IsMirrorList` states what a mirror list is. `MirrorListUnique`
  shows that this determines the list.
- `http.dfy` (`Http`): class `HTTP` with the constant `fmt` and the variable `route`.
  `Init` stores the picked URL. `Request` is the format check and the composition of the
  GET (`Get`: URL, parameters, headers, and whether the body is parsed as JSON or returned
  as text).
- `client.dfy` (`Client`): class `RadioBrowser` with the flag `initialized` and the
  object invariant `Valid()` (the flag is set only when the gateway holds a base URL).
  Each query is a function of the flag, the gateway and its arguments, giving the GET it
  would send. `Search` is a method because it rewrites boolean values in a loop
  (`NormaliseFlags`).

Behaviour the model keeps exactly as the code has it:

- A reverse lookup that raises is not caught (`aioradios/base_url.py:52`), so it aborts
  the whole discovery with the resolver's error (`DnsFailure`). It is not skipped. When
  every reverse lookup fails, the result is therefore `DnsFailure`, not `NoHostFound`.
  `NoHostFound` happens only when the forward lookup gives no address at all.
- `states` builds its paths under `codecs/` (`aioradios/client.py:214-219`), and it puts
  `country` into the parameters even when it is `None` (modelled as `Param.Null`).
- "Given" means Python truthiness: an empty search keyword or country counts as absent.

## Model

| member | source | states |
|---|---|---|
| `StringOrder.Below` | aioradios/base_url.py:58 | Python's order of strings: by code point at the first difference, a prefix before its extensions; it agrees with Dafny's prefix order |
| `StringOrder.BelowReflexive` | aioradios/base_url.py:58 | every string sorts at or below itself |
| `StringOrder.BelowTotal` | aioradios/base_url.py:58 | any two strings are ordered one way or the other |
| `StringOrder.BelowAntisymmetric` | aioradios/base_url.py:58 | two strings each at or below the other are equal |
| `StringOrder.BelowTransitive` | aioradios/base_url.py:58 | the string order is transitive |
| `StringOrder.BelowUnderPrefix` | aioradios/base_url.py:58-60 | a common prefix keeps the order of two strings in both directions, so the URLs are in the order of their host names |
| `StringOrder.NoDuplicatesPermutation` | aioradios/base_url.py:54-58 | reordering a list without duplicates (the sort) leaves it without duplicates |
| `StringOrder.InsertSorted` | aioradios/base_url.py:58 | inserting into an ascending list keeps it ascending |
| `StringOrder.InsertPermutes` | aioradios/base_url.py:58 | inserting adds exactly the one element |
| `StringOrder.Sort` | aioradios/base_url.py:58 | `list.sort()`: the result is ascending and a permutation of the input |
| `StringOrder.SortedPermutationUnique` | aioradios/base_url.py:58 | two ascending permutations of the same list are equal, so the sort's result does not depend on its algorithm |
| `StringOrder.StrictlySortedUnique` | aioradios/base_url.py:58 | two strictly ascending lists with the same elements are equal |
| `BaseUrl.IsMirrorList` | aioradios/base_url.py:49-60 | what a mirror list is: strictly ascending, at most one URL per address, every resolved name prefixed with `https://` present, nothing else; such a list has no duplicates |
| `BaseUrl.MirrorListEmptyIffNoName` | aioradios/base_url.py:49-60 | a mirror list is empty exactly when no reverse lookup gave a name |
| `BaseUrl.WithScheme` | aioradios/base_url.py:60 | each URL is `https://` followed by the host at the same position, and there is one URL per host |
| `BaseUrl.WithSchemeKeepsOrder` | aioradios/base_url.py:58-60 | prefixing strictly ascending hosts gives strictly ascending URLs |
| `BaseUrl.SortDistinct` | aioradios/base_url.py:54-58 | sorting the deduplicated hosts keeps their number and elements and makes the list strictly ascending |
| `BaseUrl.ArrangementListsEveryName` | aioradios/base_url.py:49-60 | every reverse-resolved name appears, prefixed, among the URLs |
| `BaseUrl.ArrangementOnlyResolvedNames` | aioradios/base_url.py:49-60 | every URL is `https://` followed by a reverse-resolved name |
| `BaseUrl.ArrangementGivesMirrorList` | aioradios/base_url.py:49-60 | prefixing a strictly ascending arrangement of the collected names gives a mirror list |
| `BaseUrl.CollectedGivesMirrorList` | aioradios/base_url.py:49-60 | what the loop collected, sorted and prefixed, is a mirror list |
| `BaseUrl.GetBaseUrls` | aioradios/base_url.py:33-60 | fails with the resolver's error exactly when the forward lookup or some reverse lookup raises; otherwise every resolved name appears as `https://` + name, every URL is `https://` + a resolved name, no URL twice, ascending, at most one URL per address |
| `BaseUrl.PickUrl` | aioradios/base_url.py:62-69 | raises the resolver's error when discovery does; raises `NoHostFound` exactly when discovery succeeds with an empty list; otherwise returns `https://` + a resolved name, an element of the list computed in the same call |
| `BaseUrl.MirrorListUnique` | aioradios/base_url.py:49-60 | the resolver's answers determine the mirror list: two lists that both satisfy the mirror-list properties are equal |
| `BaseUrl.DuplicateAddressesScenario` | aioradios/base_url.py:49-60 | reverse lookups giving `b`, `a`, `a` (with `a` before `b`) yield exactly `[https://a, https://b]` |
| `BaseUrl.ExampleHostsScenario` | aioradios/base_url.py:49-60 | reverse lookups giving `b.example.com`, `a.example.com`, `a.example.com` yield `["https://a.example.com", "https://b.example.com"]` |
| `Http.Lower` | aioradios/http.py:48 | lower-casing keeps the length and maps each character |
| `Http.SupportedFormat` | aioradios/http.py:46-49 | the format check; an accepted format has three or four characters |
| `Http.SupportedFormatCases` | aioradios/http.py:46-49 | the format check accepts exactly the spellings of `json` and `xml` with each letter in either case |
| `Http.LowerIdempotent` | aioradios/http.py:48 | lower-casing twice is lower-casing once |
| `Http.UpperCaseJsonAccepted` | aioradios/http.py:48 | `"JSON"` passes the check and selects JSON decoding |
| `Http.Headers` | aioradios/http.py:51 | the headers are exactly `content-type: application/<fmt>` and `User-Agent: aioradios/dev` |
| `Http.Url` | aioradios/http.py:53 | the URL starts with the base URL and `/`, and its length is the three parts plus the two slashes |
| `Http.UrlParts` | aioradios/http.py:53 | the URL is the base URL, `/`, the format exactly as stored (not lower-cased), `/`, the endpoint, and each part can be read back |
| `Http.UrlInjective` | aioradios/http.py:53 | two endpoints of one gateway never share a URL |
| `Http.HTTP.constructor` | aioradios/http.py:30-32 | the format is the one given and no base URL is set |
| `Http.HTTP.Init` | aioradios/http.py:34-35 | on success `route` is `https://` + a resolved name; when picking raises (`DnsFailure`, `NoHostFound` exactly as for `PickUrl`), `route` is unchanged |
| `Http.HTTP.Request` | aioradios/http.py:37-57 | fails with `UnsupportedFormat` exactly when the lower-cased format is neither `xml` nor `json`, before anything else; with an unset route, fails as the attribute access does; otherwise the GET has the composed URL, the given parameters, the fixed headers, and JSON decoding exactly for `json`, text exactly for `xml` |
| `Client.BoolText` | aioradios/client.py:88-89 | a flag becomes `"true"` exactly when it is true and `"false"` exactly when it is false |
| `Client.Given` | aioradios/client.py:97 | an optional argument counts as given exactly when it is present and not the empty string (Python truthiness) |
| `Client.ListPath` | aioradios/client.py:97-100 | the path starts with the resource and `/`, and is as long as that plus the keyword when the keyword is given |
| `Client.ListPathParts` | aioradios/client.py:97-100 | a list path is the resource and `/`, followed by the keyword exactly when it is given |
| `Client.EmptySearchIsAbsent` | aioradios/client.py:97 | an empty keyword gives the same path as no keyword |
| `Client.ListParams` | aioradios/client.py:88-95 | the keys are exactly `order`, `reverse`, `hidebroken`; all values are strings; the two flags are `"true"`/`"false"` |
| `Client.StatesPath` | aioradios/client.py:214-219 | `codecs/<country>/<search>`, `codecs/<search>` or `codecs/` by which arguments are given |
| `Client.StatesPathParts` | aioradios/client.py:214-219 | every state path starts with `codecs/`, and what follows reads back as `<country>/<search>`, `<search>` or nothing |
| `Client.StatesWithoutCountryIsCodecs` | aioradios/client.py:214-219 | without a country, `states` asks for the same path as `codecs` with the same keyword |
| `Client.StatesParams` | aioradios/client.py:204-212 | the list parameters plus a `country` entry that is always present, `Null` for `None` |
| `Client.StationsParams` | aioradios/client.py:320-328 | the keys are exactly `order`, `reverse`, `offset`, `limit`, no `hidebroken`; `reverse` is `"true"`/`"false"` |
| `Client.FlagAsText` | aioradios/client.py:406-407 | a boolean becomes `"true"` or `"false"` by its value; the result is never a boolean; any other value is unchanged |
| `Client.FlagsAsText` | aioradios/client.py:404-407 | the same keys; no boolean values remain; non-boolean values unchanged; each boolean becomes `"true"`/`"false"` by its value |
| `Client.NormaliseFlags` | aioradios/client.py:404-407 | the in-place loop, in any order of keys, ends with exactly the keyword arguments with their booleans written as words |
| `Client.RadioBrowser.constructor` | aioradios/client.py:46-56 | a fresh gateway with the given format and no base URL; the flag is false |
| `Client.RadioBrowser.Init` | aioradios/client.py:58-63 | the flag becomes true exactly when the gateway's `init` succeeds and is otherwise unchanged; on failure the base URL is unchanged; the invariant "flag set ⇒ base URL set" is kept |
| `Client.RadioBrowser.ListQuery` | aioradios/client.py:85-100 | refused with `NotInitialized` while the flag is false; otherwise the gateway's request for the list path and parameters, which succeeds exactly when the format is supported |
| `Client.RadioBrowser.Countries` | aioradios/client.py:65-100 | `NotInitialized` while the flag is false; once initialised, succeeds exactly when the format is supported; the GET is for `countries/[<search>]` with the list parameters |
| `Client.RadioBrowser.CountryCodes` | aioradios/client.py:102-137 | as `Countries`, for `countrycodes/[<search>]` |
| `Client.RadioBrowser.Codecs` | aioradios/client.py:139-174 | as `Countries`, for `codecs/[<search>]` |
| `Client.RadioBrowser.States` | aioradios/client.py:176-219 | `NotInitialized` first; then `RequiredMissing` exactly when a country is given without a keyword; otherwise the GET for the `codecs/` state path with the states parameters |
| `Client.RadioBrowser.Languages` | aioradios/client.py:222-257 | as `Countries`, for `languages/[<search>]` |
| `Client.RadioBrowser.Tags` | aioradios/client.py:260-295 | as `Countries`, for `tags/[<search>]` |
| `Client.RadioBrowser.Stations` | aioradios/client.py:297-331 | `NotInitialized` while the flag is false; the GET for `stations/` with the stations parameters |
| `Client.RadioBrowser.Search` | aioradios/client.py:334-409 | `NotInitialized` while the flag is false; once initialised, exactly the gateway's request for `stations/search` with the keyword arguments, booleans written as words, so `UnsupportedFormat` for an unsupported format and otherwise the fixed headers and the format's decoding |
| `Client.RadioBrowser.SearchByUuid` | aioradios/client.py:411-428 | `NotInitialized` while the flag is false; the GET for `stations/byuuid` with exactly the parameter `uuids` |
| `Client.RadioBrowser.VoteForStation` | aioradios/client.py:430-448 | `NotInitialized` while the flag is false; the GET for `vote/<uuid>` with no parameters |

## Left out

- The DNS calls themselves (`loop.getaddrinfo`, `DNSResolver.gethostbyaddr`): their answers are the input `Dns`, one reverse-lookup outcome per forward-resolved address, or a forward failure.
- The aiohttp session (created when none is passed, or the one passed in), the GET, and the decoding of the body: a request is described by the `Get` it would send, and the decoding by the `Decoding` chosen from the lower-cased format. How the HTTP library encodes the parameters into a query string, including what it does with the `None` country of `states`, is not part of this model.
- async/await and the event loop: the model is sequential, as the source awaits the lookups one at a time. Concurrent calls of `init` are not modelled.
- BaseUrl.PickUrl: `random.choice` is uniform; the model states only that the chosen URL is an element of the list, with the index chosen nondeterministically.
- Http.Lower: `str.lower()` is modelled for the ASCII letters only. This does not change the outcome of the format check: no other character lower-cases to one of the letters of `json` or `xml`.
- Default argument values (`orderby='name'`, `reverse=False`, `hidebroken=False`, `offset=0`, `limit=100000`, `fmt='json'`): every argument is passed explicitly in the model.
- Arguments of other types than the documented ones (a non-string keyword, a non-boolean `reverse`): Python would format them with `str()`; the model gives each argument its documented type.
- Client.RadioBrowser.Search: `aioradios/client.py:409` reads `params = )`, which does not parse, so as written the module cannot be imported and no `RadioBrowser` method runs. The model repairs the line to pass the normalised copy `di` as the parameters, which is evidently what was meant.
- The errors module is not part of this model; its exceptions are the variants of `Common.Error`. `setup.py` is packaging metadata only.
