# National park sites scraper and response cache, in Dafny

A model of `proj2_nps.py`, a command-line program that scrapes nps.gov for the
national sites of a U.S. state and lists places near a chosen site using the
MapQuest radius search. Four parts of it are modelled and proved:

- **`NationalSite`** (`national_site.dfy`, module `NationalSites`): the five-field
  record with its `"No <Field>"` defaults and its `info()` line.
- **The scraper** (`scrape.dfy`, module `Scrape`): the per-field sentinel rules of
  `get_site_instance`, the state index built by `build_state_url_dict`, and the
  site list built by `get_sites_for_state`. HTML pages are replaced by the
  elements the code locates in them: an `Option<Element>` per lookup, the state
  menu as a list of `li` items (each a list of anchors), and the park list as a
  list of `h3` items (each an optional anchor).
- **The nearby-places parser** (`nearby.dfy`, module `Nearby`): `parse_dictionary`.
- **The response cache** (`cache.dfy`, module `Cache`): `open_cache`, `save_cache`,
  `get_nearby_places` and `make_request_with_cache`. The class `NpsProcess` is
  one run of the program. It holds the global `CACHE_DICT`, the state of
  `cache_nps.json`, and a ghost log of every request the two cache functions send. The
  network is an oracle `respond: Request -> V`. The file is modelled by what its
  JSON decodes to: missing, unparsable, a JSON object (a dictionary), or another
  JSON value.

`text.dfy` (module `Text`) holds ASCII versions of `str.strip()` and
`str.lower()`. `wrappers.dfy` holds `Option` and `Result`.

Uncaught exceptions become `Err` results:
- a missing state menu, or an anchor without `href`, in `build_state_url_dict`;
- a missing park list, or an `h3` without an anchor or `href`, in `get_sites_for_state`;
- a response without `searchResults` in `parse_dictionary`;
- a cache file that decodes to something other than an object in `make_request_with_cache`.

Behaviours of the code that the model reproduces as written:
- The global `CACHE_DICT` starts empty and is never loaded from the file. The
  `open_cache` docstring (proj2_nps.py:88-90) says it loads the file into
  `CACHE_DICT`, but the global is never assigned from it (see Findings).
- `make_request_with_cache` assigns a *local* `CACHE_DICT`. It reloads the file,
  leaves the global dictionary alone, and writes back the reloaded dictionary
  plus its one new key.
- The emptiness test in `get_site_instance` looks at the text *before* it is
  stripped. A whitespace-only designation, title or phone therefore becomes `""`,
  not the sentinel (`Scrape.BlankDesignationIsNotDefaulted`).
- When a `postal-code` element exists but has no single string, the zipcode is
  `"No Zipcode"`. The `postalCode` element is not consulted in that case.
- `NationalSite` is a Python class, but no field is assigned after `__init__`.
  It is modelled as a datatype whose constructor formals default to the sentinels.

With the payload abstract, the model's `MakeRequestWithCache` miss succeeds
and writes the file. The source cannot do this today: it stores a
`requests.Response` (proj2_nps.py:290), and `json.dumps` in `save_cache`
(line 121) raises `TypeError` before the file is opened, so
`cache_nps.json` is left untouched. Once the stored payload is
JSON-serialisable, the two cache functions write one file from two different
dictionaries. A URL entry written by `make_request_with_cache` is then dropped
from the file by the next `get_nearby_places` miss
(`Cache.MixedKeySchemesDropUrlEntry`). The path is dormant anyway: nothing in
the program calls `make_request_with_cache`.

## Model

| member | source | states |
|---|---|---|
| `NationalSites.DefaultSite` | proj2_nps.py:56-61 | a site built with no arguments has category "No Category", name "No Name", address "No Address", zipcode "No Zipcode" and phone "No Phone" |
| `NationalSites.InfoLayout` | proj2_nps.py:63-64 | `info()` is the name, " (", the category, "): ", the address, one space and the zipcode, each at its position, with nothing else |
| `NationalSites.InfoIgnoresPhone` | proj2_nps.py:63-64 | changing the phone never changes `info()` |
| `Text.StripSpec` | proj2_nps.py:186 | `strip()` keeps an infix of the text, removes only whitespace on either side of it, and leaves no whitespace at either end |
| `Text.StripIdempotent` | proj2_nps.py:186 | stripping twice is the same as stripping once |
| `Text.Lower` | proj2_nps.py:156 | `lower()` keeps the length and maps each character through the ASCII lowercase map |
| `Scrape.TextFieldRule` | proj2_nps.py:181-197 | category, name and phone: a missing element or empty text gives the sentinel; other text gives its stripped form; a value other than the sentinel always comes from the element's stripped text |
| `Scrape.SiteInstanceRules` | proj2_nps.py:181-215 | `get_site_instance` applies the missing/empty/stripped rule to the designation, the title and the phone of the page |
| `Scrape.SiteAddressRule` | proj2_nps.py:199-206 | address is "locality, region" unstripped exactly when the locality is non-empty and both elements exist, and "No Address" otherwise |
| `Scrape.SiteZipcodeRule` | proj2_nps.py:217-224 | zipcode takes the stripped single string of the `postal-code` element when that element exists, else that of the `postalCode` element; "No Zipcode" when the chosen element has none or neither exists |
| `Scrape.EmptyPageGivesDefaults` | proj2_nps.py:178-226 | a page with neither title block nor footer gives the all-sentinel record |
| `Scrape.BlankDesignationIsNotDefaulted` | proj2_nps.py:182-186 | a designation of one space yields category "", not "No Category" |
| `Scrape.UrlShapes` | proj2_nps.py:149-156 | a state URL is "https://www.nps.gov" followed by the href; a site URL is that prefix, the href, then "index.htm" |
| `Scrape.SiteUrlInjective` | proj2_nps.py:251-257 | distinct hrefs give distinct site URLs |
| `Scrape.StateIndexKeys` | proj2_nps.py:148-158 | a string is a key of the state index exactly when some anchor's lowercased text equals it |
| `Scrape.StateIndexValues` | proj2_nps.py:148-158 | every value of the state index is the state URL of the href of an anchor whose lowercased text is the key |
| `Scrape.StateIndexLastWins` | proj2_nps.py:151-156 | the entry for a key is the state URL of the last anchor with that lowercased text |
| `Scrape.BuildStateUrlDict` | proj2_nps.py:141-158 | the nested loops over menu items and their anchors produce the in-order fold of all anchors; a missing menu or an anchor without href is an error |
| `Scrape.GetSitesForState` | proj2_nps.py:245-260 | one site per `h3`, in order, each built from the page at "https://www.nps.gov" + href + "index.htm"; a missing list is an error, and so is the first `h3` without anchor or href, every earlier one being intact |
| `Nearby.PlaceRecordRules` | proj2_nps.py:315-332 | a falsy category, address or postal code gives "No Category", "No Address" or "No Zipcode"; a non-empty one passes unchanged; the name is copied verbatim; the phone is "No Phone" |
| `Nearby.PlaceLineStartsWithName` | proj2_nps.py:332-334 | each parsed line begins with the place's unaltered name |
| `Nearby.ParseDictionary` | proj2_nps.py:310-336 | exactly one line per search result, in order, each the `info()` of the record built from that result; a response without `searchResults` is an error |
| `Cache.OpenCacheTotal` | proj2_nps.py:100-107 | `open_cache` never fails: a missing or unparsable file reads as an empty dictionary, a readable one as what it decodes to |
| `Cache.SaveThenOpen` | proj2_nps.py:109-124 | loading the file `save_cache` wrote gives back exactly the saved dictionary |
| `Cache.NearbyQueryDeterminedByOrigin` | proj2_nps.py:352-359 | the fixed query around an origin differs for different origins, so the zipcode key and the request determine each other |
| `Cache.NpsProcess.constructor` | proj2_nps.py:14-16 | a run starts with an empty global dictionary, whatever the file holds, and nothing sent |
| `Cache.NpsProcess.Loaded` | proj2_nps.py:87-107 | the corrected start: the global dictionary is the dictionary `open_cache` loads (empty when the file decodes to a non-object), so it covers every entry of the file |
| `Cache.NpsProcess.GetNearbyPlaces` | proj2_nps.py:352-369 | hit: the stored payload, no request, nothing changes; miss: exactly one query (origin = zipcode, radius 10, maxMatches 10, ambiguities "ignore", outFormat "json"), its answer stored under the zipcode, other keys unchanged, the file set to the whole dictionary; write-through (file equals dictionary) and coverage (every file entry is in the dictionary) are preserved by this call; `MakeRequestWithCache` does not preserve them |
| `Cache.NpsProcess.MakeRequestWithCache` | proj2_nps.py:283-292 | starts from a fresh `open_cache`; hit: the stored payload, no request, file unchanged; miss: one plain GET, the file becomes the loaded dictionary plus the URL key; the global dictionary never changes; a non-object document is an error |
| `Cache.SharedZipcodeSharesEntry` | proj2_nps.py:352-363 | two sites with the same zipcode (the "No Zipcode" sentinel included) get the same payload with at most one request between them |
| `Cache.MixedKeySchemesDropUrlEntry` | proj2_nps.py:283-292 | with a JSON-serialisable payload, a URL entry that `make_request_with_cache` writes to the file is no longer in the file after a `get_nearby_places` miss on a different key |
| `Cache.RestartAsWritten` | proj2_nps.py:16 | a new run fetches again an entry an earlier run persisted, and its write drops the other persisted entries from the file |
| `Cache.RestartLoaded` | proj2_nps.py:100-107 | with the dictionary loaded at start, a persisted entry is served with no request, and a later miss keeps every persisted key in the file |

## Left out

- HTTP (`requests.get`, `make_request`): a request is a `Request` value. Its answer comes from the oracle `respond`, or from `pageAt` for site pages. Network failures, which the code does not catch, are not modelled.
- Scrape.GetSitesForState: the site pages fetched before a broken `h3` aborts the call are not recorded, because page fetches are modelled as a pure function of the URL.
- OAuth and `test_oauth`: `test_oauth` refers to an undefined `client_secret` and is never called. The API key from the `secrets` module is the constructor argument `apiKey`.
- BeautifulSoup tree navigation: the located elements are inputs. `.text` and `.string` are the two fields of `Element`.
- JSON serialisation: the file is modelled by what it decodes to, not by its text. A `json.dumps` failure is not modelled. `make_request_with_cache` stores a `Response` object, which `json.dumps` cannot serialise; the payload type is left abstract instead. So on a miss the model's `MakeRequestWithCache` returns the payload and writes the file, where the source raises `TypeError` in `save_cache` before writing anything. A failed write of the file is not modelled either.
- Nearby.ParseDictionary: each search result is assumed to have `name` and the three `fields` keys; a missing one would raise `KeyError`. The field values are strings or null, so other falsy JSON values (0, false, []) are not modelled. The name is a string.
- Unicode: `Text.Strip` removes the ASCII characters Python counts as whitespace (space, tab, line feed, carriage return, vertical tab, form feed, U+001C to U+001F) and no other Unicode whitespace such as U+0085 or U+00A0. `Text.Lower` lowercases ASCII letters only.
- The interactive loop under `__main__` (proj2_nps.py:372-429) and every `print`: console input and output.

## Findings

| source | as written | input that shows it | evidently intended | confidence | as-written member | corrected member |
|---|---|---|---|---|---|---|
| proj2_nps.py:16 | `CACHE_DICT = {}` is never loaded from `cache_nps.json`, and each miss in `get_nearby_places` overwrites the file with this run's entries only | an earlier run left entries for zipcodes "49931" and "82190" in the file; a new run looks up a site with zipcode "49931" | load the dictionary at start (`CACHE_DICT = open_cache()`), as the `open_cache` docstring says, so the persisted entry is a hit and later writes keep it | medium, not executed | `Cache.RestartAsWritten` | `Cache.NpsProcess.Loaded`, `Cache.RestartLoaded` |
