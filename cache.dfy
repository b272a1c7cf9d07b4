/** The response cache of proj2_nps.py: the module-global `CACHE_DICT`, the file
    `cache_nps.json` behind it (`open_cache`, `save_cache`) and the two
    get-or-fetch operations `get_nearby_places` (keyed by a site's zipcode, on the
    global dictionary) and `make_request_with_cache` (keyed by URL, on a fresh load
    of the file). The network is an oracle `respond` from a request to its
    payload; a ghost log records every request sent. */
module Cache {
  import opened Wrappers
  import opened NationalSites

  const MapquestBaseUrl: string := "http://www.mapquestapi.com/search/v2/radius"

  /** What the cache file's JSON decodes to: an object (a dictionary from string
      keys to payloads) or some other JSON value. */
  datatype JsonDoc<V> = Object(entries: map<string, V>) | NotObject

  /** The state of `cache_nps.json`: missing or unopenable, present but not valid
      JSON, or valid JSON decoding to `doc`. */
  datatype CacheFile<V> = Missing | Unparsable | Stored(doc: JsonDoc<V>)

  /** `open_cache()`: the decoded document, or an empty dictionary on any failure. */
  function OpenCache<V>(f: CacheFile<V>): JsonDoc<V> {
    if f.Stored? then f.doc else Object(map[])
  }

  /** The file `save_cache(d)` leaves behind: the whole dictionary, overwritten. */
  function SaveCache<V>(d: map<string, V>): CacheFile<V> {
    Stored(Object(d))
  }

  /** `open_cache` never fails: a missing or unparsable file reads as an empty
      dictionary, and a readable one as whatever it decodes to. */
  lemma OpenCacheTotal<V>(f: CacheFile<V>)
    ensures f.Missing? || f.Unparsable? ==> OpenCache(f) == Object(map[])
    ensures f.Stored? ==> OpenCache(f) == f.doc
  {
  }

  /** Loading what was saved gives back the saved dictionary. */
  lemma SaveThenOpen<V>(d: map<string, V>)
    ensures OpenCache(SaveCache(d)) == Object(d)
  {
  }

  datatype ParamValue = Text(text: string) | Number(number: int)

  /** An HTTP GET: the URL and its query parameters. */
  datatype Request = Request(url: string, params: map<string, ParamValue>)

  /** The fixed-shape MapQuest radius query around `origin`. */
  function NearbyQuery(apiKey: string, origin: string): Request {
    Request(MapquestBaseUrl, map[
      "key" := Text(apiKey),
      "origin" := Text(origin),
      "radius" := Number(10),
      "maxMatches" := Number(10),
      "ambiguities" := Text("ignore"),
      "outFormat" := Text("json")])
  }

  /** `requests.get(url)` with no parameters. */
  function PlainGet(url: string): Request {
    Request(url, map[])
  }

  /** The `AttributeError` from `.keys()` when the file decodes to a non-object. */
  datatype CacheError = CacheNotAnObject

  /** Two different origins give two different queries, so the zipcode key of
      `get_nearby_places` determines the request it sends and vice versa. */
  lemma NearbyQueryDeterminedByOrigin(apiKey: string, a: string, b: string)
    requires NearbyQuery(apiKey, a) == NearbyQuery(apiKey, b)
    ensures a == b
  {
    assert NearbyQuery(apiKey, a).params["origin"] == Text(a);
  }

  /** One run of the program: its global dictionary, the cache file and the requests sent so far. */
  class NpsProcess<V> {
    const apiKey: string
    var cacheDict: map<string, V>
    var file: CacheFile<V>
    ghost var sent: seq<Request>

    /** Module import as written: `CACHE_DICT = {}`; the file is left alone. */
    constructor (apiKey: string, file: CacheFile<V>)
      ensures this.apiKey == apiKey && this.file == file
      ensures cacheDict == map[] && sent == []
    {
      this.apiKey := apiKey;
      this.file := file;
      cacheDict := map[];
      sent := [];
    }

    /** Module import with the global loaded from the file (`CACHE_DICT = open_cache()`).
        When the file decodes to a non-object this start binds an empty dictionary,
        a further choice of the corrected version: binding the non-object itself
        would make the `.keys()` of `get_nearby_places` raise. */
    constructor Loaded(apiKey: string, file: CacheFile<V>)
      ensures this.apiKey == apiKey && this.file == file && sent == []
      ensures cacheDict == (if OpenCache(file).Object? then OpenCache(file).entries else map[])
      ensures Covers()
    {
      this.apiKey := apiKey;
      this.file := file;
      var loaded := OpenCache(file);
      cacheDict := if loaded.Object? then loaded.entries else map[];
      sent := [];
    }

    /** Write-through: the file holds exactly the global dictionary. */
    ghost predicate Persisted()
      reads this
    {
      file == SaveCache(cacheDict)
    }

    /** Every entry the file holds is also in the global dictionary, with the same payload. */
    ghost predicate Covers()
      reads this
    {
      OpenCache(file).Object? ==>
        forall k :: k in OpenCache(file).entries ==> k in cacheDict && cacheDict[k] == OpenCache(file).entries[k]
    }

    /** `get_nearby_places(site)`: on a hit, the stored payload and no other effect;
        on a miss, exactly one fixed-shape query for the zipcode, its answer stored
        under the zipcode with every other key untouched, and the whole dictionary
        written to the file. */
    method GetNearbyPlaces(site: NationalSite, respond: Request -> V) returns (r: V)
      modifies this
      ensures site.zipcode in old(cacheDict) ==>
        && r == old(cacheDict)[site.zipcode]
        && cacheDict == old(cacheDict) && file == old(file) && sent == old(sent)
      ensures site.zipcode !in old(cacheDict) ==>
        && r == respond(NearbyQuery(apiKey, site.zipcode))
        && cacheDict == old(cacheDict)[site.zipcode := r]
        && file == SaveCache(cacheDict)
        && sent == old(sent) + [NearbyQuery(apiKey, site.zipcode)]
      ensures site.zipcode in cacheDict && cacheDict[site.zipcode] == r
      ensures forall k :: k in old(cacheDict) ==> k in cacheDict && cacheDict[k] == old(cacheDict)[k]
      ensures old(Persisted()) || site.zipcode !in old(cacheDict) ==> Persisted()
      ensures old(Covers()) ==> Covers()
      ensures old(Covers()) && OpenCache(old(file)).Object? ==>
        OpenCache(old(file)).entries.Keys <= OpenCache(file).entries.Keys
    {
      var uniqueKey := site.zipcode;
      var query := NearbyQuery(apiKey, uniqueKey);
      if uniqueKey in cacheDict {
        return cacheDict[uniqueKey];
      }
      sent := sent + [query];
      cacheDict := cacheDict[uniqueKey := respond(query)];
      file := SaveCache(cacheDict);
      return cacheDict[uniqueKey];
    }

    /** `make_request_with_cache(baseurl)`: reloads the file into a local
        dictionary (the global one is not touched); on a hit returns the stored
        payload; on a miss sends one plain GET, stores its answer in the loaded
        dictionary and writes that dictionary back, keeping every key the file held. */
    method MakeRequestWithCache(baseurl: string, respond: Request -> V) returns (r: Result<V, CacheError>)
      modifies this`file, this`sent
      ensures cacheDict == old(cacheDict)
      ensures OpenCache(old(file)).NotObject? ==>
        r == Err(CacheNotAnObject) && file == old(file) && sent == old(sent)
      ensures OpenCache(old(file)).Object? && baseurl in OpenCache(old(file)).entries ==>
        r == Ok(OpenCache(old(file)).entries[baseurl]) && file == old(file) && sent == old(sent)
      ensures OpenCache(old(file)).Object? && baseurl !in OpenCache(old(file)).entries ==>
        && r == Ok(respond(PlainGet(baseurl)))
        && file == SaveCache(OpenCache(old(file)).entries[baseurl := r.value])
        && sent == old(sent) + [PlainGet(baseurl)]
    {
      var loaded := OpenCache(file);
      if loaded.NotObject? {
        return Err(CacheNotAnObject);
      }
      var localDict := loaded.entries;
      if baseurl in localDict {
        return Ok(localDict[baseurl]);
      }
      sent := sent + [PlainGet(baseurl)];
      localDict := localDict[baseurl := respond(PlainGet(baseurl))];
      file := SaveCache(localDict);
      return Ok(localDict[baseurl]);
    }
  }

  /** Sites that share a zipcode (the "No Zipcode" sentinel included) share one
      entry: the second lookup is a hit and returns what the first stored. */
  method SharedZipcodeSharesEntry<V>(p: NpsProcess<V>, a: NationalSite, b: NationalSite, respond: Request -> V)
    returns (ra: V, rb: V)
    requires a.zipcode == b.zipcode
    modifies p
    ensures rb == ra
    ensures |p.sent| <= |old(p.sent)| + 1
    ensures p.cacheDict.Keys == old(p.cacheDict).Keys + {a.zipcode}
  {
    ra := p.GetNearbyPlaces(a, respond);
    rb := p.GetNearbyPlaces(b, respond);
  }

  /** With a JSON-serialisable payload (the model keeps it abstract; the source
      stores a `Response`, whose `json.dumps` raises before the file is written),
      the two cache functions write the same file from different dictionaries: a
      URL entry that `make_request_with_cache` wrote to the file is gone from it
      after the next `get_nearby_places` miss, because the global dictionary never
      received that entry. */
  method MixedKeySchemesDropUrlEntry<V>(apiKey: string, url: string, zip: string, respond: Request -> V)
    returns (urlKeptAfterFirst: bool, urlKeptAfterSecond: bool)
    requires url != zip
    ensures urlKeptAfterFirst
    ensures !urlKeptAfterSecond
  {
    var p := new NpsProcess(apiKey, Missing);
    var _ := p.MakeRequestWithCache(url, respond);
    urlKeptAfterFirst := p.file.Stored? && p.file.doc.Object? && url in p.file.doc.entries;
    var _ := p.GetNearbyPlaces(NationalSite(zipcode := zip), respond);
    urlKeptAfterSecond := p.file.Stored? && p.file.doc.Object? && url in p.file.doc.entries;
  }

  /** As written, a new run starts from an empty dictionary whatever the file
      holds: an entry persisted by an earlier run is fetched again, and the write
      that follows drops every other persisted entry from the file. */
  method RestartAsWritten<V>(apiKey: string, zip: string, other: string, payload: V, respond: Request -> V)
    returns (r: V, kept: bool, ghost fetches: nat)
    requires zip != other
    ensures r == respond(NearbyQuery(apiKey, zip))
    ensures fetches == 1
    ensures !kept
  {
    var p := new NpsProcess(apiKey, SaveCache(map[zip := payload, other := payload]));
    r := p.GetNearbyPlaces(NationalSite(zipcode := zip), respond);
    kept := p.file.Stored? && p.file.doc.Object? && other in p.file.doc.entries;
    fetches := |p.sent|;
  }

  /** With the dictionary loaded at start, the persisted entry is served without a
      request, and a later miss writes a file that still holds every persisted key. */
  method RestartLoaded<V>(apiKey: string, zip: string, other: string, newZip: string, payload: V, respond: Request -> V)
    returns (r: V, kept: bool, ghost fetches: nat)
    requires newZip != zip && newZip != other
    ensures r == payload
    ensures fetches == 1
    ensures kept
  {
    var p := new NpsProcess.Loaded(apiKey, SaveCache(map[zip := payload, other := payload]));
    r := p.GetNearbyPlaces(NationalSite(zipcode := zip), respond);
    var _ := p.GetNearbyPlaces(NationalSite(zipcode := newZip), respond);
    kept := p.file.Stored? && p.file.doc.Object? && zip in p.file.doc.entries && other in p.file.doc.entries;
    fetches := |p.sent|;
  }
}
