/** `parse_dictionary` of proj2_nps.py: the MapQuest radius-search result turned
    into one display line per nearby place. */
module Nearby {
  import opened Wrappers
  import opened NationalSites

  /** One element of `searchResults`: its `name`, and the `group_sic_code_name_ext`,
      `address` and `postal_code` entries of its `fields`, each a JSON string or null. */
  datatype SearchResult = SearchResult(
    name: string,
    category: Option<string>,
    address: Option<string>,
    postalCode: Option<string>)

  /** The decoded API response; `searchResults` is `None` when the key is absent. */
  datatype NearbyResponse = NearbyResponse(searchResults: Option<seq<SearchResult>>)

  /** The uncaught `KeyError` on a response without `searchResults`. */
  datatype ParseError = NoSearchResults

  /** A truthy value is kept; a falsy one (null or "") gives the sentinel. */
  function OrSentinel(v: Option<string>, sentinel: string): string {
    if v.Some? && v.value != "" then v.value else sentinel
  }

  /** The record built for one search result; the phone keeps its default. */
  function PlaceRecord(res: SearchResult): NationalSite {
    NationalSite(
      category := OrSentinel(res.category, NoCategory),
      name := res.name,
      address := OrSentinel(res.address, NoAddress),
      zipcode := OrSentinel(res.postalCode, NoZipcode))
  }

  /** Field rules of a place record: each falsy optional field becomes its sentinel,
      each non-empty one passes through unchanged, the name is copied verbatim and
      there is no phone. */
  lemma PlaceRecordRules(res: SearchResult)
    ensures var s := PlaceRecord(res);
      && ((res.category.None? || res.category.value == "") ==> s.category == "No Category")
      && ((res.category.Some? && res.category.value != "") ==> s.category == res.category.value)
      && ((res.address.None? || res.address.value == "") ==> s.address == "No Address")
      && ((res.address.Some? && res.address.value != "") ==> s.address == res.address.value)
      && ((res.postalCode.None? || res.postalCode.value == "") ==> s.zipcode == "No Zipcode")
      && ((res.postalCode.Some? && res.postalCode.value != "") ==> s.zipcode == res.postalCode.value)
      && s.name == res.name
      && s.phone == "No Phone"
  {
  }

  /** Every line of the parsed list opens with the place's name, unaltered. */
  lemma PlaceLineStartsWithName(res: SearchResult)
    ensures |res.name| <= |PlaceRecord(res).Info()|
    ensures PlaceRecord(res).Info()[..|res.name|] == res.name
  {
  }

  /** `parse_dictionary`: exactly one line per search result, in the same order,
      each the `info()` of the record built from that result. */
  method ParseDictionary(item: NearbyResponse) returns (r: Result<seq<string>, ParseError>)
    ensures item.searchResults.None? ==> r == Err(NoSearchResults)
    ensures item.searchResults.Some? ==>
      && r.Ok?
      && |r.value| == |item.searchResults.value|
      && forall i :: 0 <= i < |r.value| ==> r.value[i] == PlaceRecord(item.searchResults.value[i]).Info()
  {
    if item.searchResults.None? {
      return Err(NoSearchResults);
    }
    var searchResults := item.searchResults.value;
    var lines: seq<string> := [];
    for i := 0 to |searchResults|
      invariant |lines| == i
      invariant forall k :: 0 <= k < i ==> lines[k] == PlaceRecord(searchResults[k]).Info()
    {
      var res := searchResults[i];
      var category := if res.category.Some? && res.category.value != "" then res.category.value else NoCategory;
      var address := if res.address.Some? && res.address.value != "" then res.address.value else NoAddress;
      var zipcode := if res.postalCode.Some? && res.postalCode.value != "" then res.postalCode.value else NoZipcode;
      var site := NationalSite(category := category, name := res.name, address := address, zipcode := zipcode);
      lines := lines + [site.Info()];
    }
    return Ok(lines);
  }
}
