/** The nps.gov scraper of proj2_nps.py with the HTML trees replaced by the
    elements the code locates in them: `build_state_url_dict`,
    `get_site_instance` and `get_sites_for_state`. */
module Scrape {
  import opened Wrappers
  import opened Text
  import opened NationalSites

  const NpsBaseUrl: string := "https://www.nps.gov"
  const IndexPortion: string := "index.htm"

  /** The uncaught exceptions of the scraper. */
  datatype ScrapeError =
    | NoSearchMenu            // the state drop-down menu is missing from the home page
    | MissingHref             // a state anchor has no `href` attribute
    | NoParkList              // the `list_parks` element is missing from a state page
    | MissingLink(index: nat) // the `h3` at this position has no anchor, or the anchor no `href`

  /** A located tag: `.text` is all its text; `.string` is its text when it has
      exactly one child and is absent otherwise. */
  datatype Element = Element(text: string, str: Option<string>)

  /** What `get_site_instance` looks up in the page's title block ... */
  datatype Header = Header(designation: Option<Element>, title: Option<Element>)

  /** ... and in its `vcard` footer (`postal-code` class, then `postalCode` itemprop). */
  datatype Footer = Footer(
    locality: Option<Element>,
    region: Option<Element>,
    tel: Option<Element>,
    postalCodeClass: Option<Element>,
    postalCodeProp: Option<Element>)

  /** A site page, down to the two containers the scraper searches. */
  datatype SitePage = SitePage(header: Option<Header>, footer: Option<Footer>)

  /** An `<a>` tag: its text and its `href` attribute, if any. */
  datatype Anchor = Anchor(text: string, href: Option<string>)

  // ---------------------------------------------------------------- site pages

  /** Category, name and phone: a missing element (or container) or an empty
      text gives the sentinel; any other text is stripped. */
  function TextField(e: Option<Element>, sentinel: string): string {
    match e
    case None => sentinel
    case Some(el) => if el.text == "" then sentinel else Strip(el.text)
  }

  /** Address: "<locality>, <region>" unstripped; the sentinel when the locality is
      missing or empty, or the region is missing. */
  function AddressField(locality: Option<Element>, region: Option<Element>): string {
    match locality
    case None => NoAddress
    case Some(l) =>
      if l.text == "" then NoAddress
      else match region
        case None => NoAddress
        case Some(g) => l.text + ", " + g.text
  }

  /** Zipcode: the `.string` of the `postal-code` element when that element
      exists, else that of the `postalCode` element, stripped; the sentinel when
      the chosen element is missing or has no single string. */
  function ZipcodeField(byClass: Option<Element>, byProp: Option<Element>): string {
    var chosen := if byClass.Some? then byClass else byProp;
    match chosen
    case None => NoZipcode
    case Some(el) => if el.str.Some? then Strip(el.str.value) else NoZipcode
  }

  function Designation(page: SitePage): Option<Element> {
    if page.header.Some? then page.header.value.designation else None
  }
  function Title(page: SitePage): Option<Element> {
    if page.header.Some? then page.header.value.title else None
  }
  function Locality(page: SitePage): Option<Element> {
    if page.footer.Some? then page.footer.value.locality else None
  }
  function Region(page: SitePage): Option<Element> {
    if page.footer.Some? then page.footer.value.region else None
  }
  function Tel(page: SitePage): Option<Element> {
    if page.footer.Some? then page.footer.value.tel else None
  }
  function PostalCodeClass(page: SitePage): Option<Element> {
    if page.footer.Some? then page.footer.value.postalCodeClass else None
  }
  function PostalCodeProp(page: SitePage): Option<Element> {
    if page.footer.Some? then page.footer.value.postalCodeProp else None
  }

  /** `get_site_instance` once the page at the site URL has been fetched. */
  function GetSiteInstance(page: SitePage): NationalSite {
    NationalSite(
      category := TextField(Designation(page), NoCategory),
      name := TextField(Title(page), NoName),
      address := AddressField(Locality(page), Region(page)),
      zipcode := ZipcodeField(PostalCodeClass(page), PostalCodeProp(page)),
      phone := TextField(Tel(page), NoPhone))
  }

  /** The per-field rule shared by category, name and phone, in both directions:
      the value is the sentinel exactly when the element is missing or its text is
      empty, unless the stripped text happens to equal the sentinel; otherwise it is
      the stripped text, with no whitespace left at either end. */
  lemma TextFieldRule(e: Option<Element>, sentinel: string)
    ensures e.None? || e.value.text == "" ==> TextField(e, sentinel) == sentinel
    ensures e.Some? && e.value.text != "" ==>
      TextField(e, sentinel) == Strip(e.value.text)
    ensures TextField(e, sentinel) != sentinel ==>
      e.Some? && e.value.text != "" && Strip(e.value.text) == TextField(e, sentinel)
    ensures var r := TextField(e, sentinel);
      r != sentinel ==> r == [] || (!IsSpace(r[0]) && !IsSpace(r[|r| - 1]))
  {
    if e.Some? {
      StripSpec(e.value.text);
    }
  }

  /** The five field rules of `get_site_instance`, stated on the page. */
  lemma SiteInstanceRules(page: SitePage)
    ensures var s := GetSiteInstance(page);
      && (Designation(page).None? || Designation(page).value.text == "" ==> s.category == "No Category")
      && (Designation(page).Some? && Designation(page).value.text != "" ==> s.category == Strip(Designation(page).value.text))
      && (Title(page).None? || Title(page).value.text == "" ==> s.name == "No Name")
      && (Title(page).Some? && Title(page).value.text != "" ==> s.name == Strip(Title(page).value.text))
      && (Tel(page).None? || Tel(page).value.text == "" ==> s.phone == "No Phone")
      && (Tel(page).Some? && Tel(page).value.text != "" ==> s.phone == Strip(Tel(page).value.text))
  {
  }

  /** Address rule: locality and region joined by ", " exactly when the locality
      is non-empty and both elements exist; "No Address" otherwise. */
  lemma SiteAddressRule(page: SitePage)
    ensures var s := GetSiteInstance(page);
      if Locality(page).Some? && Locality(page).value.text != "" && Region(page).Some?
      then s.address == Locality(page).value.text + ", " + Region(page).value.text
      else s.address == "No Address"
  {
  }

  /** Zipcode rule: the `postal-code` element wins whenever it exists (even when it
      has no single string, and then the `postalCode` element is not consulted);
      the value is stripped; "No Zipcode" when the chosen element is unusable. */
  lemma SiteZipcodeRule(page: SitePage)
    ensures var s, c, p := GetSiteInstance(page), PostalCodeClass(page), PostalCodeProp(page);
      && (c.Some? && c.value.str.Some? ==> s.zipcode == Strip(c.value.str.value))
      && (c.Some? && c.value.str.None? ==> s.zipcode == "No Zipcode")
      && (c.None? && p.Some? && p.value.str.Some? ==> s.zipcode == Strip(p.value.str.value))
      && (c.None? && (p.None? || p.value.str.None?) ==> s.zipcode == "No Zipcode")
  {
  }

  /** A page with neither container found gives the all-sentinel record, the same
      as `NationalSite()`. */
  lemma EmptyPageGivesDefaults()
    ensures GetSiteInstance(SitePage(None, None)) == NationalSite()
  {
  }

  /** The emptiness test looks at the text before it is stripped, so a designation
      made only of whitespace yields an empty category, not "No Category". */
  lemma BlankDesignationIsNotDefaulted()
    ensures GetSiteInstance(SitePage(Some(Header(Some(Element(" ", None)), None)), None)).category == ""
  {
  }

  // ---------------------------------------------------------------- URLs

  /** A state page URL from a home-page anchor's `href`. */
  function StateUrl(href: string): string {
    NpsBaseUrl + href
  }

  /** A site page URL from a state page's `h3` anchor `href`. */
  function SiteUrl(href: string): string {
    NpsBaseUrl + href + IndexPortion
  }

  /** The URL builders keep the `href` recoverable: fixed prefix, then the href,
      then (for sites) the fixed suffix, so distinct hrefs give distinct URLs. */
  lemma UrlShapes(href: string)
    ensures StateUrl(href)[..|NpsBaseUrl|] == "https://www.nps.gov"
    ensures StateUrl(href)[|NpsBaseUrl|..] == href
    ensures var u := SiteUrl(href);
      && |u| == |NpsBaseUrl| + |href| + |IndexPortion|
      && u[..|NpsBaseUrl|] == "https://www.nps.gov"
      && u[|NpsBaseUrl|..|NpsBaseUrl| + |href|] == href
      && u[|NpsBaseUrl| + |href|..] == "index.htm"
  {
  }

  lemma SiteUrlInjective(a: string, b: string)
    requires SiteUrl(a) == SiteUrl(b)
    ensures a == b
  {
    UrlShapes(a);
    UrlShapes(b);
  }

  // ---------------------------------------------------------------- state index

  ghost predicate HasHrefs(xs: seq<Anchor>) {
    forall k :: 0 <= k < |xs| ==> xs[k].href.Some?
  }

  /** The anchors of all `li` items, in document order. */
  function Flatten(lis: seq<seq<Anchor>>): seq<Anchor> {
    if lis == [] then [] else Flatten(lis[..|lis| - 1]) + lis[|lis| - 1]
  }

  /** The state index after folding the anchors in order: each anchor maps its
      lowercased text to the state URL of its `href`, overwriting any earlier entry. */
  function StateIndex(xs: seq<Anchor>): map<string, string>
    requires HasHrefs(xs)
  {
    if xs == [] then map[]
    else
      var last := xs[|xs| - 1];
      StateIndex(xs[..|xs| - 1])[Lower(last.text) := StateUrl(last.href.value)]
  }

  lemma {:induction false} FlattenAppend(a: seq<seq<Anchor>>, b: seq<seq<Anchor>>)
    ensures Flatten(a + b) == Flatten(a) + Flatten(b)
  {
    if b == [] {
      assert a + b == a;
    } else {
      assert (a + b)[..|a + b| - 1] == a + b[..|b| - 1];
      FlattenAppend(a, b[..|b| - 1]);
    }
  }

  /** The `j`-th anchor of the `i`-th item sits right after the anchors of the items before it. */
  lemma FlattenAt(lis: seq<seq<Anchor>>, i: nat, j: nat)
    requires i < |lis| && j < |lis[i]|
    ensures |Flatten(lis[..i])| + j < |Flatten(lis)|
    ensures Flatten(lis)[|Flatten(lis[..i])| + j] == lis[i][j]
  {
    assert lis == lis[..i] + [lis[i]] + lis[i + 1..];
    FlattenAppend(lis[..i] + [lis[i]], lis[i + 1..]);
    FlattenAppend(lis[..i], [lis[i]]);
    assert Flatten([lis[i]]) == lis[i] by {
      assert [lis[i]][..0] == [];
    }
  }

  /** Keys: a string is a key of the index exactly when some anchor's lowercased text is that string. */
  lemma {:induction false} StateIndexKeys(xs: seq<Anchor>, key: string)
    requires HasHrefs(xs)
    ensures key in StateIndex(xs) <==> exists i :: 0 <= i < |xs| && Lower(xs[i].text) == key
  {
    if xs != [] {
      var init := xs[..|xs| - 1];
      assert HasHrefs(init) by {
        forall k | 0 <= k < |init| ensures init[k].href.Some? {
          assert init[k] == xs[k];
        }
      }
      StateIndexKeys(init, key);
      if exists i :: 0 <= i < |init| && Lower(init[i].text) == key {
        var i :| 0 <= i < |init| && Lower(init[i].text) == key;
        assert xs[i] == init[i];
      }
      if exists i :: 0 <= i < |xs| && Lower(xs[i].text) == key {
        var i :| 0 <= i < |xs| && Lower(xs[i].text) == key;
        if i < |init| {
          assert init[i] == xs[i];
        }
      }
    }
  }

  /** Values, later-wins: the entry for an anchor's lowercased text is the state
      URL of that anchor's `href` when no later anchor lowercases to the same text. */
  lemma {:induction false} StateIndexLastWins(xs: seq<Anchor>, i: nat)
    requires HasHrefs(xs) && i < |xs|
    requires forall j :: i < j < |xs| ==> Lower(xs[j].text) != Lower(xs[i].text)
    ensures Lower(xs[i].text) in StateIndex(xs)
    ensures StateIndex(xs)[Lower(xs[i].text)] == StateUrl(xs[i].href.value)
  {
    if i < |xs| - 1 {
      var init := xs[..|xs| - 1];
      assert HasHrefs(init) by {
        forall k | 0 <= k < |init| ensures init[k].href.Some? {
          assert init[k] == xs[k];
        }
      }
      assert init[i] == xs[i];
      forall j | i < j < |init| ensures Lower(init[j].text) != Lower(init[i].text) {
        assert init[j] == xs[j];
      }
      StateIndexLastWins(init, i);
    }
  }

  /** Every value of the index is the state URL of the `href` of an anchor whose
      lowercased text is the key. */
  lemma {:induction false} StateIndexValues(xs: seq<Anchor>, key: string)
    requires HasHrefs(xs) && key in StateIndex(xs)
    ensures exists i :: 0 <= i < |xs| && Lower(xs[i].text) == key && StateIndex(xs)[key] == StateUrl(xs[i].href.value)
  {
    var n := |xs| - 1;
    if Lower(xs[n].text) != key {
      var init := xs[..n];
      assert HasHrefs(init) by {
        forall k | 0 <= k < |init| ensures init[k].href.Some? {
          assert init[k] == xs[k];
        }
      }
      StateIndexValues(init, key);
      var i :| 0 <= i < |init| && Lower(init[i].text) == key && StateIndex(init)[key] == StateUrl(init[i].href.value);
      assert xs[i] == init[i];
    }
  }

  lemma StateIndexSnoc(xs: seq<Anchor>, a: Anchor)
    requires HasHrefs(xs) && a.href.Some?
    ensures HasHrefs(xs + [a])
    ensures StateIndex(xs + [a]) == StateIndex(xs)[Lower(a.text) := StateUrl(a.href.value)]
  {
  }

  /** `build_state_url_dict` on the `li` items of the home page's state menu (each
      the list of its anchors), or `None` when the menu is missing. */
  method BuildStateUrlDict(menu: Option<seq<seq<Anchor>>>) returns (r: Result<map<string, string>, ScrapeError>)
    ensures menu.None? ==> r == Err(NoSearchMenu)
    ensures menu.Some? && HasHrefs(Flatten(menu.value)) ==> r == Ok(StateIndex(Flatten(menu.value)))
    ensures menu.Some? && !HasHrefs(Flatten(menu.value)) ==> r == Err(MissingHref)
  {
    if menu.None? {
      return Err(NoSearchMenu);
    }
    var lis := menu.value;
    var states: map<string, string> := map[];
    var i := 0;
    while i < |lis|
      invariant 0 <= i <= |lis|
      invariant HasHrefs(Flatten(lis[..i]))
      invariant states == StateIndex(Flatten(lis[..i]))
    {
      var anchors := lis[i];
      ghost var done := Flatten(lis[..i]);
      var j := 0;
      assert done + anchors[..j] == done;
      while j < |anchors|
        invariant 0 <= j <= |anchors|
        invariant HasHrefs(done + anchors[..j])
        invariant states == StateIndex(done + anchors[..j])
      {
        var a := anchors[j];
        if a.href.None? {
          FlattenAt(lis, i, j);
          assert !HasHrefs(Flatten(lis)) by {
            var k := |done| + j;
            assert Flatten(lis)[k].href.None?;
          }
          return Err(MissingHref);
        }
        StateIndexSnoc(done + anchors[..j], a);
        assert done + anchors[..j + 1] == (done + anchors[..j]) + [a];
        states := states[Lower(a.text) := StateUrl(a.href.value)];
        j := j + 1;
      }
      assert anchors[..j] == anchors;
      assert Flatten(lis[..i + 1]) == done + anchors by {
        assert lis[..i + 1][..i] == lis[..i];
      }
      i := i + 1;
    }
    assert lis[..i] == lis;
    return Ok(states);
  }

  // ---------------------------------------------------------------- state pages

  /** An `h3` of the park list leads somewhere: it has an anchor and the anchor an `href`. */
  predicate LinkOk(h: Option<Anchor>) {
    h.Some? && h.value.href.Some?
  }

  /** `get_sites_for_state` on the `h3` items of a state page's park list (each the
      anchor it contains, if any), or `None` when the list is missing; `pageAt`
      gives the page served at a URL. The sites come one per `h3`, in order, each
      built from the page at its site URL; the first broken `h3` aborts the call. */
  method GetSitesForState(parkList: Option<seq<Option<Anchor>>>, pageAt: string -> SitePage)
    returns (r: Result<seq<NationalSite>, ScrapeError>)
    ensures parkList.None? ==> r == Err(NoParkList)
    ensures parkList.Some? && (forall k :: 0 <= k < |parkList.value| ==> LinkOk(parkList.value[k])) ==>
      && r.Ok?
      && |r.value| == |parkList.value|
      && forall k :: 0 <= k < |r.value| ==>
           r.value[k] == GetSiteInstance(pageAt(SiteUrl(parkList.value[k].value.href.value)))
    ensures parkList.Some? && (exists k :: 0 <= k < |parkList.value| && !LinkOk(parkList.value[k])) ==>
      && r.Err? && r.error.MissingLink?
      && r.error.index < |parkList.value|
      && !LinkOk(parkList.value[r.error.index])
      && forall k :: 0 <= k < r.error.index ==> LinkOk(parkList.value[k])
  {
    if parkList.None? {
      return Err(NoParkList);
    }
    var h3s := parkList.value;
    var sites: seq<NationalSite> := [];
    var i := 0;
    while i < |h3s|
      invariant 0 <= i <= |h3s|
      invariant forall k :: 0 <= k < i ==> LinkOk(h3s[k])
      invariant |sites| == i
      invariant forall k :: 0 <= k < i ==> sites[k] == GetSiteInstance(pageAt(SiteUrl(h3s[k].value.href.value)))
    {
      var anchor := h3s[i];
      if anchor.None? || anchor.value.href.None? {
        return Err(MissingLink(i));
      }
      var url := NpsBaseUrl + anchor.value.href.value + IndexPortion;
      assert url == SiteUrl(h3s[i].value.href.value);
      var site := GetSiteInstance(pageAt(url));
      sites := sites + [site];
      i := i + 1;
    }
    return Ok(sites);
  }
}
