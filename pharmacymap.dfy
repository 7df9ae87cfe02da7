/** The pharmacy map: pharmacy documents normalised through field-name
    fallbacks, pharmacies without coordinates dropped, the product list of
    a pharmacy's popup, and the order in which the search box tries the
    pharmacies, their linked products and the geocoder. */
module PharmacyMap {
  import opened Common
  import Text
  import Sorting

  const LAT_KEYS: seq<string> := ["lat", "latitude", "Latitude", "LATITUDE"]
  const LNG_KEYS: seq<string> := ["lng", "longitude", "Longitude", "LONGITUDE"]
  /** Note the order: not the one the products page uses. */
  const ID_KEYS: seq<string> := ["productIds", "productsId", "productsIds", "ProductsId"]

  /** A pharmacy as the map holds it; the linked product ids as text. */
  datatype Pharmacy = Pharmacy(id: string, name: string, address: string, lat: JsNum, lng: JsNum, productIds: seq<string>)

  /** `raw !== null ? Number(raw) : NaN` for `raw` the first present field
      among `keys` (`?? null` at the end). */
  function Coordinate(data: Record, keys: seq<string>): (r: JsNum)
    ensures FirstPresent(data, keys) == Null ==> r == NonFinite
    ensures FirstPresent(data, keys).Num? ==> r == Finite(FirstPresent(data, keys).n)
  {
    var raw := FirstPresent(data, keys);
    if raw == Null then NonFinite else ToNumber(Some(raw))
  }

  /** A pharmacy document, normalised. */
  function NormalisePharmacy(id: string, data: Record): (p: Pharmacy)
    ensures p.id == id
    ensures Nullish(Get(data, "name")) ==> p.name == "Pharmacy"
    ensures "name" in data && data["name"].Str? ==> p.name == data["name"].s
    ensures Nullish(Get(data, "address")) ==> p.address == ""
    ensures "address" in data && data["address"].Str? ==> p.address == data["address"].s
    ensures p.lat == Coordinate(data, LAT_KEYS) && p.lng == Coordinate(data, LNG_KEYS)
    ensures |p.productIds| == |FirstArray(data, ID_KEYS)|
    ensures forall k :: 0 <= k < |p.productIds| ==> p.productIds[k] == ValueToStr(FirstArray(data, ID_KEYS)[k])
  {
    var ids := FirstArray(data, ID_KEYS);
    Pharmacy(
      id,
      ValueToStr(Coalesce(Get(data, "name"), Str("Pharmacy"))),
      ValueToStr(Coalesce(Get(data, "address"), Str(""))),
      Coordinate(data, LAT_KEYS),
      Coordinate(data, LNG_KEYS),
      seq(|ids|, k requires 0 <= k < |ids| => ValueToStr(ids[k])))
  }

  /** The latitude comes from the first of the four fields that holds a
      value, whatever the later ones hold. */
  lemma LatitudeFromFirstPresent(id: string, data: Record, i: nat)
    requires i < |LAT_KEYS| && LAT_KEYS[i] in data && data[LAT_KEYS[i]].Num?
    requires forall j :: 0 <= j < i ==> Nullish(Get(data, LAT_KEYS[j]))
    ensures NormalisePharmacy(id, data).lat == Finite(data[LAT_KEYS[i]].n)
  {
    FirstPresentPicksFirst(data, LAT_KEYS, i);
  }

  /** No coordinate field at all leaves the pharmacy without a position. */
  lemma NoLatitudeField(id: string, data: Record)
    requires forall j :: 0 <= j < |LAT_KEYS| ==> Nullish(Get(data, LAT_KEYS[j]))
    ensures NormalisePharmacy(id, data).lat.NonFinite?
  {
    FirstPresentNone(data, LAT_KEYS);
  }

  /** A document holding arrays under both `productIds` and `productsId`
      is linked through `productIds` here, while the products page reads
      `productsId` first. */
  lemma ProductIdsComeFirst(id: string, data: Record)
    requires "productIds" in data && data["productIds"].Arr?
    ensures FirstArray(data, ID_KEYS) == data["productIds"].elems
  {
    FirstArrayPicksFirst(data, ID_KEYS, 0);
  }

  predicate Located(p: Pharmacy) {
    p.lat.Finite? && p.lng.Finite?
  }

  /** The pharmacies with finite coordinates, in order. */
  function KeepLocated(ps: seq<Pharmacy>): (r: seq<Pharmacy>)
    ensures IsSubsequence(r, ps)
    ensures forall p :: p in r <==> p in ps && Located(p)
    ensures forall p :: Occurrences(r, p) == if Located(p) then Occurrences(ps, p) else 0
  {
    if ps == [] then []
    else
      var rest := KeepLocated(ps[1..]);
      assert ps == [ps[0]] + ps[1..];
      if Located(ps[0]) then
        assert ([ps[0]] + rest)[1..] == rest;
        [ps[0]] + rest
      else
        assert rest != [] ==> rest[0] != ps[0] by {
          if rest != [] { assert rest[0] in rest; }
        }
        rest
  }

  /** The map's pharmacies: every document normalised, then those without
      a finite position dropped. */
  function LoadPharmacies(docs: seq<(string, Record)>): (r: seq<Pharmacy>)
    ensures forall p :: p in r ==> Located(p)
    ensures forall i :: 0 <= i < |docs| && Located(NormalisePharmacy(docs[i].0, docs[i].1)) ==>
      NormalisePharmacy(docs[i].0, docs[i].1) in r
    ensures forall p :: p in r ==> exists i :: 0 <= i < |docs| && p == NormalisePharmacy(docs[i].0, docs[i].1)
    ensures IsSubsequence(r, NormaliseAll(docs))
    ensures forall p :: Occurrences(r, p) == if Located(p) then Occurrences(NormaliseAll(docs), p) else 0
  {
    var all := NormaliseAll(docs);
    assert forall i :: 0 <= i < |docs| ==> all[i] in all;
    KeepLocated(all)
  }

  function NormaliseAll(docs: seq<(string, Record)>): (r: seq<Pharmacy>)
    ensures |r| == |docs|
    ensures forall i :: 0 <= i < |docs| ==> r[i] == NormalisePharmacy(docs[i].0, docs[i].1)
  {
    seq(|docs|, i requires 0 <= i < |docs| => NormalisePharmacy(docs[i].0, docs[i].1))
  }

  // ---------------------------------------------------------------------
  // The popup

  /** A product as the popup lists it. */
  datatype PopupProduct = PopupProduct(id: string, name: string, price: JsNum, category: string, stock: JsNum, requiresPrescription: bool)

  function PopupEntry(id: string, data: Record): (p: PopupProduct)
    ensures p.id == id
    ensures Nullish(Get(data, "name")) ==> p.name == "Unnamed"
    ensures Nullish(Get(data, "category")) ==> p.category == ""
    ensures Nullish(Get(data, "stock")) ==> p.stock == Finite(0)
    ensures "stock" in data && data["stock"].Num? ==> p.stock == Finite(data["stock"].n)
    ensures p.requiresPrescription == Truthy(Get(data, "requiresPrescription"))
  {
    PopupProduct(
      id,
      ValueToStr(Coalesce(Get(data, "name"), Str("Unnamed"))),
      ToNumber(Some(Coalesce(Get(data, "price"), Num(0)))),
      ValueToStr(Coalesce(Get(data, "category"), Str(""))),
      ToNumber(Some(Coalesce(Get(data, "stock"), Num(0)))),
      Truthy(Get(data, "requiresPrescription")))
  }

  /** The linked ids whose product document exists, in order. */
  function ExistingIds(ids: seq<string>, docs: map<string, Record>): (r: seq<string>)
    ensures IsSubsequence(r, ids)
    ensures forall id :: id in r <==> id in ids && id in docs
    ensures forall id :: Occurrences(r, id) == if id in docs then Occurrences(ids, id) else 0
    ensures |r| <= |ids|
  {
    if ids == [] then []
    else
      var rest := ExistingIds(ids[1..], docs);
      assert ids == [ids[0]] + ids[1..];
      if ids[0] in docs then
        assert ([ids[0]] + rest)[1..] == rest;
        [ids[0]] + rest
      else
        assert rest != [] ==> rest[0] != ids[0] by {
          if rest != [] { assert rest[0] in rest; }
        }
        rest
  }

  function PopupName(p: PopupProduct): string { p.name }

  /** One popup entry per id, in order, read from its document. */
  function EntriesOf(found: seq<string>, docs: map<string, Record>): (r: seq<PopupProduct>)
    requires forall id :: id in found ==> id in docs
    ensures |r| == |found|
    ensures forall k :: 0 <= k < |found| ==> r[k] == PopupEntry(found[k], docs[found[k]])
  {
    seq(|found|, k requires 0 <= k < |found| => PopupEntry(found[k], docs[found[k]]))
  }

  /** What the popup shows below "Available products". */
  datatype PopupState = PopupList(products: seq<PopupProduct>) | PopupError(message: string)

  /** The popup's list for a pharmacy linked to `ids`: with no id, an empty
      list without reading anything; otherwise the existing product
      documents, sorted by name, or the read's error. */
  function PopupProducts(ids: seq<string>, docs: map<string, Record>, failure: Option<StoreError>): (r: PopupState)
    ensures ids == [] ==> r == PopupList([])
    ensures ids != [] && failure.Some? ==> r == PopupError(ErrorText(failure.value, "Failed to load pharmacy products."))
    ensures r.PopupList? ==> Sorting.SortedBy(r.products, PopupName)
    ensures r.PopupList? ==> forall p :: p in r.products ==> p.id in ids && p.id in docs && p == PopupEntry(p.id, docs[p.id])
    ensures ids != [] && failure.None? ==>
      r.PopupList? && forall id :: id in ids && id in docs ==> PopupEntry(id, docs[id]) in r.products
    ensures ids != [] && failure.None? ==>
      r.PopupList? && multiset(r.products) == multiset(EntriesOf(ExistingIds(ids, docs), docs))
  {
    if ids == [] then PopupList([])
    else if failure.Some? then PopupError(ErrorText(failure.value, "Failed to load pharmacy products."))
    else
      var sorted := Sorting.SortBy(EntriesOf(ExistingIds(ids, docs), docs), PopupName);
      PopupListHolds(ids, docs);
      PopupList(sorted)
  }

  /** The sorted entries of the existing linked products hold exactly those
      products, each read from its own document. */
  lemma PopupListHolds(ids: seq<string>, docs: map<string, Record>)
    ensures var sorted := Sorting.SortBy(EntriesOf(ExistingIds(ids, docs), docs), PopupName);
      && (forall p :: p in sorted ==> p.id in ids && p.id in docs && p == PopupEntry(p.id, docs[p.id]))
      && (forall id :: id in ids && id in docs ==> PopupEntry(id, docs[id]) in sorted)
  {
    var found := ExistingIds(ids, docs);
    var list := EntriesOf(found, docs);
    var sorted := Sorting.SortBy(list, PopupName);
    forall p | p in sorted ensures p.id in ids && p.id in docs && p == PopupEntry(p.id, docs[p.id]) {
      assert p in multiset(sorted);
      assert p in list;
    }
    forall id | id in ids && id in docs ensures PopupEntry(id, docs[id]) in sorted {
      var k :| 0 <= k < |found| && found[k] == id;
      assert list[k] == PopupEntry(id, docs[id]);
      assert list[k] in multiset(list);
    }
  }

  /** No linked id means no product, however many products exist. */
  lemma NoLinkNoFallback(docs: map<string, Record>, failure: Option<StoreError>)
    ensures PopupProducts([], docs, failure) == PopupList([])
  {
  }

  /** `products.slice(0, 6)`: the first six at most. */
  function Shown(products: seq<PopupProduct>): (r: seq<PopupProduct>)
    ensures |r| <= 6 && |r| == Min(6, |products|)
    ensures r == products[..|r|]
  {
    products[..Min(6, |products|)]
  }

  function Min(a: int, b: int): int { if a < b then a else b }

  /** "Out of stock": a numeric stock that is not positive. A NaN stock is
      a number but not `<= 0`, so it never shows as out of stock. */
  function OutOfStock(p: PopupProduct): (r: bool)
    ensures p.stock.NonFinite? ==> !r
    ensures p.stock.Finite? ==> (r <==> p.stock.v < 1)
  {
    p.stock.Finite? && p.stock.v <= 0
  }

  // ---------------------------------------------------------------------
  // Search

  /** The query: trimmed and lower-cased. */
  function Query(text: string): (q: string)
    ensures |q| <= |text|
    ensures Text.Lower(q) == q
    ensures q == "" <==> Text.AllSpace(text)
  {
    Text.LowerIdempotent(Text.Trim(text));
    Text.TrimEmptyIff(text);
    Text.Lower(Text.Trim(text))
  }

  /** A pharmacy matches when its lower-cased name or address contains the
      query. */
  function PharmacyHit(p: Pharmacy, q: string): (r: bool)
    ensures q == "" ==> r
    ensures Text.StartsWith(Text.Lower(p.name), q) || Text.StartsWith(Text.Lower(p.address), q) ==> r
  {
    Text.ContainsEmpty(Text.Lower(p.name));
    Text.Contains(Text.Lower(p.name), q) || Text.Contains(Text.Lower(p.address), q)
  }

  /** A product document matches when its lower-cased name or category
      contains the query. */
  function ProductHit(data: Record, q: string): (r: bool)
    ensures q == "" ==> r
    ensures "name" in data && data["name"].Str? && Text.StartsWith(Text.Lower(data["name"].s), q) ==> r
    ensures "category" in data && data["category"].Str? && Text.StartsWith(Text.Lower(data["category"].s), q) ==> r
  {
    var name := Text.Lower(ValueToStr(Coalesce(Get(data, "name"), Str(""))));
    var cat := Text.Lower(ValueToStr(Coalesce(Get(data, "category"), Str(""))));
    Text.ContainsEmpty(name);
    Text.Contains(name, q) || Text.Contains(cat, q)
  }

  /** `pharmacies.find(...)`: the index of the first matching pharmacy. */
  function FindPharmacy(ps: seq<Pharmacy>, q: string): (r: Option<nat>)
    ensures r.None? <==> forall j :: 0 <= j < |ps| ==> !PharmacyHit(ps[j], q)
    ensures r.Some? ==> r.value < |ps| && PharmacyHit(ps[r.value], q) && forall j :: 0 <= j < r.value ==> !PharmacyHit(ps[j], q)
  {
    if ps == [] then None
    else if PharmacyHit(ps[0], q) then Some(0)
    else
      match FindPharmacy(ps[1..], q)
      case None => None
      case Some(k) => Some(k + 1)
  }

  /** Whether the linked products of `p` hold a match: some linked id has
      an existing document that matches. */
  predicate LinkedHit(p: Pharmacy, docs: map<string, Record>, q: string) {
    exists id :: id in p.productIds && id in docs && ProductHit(docs[id], q)
  }

  /** The geocoder's answer for the typed text: a position, no result, or a
      failure (a response that is not OK fails with "Search failed"). */
  datatype GeoAnswer = GeoHit(lat: JsNum, lng: JsNum) | GeoEmpty | GeoFailed(error: StoreError)

  /** Where `searchAddress` leaves the map. */
  datatype SearchResult =
    | Blank
    | AtPharmacy(index: nat)
    | AtLinkedProduct(index: nat)
    | AtGeocoded(lat: JsNum, lng: JsNum)
    | SearchFailed(message: string)

  /** The search error line after a search. */
  function SearchError(r: SearchResult): string {
    if r.SearchFailed? then r.message else ""
  }

  /** A pharmacy the product search can reach: it has linked ids and the
      read of their documents did not fail. */
  predicate Searchable(ps: seq<Pharmacy>, i: int, failing: set<int>)
    requires 0 <= i < |ps|
  {
    ps[i].productIds != [] && i !in failing
  }

  /** `searchAddress()` over the loaded pharmacies. `docs` is the products
      collection; `failing` the positions of pharmacies whose product read
      fails (skipped); `geo` the geocoder's answer. */
  method SearchAddress(ps: seq<Pharmacy>, searchText: string, docs: map<string, Record>, failing: set<int>, geo: GeoAnswer)
    returns (r: SearchResult)
    ensures r.Blank? <==> Text.Trim(searchText) == ""
    ensures r.AtPharmacy? ==>
      && r.index < |ps| && PharmacyHit(ps[r.index], Query(searchText))
      && forall j :: 0 <= j < r.index ==> !PharmacyHit(ps[j], Query(searchText))
    ensures r.AtLinkedProduct? ==>
      && (forall j :: 0 <= j < |ps| ==> !PharmacyHit(ps[j], Query(searchText)))
      && r.index < |ps| && Searchable(ps, r.index, failing) && LinkedHit(ps[r.index], docs, Query(searchText))
      && forall j :: 0 <= j < r.index ==> !(Searchable(ps, j, failing) && LinkedHit(ps[j], docs, Query(searchText)))
    ensures r.AtGeocoded? || r.SearchFailed? ==>
      && Text.Trim(searchText) != ""
      && (forall j :: 0 <= j < |ps| ==> !PharmacyHit(ps[j], Query(searchText)))
      && (forall j :: 0 <= j < |ps| ==> !(Searchable(ps, j, failing) && LinkedHit(ps[j], docs, Query(searchText))))
    ensures r.AtGeocoded? <==>
      && Text.Trim(searchText) != "" && geo.GeoHit?
      && (forall j :: 0 <= j < |ps| ==> !PharmacyHit(ps[j], Query(searchText)))
      && (forall j :: 0 <= j < |ps| ==> !(Searchable(ps, j, failing) && LinkedHit(ps[j], docs, Query(searchText))))
    ensures r.AtGeocoded? ==> r.lat == geo.lat && r.lng == geo.lng
    ensures r.SearchFailed? ==>
      (geo.GeoEmpty? && r.message == "No results found.")
      || (geo.GeoFailed? && r.message == ErrorText(geo.error, "Search error"))
  {
    if Text.Trim(searchText) == "" {
      return Blank;
    }
    var q := Query(searchText);
    var hit := FindPharmacy(ps, q);
    if hit.Some? {
      return AtPharmacy(hit.value);
    }
    var i := 0;
    while i < |ps|
      invariant 0 <= i <= |ps|
      invariant forall j :: 0 <= j < i ==> !(Searchable(ps, j, failing) && LinkedHit(ps[j], docs, q))
    {
      if Searchable(ps, i, failing) {
        var found := FindLinked(ps[i].productIds, docs, q);
        if found.Some? {
          return AtLinkedProduct(i);
        }
      }
      i := i + 1;
    }
    match geo
    case GeoHit(lat, lng) => r := AtGeocoded(lat, lng);
    case GeoEmpty => r := SearchFailed("No results found.");
    case GeoFailed(e) => r := SearchFailed(ErrorText(e, "Search error"));
  }

  /** `snaps.find(...)`: the first linked id whose document exists and
      matches. */
  function FindLinked(ids: seq<string>, docs: map<string, Record>, q: string): (r: Option<string>)
    ensures r.None? <==> !exists id :: id in ids && id in docs && ProductHit(docs[id], q)
    ensures r.Some? ==> r.value in ids && r.value in docs && ProductHit(docs[r.value], q)
  {
    if ids == [] then None
    else if ids[0] in docs && ProductHit(docs[ids[0]], q) then Some(ids[0])
    else
      var rest := FindLinked(ids[1..], docs, q);
      assert forall id :: id in ids <==> id == ids[0] || id in ids[1..];
      rest
  }
}
