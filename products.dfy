/** The product catalogue screen: products as loaded from the `products`
    collection, the optional restriction to one pharmacy's products, the
    search and category filters, and the availability shown next to each
    product (stock less what the shopper already holds in the cart). */
module ProductsList {
  import opened Common
  import Text
  import Sorting
  import Cart

  /** A product as the screen holds it after loading. */
  datatype Product = Product(
    id: string,
    name: string,
    price: JsNum,
    category: string,
    stock: JsNum,
    requiresPrescription: bool)

  /** `data.requiresPrescription === true ||
      String(data.requiresPrescription).toLowerCase() === "true"` */
  function RequiresPrescription(o: Option<Value>): (r: bool)
    ensures o == Some(Bool(true)) ==> r
    ensures o == Some(Bool(false)) || o.None? || o == Some(Null) ==> !r
    ensures o.Some? && o.value.Str? ==> (r <==> Text.Lower(o.value.s) == "true")
  {
    o == Some(Bool(true)) || Text.Lower(ToStr(o)) == "true"
  }

  /** The text "true" in any mix of cases, and a list whose only element is
      that text, both mark a product as prescription-only. */
  lemma PrescriptionFromText()
    ensures RequiresPrescription(Some(Str("TRUE")))
    ensures RequiresPrescription(Some(Str("True")))
    ensures RequiresPrescription(Some(Arr([Str("true")])))
  {
    assert Text.Lower("TRUE") == "true";
    assert Text.Lower("True") == "true";
    assert ToStr(Some(Arr([Str("true")]))) == "true";
    assert Text.Lower("true") == "true";
  }

  /** Other text, and the number 1, do not. */
  lemma NoPrescriptionFromOtherValues()
    ensures !RequiresPrescription(Some(Str("yes")))
    ensures !RequiresPrescription(Some(Num(1)))
  {
    assert ToStr(Some(Num(1))) == "1";
  }

  /** `data[key] ?? dflt`, as the text the screen shows: `name` falls back
      to "Unnamed", `category` to "". */
  function TextField(data: Record, key: string, dflt: string): (r: string)
    ensures Nullish(Get(data, key)) ==> r == dflt
    ensures key in data && data[key].Str? ==> r == data[key].s
  {
    ValueToStr(Coalesce(Get(data, key), Str(dflt)))
  }

  /** `Number(data.price ?? 0)` */
  function PriceField(data: Record): (r: JsNum)
    ensures Nullish(Get(data, "price")) ==> r == Finite(0)
    ensures "price" in data && data["price"].Num? ==> r == Finite(data["price"].n)
  {
    ToNumber(Some(Coalesce(Get(data, "price"), Num(0))))
  }

  /** `typeof data.stock === "number" ? data.stock : Number(data.stock ?? 0)` */
  function StockField(data: Record): (r: JsNum)
    ensures "stock" in data && data["stock"].Num? ==> r == Finite(data["stock"].n)
    ensures Nullish(Get(data, "stock")) ==> r == Finite(0)
    ensures Get(data, "stock") == Some(NaN) ==> r == NonFinite
  {
    match Get(data, "stock")
    case Some(Num(n)) => Finite(n)
    case Some(NaN) => NonFinite
    case _ => ToNumber(Some(Coalesce(Get(data, "stock"), Num(0))))
  }

  /** The record the loader builds from a document (`snap.docs.map(..)`). */
  function NormaliseProduct(id: string, data: Record): (p: Product)
    ensures p.id == id
    ensures Nullish(Get(data, "name")) ==> p.name == "Unnamed"
    ensures "name" in data && data["name"].Str? ==> p.name == data["name"].s
    ensures Nullish(Get(data, "price")) ==> p.price == Finite(0)
    ensures "price" in data && data["price"].Num? ==> p.price == Finite(data["price"].n)
    ensures Nullish(Get(data, "category")) ==> p.category == ""
    ensures "category" in data && data["category"].Str? ==> p.category == data["category"].s
    ensures "stock" in data && data["stock"].Num? ==> p.stock == Finite(data["stock"].n)
    ensures Nullish(Get(data, "stock")) ==> p.stock == Finite(0)
    ensures Get(data, "stock") == Some(NaN) ==> p.stock == NonFinite
    ensures p.requiresPrescription == RequiresPrescription(Get(data, "requiresPrescription"))
  {
    Product(id, TextField(data, "name", "Unnamed"), PriceField(data), TextField(data, "category", ""), StockField(data),
      RequiresPrescription(Get(data, "requiresPrescription")))
  }

  function NameOf(p: Product): string { p.name }

  /** The loaded list: every document normalised, sorted by name, products
      with equal names kept in the order the store returned them. */
  function LoadProducts(docs: seq<(string, Record)>): (r: seq<Product>)
    ensures |r| == |docs|
    ensures Sorting.SortedBy(r, NameOf)
    ensures multiset(r) == multiset(seq(|docs|, i requires 0 <= i < |docs| => NormaliseProduct(docs[i].0, docs[i].1)))
  {
    Sorting.SortBy(seq(|docs|, i requires 0 <= i < |docs| => NormaliseProduct(docs[i].0, docs[i].1)), NameOf)
  }

  // ---------------------------------------------------------------------
  // Reserved counts

  /** A cart line counts towards the reserved figures when it has an id and
      a positive quantity. */
  predicate Counted(x: Cart.CartItem) {
    x.id != "" && x.qty > 0
  }

  /** The quantity of `id` held in the cart: the sum over counted lines with
      that id. */
  function ReservedSum(items: seq<Cart.CartItem>, id: string): int
  {
    if items == [] then 0
    else
      var x := items[|items| - 1];
      ReservedSum(items[..|items| - 1], id) + (if x.id == id && Counted(x) then x.qty else 0)
  }

  /** `map.get(id) ?? 0` */
  function Lookup(m: map<string, int>, id: string): int {
    if id in m then m[id] else 0
  }

  /** `reservedByProductId`: one entry per id that has a counted line, holding
      the total quantity of its counted lines. */
  method ReservedByProductId(items: seq<Cart.CartItem>) returns (m: map<string, int>)
    ensures forall id :: id in m <==> exists k :: 0 <= k < |items| && items[k].id == id && Counted(items[k])
    ensures forall id :: Lookup(m, id) == ReservedSum(items, id)
  {
    m := map[];
    var i := 0;
    while i < |items|
      invariant 0 <= i <= |items|
      invariant forall id :: id in m <==> exists k :: 0 <= k < i && items[k].id == id && Counted(items[k])
      invariant forall id :: Lookup(m, id) == ReservedSum(items[..i], id)
    {
      var it := items[i];
      assert items[..i + 1][..i] == items[..i];
      if Counted(it) {
        m := m[it.id := Lookup(m, it.id) + it.qty];
      }
      i := i + 1;
    }
    assert items[..i] == items;
  }

  /** Reserved figures are never negative, and an id with no counted line
      in the cart has none. */
  lemma {:induction false} ReservedSumBounds(items: seq<Cart.CartItem>, id: string)
    ensures ReservedSum(items, id) >= 0
    ensures (forall k :: 0 <= k < |items| ==> !(items[k].id == id && Counted(items[k]))) ==> ReservedSum(items, id) == 0
    decreases |items|
  {
    if items != [] {
      ReservedSumBounds(items[..|items| - 1], id);
    }
  }

  /** For the provider's cart, whose ids are distinct and whose quantities
      are at least 1, the reserved figure of a product in the cart is its
      line's quantity. */
  lemma {:induction false} ReservedIsLineQty(items: seq<Cart.CartItem>, k: nat)
    requires Cart.CartInvariant(items) && k < |items| && items[k].id != ""
    ensures ReservedSum(items, items[k].id) == items[k].qty
    decreases |items|
  {
    var init := items[..|items| - 1];
    assert Cart.CartInvariant(init) by {
      forall i, j | 0 <= i < j < |init| ensures init[i].id != init[j].id {
        assert init[i] == items[i] && init[j] == items[j];
      }
      forall i | 0 <= i < |init| ensures Cart.LineOk(init[i]) {
        assert init[i] == items[i];
      }
    }
    if k == |items| - 1 {
      ReservedSumBounds(init, items[k].id);
    } else {
      ReservedIsLineQty(init, k);
    }
  }

  // ---------------------------------------------------------------------
  // The pharmacy filter

  /** The fields a pharmacy's product-id list is read from, in order. */
  const PHARMACY_PRODUCT_KEYS: seq<string> := ["productsId", "productIds", "productsIds", "productsID", "ProductsId"]

  /** `pharmacyName`, `allowedProductIds` (`None` when unrestricted) and `msg`
      after the pharmacy filter has loaded. */
  datatype FilterState = FilterState(pharmacyName: string, allowed: Option<set<string>>, msg: string)

  /** The ids a pharmacy document lists, as text. */
  function PharmacyProductIds(data: Record): set<string> {
    set x | x in FirstArray(data, PHARMACY_PRODUCT_KEYS) :: ValueToStr(x)
  }

  /** `loadPharmacyFilter()`. A missing or empty id loads nothing and lifts
      the restriction; so does a missing document or a failed read, which
      also set the message. */
  function LoadPharmacyFilter(pharmacyId: Option<string>, read: DocRead): (r: FilterState)
    ensures pharmacyId.None? || pharmacyId == Some("") ==> r == FilterState("", None, "")
    ensures r.allowed.Some? <==> pharmacyId.Some? && pharmacyId.value != "" && read.Present?
    ensures r.allowed.Some? ==> r.allowed.value == PharmacyProductIds(read.data) && r.msg == ""
    ensures r.allowed.Some? ==> r.pharmacyName == ToStr(Some(Coalesce(Get(read.data, "name"), Str("Selected Pharmacy"))))
    ensures pharmacyId.Some? && pharmacyId.value != "" && read.Missing? ==> r == FilterState("", None, "Selected pharmacy not found.")
    ensures pharmacyId.Some? && pharmacyId.value != "" && read.ReadError? ==>
      r == FilterState("", None, ErrorText(read.error, "Failed to load pharmacy filter."))
  {
    if pharmacyId.None? || pharmacyId.value == "" then FilterState("", None, "")
    else
      match read
      case Missing => FilterState("", None, "Selected pharmacy not found.")
      case ReadError(e) => FilterState("", None, ErrorText(e, "Failed to load pharmacy filter."))
      case Present(data) =>
        FilterState(ToStr(Some(Coalesce(Get(data, "name"), Str("Selected Pharmacy")))), Some(PharmacyProductIds(data)), "")
  }

  /** The first of the five fields that holds an array decides the allowed
      ids, even when it is empty and a later field is not. */
  lemma EmptyFirstFieldAllowsNothing(data: Record)
    requires "productsId" in data && data["productsId"] == Arr([])
    ensures PharmacyProductIds(data) == {}
  {
    FirstArrayPicksFirst(data, PHARMACY_PRODUCT_KEYS, 0);
  }

  /** A pharmacy document with none of the five fields as an array allows
      no product at all. */
  lemma NoIdFieldAllowsNothing(data: Record)
    requires forall j :: 0 <= j < |PHARMACY_PRODUCT_KEYS| ==> !(PHARMACY_PRODUCT_KEYS[j] in data && data[PHARMACY_PRODUCT_KEYS[j]].Arr?)
    ensures PharmacyProductIds(data) == {}
  {
    FirstArrayNone(data, PHARMACY_PRODUCT_KEYS);
  }

  predicate Allowed(allowed: Option<set<string>>, id: string) {
    allowed.None? || id in allowed.value
  }

  // ---------------------------------------------------------------------
  // Categories

  /** `categories`: the distinct non-empty categories of the allowed
      products, sorted. */
  method Categories(products: seq<Product>, allowed: Option<set<string>>) returns (cats: seq<string>)
    ensures Sorting.StrictlySorted(cats)
    ensures forall c :: c in cats <==>
      c != "" && exists i :: 0 <= i < |products| && Allowed(allowed, products[i].id) && products[i].category == c
  {
    var seen: seq<string> := [];
    for i := 0 to |products|
      invariant forall c :: c in seen <==>
        c != "" && exists k :: 0 <= k < i && Allowed(allowed, products[k].id) && products[k].category == c
    {
      var p := products[i];
      if Allowed(allowed, p.id) && p.category != "" && p.category !in seen {
        seen := seen + [p.category];
      }
    }
    cats := Sorting.SortDistinct(seen);
  }

  // ---------------------------------------------------------------------
  // Search and category filter

  /** The filter test of one product: allowed, the trimmed lower-cased
      search found in the name or the category (an empty search matches),
      and the category equal to the selected one ignoring case (no
      selection matches). */
  predicate Matches(p: Product, search: string, category: string, allowed: Option<set<string>>) {
    var q := Text.Lower(Text.Trim(search));
    var cat := Text.Lower(Text.Trim(category));
    && Allowed(allowed, p.id)
    && (q == "" || Text.Contains(Text.Lower(p.name), q) || Text.Contains(Text.Lower(p.category), q))
    && (cat == "" || Text.Lower(p.category) == cat)
  }

  /** The products that pass the filter, in their loaded order. */
  function FilterProducts(products: seq<Product>, search: string, category: string, allowed: Option<set<string>>): (r: seq<Product>)
    ensures IsSubsequence(r, products)
    ensures forall p :: p in r <==> p in products && Matches(p, search, category, allowed)
    ensures forall p :: Occurrences(r, p) == if Matches(p, search, category, allowed) then Occurrences(products, p) else 0
    ensures |r| <= |products|
  {
    if products == [] then []
    else
      var rest := FilterProducts(products[1..], search, category, allowed);
      assert products == [products[0]] + products[1..];
      if Matches(products[0], search, category, allowed) then
        assert ([products[0]] + rest)[1..] == rest;
        [products[0]] + rest
      else
        assert rest != [] ==> rest[0] != products[0] by {
          if rest != [] { assert rest[0] in rest; }
        }
        rest
  }

  /** With no search text, no category and no pharmacy, every product is
      listed. */
  lemma {:induction false} BlankFilterKeepsAll(products: seq<Product>, search: string, category: string)
    requires Text.AllSpace(search) && Text.AllSpace(category)
    ensures FilterProducts(products, search, category, None) == products
    decreases |products|
  {
    Text.TrimEmptyIff(search);
    Text.TrimEmptyIff(category);
    if products != [] {
      BlankFilterKeepsAll(products[1..], search, category);
    }
  }

  /** A product's entry in the list: the product with its reserved count and
      its availability. */
  datatype Listed = Listed(product: Product, reserved: int, available: JsNum)

  /** `Math.max(0, stock - reserved)`. A non-finite stock (NaN) gives a
      non-finite availability. */
  function Available(stock: JsNum, reserved: int): (a: JsNum)
    ensures a.Finite? <==> stock.Finite?
    ensures a.Finite? ==> a.v >= 0
    ensures a.Finite? && reserved >= 0 ==> a.v <= Cart.Max(0, stock.v)
    ensures a.Finite? ==> (a.v > 0 <==> stock.v > reserved)
    ensures a.Finite? && a.v > 0 ==> a.v + reserved == stock.v
  {
    match stock
    case Finite(s) => Finite(Cart.Max(0, s - reserved))
    case NonFinite => NonFinite
  }

  function ProductsOf(r: seq<Listed>): (ps: seq<Product>)
    ensures |ps| == |r| && forall i :: 0 <= i < |r| ==> ps[i] == r[i].product
  {
    if r == [] then [] else [r[0].product] + ProductsOf(r[1..])
  }

  /** `filtered`: the products passing the filter, in order, each with its
      reserved count from the cart and its availability. */
  function Filtered(products: seq<Product>, search: string, category: string, allowed: Option<set<string>>, reserved: map<string, int>): (r: seq<Listed>)
    ensures ProductsOf(r) == FilterProducts(products, search, category, allowed)
    ensures forall i :: 0 <= i < |r| ==>
      r[i].reserved == Lookup(reserved, r[i].product.id) && r[i].available == Available(r[i].product.stock, r[i].reserved)
  {
    var ps := FilterProducts(products, search, category, allowed);
    var r := seq(|ps|, i requires 0 <= i < |ps| =>
      var res := Lookup(reserved, ps[i].id);
      Listed(ps[i], res, Available(ps[i].stock, res)));
    assert ProductsOf(r) == ps;
    r
  }

  /** Every listed product passes the filter, so with a pharmacy selected
      every listed product is one the pharmacy lists; and the listing keeps
      the loaded order. */
  lemma FilteredRespectsPharmacy(products: seq<Product>, search: string, category: string, allowed: Option<set<string>>, reserved: map<string, int>)
    ensures
      var r := Filtered(products, search, category, allowed, reserved);
      && IsSubsequence(ProductsOf(r), products)
      && forall i :: 0 <= i < |r| ==> Allowed(allowed, r[i].product.id) && r[i].product in products
  {
    var r := Filtered(products, search, category, allowed, reserved);
    forall i | 0 <= i < |r| ensures Allowed(allowed, r[i].product.id) && r[i].product in products {
      assert ProductsOf(r)[i] in FilterProducts(products, search, category, allowed);
    }
  }

  // ---------------------------------------------------------------------
  // Add to cart

  /** The "Add to cart" button of a listed product. It does nothing when the
      availability is a number at most 0; otherwise it adds one unit with
      the product's id, name and price, and no stock. */
  method AddToCart(cart: Cart.CartProvider, l: Listed)
    requires cart.Valid() && l.product.price.Finite?
    modifies cart
    ensures cart.Valid()
    ensures l.available.Finite? && l.available.v <= 0 ==> unchanged(cart`items, cart`log)
    ensures !(l.available.Finite? && l.available.v <= 0) ==>
      var step := Cart.AddItemStep(old(cart.items), Cart.NewItem(l.product.id, l.product.name, l.product.price.v, None));
      cart.items == step.items && cart.log == old(cart.log) + step.calls
  {
    if l.available.Finite? && l.available.v <= 0 {
      return;
    }
    cart.AddItem(Cart.NewItem(l.product.id, l.product.name, l.product.price.v, None));
  }

  /** An item added from the list carries no stock, so the cart caps a
      stock-less line at 99 only: adding a product already held gives one
      more unit, up to 99, whatever the product's stock, and the line stays
      without a stock. */
  lemma ListAddIgnoresStock(prev: seq<Cart.CartItem>, p: Product, k: nat)
    requires Cart.CartInvariant(prev) && k < |prev| && prev[k].id == p.id && prev[k].stock.None?
    requires p.price.Finite?
    ensures
      var step := Cart.AddItemStep(prev, Cart.NewItem(p.id, p.name, p.price.v, None));
      && step.items[k].qty == (if prev[k].qty < Cart.MAX_QTY then prev[k].qty + 1 else Cart.MAX_QTY)
      && step.items[k].stock.None?
  {
    assert prev[k].id == p.id;
    Cart.AddExistingSpec(prev, Cart.NewItem(p.id, p.name, p.price.v, None));
    var e := Cart.Find(prev, p.id).value;
    var j :| 0 <= j < |prev| && prev[j] == e && prev[j].id == p.id;
    assert j == k;
    assert Cart.LineOk(prev[k]);
  }
}
