/** The shopping cart held by the cart provider: a list of lines, each
    mutation rewriting the list and asking the reservation store to record
    (upsert) or drop (delete) the shopper's hold on the product. */
module Cart {
  import opened Common
  import Reservations

  /** A cart line. Prices are in pence. `stock` is absent when the product's
      stock was not given when the line was added. */
  datatype CartItem = CartItem(id: string, name: string, price: int, qty: int, stock: Option<int>)

  /** What `addItem` is handed: a line without its quantity. */
  datatype NewItem = NewItem(id: string, name: string, price: int, stock: Option<int>)

  /** A call the cart makes on the reservation store. */
  datatype ReservationCall = UpsertCall(productId: string, qty: int) | DeleteCall(productId: string)

  /** The list a mutation leaves and the reservation calls it issues, in order. */
  datatype Step = Step(items: seq<CartItem>, calls: seq<ReservationCall>)

  const MAX_QTY: int := 99

  function Min(a: int, b: int): int { if a < b then a else b }
  function Max(a: int, b: int): int { if a < b then b else a }

  /** The largest quantity a line may hold: 99, or the stock when that is
      lower. */
  function Ceiling(stock: Option<int>): int {
    if stock.Some? then Min(MAX_QTY, stock.value) else MAX_QTY
  }

  /** `clampQty(qty, stock)`. A non-finite quantity counts as 1; the result
      is the point of [1, Ceiling(stock)] nearest to the quantity. A stock
      below 1 leaves no such point, and the stock itself is returned. */
  function ClampQty(qty: JsNum, stock: Option<int>): (q: int)
    ensures q <= MAX_QTY
    ensures stock.Some? ==> q <= stock.value
    ensures stock.None? || stock.value >= 1 ==> q >= 1
    ensures
      var q0 := if qty.Finite? then qty.v else 1;
      var hi := Ceiling(stock);
      && (hi >= 1 && 1 <= q0 <= hi ==> q == q0)
      && (hi >= 1 && q0 > hi ==> q == hi)
      && (hi >= 1 && q0 < 1 ==> q == 1)
      && (hi < 1 ==> q == stock.value)
  {
    var q0 := if qty.Finite? then qty.v else 1;
    var q1 := Max(1, Min(MAX_QTY, q0));
    if stock.Some? then Min(q1, stock.value) else q1
  }

  /** Clamping an already clamped quantity against the same stock changes
      nothing. */
  lemma ClampIdempotent(qty: JsNum, stock: Option<int>)
    ensures ClampQty(Finite(ClampQty(qty, stock)), stock) == ClampQty(qty, stock)
  {
  }

  /** A quantity that cannot be read as a finite number is treated as 1. */
  lemma ClampNonFiniteIsOne(stock: Option<int>)
    ensures ClampQty(NonFinite, stock) == ClampQty(Finite(1), stock)
  {
  }

  predicate HasId(items: seq<CartItem>, id: string) {
    exists i :: 0 <= i < |items| && items[i].id == id
  }

  /** `items.find((x) => x.id === id)`: a line with the id, when there is
      one (the first, as `FindFirst` shows). */
  function Find(items: seq<CartItem>, id: string): (r: Option<CartItem>)
    ensures r.None? <==> !HasId(items, id)
    ensures r.Some? ==> r.value in items && r.value.id == id
  {
    if items == [] then None
    else if items[0].id == id then Some(items[0])
    else
      HasIdCons(items, id);
      Find(items[1..], id)
  }

  /** The line `Find` returns is the first one with the id. */
  lemma {:induction false} FindFirst(items: seq<CartItem>, id: string)
    requires HasId(items, id)
    ensures exists i :: 0 <= i < |items| && items[i] == Find(items, id).value
                        && forall j :: 0 <= j < i ==> items[j].id != id
  {
    if items[0].id != id {
      HasIdCons(items, id);
      FindFirst(items[1..], id);
      var i :| 0 <= i < |items[1..]| && items[1..][i] == Find(items[1..], id).value
               && forall j :: 0 <= j < i ==> items[1..][j].id != id;
      forall j | 0 <= j < i + 1 ensures items[j].id != id {
        if j > 0 { assert items[j] == items[1..][j - 1]; }
      }
      assert items[i + 1] == Find(items, id).value;
    } else {
      assert items[0] == Find(items, id).value;
    }
  }

  /** The `prev.map(..)` of `addItem` for an id already in the cart: every
      line with that id takes the new name, price, stock and quantity. */
  function Refresh(prev: seq<CartItem>, item: NewItem, stock: Option<int>, qty: int): (r: seq<CartItem>)
    ensures |r| == |prev|
    ensures forall i :: 0 <= i < |prev| ==>
      r[i] == if prev[i].id == item.id then CartItem(item.id, item.name, item.price, qty, stock) else prev[i]
  {
    if prev == [] then []
    else
      [if prev[0].id == item.id then CartItem(item.id, item.name, item.price, qty, stock) else prev[0]]
        + Refresh(prev[1..], item, stock, qty)
  }

  /** `addItem` for a product the cart holds as `e`: one more unit,
      clamped to the new stock (or the old one when none is given). */
  function BumpStep(prev: seq<CartItem>, item: NewItem, e: CartItem): Step {
    var nextStock := if item.stock.Some? then item.stock else e.stock;
    var nextQty := ClampQty(Finite(e.qty + 1), nextStock);
    Step(Refresh(prev, item, nextStock, nextQty), [UpsertCall(item.id, nextQty)])
  }

  /** `addItem(item)` */
  function AddItemStep(prev: seq<CartItem>, item: NewItem): (r: Step)
    ensures item.stock.Some? && item.stock.value <= 0 ==> r == Step(prev, [])
  {
    if item.stock.Some? && item.stock.value <= 0 then Step(prev, [])
    else match Find(prev, item.id)
      case Some(e) => BumpStep(prev, item, e)
      case None =>
        var firstQty := ClampQty(Finite(1), item.stock);
        Step(prev + [CartItem(item.id, item.name, item.price, firstQty, item.stock)], [UpsertCall(item.id, firstQty)])
  }

  /** What `addItem` does for a product already in the cart (and a stock
      that is not known to be 0 or less): one more unit (clamped) on each
      of its lines, which also take the new name, price and stock, and one
      upsert. */
  lemma AddExistingSpec(prev: seq<CartItem>, item: NewItem)
    requires !(item.stock.Some? && item.stock.value <= 0) && HasId(prev, item.id)
    ensures var r := AddItemStep(prev, item);
      && |r.items| == |prev|
      && var e := Find(prev, item.id).value;
         var nextStock := if item.stock.Some? then item.stock else e.stock;
         && r.calls == [UpsertCall(item.id, ClampQty(Finite(e.qty + 1), nextStock))]
         && forall i :: 0 <= i < |prev| ==>
              r.items[i] == if prev[i].id == item.id
                            then CartItem(item.id, item.name, item.price, r.calls[0].qty, nextStock)
                            else prev[i]
  {
    var e := Find(prev, item.id).value;
    assert AddItemStep(prev, item) == BumpStep(prev, item, e);
    BumpStepSpec(prev, item, e);
  }

  /** What `addItem` does for a product the cart does not hold: a new last
      line of one unit (clamped) and one upsert. */
  lemma AddNewSpec(prev: seq<CartItem>, item: NewItem)
    requires !(item.stock.Some? && item.stock.value <= 0) && !HasId(prev, item.id)
    ensures var r := AddItemStep(prev, item);
      && r.items == prev + [CartItem(item.id, item.name, item.price, ClampQty(Finite(1), item.stock), item.stock)]
      && r.calls == [UpsertCall(item.id, ClampQty(Finite(1), item.stock))]
  {
  }

  lemma BumpStepSpec(prev: seq<CartItem>, item: NewItem, e: CartItem)
    ensures var r := BumpStep(prev, item, e);
      var nextStock := if item.stock.Some? then item.stock else e.stock;
      && |r.items| == |prev|
      && r.calls == [UpsertCall(item.id, ClampQty(Finite(e.qty + 1), nextStock))]
      && forall i :: 0 <= i < |prev| ==>
           r.items[i] == if prev[i].id == item.id
                         then CartItem(item.id, item.name, item.price, r.calls[0].qty, nextStock)
                         else prev[i]
  {
  }

  /** `prev.filter((x) => x.id !== id)` */
  function Without(prev: seq<CartItem>, id: string): (r: seq<CartItem>)
    ensures forall x :: x in r <==> x in prev && x.id != id
    ensures forall x :: Occurrences(r, x) == if x.id != id then Occurrences(prev, x) else 0
    ensures IsSubsequence(r, prev)
    ensures !HasId(prev, id) ==> r == prev
    ensures |r| <= |prev|
  {
    if prev == [] then []
    else
      var t := Without(prev[1..], id);
      WithoutStep(prev, id, t);
      if prev[0].id == id then t else [prev[0]] + t
  }

  /** One step of `Without`: what holds of the tail's result carries over
      to the whole list, whether the head is dropped or kept. */
  lemma WithoutStep(prev: seq<CartItem>, id: string, t: seq<CartItem>)
    requires prev != []
    requires forall x :: Occurrences(t, x) == if x.id != id then Occurrences(prev[1..], x) else 0
    requires IsSubsequence(t, prev[1..])
    requires !HasId(prev[1..], id) ==> t == prev[1..]
    requires |t| <= |prev| - 1
    ensures var r := if prev[0].id == id then t else [prev[0]] + t;
      && (forall x :: Occurrences(r, x) == if x.id != id then Occurrences(prev, x) else 0)
      && (forall x :: x in r <==> x in prev && x.id != id)
      && IsSubsequence(r, prev)
      && (!HasId(prev, id) ==> r == prev)
      && |r| <= |prev|
  {
    var h := prev[0];
    var r := if h.id == id then t else [h] + t;
    HasIdCons(prev, id);
    forall x: CartItem ensures Occurrences(r, x) == if x.id != id then Occurrences(prev, x) else 0 {
      CountCons(prev, x);
      if h.id != id {
        CountCons(r, x);
        assert r[0] == h && r[1..] == t;
      }
    }
    forall x: CartItem ensures x in r <==> x in prev && x.id != id {
      assert x in r <==> Occurrences(r, x) > 0;
      assert x in prev <==> Occurrences(prev, x) > 0;
    }
    if h.id == id {
      assert t != [] ==> t[0] != h by {
        if t != [] { assert t[0] in multiset(t); }
      }
    } else {
      assert r[0] == h && r[1..] == t;
      if !HasId(prev, id) {
        assert prev == [h] + prev[1..];
      }
    }
  }

  /** `removeItem(id)`: the filtered list and one delete for the id, issued
      whether or not the id was in the cart. */
  function RemoveStep(prev: seq<CartItem>, id: string): (r: Step)
    ensures r.calls == [DeleteCall(id)]
    ensures !HasId(r.items, id)
    ensures forall x :: x in r.items <==> x in prev && x.id != id
    ensures forall x :: Occurrences(r.items, x) == if x.id != id then Occurrences(prev, x) else 0
    ensures IsSubsequence(r.items, prev)
  {
    var t := Without(prev, id);
    assert !HasId(t, id) by {
      forall i | 0 <= i < |t| ensures t[i].id != id {
        assert t[i] in t;
      }
    }
    Step(t, [DeleteCall(id)])
  }

  /** The `prev.map(..)` of `setQty(id, qty)`: each line with the id takes
      the quantity clamped against its own stock, and issues an upsert with
      that quantity. */
  function SetQtyStep(prev: seq<CartItem>, id: string, qty: JsNum): (r: Step)
    ensures |r.items| == |prev|
    ensures forall i :: 0 <= i < |prev| ==>
      r.items[i] == if prev[i].id == id then prev[i].(qty := ClampQty(qty, prev[i].stock)) else prev[i]
    ensures forall c :: c in r.calls ==> c.UpsertCall? && c.productId == id
    ensures r.calls == [] <==> !HasId(prev, id)
  {
    if prev == [] then Step([], [])
    else
      var rest := SetQtyStep(prev[1..], id, qty);
      HasIdCons(prev, id);
      var q := ClampQty(qty, prev[0].stock);
      var head := if prev[0].id == id then prev[0].(qty := q) else prev[0];
      var calls := if prev[0].id == id then [UpsertCall(id, q)] else [];
      var items := [head] + rest.items;
      assert forall i :: 1 <= i < |prev| ==> items[i] == rest.items[i - 1] && prev[i] == prev[1..][i - 1];
      Step(items, calls + rest.calls)
  }

  /** A list has a line with `id` when its first line does or the rest has one. */
  lemma HasIdCons(prev: seq<CartItem>, id: string)
    requires prev != []
    ensures HasId(prev, id) <==> prev[0].id == id || HasId(prev[1..], id)
  {
    if HasId(prev, id) && prev[0].id != id {
      var i :| 0 <= i < |prev| && prev[i].id == id;
      assert prev[1..][i - 1].id == id;
    }
    if HasId(prev[1..], id) {
      var i :| 0 <= i < |prev[1..]| && prev[1..][i].id == id;
      assert prev[i + 1].id == id;
    }
  }

  /** `clear()`: one delete per line, in order, and an empty list. */
  function ClearStep(prev: seq<CartItem>): (r: Step)
    ensures r.items == []
    ensures |r.calls| == |prev|
    ensures forall i :: 0 <= i < |prev| ==> r.calls[i] == DeleteCall(prev[i].id)
  {
    Step([], DeleteCalls(prev))
  }

  function DeleteCalls(items: seq<CartItem>): (r: seq<ReservationCall>)
    ensures |r| == |items|
    ensures forall i :: 0 <= i < |items| ==> r[i] == DeleteCall(items[i].id)
  {
    if items == [] then [] else [DeleteCall(items[0].id)] + DeleteCalls(items[1..])
  }

  /** `total`: the sum of price times quantity over the lines, in pence. */
  function TotalOf(items: seq<CartItem>): (r: int)
    ensures items == [] ==> r == 0
  {
    if items == [] then 0 else TotalOf(items[..|items| - 1]) + items[|items| - 1].price * items[|items| - 1].qty
  }

  lemma {:induction false} TotalAppend(a: seq<CartItem>, b: seq<CartItem>)
    ensures TotalOf(a + b) == TotalOf(a) + TotalOf(b)
    decreases |b|
  {
    if b != [] {
      assert (a + b)[..|a + b| - 1] == a + b[..|b| - 1];
      TotalAppend(a, b[..|b| - 1]);
    } else {
      assert a + b == a;
    }
  }

  /** Each line contributes its price times its quantity, whatever its
      position. */
  lemma {:induction false} TotalCons(x: CartItem, rest: seq<CartItem>)
    ensures TotalOf([x] + rest) == x.price * x.qty + TotalOf(rest)
  {
    TotalAppend([x], rest);
    assert [x][..0] == [];
  }

  /** An empty cart totals 0, and a cart whose prices are not negative never
      totals below 0. */
  lemma {:induction false} TotalNonNegative(items: seq<CartItem>)
    requires forall i :: 0 <= i < |items| ==> items[i].price >= 0 && items[i].qty >= 0
    ensures TotalOf(items) >= 0
    ensures items == [] ==> TotalOf(items) == 0
    decreases |items|
  {
    if items != [] {
      TotalNonNegative(items[..|items| - 1]);
    }
  }

  /** Removing a product takes exactly its lines' value off the total. */
  lemma {:induction false} TotalWithout(prev: seq<CartItem>, id: string)
    ensures TotalOf(prev) == TotalOf(Without(prev, id)) + TotalOf(Lines(prev, id))
    decreases |prev|
  {
    if prev != [] {
      var h, t := prev[0], prev[1..];
      assert prev == [h] + t;
      TotalCons(h, t);
      TotalWithout(t, id);
      if h.id == id {
        assert Lines(prev, id) == [h] + Lines(t, id);
        TotalCons(h, Lines(t, id));
      } else {
        assert Without(prev, id) == [h] + Without(t, id);
        TotalCons(h, Without(t, id));
      }
    }
  }

  /** The lines of one product. */
  function Lines(items: seq<CartItem>, id: string): seq<CartItem> {
    if items == [] then []
    else if items[0].id == id then [items[0]] + Lines(items[1..], id)
    else Lines(items[1..], id)
  }

  // ---------------------------------------------------------------------
  // The cart invariant

  predicate UniqueIds(items: seq<CartItem>) {
    forall i, j :: 0 <= i < j < |items| ==> items[i].id != items[j].id
  }

  /** A line holds between 1 and 99 units, never more than its known stock,
      and a known stock is at least 1. */
  predicate LineOk(x: CartItem) {
    1 <= x.qty <= MAX_QTY && (x.stock.Some? ==> 1 <= x.stock.value && x.qty <= x.stock.value)
  }

  predicate CartInvariant(items: seq<CartItem>) {
    UniqueIds(items) && forall i :: 0 <= i < |items| ==> LineOk(items[i])
  }

  lemma RefreshPreserves(prev: seq<CartItem>, item: NewItem, stock: Option<int>, qty: int)
    requires CartInvariant(prev) && LineOk(CartItem(item.id, item.name, item.price, qty, stock))
    ensures CartInvariant(Refresh(prev, item, stock, qty))
  {
    var r := Refresh(prev, item, stock, qty);
    forall i | 0 <= i < |r| ensures LineOk(r[i]) {
      assert LineOk(prev[i]);
    }
  }

  lemma AppendPreserves(prev: seq<CartItem>, x: CartItem)
    requires CartInvariant(prev) && !HasId(prev, x.id) && LineOk(x)
    ensures CartInvariant(prev + [x])
  {
    var r := prev + [x];
    forall i, j | 0 <= i < j < |r| ensures r[i].id != r[j].id {
      assert r[i] == prev[i];
    }
  }

  /** The line `addItem` leaves for a product already in the cart is
      within bounds: one more unit, capped by 99 and by the stock. */
  lemma BumpedLineOk(prev: seq<CartItem>, item: NewItem, e: CartItem)
    requires CartInvariant(prev) && e in prev
    requires !(item.stock.Some? && item.stock.value <= 0)
    ensures
      var nextStock := if item.stock.Some? then item.stock else e.stock;
      LineOk(CartItem(item.id, item.name, item.price, ClampQty(Finite(e.qty + 1), nextStock), nextStock))
  {
    var k :| 0 <= k < |prev| && prev[k] == e;
    assert LineOk(prev[k]);
  }

  lemma AddItemPreserves(prev: seq<CartItem>, item: NewItem)
    requires CartInvariant(prev)
    ensures CartInvariant(AddItemStep(prev, item).items)
  {
    if !(item.stock.Some? && item.stock.value <= 0) {
      if Find(prev, item.id).Some? {
        AddExistingPreserves(prev, item);
      } else {
        AppendPreserves(prev, CartItem(item.id, item.name, item.price, ClampQty(Finite(1), item.stock), item.stock));
      }
    }
  }

  lemma AddExistingPreserves(prev: seq<CartItem>, item: NewItem)
    requires CartInvariant(prev)
    requires !(item.stock.Some? && item.stock.value <= 0) && Find(prev, item.id).Some?
    ensures CartInvariant(AddItemStep(prev, item).items)
  {
    var e := Find(prev, item.id).value;
    assert AddItemStep(prev, item) == BumpStep(prev, item, e);
    BumpPreserves(prev, item, e);
  }

  lemma BumpPreserves(prev: seq<CartItem>, item: NewItem, e: CartItem)
    requires CartInvariant(prev) && e in prev
    requires !(item.stock.Some? && item.stock.value <= 0)
    ensures CartInvariant(BumpStep(prev, item, e).items)
  {
    var nextStock := if item.stock.Some? then item.stock else e.stock;
    var nextQty := ClampQty(Finite(e.qty + 1), nextStock);
    BumpedLineOk(prev, item, e);
    RefreshPreserves(prev, item, nextStock, nextQty);
  }

  lemma {:induction false} RemovePreserves(prev: seq<CartItem>, id: string)
    requires CartInvariant(prev)
    ensures CartInvariant(RemoveStep(prev, id).items)
  {
    var t := RemoveStep(prev, id).items;
    SubsequenceKeepsInvariant(t, prev);
  }

  lemma {:induction false} SubsequenceKeepsInvariant(a: seq<CartItem>, b: seq<CartItem>)
    requires IsSubsequence(a, b) && CartInvariant(b)
    ensures CartInvariant(a)
    decreases |b|
  {
    if a != [] && b != [] {
      assert CartInvariant(b[1..]) by {
        forall i, j | 0 <= i < j < |b[1..]| ensures b[1..][i].id != b[1..][j].id {
          assert b[1..][i] == b[i + 1] && b[1..][j] == b[j + 1];
        }
      }
      if a[0] == b[0] {
        SubsequenceKeepsInvariant(a[1..], b[1..]);
        forall j | 0 < j < |a| ensures a[0].id != a[j].id {
          assert a[j] == a[1..][j - 1];
          SubsequenceMember(a[1..], b[1..], j - 1);
          var k :| 0 <= k < |b[1..]| && b[1..][k] == a[j];
          assert b[k + 1] == a[j];
        }
        assert LineOk(a[0]) by { assert b[0] == a[0]; }
        forall i | 0 <= i < |a| ensures LineOk(a[i]) {
          if i > 0 { assert a[i] == a[1..][i - 1]; }
        }
      } else {
        SubsequenceKeepsInvariant(a, b[1..]);
      }
    }
  }

  lemma {:induction false} SubsequenceMember<T>(a: seq<T>, b: seq<T>, i: nat)
    requires IsSubsequence(a, b) && i < |a|
    ensures exists k :: 0 <= k < |b| && b[k] == a[i]
    decreases |b|
  {
    if a[0] == b[0] {
      if i > 0 {
        SubsequenceMember(a[1..], b[1..], i - 1);
        var k :| 0 <= k < |b[1..]| && b[1..][k] == a[1..][i - 1];
        assert b[k + 1] == a[i];
      }
    } else {
      SubsequenceMember(a, b[1..], i);
      var k :| 0 <= k < |b[1..]| && b[1..][k] == a[i];
      assert b[k + 1] == a[i];
    }
  }

  lemma SetQtyPreserves(prev: seq<CartItem>, id: string, qty: JsNum)
    requires CartInvariant(prev)
    ensures CartInvariant(SetQtyStep(prev, id, qty).items)
  {
    var r := SetQtyStep(prev, id, qty);
    forall i | 0 <= i < |prev| ensures LineOk(r.items[i]) && r.items[i].id == prev[i].id {
      SetQtyLineOk(prev[i], id, qty);
    }
  }

  lemma SetQtyLineOk(x: CartItem, id: string, qty: JsNum)
    requires LineOk(x)
    ensures LineOk(if x.id == id then x.(qty := ClampQty(qty, x.stock)) else x)
  {
  }

  /** With distinct ids, `setQty` issues exactly one upsert when the id is in
      the cart, carrying the quantity the line now holds. */
  lemma {:induction false} SetQtySingleCall(prev: seq<CartItem>, id: string, qty: JsNum, k: nat)
    requires UniqueIds(prev) && k < |prev| && prev[k].id == id
    ensures SetQtyStep(prev, id, qty).calls == [UpsertCall(id, ClampQty(qty, prev[k].stock))]
    decreases |prev|
  {
    SetQtyCallsCons(prev, id, qty);
    if k == 0 {
      assert !HasId(prev[1..], id) by {
        forall i | 0 <= i < |prev[1..]| ensures prev[1..][i].id != id {
          assert prev[1..][i] == prev[i + 1];
        }
      }
    } else {
      assert prev[0].id != id by { assert prev[k].id == id; }
      SetQtySingleCall(prev[1..], id, qty, k - 1);
    }
  }

  /** The calls of `setQty` over a non-empty list: the first line's upsert,
      if it matches, then those of the rest. */
  lemma SetQtyCallsCons(prev: seq<CartItem>, id: string, qty: JsNum)
    requires prev != []
    ensures SetQtyStep(prev, id, qty).calls ==
      (if prev[0].id == id then [UpsertCall(id, ClampQty(qty, prev[0].stock))] else [])
        + SetQtyStep(prev[1..], id, qty).calls
  {
  }

  // ---------------------------------------------------------------------
  // The reservation store as the calls leave it

  /** The store after the calls, made on behalf of `user`. */
  function Apply(docs: map<string, Reservations.Reservation>, user: Option<AuthUser>, calls: seq<ReservationCall>, now: int, serverTime: int): map<string, Reservations.Reservation>
    decreases |calls|
  {
    if calls == [] then docs
    else
      var next := match calls[0]
        case UpsertCall(p, q) => Reservations.UpsertDocs(docs, user, p, q, now, serverTime)
        case DeleteCall(p) => Reservations.DeleteDocs(docs, user, p);
      Apply(next, user, calls[1..], now, serverTime)
  }

  lemma ApplyOne(docs: map<string, Reservations.Reservation>, user: Option<AuthUser>, c: ReservationCall, now: int, serverTime: int)
    ensures c.UpsertCall? ==> Apply(docs, user, [c], now, serverTime) == Reservations.UpsertDocs(docs, user, c.productId, c.qty, now, serverTime)
    ensures c.DeleteCall? ==> Apply(docs, user, [c], now, serverTime) == Reservations.DeleteDocs(docs, user, c.productId)
  {
    assert [c][1..] == [];
  }

  /** The store holds one reservation of `uid` per cart line, with that
      line's quantity, and no other reservation of `uid`. */
  ghost predicate Mirrors(docs: map<string, Reservations.Reservation>, uid: string, items: seq<CartItem>) {
    && (forall i :: 0 <= i < |items| ==>
          Reservations.ReservationDocId(uid, items[i].id) in docs
          && docs[Reservations.ReservationDocId(uid, items[i].id)].qty == items[i].qty)
    && (forall p :: Reservations.ReservationDocId(uid, p) in docs ==> HasId(items, p))
  }

  lemma DistinctProductsDistinctDocs(uid: string, p1: string, p2: string)
    requires p1 != p2
    ensures Reservations.ReservationDocId(uid, p1) != Reservations.ReservationDocId(uid, p2)
  {
    if Reservations.ReservationDocId(uid, p1) == Reservations.ReservationDocId(uid, p2) {
      Reservations.DocIdInjectiveForUser(uid, p1, p2);
    }
  }

  /** Upserting one line's new quantity keeps the store mirroring a cart in
      which only that line (by id) changed quantity. */
  lemma UpsertMirrors(docs: map<string, Reservations.Reservation>, u: AuthUser, prev: seq<CartItem>, next: seq<CartItem>, id: string, q: int, now: int, serverTime: int)
    requires Mirrors(docs, u.uid, prev)
    requires HasId(next, id)
    requires forall i :: 0 <= i < |next| && next[i].id == id ==> next[i].qty == q
    requires forall i :: 0 <= i < |next| && next[i].id != id ==> next[i] in prev
    requires forall p :: HasId(prev, p) ==> HasId(next, p)
    ensures Mirrors(Reservations.UpsertDocs(docs, Some(u), id, q, now, serverTime), u.uid, next)
  {
    var r := Reservations.UpsertDocs(docs, Some(u), id, q, now, serverTime);
    forall i | 0 <= i < |next|
      ensures Reservations.ReservationDocId(u.uid, next[i].id) in r
      ensures r[Reservations.ReservationDocId(u.uid, next[i].id)].qty == next[i].qty
    {
      if next[i].id != id {
        var j :| 0 <= j < |prev| && prev[j] == next[i];
        DistinctProductsDistinctDocs(u.uid, next[i].id, id);
      }
    }
    forall p | Reservations.ReservationDocId(u.uid, p) in r ensures HasId(next, p) {
      if p != id {
        DistinctProductsDistinctDocs(u.uid, p, id);
      }
    }
  }

  lemma RefreshMirrors(docs: map<string, Reservations.Reservation>, u: AuthUser, prev: seq<CartItem>, item: NewItem, stock: Option<int>, qty: int, now: int, serverTime: int)
    requires Mirrors(docs, u.uid, prev) && HasId(prev, item.id)
    ensures Mirrors(Reservations.UpsertDocs(docs, Some(u), item.id, qty, now, serverTime), u.uid, Refresh(prev, item, stock, qty))
  {
    RefreshChangesOneId(prev, item, stock, qty);
    UpsertMirrors(docs, u, prev, Refresh(prev, item, stock, qty), item.id, qty, now, serverTime);
  }

  /** `Refresh` changes only the lines of the item's id, gives them the
      new quantity, and keeps every id. */
  lemma RefreshChangesOneId(prev: seq<CartItem>, item: NewItem, stock: Option<int>, qty: int)
    requires HasId(prev, item.id)
    ensures var next := Refresh(prev, item, stock, qty);
      && HasId(next, item.id)
      && (forall i :: 0 <= i < |next| && next[i].id == item.id ==> next[i].qty == qty)
      && (forall i :: 0 <= i < |next| && next[i].id != item.id ==> next[i] in prev)
      && (forall p :: HasId(prev, p) ==> HasId(next, p))
  {
    var next := Refresh(prev, item, stock, qty);
    var k :| 0 <= k < |prev| && prev[k].id == item.id;
    assert next[k].id == item.id;
    forall i | 0 <= i < |next| && next[i].id != item.id ensures next[i] in prev {
      assert next[i] == prev[i];
    }
    forall p | HasId(prev, p) ensures HasId(next, p) {
      var i :| 0 <= i < |prev| && prev[i].id == p;
      assert next[i].id == p;
    }
  }

  lemma AppendMirrors(docs: map<string, Reservations.Reservation>, u: AuthUser, prev: seq<CartItem>, x: CartItem, now: int, serverTime: int)
    requires Mirrors(docs, u.uid, prev) && !HasId(prev, x.id)
    ensures Mirrors(Reservations.UpsertDocs(docs, Some(u), x.id, x.qty, now, serverTime), u.uid, prev + [x])
  {
    var next := prev + [x];
    assert next[|prev|] == x;
    forall i | 0 <= i < |next| && next[i].id != x.id ensures next[i] in prev {
      assert next[i] == prev[i];
    }
    forall i | 0 <= i < |next| && next[i].id == x.id ensures next[i].qty == x.qty {
    }
    forall p | HasId(prev, p) ensures HasId(next, p) {
      var i :| 0 <= i < |prev| && prev[i].id == p;
      assert next[i].id == p;
    }
    UpsertMirrors(docs, u, prev, next, x.id, x.qty, now, serverTime);
  }

  /** Adding to the cart keeps the store in step with it, for a signed-in
      shopper. */
  lemma AddItemMirrors(docs: map<string, Reservations.Reservation>, u: AuthUser, prev: seq<CartItem>, item: NewItem, now: int, serverTime: int)
    requires Mirrors(docs, u.uid, prev)
    ensures
      var r := AddItemStep(prev, item);
      Mirrors(Apply(docs, Some(u), r.calls, now, serverTime), u.uid, r.items)
  {
    if !(item.stock.Some? && item.stock.value <= 0) {
      if Find(prev, item.id).Some? {
        AddExistingMirrors(docs, u, prev, item, now, serverTime);
      } else {
        AddNewMirrors(docs, u, prev, item, now, serverTime);
      }
    }
  }

  /** Adding a product the cart already holds: one upsert, mirrored. */
  lemma AddExistingMirrors(docs: map<string, Reservations.Reservation>, u: AuthUser, prev: seq<CartItem>, item: NewItem, now: int, serverTime: int)
    requires Mirrors(docs, u.uid, prev)
    requires !(item.stock.Some? && item.stock.value <= 0) && Find(prev, item.id).Some?
    ensures
      var r := AddItemStep(prev, item);
      Mirrors(Apply(docs, Some(u), r.calls, now, serverTime), u.uid, r.items)
  {
    var e := Find(prev, item.id).value;
    assert AddItemStep(prev, item) == BumpStep(prev, item, e);
    BumpMirrors(docs, u, prev, item, e, now, serverTime);
  }

  lemma BumpMirrors(docs: map<string, Reservations.Reservation>, u: AuthUser, prev: seq<CartItem>, item: NewItem, e: CartItem, now: int, serverTime: int)
    requires Mirrors(docs, u.uid, prev) && HasId(prev, item.id)
    ensures
      var r := BumpStep(prev, item, e);
      Mirrors(Apply(docs, Some(u), r.calls, now, serverTime), u.uid, r.items)
  {
    var nextStock := if item.stock.Some? then item.stock else e.stock;
    var nextQty := ClampQty(Finite(e.qty + 1), nextStock);
    var r := BumpStep(prev, item, e);
    assert r.calls == [UpsertCall(item.id, nextQty)];
    ApplyOne(docs, Some(u), UpsertCall(item.id, nextQty), now, serverTime);
    var d := Reservations.UpsertDocs(docs, Some(u), item.id, nextQty, now, serverTime);
    assert Apply(docs, Some(u), r.calls, now, serverTime) == d;
    RefreshMirrors(docs, u, prev, item, nextStock, nextQty, now, serverTime);
    assert r.items == Refresh(prev, item, nextStock, nextQty);
  }

  /** Adding a product the cart does not hold: one upsert, mirrored. */
  lemma AddNewMirrors(docs: map<string, Reservations.Reservation>, u: AuthUser, prev: seq<CartItem>, item: NewItem, now: int, serverTime: int)
    requires Mirrors(docs, u.uid, prev)
    requires !(item.stock.Some? && item.stock.value <= 0) && Find(prev, item.id).None?
    ensures
      var r := AddItemStep(prev, item);
      Mirrors(Apply(docs, Some(u), r.calls, now, serverTime), u.uid, r.items)
  {
    var x := CartItem(item.id, item.name, item.price, ClampQty(Finite(1), item.stock), item.stock);
    assert AddItemStep(prev, item) == Step(prev + [x], [UpsertCall(item.id, x.qty)]);
    ApplyOne(docs, Some(u), UpsertCall(item.id, x.qty), now, serverTime);
    AppendMirrors(docs, u, prev, x, now, serverTime);
  }

  /** The calls are fired without waiting and their failures are dropped.
      When the upsert for a product new to the cart is lost, the store no
      longer mirrors the cart: the new line has no reservation. */
  lemma LostUpsertDrifts(docs: map<string, Reservations.Reservation>, u: AuthUser, prev: seq<CartItem>, item: NewItem)
    requires Mirrors(docs, u.uid, prev)
    requires !(item.stock.Some? && item.stock.value <= 0) && Find(prev, item.id).None?
    ensures !Mirrors(docs, u.uid, AddItemStep(prev, item).items)
  {
    var x := CartItem(item.id, item.name, item.price, ClampQty(Finite(1), item.stock), item.stock);
    var next := AddItemStep(prev, item).items;
    assert next == prev + [x];
    assert next[|prev|].id == item.id;
    assert Reservations.ReservationDocId(u.uid, item.id) !in docs;
  }

  /** Changing a quantity keeps the store in step with the cart. */
  lemma SetQtyMirrors(docs: map<string, Reservations.Reservation>, u: AuthUser, prev: seq<CartItem>, id: string, qty: JsNum, now: int, serverTime: int)
    requires UniqueIds(prev) && Mirrors(docs, u.uid, prev)
    ensures
      var r := SetQtyStep(prev, id, qty);
      Mirrors(Apply(docs, Some(u), r.calls, now, serverTime), u.uid, r.items)
  {
    var r := SetQtyStep(prev, id, qty);
    if HasId(prev, id) {
      var k :| 0 <= k < |prev| && prev[k].id == id;
      SetQtySingleCall(prev, id, qty, k);
      var q := ClampQty(qty, prev[k].stock);
      ApplyOne(docs, Some(u), UpsertCall(id, q), now, serverTime);
      SetQtyUpsertMirrors(docs, u, prev, id, qty, k, now, serverTime);
    } else {
      assert r.items == prev;
    }
  }

  lemma SetQtyUpsertMirrors(docs: map<string, Reservations.Reservation>, u: AuthUser, prev: seq<CartItem>, id: string, qty: JsNum, k: nat, now: int, serverTime: int)
    requires UniqueIds(prev) && Mirrors(docs, u.uid, prev) && k < |prev| && prev[k].id == id
    ensures
      var q := ClampQty(qty, prev[k].stock);
      Mirrors(Reservations.UpsertDocs(docs, Some(u), id, q, now, serverTime), u.uid, SetQtyStep(prev, id, qty).items)
  {
    var next := SetQtyStep(prev, id, qty).items;
    var q := ClampQty(qty, prev[k].stock);
    assert next[k].id == id;
    forall i | 0 <= i < |next| && next[i].id == id ensures next[i].qty == q {
      assert prev[i].id == id;
    }
    forall i | 0 <= i < |next| && next[i].id != id ensures next[i] in prev {
      assert next[i] == prev[i];
    }
    forall p | HasId(prev, p) ensures HasId(next, p) {
      var i :| 0 <= i < |prev| && prev[i].id == p;
      assert next[i].id == p;
    }
    UpsertMirrors(docs, u, prev, next, id, q, now, serverTime);
  }

  /** Removing a product drops its reservation and keeps the others. */
  lemma RemoveMirrors(docs: map<string, Reservations.Reservation>, u: AuthUser, prev: seq<CartItem>, id: string, now: int, serverTime: int)
    requires Mirrors(docs, u.uid, prev)
    ensures
      var r := RemoveStep(prev, id);
      Mirrors(Apply(docs, Some(u), r.calls, now, serverTime), u.uid, r.items)
  {
    var r := RemoveStep(prev, id);
    ApplyOne(docs, Some(u), DeleteCall(id), now, serverTime);
    var d := Reservations.DeleteDocs(docs, Some(u), id);
    forall i | 0 <= i < |r.items|
      ensures Reservations.ReservationDocId(u.uid, r.items[i].id) in d
      ensures d[Reservations.ReservationDocId(u.uid, r.items[i].id)].qty == r.items[i].qty
    {
      DeleteKeepsLine(docs, u, prev, id, r.items[i]);
    }
    forall p | Reservations.ReservationDocId(u.uid, p) in d ensures HasId(r.items, p) {
      var j :| 0 <= j < |prev| && prev[j].id == p;
      assert prev[j] in r.items;
    }
  }

  /** Deleting the reservation of `id` keeps that of every other line. */
  lemma DeleteKeepsLine(docs: map<string, Reservations.Reservation>, u: AuthUser, prev: seq<CartItem>, id: string, x: CartItem)
    requires Mirrors(docs, u.uid, prev) && x in prev && x.id != id
    ensures var d := Reservations.DeleteDocs(docs, Some(u), id);
      Reservations.ReservationDocId(u.uid, x.id) in d && d[Reservations.ReservationDocId(u.uid, x.id)].qty == x.qty
  {
    var j :| 0 <= j < |prev| && prev[j] == x;
    DistinctProductsDistinctDocs(u.uid, x.id, id);
  }

  /** After the deletes of `clear()`, no reservation of the shopper for a
      product in the cart remains. */
  lemma {:induction false} DeletesDrop(docs: map<string, Reservations.Reservation>, u: AuthUser, items: seq<CartItem>, now: int, serverTime: int)
    ensures
      var d := Apply(docs, Some(u), DeleteCalls(items), now, serverTime);
      && d.Keys <= docs.Keys
      && (forall k :: k in d ==> d[k] == docs[k])
      && forall p :: HasId(items, p) ==> Reservations.ReservationDocId(u.uid, p) !in d
    decreases |items|
  {
    if items != [] {
      var next := Reservations.DeleteDocs(docs, Some(u), items[0].id);
      assert DeleteCalls(items)[1..] == DeleteCalls(items[1..]);
      DeletesDrop(next, u, items[1..], now, serverTime);
      forall p | HasId(items, p)
        ensures Reservations.ReservationDocId(u.uid, p) !in Apply(docs, Some(u), DeleteCalls(items), now, serverTime)
      {
        var i :| 0 <= i < |items| && items[i].id == p;
        if i > 0 {
          assert items[1..][i - 1].id == p;
        }
      }
    }
  }

  /** Clearing the cart leaves the shopper with no reservations at all. */
  lemma ClearMirrors(docs: map<string, Reservations.Reservation>, u: AuthUser, prev: seq<CartItem>, now: int, serverTime: int)
    requires Mirrors(docs, u.uid, prev)
    ensures
      var r := ClearStep(prev);
      Mirrors(Apply(docs, Some(u), r.calls, now, serverTime), u.uid, r.items)
  {
    DeletesDrop(docs, u, prev, now, serverTime);
  }

  // ---------------------------------------------------------------------
  // The provider

  /** The cart provider's state: the lines, and (ghost) every reservation
      call it has issued so far. */
  class CartProvider {
    var items: seq<CartItem>
    ghost var log: seq<ReservationCall>

    ghost predicate Valid()
      reads this
    {
      CartInvariant(items)
    }

    constructor()
      ensures Valid() && items == [] && log == []
    {
      items := [];
      log := [];
    }

    method AddItem(item: NewItem)
      requires Valid()
      modifies this
      ensures Valid()
      ensures items == AddItemStep(old(items), item).items
      ensures log == old(log) + AddItemStep(old(items), item).calls
    {
      AddItemPreserves(items, item);
      var r := AddItemStep(items, item);
      items := r.items;
      log := log + r.calls;
    }

    method RemoveItem(id: string)
      requires Valid()
      modifies this
      ensures Valid()
      ensures items == RemoveStep(old(items), id).items
      ensures log == old(log) + [DeleteCall(id)]
    {
      RemovePreserves(items, id);
      items := RemoveStep(items, id).items;
      log := log + [DeleteCall(id)];
    }

    method SetQty(id: string, qty: JsNum)
      requires Valid()
      modifies this
      ensures Valid()
      ensures items == SetQtyStep(old(items), id, qty).items
      ensures log == old(log) + SetQtyStep(old(items), id, qty).calls
    {
      SetQtyPreserves(items, id, qty);
      var r := SetQtyStep(items, id, qty);
      items := r.items;
      log := log + r.calls;
    }

    method Clear()
      requires Valid()
      modifies this
      ensures Valid()
      ensures items == []
      ensures log == old(log) + DeleteCalls(old(items))
    {
      log := log + DeleteCalls(items);
      items := [];
    }

    /** `total`: the lines' value, 0 for an empty cart and never negative
        when no price is. */
    function Total(): (r: int)
      reads this
      ensures r == TotalOf(items)
      ensures items == [] ==> r == 0
      ensures (forall i :: 0 <= i < |items| ==> items[i].price >= 0 && items[i].qty >= 0) ==> r >= 0
    {
      assert (forall i :: 0 <= i < |items| ==> items[i].price >= 0 && items[i].qty >= 0) ==> TotalOf(items) >= 0 by {
        if forall i :: 0 <= i < |items| ==> items[i].price >= 0 && items[i].qty >= 0 {
          TotalNonNegative(items);
        }
      }
      TotalOf(items)
    }
  }
}
