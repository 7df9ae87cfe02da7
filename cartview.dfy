/** The cart page: each line shown with defaults for missing fields, its
    value and the largest quantity its input offers; the quantity input,
    "Remove" and "Clear cart" handlers. */
module CartView {
  import opened Common
  import Cart

  /** A line as the page shows it (`safeItems`). `stock` is absent when the
      line's stock is not a number; a stored NaN stays a (non-finite)
      number. */
  datatype SafeLine = SafeLine(id: Option<Value>, name: string, price: JsNum, qty: JsNum, stock: Option<JsNum>)

  /** One entry of `safeItems`, from the line's fields. */
  function SafeItem(line: Record): (r: SafeLine)
    ensures r.id == Get(line, "id")
    ensures Nullish(Get(line, "name")) ==> r.name == "Item"
    ensures Nullish(Get(line, "price")) ==> r.price == Finite(0)
    ensures Nullish(Get(line, "qty")) ==> r.qty == Finite(1)
    ensures r.stock.Some? <==> "stock" in line && (line["stock"].Num? || line["stock"].NaN?)
  {
    SafeLine(
      Get(line, "id"),
      ValueToStr(Coalesce(Get(line, "name"), Str("Item"))),
      ToNumber(Some(Coalesce(Get(line, "price"), Num(0)))),
      ToNumber(Some(Coalesce(Get(line, "qty"), Num(1)))),
      match Get(line, "stock")
      case Some(Num(n)) => Some(Finite(n))
      case Some(NaN) => Some(NonFinite)
      case _ => None)
  }

  /** `safeItems`: one entry per cart line, in order. */
  function SafeItems(lines: seq<Record>): (r: seq<SafeLine>)
    ensures |r| == |lines| && forall i :: 0 <= i < |lines| ==> r[i] == SafeItem(lines[i])
  {
    seq(|lines|, i requires 0 <= i < |lines| => SafeItem(lines[i]))
  }

  /** The fields of a provider cart line. */
  function LineRecord(x: Cart.CartItem): Record {
    var base := map["id" := Str(x.id), "name" := Str(x.name), "price" := Num(x.price), "qty" := Num(x.qty)];
    if x.stock.Some? then base["stock" := Num(x.stock.value)] else base
  }

  /** A line the provider built shows exactly its own id, name, price,
      quantity and stock: none of the defaults applies. */
  lemma SafeItemOfCartLine(x: Cart.CartItem)
    ensures SafeItem(LineRecord(x)) ==
      SafeLine(Some(Str(x.id)), x.name, Finite(x.price), Finite(x.qty),
               if x.stock.Some? then Some(Finite(x.stock.value)) else None)
  {
  }

  /** `lineTotal`: price times quantity. */
  function LineTotal(l: SafeLine): (r: JsNum)
    ensures r.Finite? <==> l.price.Finite? && l.qty.Finite?
    ensures r.Finite? ==> r.v == l.price.v * l.qty.v
  {
    if l.price.Finite? && l.qty.Finite? then Finite(l.price.v * l.qty.v) else NonFinite
  }

  /** The line values of a provider cart add up to its total. */
  lemma {:induction false} LineTotalsSumToTotal(items: seq<Cart.CartItem>)
    ensures SumLineTotals(items) == Cart.TotalOf(items)
    decreases |items|
  {
    if items != [] {
      LineTotalsSumToTotal(items[1..]);
      LineTotalOfCartLine(items[0]);
      assert SumLineTotals(items) == items[0].price * items[0].qty + SumLineTotals(items[1..]);
      assert items == [items[0]] + items[1..];
      Cart.TotalCons(items[0], items[1..]);
    }
  }

  /** A provider line's value is its price times its quantity. */
  lemma LineTotalOfCartLine(x: Cart.CartItem)
    ensures LineTotal(SafeItem(LineRecord(x))) == Finite(x.price * x.qty)
  {
    SafeItemOfCartLine(x);
  }

  function SumLineTotals(items: seq<Cart.CartItem>): int {
    if items == [] then 0
    else
      var t := LineTotal(SafeItem(LineRecord(items[0])));
      (if t.Finite? then t.v else 0) + SumLineTotals(items[1..])
  }

  /** `maxQty`: the stock, but at least 1, when the stock is a number;
      otherwise 99. */
  function MaxQty(l: SafeLine): (r: JsNum)
    ensures l.stock.None? ==> r == Finite(99)
    ensures l.stock.Some? ==> (r.Finite? <==> l.stock.value.Finite?)
    ensures r.Finite? ==> r.v >= 1
    ensures r.Finite? && l.stock.Some? ==> r.v >= l.stock.value.v && (l.stock.value.v >= 1 ==> r.v == l.stock.value.v)
  {
    match l.stock
    case None => Finite(99)
    case Some(Finite(s)) => Finite(Cart.Max(1, s))
    case Some(NonFinite) => NonFinite
  }

  /** The input's maximum never rules out the quantity a provider line
      holds. */
  lemma MaxQtyAdmitsLine(x: Cart.CartItem)
    requires Cart.LineOk(x)
    ensures
      var m := MaxQty(SafeItem(LineRecord(x)));
      m.Finite? && 1 <= x.qty <= m.v
  {
    SafeItemOfCartLine(x);
  }

  class CartPage {
    var msg: Option<Msg>

    constructor()
      ensures msg.None?
    {
      msg := None;
    }

    /** The quantity input's `onChange` for the line with id `id`, the input
        holding `text`: a value that does not read as a finite number is
        ignored; any other goes to `setQty` for that id. */
    method OnQtyChange(cart: Cart.CartProvider, id: string, text: string)
      requires cart.Valid()
      modifies cart
      ensures cart.Valid()
      ensures ParseNumber(text).NonFinite? ==> unchanged(cart`items, cart`log)
      ensures ParseNumber(text).Finite? ==>
        && cart.items == Cart.SetQtyStep(old(cart.items), id, ParseNumber(text)).items
        && cart.log == old(cart.log) + Cart.SetQtyStep(old(cart.items), id, ParseNumber(text)).calls
    {
      var next := ParseNumber(text);
      if next.NonFinite? {
        return;
      }
      cart.SetQty(id, next);
    }

    /** "Remove" on the line with id `id`. */
    method Remove(cart: Cart.CartProvider, id: string)
      requires cart.Valid()
      modifies cart
      ensures cart.Valid()
      ensures cart.items == Cart.RemoveStep(old(cart.items), id).items
      ensures cart.log == old(cart.log) + [Cart.DeleteCall(id)]
    {
      cart.RemoveItem(id);
    }

    /** "Clear cart": the cart is emptied and the page says so. */
    method ClearCart(cart: Cart.CartProvider)
      requires cart.Valid()
      modifies this, cart
      ensures cart.Valid() && cart.items == []
      ensures cart.log == old(cart.log) + Cart.DeleteCalls(old(cart.items))
      ensures msg == Some(Msg(Success, "Cart cleared."))
    {
      cart.Clear();
      msg := Some(Msg(Success, "Cart cleared."));
    }
  }

  /** Emptying the quantity input reads as 0, which the cart raises to 1 for
      a line whose stock is unknown or at least 1. */
  lemma EmptyInputMeansOne(stock: Option<int>)
    requires stock.None? || stock.value >= 1
    ensures ParseNumber("") == Finite(0)
    ensures Cart.ClampQty(ParseNumber(""), stock) == 1
  {
  }
}
