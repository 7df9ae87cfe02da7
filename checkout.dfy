/** The checkout button: two guards (signed in, then a non-empty cart),
    then one order written to the `orders` collection, and the cart cleared
    only once that write has succeeded. */
module Checkout {
  import opened Common
  import Cart

  /** A line of a written order. Money is in pence. */
  datatype OrderLine = OrderLine(productId: string, name: string, qty: int, price: int, lineTotal: int)

  /** A written order. `email` is `None` when the account has no email (the
      stored null); `createdAt` is the server's clock at the write. */
  datatype Order = Order(uid: string, email: Option<string>, items: seq<OrderLine>, total: int, status: string, createdAt: int)

  const PENDING: string := "pending"

  const MSG_NOT_SIGNED_IN: string := "You must be logged in to checkout."
  const MSG_EMPTY_CART: string := "Your cart is empty."
  const MSG_PLACED: string := "Order placed successfully."
  const MSG_FAILED: string := "Checkout failed."

  /** `safeItems`: one order line per cart line, in order, copying id, name,
      quantity and price, with the line's value as `price * qty`. */
  function OrderLines(items: seq<Cart.CartItem>): (r: seq<OrderLine>)
    ensures |r| == |items|
    ensures forall i :: 0 <= i < |items| ==>
      && r[i].productId == items[i].id && r[i].name == items[i].name
      && r[i].qty == items[i].qty && r[i].price == items[i].price
      && r[i].lineTotal == r[i].price * r[i].qty
  {
    if items == [] then []
    else
      [OrderLine(items[0].id, items[0].name, items[0].qty, items[0].price, items[0].price * items[0].qty)]
        + OrderLines(items[1..])
  }

  function LinesTotal(lines: seq<OrderLine>): int {
    if lines == [] then 0 else lines[0].lineTotal + LinesTotal(lines[1..])
  }

  /** The order's total is the sum of its line totals. */
  lemma {:induction false} OrderTotalIsSumOfLines(items: seq<Cart.CartItem>)
    ensures LinesTotal(OrderLines(items)) == Cart.TotalOf(items)
    decreases |items|
  {
    if items != [] {
      OrderTotalIsSumOfLines(items[1..]);
      assert items == [items[0]] + items[1..];
      Cart.TotalCons(items[0], items[1..]);
    }
  }

  /** The order written for `user` and the cart's lines. */
  function OrderFor(user: AuthUser, items: seq<Cart.CartItem>, serverTime: int): (o: Order)
    ensures o.uid == user.uid && o.email == user.email && o.status == PENDING
    ensures o.items == OrderLines(items) && o.total == Cart.TotalOf(items) && o.createdAt == serverTime
  {
    Order(user.uid, user.email, OrderLines(items), Cart.TotalOf(items), PENDING, serverTime)
  }

  /** The `orders` collection, as the sequence of orders written to it. */
  class OrdersCollection {
    var orders: seq<Order>

    constructor()
      ensures orders == []
    {
      orders := [];
    }

    method Add(o: Order, failure: Option<StoreError>)
      modifies this
      ensures failure.None? ==> orders == old(orders) + [o]
      ensures failure.Some? ==> unchanged(this`orders)
    {
      if failure.None? {
        orders := orders + [o];
      }
    }
  }

  class CheckoutButton {
    var loading: bool
    /** Every value handed to `onMsg`, in order (`None` is the reset). */
    ghost var sent: seq<Option<Msg>>

    constructor()
      ensures !loading && sent == []
    {
      loading := false;
      sent := [];
    }

    /** `checkout()` for the signed-in account `user`. `failure` is the
        outcome of the order write; `serverTime` the server clock. */
    method Checkout(cart: Cart.CartProvider, store: OrdersCollection, user: Option<AuthUser>, failure: Option<StoreError>, serverTime: int)
      requires cart.Valid()
      modifies this, cart, store
      ensures cart.Valid()
      ensures user.None? ==>
        && sent == old(sent) + [None, Some(Msg(Error, MSG_NOT_SIGNED_IN))]
        && unchanged(store`orders)
        && unchanged(cart`items, cart`log)
        && unchanged(this`loading)
      ensures user.Some? && old(cart.items) == [] ==>
        && sent == old(sent) + [None, Some(Msg(Error, MSG_EMPTY_CART))]
        && unchanged(store`orders)
        && unchanged(cart`items, cart`log)
        && unchanged(this`loading)
      ensures user.Some? && old(cart.items) != [] && failure.Some? ==>
        && sent == old(sent) + [None, Some(Msg(Error, ErrorText(failure.value, MSG_FAILED)))]
        && unchanged(store`orders)
        && unchanged(cart`items, cart`log)
        && !loading
      ensures user.Some? && old(cart.items) != [] && failure.None? ==>
        && sent == old(sent) + [None, Some(Msg(Success, MSG_PLACED))]
        && store.orders == old(store.orders) + [OrderFor(user.value, old(cart.items), serverTime)]
        && cart.items == [] && cart.log == old(cart.log) + Cart.DeleteCalls(old(cart.items))
        && !loading
    {
      sent := sent + [None];
      if user.None? {
        sent := sent + [Some(Msg(Error, MSG_NOT_SIGNED_IN))];
        return;
      }
      if |cart.items| == 0 {
        sent := sent + [Some(Msg(Error, MSG_EMPTY_CART))];
        return;
      }
      loading := true;
      var items := cart.items;
      var order := OrderFor(user.value, items, serverTime);
      store.Add(order, failure);
      if failure.None? {
        cart.Clear();
        sent := sent + [Some(Msg(Success, MSG_PLACED))];
      } else {
        sent := sent + [Some(Msg(Error, ErrorText(failure.value, MSG_FAILED)))];
      }
      loading := false;
    }
  }
}
