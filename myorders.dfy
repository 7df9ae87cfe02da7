/** The signed-in shopper's orders page: each stored order with its
    defaults, the status badge, the date text, and what signing out
    clears. */
module MyOrders {
  import opened Common
  import Text

  /** The badge for an order status: the text it shows, its border and its
      text colour. */
  datatype Badge = Badge(text: string, border: string, color: string)

  /** `statusBadge(status)`: the colours follow the lower-cased status;
      the label is the status as stored, or "pending" when empty. */
  function StatusBadge(status: string): (b: Badge)
    ensures b.text == if status == "" then "pending" else status
    ensures Text.Lower(status) == "pending" ==> b.border == "#aa6" && b.color == "gold"
    ensures Text.Lower(status) == "processing" ==> b.border == "#6af" && b.color == "#9cf"
    ensures Text.Lower(status) == "completed" ==> b.border == "#6a6" && b.color == "limegreen"
    ensures Text.Lower(status) == "cancelled" ==> b.border == "#a66" && b.color == "crimson"
    ensures Text.Lower(status) !in {"pending", "processing", "completed", "cancelled"} ==>
      b.border == "#444" && b.color == "#ddd"
  {
    var s := Text.Lower(status);
    var shown := if status == "" then "pending" else status;
    if s == "pending" then Badge(shown, "#aa6", "gold")
    else if s == "processing" then Badge(shown, "#6af", "#9cf")
    else if s == "completed" then Badge(shown, "#6a6", "limegreen")
    else if s == "cancelled" then Badge(shown, "#a66", "crimson")
    else Badge(shown, "#444", "#ddd")
  }

  /** The colours ignore letter case. The label text keeps its case; the badge's lower-case display styling is not modelled. */
  lemma BadgeColourIgnoresCase(status: string)
    ensures StatusBadge(Text.Lower(status)).border == StatusBadge(status).border
    ensures StatusBadge(Text.Lower(status)).color == StatusBadge(status).color
  {
    Text.LowerIdempotent(status);
  }

  /** An empty status is labelled "pending" but drawn in the colours of an
      unknown one, not in those of a pending order. */
  lemma EmptyStatusLabelledPending()
    ensures StatusBadge("") == Badge("pending", "#444", "#ddd")
    ensures StatusBadge("pending") == Badge("pending", "#aa6", "gold")
  {
    assert Text.Lower("") == "";
    assert Text.Lower("pending") == "pending";
  }

  /** `formatDate(createdAt)`: a store timestamp is turned into text by
      `render` (the browser's locale formatting); anything without
      `toDate` gives "". */
  function FormatDate(createdAt: Option<Value>, render: int -> string): (r: string)
    ensures (createdAt.None? || !createdAt.value.Stamp?) ==> r == ""
  {
    match createdAt
    case Some(Stamp(ms)) => render(ms)
    case _ => ""
  }

  /** An order as the page lists it. */
  datatype OrderView = OrderView(id: string, total: JsNum, status: string, createdAt: Option<Value>, items: seq<Value>)

  /** The entry built from an `orders` document. */
  function OrderFromDoc(id: string, data: Record): (o: OrderView)
    ensures o.id == id && o.createdAt == Get(data, "createdAt")
    ensures Nullish(Get(data, "total")) ==> o.total == Finite(0)
    ensures "total" in data && data["total"].Num? ==> o.total == Finite(data["total"].n)
    ensures Nullish(Get(data, "status")) ==> o.status == "pending"
    ensures "status" in data && data["status"].Str? ==> o.status == data["status"].s
    ensures "items" in data && data["items"].Arr? ==> o.items == data["items"].elems
    ensures !("items" in data && data["items"].Arr?) ==> o.items == []
  {
    OrderView(
      id,
      ToNumber(Some(Coalesce(Get(data, "total"), Num(0)))),
      ValueToStr(Coalesce(Get(data, "status"), Str("pending"))),
      Get(data, "createdAt"),
      if "items" in data && data["items"].Arr? then data["items"].elems else [])
  }

  /** An order without a status is drawn as a pending one. */
  lemma MissingStatusIsPending(id: string, data: Record)
    requires "status" !in data
    ensures StatusBadge(OrderFromDoc(id, data).status) == Badge("pending", "#aa6", "gold")
  {
    assert OrderFromDoc(id, data).status == "pending";
    EmptyStatusLabelledPending();
  }

  class OrdersPage {
    var loading: bool
    var uid: Option<string>
    var orders: seq<OrderView>
    var err: string

    constructor()
      ensures loading && uid.None? && orders == [] && err == ""
    {
      loading, uid, orders, err := true, None, [], "";
    }

    /** The sign-in listener: signing out clears the orders and the account;
        signing in starts listening for its orders. */
    method OnAuthChange(user: Option<AuthUser>)
      modifies this
      ensures err == ""
      ensures user.None? ==> uid.None? && orders == [] && !loading
      ensures user.Some? ==> uid == Some(user.value.uid) && unchanged(this`orders) && loading
    {
      err := "";
      loading := true;
      if user.None? {
        uid := None;
        orders := [];
        loading := false;
        return;
      }
      uid := Some(user.value.uid);
    }

    /** The account's orders arrive (newest first, as the store sends
        them). */
    method OnSnapshot(docs: seq<(string, Record)>)
      modifies this
      ensures |orders| == |docs| && !loading
      ensures forall i :: 0 <= i < |docs| ==> orders[i] == OrderFromDoc(docs[i].0, docs[i].1)
      ensures unchanged(this`uid, this`err)
    {
      orders := seq(|docs|, i requires 0 <= i < |docs| => OrderFromDoc(docs[i].0, docs[i].1));
      loading := false;
    }

    /** The listener fails. */
    method OnSnapshotError(e: StoreError)
      modifies this
      ensures err == ErrorText(e, "Failed to load orders") && !loading
      ensures unchanged(this`uid, this`orders)
    {
      err := ErrorText(e, "Failed to load orders");
      loading := false;
    }
  }
}
