/** The admin page: the per-box message record, the products it lists,
    the add / update / disable / enable product writes, the order status
    write, the user name write and the password-reset request. The
    collections are maps from document id to fields. */
module AdminPage {
  import opened Common
  import Text
  import AdminDashboard

  type Section = AdminDashboard.Section

  const ALL_BOXES: set<Section> := {
    AdminDashboard.AddProductSection, AdminDashboard.ManageProductsSection,
    AdminDashboard.OrdersSection, AdminDashboard.UsersSection }

  /** The four boxes, none with a message. */
  const NO_BOX_MSGS: map<Section, Option<Msg>> := map[
    AdminDashboard.AddProductSection := None, AdminDashboard.ManageProductsSection := None,
    AdminDashboard.OrdersSection := None, AdminDashboard.UsersSection := None]

  // ---------------------------------------------------------------------
  // Products as listed

  /** A product as `loadProducts` lists it. */
  datatype PageProduct = PageProduct(
    id: string, name: string, price: JsNum, category: string,
    stock: JsNum, requiresPrescription: bool, active: bool)

  /** The entry `loadProducts` builds from a `products` document. */
  function LoadProduct(id: string, data: Record): (p: PageProduct)
    ensures p.id == id
    ensures Nullish(Get(data, "name")) ==> p.name == "Unnamed"
    ensures Nullish(Get(data, "category")) ==> p.category == ""
    ensures Nullish(Get(data, "stock")) ==> p.stock == Finite(0)
    ensures "stock" in data && data["stock"].Num? ==> p.stock == Finite(data["stock"].n)
    ensures Nullish(Get(data, "price")) ==> p.price == Finite(0)
    ensures p.requiresPrescription == Truthy(Get(data, "requiresPrescription"))
    ensures !p.active <==> "active" in data && data["active"] == Bool(false)
  {
    PageProduct(
      id,
      ValueToStr(Coalesce(Get(data, "name"), Str("Unnamed"))),
      ToNumber(Some(Coalesce(Get(data, "price"), Num(0)))),
      ValueToStr(Coalesce(Get(data, "category"), Str(""))),
      ToNumber(Some(Coalesce(Get(data, "stock"), Num(0)))),
      Truthy(Get(data, "requiresPrescription")),
      Get(data, "active") != Some(Bool(false)))
  }

  /** Only a stored `false` hides a product: a missing flag, or any other
      value, leaves it active. */
  lemma ActiveUnlessFalse(id: string, data: Record)
    requires "active" !in data || data["active"] in {Null, Bool(true), Str("false"), Num(0)}
    ensures LoadProduct(id, data).active
  {
  }

  /** `updateDoc(doc(id), patch)`: the patch's fields are written over the
      existing document; every other field and document stays. */
  function Patch(docs: map<string, Record>, id: string, patch: Record): (r: map<string, Record>)
    requires id in docs
    ensures r.Keys == docs.Keys
    ensures r[id].Keys == docs[id].Keys + patch.Keys
    ensures forall k :: k in patch ==> r[id][k] == patch[k]
    ensures forall k :: k in docs[id] && k !in patch ==> r[id][k] == docs[id][k]
    ensures forall d :: d in docs && d != id ==> r[d] == docs[d]
  {
    docs[id := docs[id] + patch]
  }

  /** The patch "Disable" writes. */
  const DISABLE_PATCH: Record := map["active" := Bool(false), "stock" := Num(0)]
  /** The patch "Enable" writes: the stock is left alone. */
  const ENABLE_PATCH: Record := map["active" := Bool(true)]

  /** Disabling and then enabling a product makes it listed as active
      again with no stock; nothing else about it, nor any other product,
      changes. */
  lemma DisableThenEnable(docs: map<string, Record>, id: string)
    requires id in docs
    ensures
      var d := Patch(Patch(docs, id, DISABLE_PATCH), id, ENABLE_PATCH);
      && d.Keys == docs.Keys
      && d[id] == docs[id]["active" := Bool(true)]["stock" := Num(0)]
      && LoadProduct(id, d[id]).active && LoadProduct(id, d[id]).stock == Finite(0)
      && (forall o :: o in docs && o != id ==> d[o] == docs[o])
  {
    var d1 := Patch(docs, id, DISABLE_PATCH);
    var d := Patch(d1, id, ENABLE_PATCH);
    DisableEnableFields(docs[id]);
    assert d[id] == docs[id] + DISABLE_PATCH + ENABLE_PATCH;
    EnabledLoadsActive(id, docs[id]);
  }

  /** The two patches in turn set `active` to true and `stock` to 0. */
  lemma DisableEnableFields(doc: Record)
    ensures doc + DISABLE_PATCH + ENABLE_PATCH == doc["active" := Bool(true)]["stock" := Num(0)]
  {
    var got := doc + DISABLE_PATCH + ENABLE_PATCH;
    var want := doc["active" := Bool(true)]["stock" := Num(0)];
    assert got.Keys == want.Keys;
    forall k | k in want
      ensures got[k] == want[k]
    {
      if k != "active" && k != "stock" {
        assert k !in DISABLE_PATCH && k !in ENABLE_PATCH;
      }
    }
  }

  /** A document whose `active` is true and `stock` 0 lists as active with
      no stock. */
  lemma EnabledLoadsActive(id: string, doc: Record)
    ensures var p := LoadProduct(id, doc["active" := Bool(true)]["stock" := Num(0)]);
      p.active && p.stock == Finite(0)
  {
    var e := doc["active" := Bool(true)]["stock" := Num(0)];
    assert Get(e, "stock") == Some(Num(0));
    assert Get(e, "active") == Some(Bool(true));
  }

  /** The "+1 Stock" patch for a listed product: its stock plus one; a NaN
      stock is sent as NaN. */
  function PlusOnePatch(p: PageProduct): (r: Record)
    ensures r.Keys == {"stock"}
    ensures p.stock.Finite? ==> r["stock"] == Num(p.stock.v + 1)
    ensures ToNumber(Some(r["stock"])) == AdminDashboard.PlusOneStock(Some(p.stock))
  {
    map["stock" := NumValue(AdminDashboard.PlusOneStock(Some(p.stock)))]
  }

  /** After "+1 Stock" succeeds the product is listed with one more unit. */
  lemma PlusOneAddsOne(docs: map<string, Record>, id: string)
    requires id in docs
    requires LoadProduct(id, docs[id]).stock.Finite?
    ensures
      var d := Patch(docs, id, PlusOnePatch(LoadProduct(id, docs[id])));
      LoadProduct(id, d[id]).stock == Finite(LoadProduct(id, docs[id]).stock.v + 1)
  {
  }

  // ---------------------------------------------------------------------
  // The add-product form

  datatype ProductForm = ProductForm(name: string, price: string, category: string, stock: string, rx: bool)

  const EMPTY_FORM: ProductForm := ProductForm("", "", "", "", false)

  /** The document `addProduct` writes from the form. */
  function NewProductRecord(f: ProductForm, serverTime: int): (r: Record)
    ensures r.Keys == {"name", "price", "category", "stock", "requiresPrescription", "active", "createdAt"}
    ensures r["active"] == Bool(true) && r["createdAt"] == Stamp(serverTime)
  {
    map[
      "name" := Str(Text.Trim(f.name)),
      "price" := NumValue(ParseNumber(f.price)),
      "category" := Str(Text.Trim(f.category)),
      "stock" := NumValue(ParseNumber(f.stock)),
      "requiresPrescription" := Bool(f.rx),
      "active" := Bool(true),
      "createdAt" := Stamp(serverTime)]
  }

  /** An added product is listed with the trimmed name and category, the
      typed price and stock read as numbers, the prescription box, and as
      active. */
  lemma AddedProductListing(id: string, f: ProductForm, serverTime: int)
    ensures LoadProduct(id, NewProductRecord(f, serverTime)) ==
      PageProduct(id, Text.Trim(f.name), ParseNumber(f.price), Text.Trim(f.category),
                  ParseNumber(f.stock), f.rx, true)
  {
    var r := NewProductRecord(f, serverTime);
    var price, stock := ParseNumber(f.price), ParseNumber(f.stock);
    var p := LoadProduct(id, r);
    assert p.name == Text.Trim(f.name) by {
      assert Get(r, "name") == Some(Str(Text.Trim(f.name)));
    }
    assert p.category == Text.Trim(f.category) by {
      assert Get(r, "category") == Some(Str(Text.Trim(f.category)));
    }
    assert p.price == price by {
      assert Get(r, "price") == Some(NumValue(price));
    }
    assert p.stock == stock by {
      assert Get(r, "stock") == Some(NumValue(stock));
    }
    assert p.requiresPrescription == f.rx by {
      assert Get(r, "requiresPrescription") == Some(Bool(f.rx));
    }
  }

  // ---------------------------------------------------------------------
  // The page

  const MSG_RESET_NO_EMAIL: string := "This user does not have an email saved."

  function ResetSentText(email: string): string {
    "Password reset email sent to " + email + ". Check Spam/Junk if needed."
  }

  /** `updateDoc` fails on a document that does not exist; `failure` is
      the store's outcome otherwise. */
  function WriteError(docs: map<string, Record>, id: string, failure: Option<StoreError>): (e: Option<StoreError>)
    ensures e.None? <==> failure.None? && id in docs
    ensures failure.Some? ==> e == failure
  {
    if failure.Some? then failure
    else if id !in docs then Some(StoreError(None))
    else None
  }

  class AdminPanel {
    var checking: bool
    var isAdmin: bool
    /** The page-wide message, shown under "Access denied". */
    var msg: Option<Msg>
    var boxMsg: map<Section, Option<Msg>>
    var form: ProductForm
    var products: map<string, Record>
    var orders: map<string, Record>
    var userDocs: map<string, Record>
    /** The addresses password-reset emails were sent to. */
    ghost var resetsSent: seq<string>

    ghost predicate Valid()
      reads this
    {
      boxMsg.Keys == ALL_BOXES
    }

    constructor()
      ensures Valid() && checking && !isAdmin && msg.None? && boxMsg == NO_BOX_MSGS
      ensures form == EMPTY_FORM && products == map[] && orders == map[] && userDocs == map[] && resetsSent == []
    {
      checking, isAdmin, msg := true, false, None;
      boxMsg := NO_BOX_MSGS;
      form := EMPTY_FORM;
      products, orders, userDocs := map[], map[], map[];
      resetsSent := [];
    }

    /** `setBoxMsg((p) => ({ ...p, [box]: m }))` */
    method SetBox(box: Section, m: Option<Msg>)
      requires Valid()
      modifies this
      ensures Valid()
      ensures boxMsg[box] == m
      ensures forall b :: b in ALL_BOXES && b != box ==> boxMsg[b] == old(boxMsg[b])
      ensures unchanged(this`checking, this`isAdmin, this`msg, this`form)
      ensures unchanged(this`products, this`orders, this`userDocs)
      ensures unchanged(this`resetsSent)
    {
      boxMsg := boxMsg[box := m];
    }

    /** `setBoxError(box, text)` */
    method SetBoxError(box: Section, text: string)
      requires Valid()
      modifies this
      ensures Valid()
      ensures boxMsg[box] == Some(Msg(Error, text))
      ensures forall b :: b in ALL_BOXES && b != box ==> boxMsg[b] == old(boxMsg[b])
      ensures unchanged(this`checking, this`isAdmin, this`msg, this`form)
      ensures unchanged(this`products, this`orders, this`userDocs)
      ensures unchanged(this`resetsSent)
    {
      SetBox(box, Some(Msg(Error, text)));
    }

    /** `setBoxSuccess(box, text)` */
    method SetBoxSuccess(box: Section, text: string)
      requires Valid()
      modifies this
      ensures Valid()
      ensures boxMsg[box] == Some(Msg(Success, text))
      ensures forall b :: b in ALL_BOXES && b != box ==> boxMsg[b] == old(boxMsg[b])
      ensures unchanged(this`checking, this`isAdmin, this`msg, this`form)
      ensures unchanged(this`products, this`orders, this`userDocs)
      ensures unchanged(this`resetsSent)
    {
      SetBox(box, Some(Msg(Success, text)));
    }

    /** The sign-in listener: messages, flags and boxes are cleared; with an
        account, its profile document decides the admin flag, and an admin's
        lists are loaded (`loadFailure` is that load's outcome). A failed
        read is reported in the page-wide message. */
    method OnAuthChange(user: Option<AuthUser>, profile: DocRead, loadFailure: Option<StoreError>)
      modifies this
      ensures Valid() && !checking && boxMsg == NO_BOX_MSGS
      ensures isAdmin <==> user.Some? && AdminDashboard.AdminFlag(profile)
      ensures AdminDashboard.ViewFor(checking, isAdmin) == AdminDashboard.Panel <==> user.Some? && AdminDashboard.AdminFlag(profile)
      ensures user.Some? && profile.ReadError? ==>
        msg == Some(Msg(Error, ErrorText(profile.error, "Failed to check admin role")))
      ensures user.Some? && AdminDashboard.AdminFlag(profile) && loadFailure.Some? ==>
        msg == Some(Msg(Error, ErrorText(loadFailure.value, "Failed to check admin role")))
      ensures user.None? || (!profile.ReadError? && !(AdminDashboard.AdminFlag(profile) && loadFailure.Some?)) ==> msg.None?
      ensures unchanged(this`form, this`products, this`orders, this`userDocs)
      ensures unchanged(this`resetsSent)
    {
      msg, checking, isAdmin := None, true, false;
      boxMsg := NO_BOX_MSGS;
      if user.None? {
        checking := false;
        return;
      }
      if profile.ReadError? {
        msg := Some(Msg(Error, ErrorText(profile.error, "Failed to check admin role")));
      } else {
        var adminFlag := AdminDashboard.AdminFlag(profile);
        isAdmin := adminFlag;
        if adminFlag && loadFailure.Some? {
          msg := Some(Msg(Error, ErrorText(loadFailure.value, "Failed to check admin role")));
        }
      }
      checking := false;
    }

    /** "Add Product": a new document from the form, under the fresh id
        `newId` the store generates; on success the form is emptied.
        `failure` is the write's outcome. */
    method AddProduct(newId: string, failure: Option<StoreError>, serverTime: int)
      requires Valid() && newId !in products
      modifies this
      ensures Valid()
      ensures failure.None? ==>
        && products == old(products)[newId := NewProductRecord(old(form), serverTime)]
        && form == EMPTY_FORM
        && boxMsg[AdminDashboard.AddProductSection] == Some(Msg(Success, "Product added successfully."))
      ensures failure.Some? ==>
        && unchanged(this`products, this`form)
        && boxMsg[AdminDashboard.AddProductSection] == Some(Msg(Error, ErrorText(failure.value, "Failed to add product")))
      ensures forall b :: b in ALL_BOXES && b != AdminDashboard.AddProductSection ==> boxMsg[b] == old(boxMsg[b])
      ensures unchanged(this`orders, this`userDocs, this`resetsSent)
      ensures unchanged(this`checking, this`isAdmin, this`msg)
    {
      var doc := NewProductRecord(form, serverTime);
      SetBox(AdminDashboard.AddProductSection, None);
      if failure.Some? {
        SetBoxError(AdminDashboard.AddProductSection, ErrorText(failure.value, "Failed to add product"));
        return;
      }
      products := products[newId := doc];
      form := EMPTY_FORM;
      SetBoxSuccess(AdminDashboard.AddProductSection, "Product added successfully.");
    }

    /** A write of `patch` to product `id`, reported in the products box
        with `done` or, on failure, the error or `fallback`. */
    method WriteProduct(id: string, patch: Record, failure: Option<StoreError>, done: string, fallback: string)
      requires Valid()
      modifies this
      ensures Valid()
      ensures WriteError(old(products), id, failure).None? ==>
        && id in old(products)
        && products == Patch(old(products), id, patch)
        && boxMsg[AdminDashboard.ManageProductsSection] == Some(Msg(Success, done))
      ensures WriteError(old(products), id, failure).Some? ==>
        && unchanged(this`products)
        && boxMsg[AdminDashboard.ManageProductsSection] == Some(Msg(Error, ErrorText(WriteError(old(products), id, failure).value, fallback)))
      ensures forall b :: b in ALL_BOXES && b != AdminDashboard.ManageProductsSection ==> boxMsg[b] == old(boxMsg[b])
      ensures unchanged(this`form, this`orders, this`userDocs, this`resetsSent)
      ensures unchanged(this`checking, this`isAdmin, this`msg)
    {
      SetBox(AdminDashboard.ManageProductsSection, None);
      var err := WriteError(products, id, failure);
      if err.Some? {
        SetBoxError(AdminDashboard.ManageProductsSection, ErrorText(err.value, fallback));
        return;
      }
      products := Patch(products, id, patch);
      SetBoxSuccess(AdminDashboard.ManageProductsSection, done);
    }

    /** `updateProduct(id, patch)`: the patch goes through as given. */
    method UpdateProduct(id: string, patch: Record, failure: Option<StoreError>)
      requires Valid()
      modifies this
      ensures Valid()
      ensures WriteError(old(products), id, failure).None? ==>
        && products == Patch(old(products), id, patch)
        && boxMsg[AdminDashboard.ManageProductsSection] == Some(Msg(Success, "Product updated."))
      ensures WriteError(old(products), id, failure).Some? ==>
        && unchanged(this`products)
        && boxMsg[AdminDashboard.ManageProductsSection] == Some(Msg(Error, ErrorText(WriteError(old(products), id, failure).value, "Failed to update product")))
      ensures forall b :: b in ALL_BOXES && b != AdminDashboard.ManageProductsSection ==> boxMsg[b] == old(boxMsg[b])
      ensures unchanged(this`form, this`orders, this`userDocs, this`resetsSent)
      ensures unchanged(this`checking, this`isAdmin, this`msg)
    {
      WriteProduct(id, patch, failure, "Product updated.", "Failed to update product");
    }

    /** "Disable": `active` false and stock 0; the document is kept. */
    method DisableProduct(id: string, failure: Option<StoreError>)
      requires Valid()
      modifies this
      ensures Valid()
      ensures WriteError(old(products), id, failure).None? ==>
        && products == Patch(old(products), id, DISABLE_PATCH)
        && !LoadProduct(id, products[id]).active && LoadProduct(id, products[id]).stock == Finite(0)
        && boxMsg[AdminDashboard.ManageProductsSection] == Some(Msg(Success, "Product disabled (not deleted)."))
      ensures WriteError(old(products), id, failure).Some? ==>
        && unchanged(this`products)
        && boxMsg[AdminDashboard.ManageProductsSection] == Some(Msg(Error, ErrorText(WriteError(old(products), id, failure).value, "Failed to disable product")))
      ensures forall b :: b in ALL_BOXES && b != AdminDashboard.ManageProductsSection ==> boxMsg[b] == old(boxMsg[b])
      ensures unchanged(this`form, this`orders, this`userDocs, this`resetsSent)
      ensures unchanged(this`checking, this`isAdmin, this`msg)
    {
      WriteProduct(id, DISABLE_PATCH, failure, "Product disabled (not deleted).", "Failed to disable product");
    }

    /** "Enable": only `active` is written. */
    method EnableProduct(id: string, failure: Option<StoreError>)
      requires Valid()
      modifies this
      ensures Valid()
      ensures WriteError(old(products), id, failure).None? ==>
        && products == Patch(old(products), id, ENABLE_PATCH)
        && LoadProduct(id, products[id]).active
        && LoadProduct(id, products[id]).stock == LoadProduct(id, old(products)[id]).stock
        && boxMsg[AdminDashboard.ManageProductsSection] == Some(Msg(Success, "Product enabled."))
      ensures WriteError(old(products), id, failure).Some? ==>
        && unchanged(this`products)
        && boxMsg[AdminDashboard.ManageProductsSection] == Some(Msg(Error, ErrorText(WriteError(old(products), id, failure).value, "Failed to enable product")))
      ensures forall b :: b in ALL_BOXES && b != AdminDashboard.ManageProductsSection ==> boxMsg[b] == old(boxMsg[b])
      ensures unchanged(this`form, this`orders, this`userDocs, this`resetsSent)
      ensures unchanged(this`checking, this`isAdmin, this`msg)
    {
      WriteProduct(id, ENABLE_PATCH, failure, "Product enabled.", "Failed to enable product");
    }

    /** The status selector of order `orderId`. */
    method UpdateOrderStatus(orderId: string, status: string, failure: Option<StoreError>)
      requires Valid()
      modifies this
      ensures Valid()
      ensures WriteError(old(orders), orderId, failure).None? ==>
        && orders == Patch(old(orders), orderId, map["status" := Str(status)])
        && boxMsg[AdminDashboard.OrdersSection] == Some(Msg(Success, "Order status updated."))
      ensures WriteError(old(orders), orderId, failure).Some? ==>
        && unchanged(this`orders)
        && boxMsg[AdminDashboard.OrdersSection] == Some(Msg(Error, ErrorText(WriteError(old(orders), orderId, failure).value, "Failed to update order status")))
      ensures forall b :: b in ALL_BOXES && b != AdminDashboard.OrdersSection ==> boxMsg[b] == old(boxMsg[b])
      ensures unchanged(this`form, this`products, this`userDocs, this`resetsSent)
      ensures unchanged(this`checking, this`isAdmin, this`msg)
    {
      SetBox(AdminDashboard.OrdersSection, None);
      var err := WriteError(orders, orderId, failure);
      if err.Some? {
        SetBoxError(AdminDashboard.OrdersSection, ErrorText(err.value, "Failed to update order status"));
        return;
      }
      orders := Patch(orders, orderId, map["status" := Str(status)]);
      SetBoxSuccess(AdminDashboard.OrdersSection, "Order status updated.");
    }

    /** "Save" for the user `uid` with the edited `displayName` (absent is
        ""): the trimmed name is written to the existing user document. */
    method SaveUser(uid: string, displayName: Option<string>, failure: Option<StoreError>)
      requires Valid()
      modifies this
      ensures Valid()
      ensures WriteError(old(userDocs), uid, failure).None? ==>
        && userDocs == Patch(old(userDocs), uid, map["displayName" := Str(Text.Trim(displayName.GetOr("")))])
        && boxMsg[AdminDashboard.UsersSection] == Some(Msg(Success, "User updated successfully."))
      ensures WriteError(old(userDocs), uid, failure).Some? ==>
        && unchanged(this`userDocs)
        && boxMsg[AdminDashboard.UsersSection] == Some(Msg(Error, ErrorText(WriteError(old(userDocs), uid, failure).value, "Failed to update user")))
      ensures forall b :: b in ALL_BOXES && b != AdminDashboard.UsersSection ==> boxMsg[b] == old(boxMsg[b])
      ensures unchanged(this`form, this`products, this`orders, this`resetsSent)
      ensures unchanged(this`checking, this`isAdmin, this`msg)
    {
      SetBox(AdminDashboard.UsersSection, None);
      var err := WriteError(userDocs, uid, failure);
      if err.Some? {
        SetBoxError(AdminDashboard.UsersSection, ErrorText(err.value, "Failed to update user"));
        return;
      }
      userDocs := Patch(userDocs, uid, map["displayName" := Str(Text.Trim(displayName.GetOr("")))]);
      SetBoxSuccess(AdminDashboard.UsersSection, "User updated successfully.");
    }

    /** "Send reset" for a user whose stored email is `email`: without an
        email nothing is sent. */
    method SendReset(email: Option<string>, failure: Option<StoreError>)
      requires Valid()
      modifies this
      ensures Valid()
      ensures email.None? || email == Some("") ==>
        unchanged(this`resetsSent) && boxMsg[AdminDashboard.UsersSection] == Some(Msg(Error, MSG_RESET_NO_EMAIL))
      ensures email.Some? && email.value != "" && failure.None? ==>
        && resetsSent == old(resetsSent) + [email.value]
        && boxMsg[AdminDashboard.UsersSection] == Some(Msg(Success, ResetSentText(email.value)))
      ensures email.Some? && email.value != "" && failure.Some? ==>
        && unchanged(this`resetsSent)
        && boxMsg[AdminDashboard.UsersSection] == Some(Msg(Error, ErrorText(failure.value, "Failed to send password reset email")))
      ensures forall b :: b in ALL_BOXES && b != AdminDashboard.UsersSection ==> boxMsg[b] == old(boxMsg[b])
      ensures unchanged(this`form, this`products, this`orders, this`userDocs)
      ensures unchanged(this`checking, this`isAdmin, this`msg)
    {
      SetBox(AdminDashboard.UsersSection, None);
      if email.None? || email.value == "" {
        SetBoxError(AdminDashboard.UsersSection, MSG_RESET_NO_EMAIL);
        return;
      }
      if failure.Some? {
        SetBoxError(AdminDashboard.UsersSection, ErrorText(failure.value, "Failed to send password reset email"));
        return;
      }
      resetsSent := resetsSent + [email.value];
      SetBoxSuccess(AdminDashboard.UsersSection, ResetSentText(email.value));
    }
  }
}
