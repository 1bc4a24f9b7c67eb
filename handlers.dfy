/**
 * The per-state handlers of the chat engine. Each handler takes the
 * conversation object the router loaded, rewrites its `state` and `context`
 * in place, may write the cart through the store, and returns the reply or
 * the exception it raises. Wording is not modelled: replies are given by
 * kind, ids, titles and the data they show.
 */
module Handlers {
  import opened Wrappers
  import opened Strings
  import opened Seqs
  import opened Sellers
  import opened Products
  import opened Chat
  import opened Orders
  import opened Messages
  import opened Database
  import Cart
  import Mpesa

  /**
   * How the payment handler calls the STK push. `AsWritten` is the call as the
   * handler makes it, with a `callback_url` keyword the service does not
   * accept; `Corrected` is the call without it, with the settings, access
   * token, clock and the POST's answer given as parameters.
   */
  datatype StkCall =
    | AsWritten
    | Corrected(settings: Mpesa.Settings, token: Option<string>, clock: Mpesa.Clock, post: Option<Mpesa.StkResponse>)

  const MenuButtons := [Button("search_by_keyword", "🔍 Search for an item"), Button("view_all_products", "Browse All Products"),
                        Button("view_cart", "View Cart 🛒")]
  const CartButtons := [Button("checkout", "Proceed to Checkout"), Button("keep_shopping", "Add More Items")]
  const DeliveryButtons := [Button("select_delivery", "🚚 Delivery"), Button("select_pickup", "🏢 Pickup")]

  /** The two buttons under a product's details. */
  function DetailButtons(id: nat): seq<Button> {
    [Button(AddToCartPrefix + NatToString(id), "Add to Cart 🛒"), Button("show_menu", "Main Menu")]
  }

  /** The conversation's customer and seller rows exist in a consistent store. */
  predicate Attached(c: Conversation, db: Store)
    reads db
  {
    db.Valid() && c.customer in db.customers && c.seller in db.profiles
  }

  /** The conversation's seller has its profile and user rows. */
  predicate Serves(c: Conversation, db: Store)
    reads db
  {
    c.seller in db.profiles && c.seller in db.users
  }

  /** State and context are as given. */
  predicate Kept(c: Conversation, state: string, ctx: Context)
    reads c
  {
    c.state == state && c.context == ctx
  }

  /** The conversation is in state `s` with context `ctx`. */
  predicate At(c: Conversation, s: ConvState, ctx: Context)
    reads c
  {
    c.state == StateName(s) && c.context == ctx
  }

  /** Only the orders table (and its id counter) differs. */
  predicate OnlyOrders(before: Db, after: Db) {
    after == before.(orders := after.orders, nextOrderId := after.nextOrderId)
  }

  /** A reply the sender accepts: text or interactive. */
  predicate Sendable(out: Outcome) {
    out.Replied? ==> !out.payload.Opaque?
  }

  function SetOrder(d: Db, id: nat, o: Order): Db {
    d.(orders := d.orders[id := o])
  }

  // ---------------------------------------------------------------- lists and details

  /** The rows of a product list: one per product, the first ten only. */
  function ListRows(products: map<nat, Product>, ids: seq<nat>): (r: seq<Row>)
    requires forall i :: 0 <= i < |ids| ==> ids[i] in products
    ensures |r| == if |ids| < 10 then |ids| else 10
    ensures forall i :: 0 <= i < |r| ==> r[i] == ProductRow(ids[i], products[ids[i]])
  {
    var n := if |ids| < 10 then |ids| else 10;
    seq(n, i requires 0 <= i < n => ProductRow(ids[i], products[ids[i]]))
  }

  /**
   * A product list fits WhatsApp's limits (10 rows, titles of 24 and
   * descriptions of 72 characters), and every row's id reads back, through the
   * selection handler's parse, as the product it shows.
   */
  lemma ListRowsBounds(products: map<nat, Product>, ids: seq<nat>)
    requires forall i :: 0 <= i < |ids| ==> ids[i] in products
    ensures |ListRows(products, ids)| <= 10
    ensures forall i :: 0 <= i < |ListRows(products, ids)| ==>
              && |ListRows(products, ids)[i].title| <= 24
              && ListRows(products, ids)[i].description.Some?
              && |ListRows(products, ids)[i].description.value| <= 72
              && StartsWith(ListRows(products, ids)[i].id, ProductIdPrefix)
              && ParsePyInt(LastSegment(ListRows(products, ids)[i].id, '_')) == Some(ids[i] as int)
  {
    var r := ListRows(products, ids);
    forall i | 0 <= i < |r|
      ensures StartsWith(r[i].id, ProductIdPrefix) && ParsePyInt(LastSegment(r[i].id, '_')) == Some(ids[i] as int)
    {
      ProductRowNamesProduct(ids[i], products[ids[i]]);
    }
  }

  /** The row-building loop of the product list handlers. */
  method BuildRows(products: map<nat, Product>, ids: seq<nat>) returns (rows: seq<Row>)
    requires forall i :: 0 <= i < |ids| ==> ids[i] in products
    ensures rows == ListRows(products, ids)
  {
    var n := if |ids| < 10 then |ids| else 10;
    rows := [];
    var i := 0;
    while i < n
      invariant 0 <= i <= n && |rows| == i
      invariant forall j :: 0 <= j < i ==> rows[j] == ProductRow(ids[j], products[ids[j]])
    {
      rows := rows + [ProductRow(ids[i], products[ids[i]])];
      i := i + 1;
    }
  }

  /** The effect of `_send_product_list_message`: no products go back to the menu state, otherwise a list is shown. */
  predicate Listed(c: Conversation, out: Outcome, ctx: Context, products: map<nat, Product>, ids: seq<nat>, header: string)
    reads c
    requires forall i :: 0 <= i < |ids| ==> ids[i] in products
  {
    if |ids| == 0 then At(c, AwaitingCommand, ctx) && out == Replied(Text(NoProducts))
    else At(c, AwaitingProductSelection, ctx) && out == Replied(Interactive(List(header, CatalogBody, ListRows(products, ids))))
  }

  method SendProductList(c: Conversation, products: map<nat, Product>, ids: seq<nat>, header: string) returns (out: Outcome)
    requires forall i :: 0 <= i < |ids| ==> ids[i] in products
    modifies c
    ensures Listed(c, out, old(c.context), products, ids, header)
  {
    if |ids| == 0 {
      c.state := StateName(AwaitingCommand);
      return Replied(Text(NoProducts));
    }
    var rows := BuildRows(products, ids);
    c.state := StateName(AwaitingProductSelection);
    out := Replied(Interactive(List(header, CatalogBody, rows)));
  }

  function DetailsPayload(id: nat, p: Product): Payload {
    Interactive(Buttons(ProductBody(p.name, p.description, p.price), DetailButtons(id)))
  }

  /** The effect of `_send_product_details_interactive`: the product is remembered and its actions offered. */
  predicate Shown(c: Conversation, out: Outcome, ctx: Context, products: map<nat, Product>, pid: nat)
    reads c
    requires pid in products
  {
    At(c, AwaitingProductAction, ctx[ViewedProductKey := CInt(pid)]) && out == Replied(DetailsPayload(pid, products[pid]))
  }

  method ShowDetails(c: Conversation, products: map<nat, Product>, pid: nat) returns (out: Outcome)
    requires pid in products
    modifies c
    ensures Shown(c, out, old(c.context), products, pid)
  {
    c.context := c.context[ViewedProductKey := CInt(pid)];
    c.state := StateName(AwaitingProductAction);
    out := Replied(DetailsPayload(pid, products[pid]));
  }

  // ---------------------------------------------------------------- greeting and menu

  /** The greeting: the shop's company name, or the seller's username. */
  method HandleStarted(c: Conversation, db: Store) returns (out: Outcome)
    requires Serves(c, db)
    modifies c
    ensures At(c, AwaitingCommand, old(c.context))
    ensures out == Replied(Text(Welcome(ShopName(db.profiles[c.seller], db.users[c.seller]))))
    ensures Sendable(out)
  {
    c.state := StateName(AwaitingCommand);
    out := Replied(Text(Welcome(ShopName(db.profiles[c.seller], db.users[c.seller]))));
  }

  function MenuPayload(d: Db, seller: nat): Payload
    requires seller in d.profiles && seller in d.users
  {
    Interactive(Buttons(MenuBody(ShopName(d.profiles[seller], d.users[seller])), MenuButtons))
  }

  /** The main menu is shown and the conversation waits for a command. */
  predicate MenuShown(c: Conversation, out: Outcome, ctx: Context, d: Db)
    reads c
    requires c.seller in d.profiles && c.seller in d.users
  {
    At(c, AwaitingCommand, ctx) && out == Replied(MenuPayload(d, c.seller))
  }

  /** The menu handler: its two menu buttons act, anything else shows the menu. */
  method HandleAwaitingCommand(c: Conversation, db: Store, m: Incoming) returns (out: Outcome)
    requires Serves(c, db)
    modifies c
    ensures ButtonIdOf(m) == Some("search_by_keyword") ==>
              At(c, AwaitingProductSelection, old(c.context)) && out == Replied(Text(SearchPrompt))
    ensures ButtonIdOf(m) == Some("view_all_products") ==>
              Listed(c, out, old(c.context), db.products, ActiveProducts(db.Rows(), c.seller), "Our Full Catalog")
    ensures ButtonIdOf(m) != Some("search_by_keyword") && ButtonIdOf(m) != Some("view_all_products") ==>
              MenuShown(c, out, old(c.context), db.Rows())
    ensures Sendable(out)
  {
    var b := ButtonIdOf(m);
    if b == Some("search_by_keyword") {
      c.state := StateName(AwaitingProductSelection);
      return Replied(Text(SearchPrompt));
    } else if b == Some("view_all_products") {
      var ids := ActiveProducts(db.Rows(), c.seller);
      out := SendProductList(c, db.products, ids, "Our Full Catalog");
      return;
    }
    c.state := StateName(AwaitingCommand);
    out := Replied(MenuPayload(db.Rows(), c.seller));
  }

  // ---------------------------------------------------------------- product selection and action

  /** A list reply whose id carries the product prefix. */
  function ListChoice(m: Incoming): Option<string> {
    if m.InteractiveMessage? && m.reply.ListReply? && StartsWith(m.reply.id, ProductIdPrefix) then Some(m.reply.id) else None
  }

  /** What a product lookup finds: a product id, nothing, or a value `int()` refuses. */
  datatype Lookup = Found(id: nat) | Missing | BadValue

  /**
   * `int(id.split('_')[-1])` followed by a get on this seller's products,
   * restricted to active ones when `activeOnly`.
   */
  function IdLookup(products: map<nat, Product>, seller: nat, id: string, activeOnly: bool): (r: Lookup)
    ensures r.BadValue? <==> ParsePyInt(LastSegment(id, '_')).None?
    ensures r.Found? ==> && r.id in products && products[r.id].seller == seller
                         && (activeOnly ==> products[r.id].isActive)
                         && ParsePyInt(LastSegment(id, '_')) == Some(r.id as int)
  {
    match ParsePyInt(LastSegment(id, '_'))
    case None => BadValue
    case Some(n) =>
      if n >= 0 && n as nat in products && products[n as nat].seller == seller && (products[n as nat].isActive || !activeOnly)
      then Found(n as nat) else Missing
  }

  /** The outcome of a text search: one match is shown, several are listed again, none is reported. */
  predicate Searched(c: Conversation, out: Outcome, state: string, ctx: Context, products: map<nat, Product>, ids: seq<nat>)
    reads c
    requires forall i :: 0 <= i < |ids| ==> ids[i] in products
  {
    if |ids| == 1 then Shown(c, out, ctx, products, ids[0])
    else if |ids| > 1 then
      At(c, AwaitingProductSelection, ctx) && out == Replied(Interactive(List("Multiple Matches Found", MatchesBody, ListRows(products, ids))))
    else Kept(c, state, ctx) && out == Replied(Text(NoMatch))
  }

  method HandleProductSelection(c: Conversation, db: Store, m: Incoming) returns (out: Outcome)
    modifies c
    ensures ListChoice(m).Some? && IdLookup(db.products, c.seller, ListChoice(m).value, true).Found? ==>
              Shown(c, out, old(c.context), db.products, IdLookup(db.products, c.seller, ListChoice(m).value, true).id)
    ensures ListChoice(m).Some? && !IdLookup(db.products, c.seller, ListChoice(m).value, true).Found? ==>
              Kept(c, old(c.state), old(c.context)) && out == Replied(Text(SelectionError))
    ensures ListChoice(m).None? && TextOf(m) == "" ==>
              Kept(c, old(c.state), old(c.context)) && out == Replied(Text(AskWhichProduct))
    ensures ListChoice(m).None? && TextOf(m) != "" ==>
              Searched(c, out, old(c.state), old(c.context), db.products, MatchingProducts(db.Rows(), c.seller, TextOf(m)))
    ensures Sendable(out)
  {
    var choice := ListChoice(m);
    if choice.Some? {
      var found := IdLookup(db.products, c.seller, choice.value, true);
      if found.Found? {
        out := ShowDetails(c, db.products, found.id);
      } else {
        out := Replied(Text(SelectionError));
      }
      return;
    }
    var text := TextOf(m);
    if text == "" {
      return Replied(Text(AskWhichProduct));
    }
    var ids := MatchingProducts(db.Rows(), c.seller, text);
    if |ids| == 1 {
      out := ShowDetails(c, db.products, ids[0]);
    } else if |ids| > 1 {
      var rows := BuildRows(db.products, ids);
      c.state := StateName(AwaitingProductSelection);
      out := Replied(Interactive(List("Multiple Matches Found", MatchesBody, rows)));
    } else {
      out := Replied(Text(NoMatch));
    }
  }

  /**
   * Choosing a row of the catalogue list, in the selection handler, finds
   * exactly the product that row shows.
   */
  lemma CatalogRowSelects(d: Db, seller: nat, i: nat)
    requires i < |ListRows(d.products, ActiveProducts(d, seller))|
    ensures var row := ListRows(d.products, ActiveProducts(d, seller))[i];
            && ListChoice(InteractiveMessage(ListReply(row.id))) == Some(row.id)
            && IdLookup(d.products, seller, row.id, true) == Found(ActiveProducts(d, seller)[i])
  {
    var ids := ActiveProducts(d, seller);
    ProductRowNamesProduct(ids[i], d.products[ids[i]]);
  }

  /** The size prompt: up to three sizes as buttons, more as a list. */
  function SizePrompt(p: Product): Payload {
    if |p.sizes| <= 3 then Interactive(Buttons(SizeBody(p.name), SizeButtons(p.sizes)))
    else Interactive(List("Available Sizes", SizeBody(p.name), SizeRows(p.sizes)))
  }

  /**
   * A size prompt fits WhatsApp's limits (3 buttons of 20 characters, or 10
   * rows of 24), and each size it offers is stored exactly when chosen.
   */
  lemma SizePromptOffers(p: Product)
    ensures var r := SizePrompt(p).message;
            && (r.Buttons? ==> && |r.buttons| == |p.sizes| <= 3
                               && forall i :: 0 <= i < |r.buttons| ==>
                                    |r.buttons[i].title| <= 20 && StartsWith(r.buttons[i].id, SizePrefix)
                                    && SizeOfReply(r.buttons[i].id) == p.sizes[i])
            && (r.List? ==> && |r.rows| <= 10 && |p.sizes| > 3
                            && forall i :: 0 <= i < |r.rows| ==>
                                 |r.rows[i].title| <= 24 && StartsWith(r.rows[i].id, SizePrefix)
                                 && SizeOfReply(r.rows[i].id) == p.sizes[i])
  {
    forall i | 0 <= i < |p.sizes| ensures StartsWith(SizeButton(p.sizes[i]).id, SizePrefix) && SizeOfReply(SizeButton(p.sizes[i]).id) == p.sizes[i] {
      SizeReplyRoundTrip(p.sizes[i]);
    }
    forall i | 0 <= i < |p.sizes| ensures StartsWith(SizeRow(p.sizes[i]).id, SizePrefix) && SizeOfReply(SizeRow(p.sizes[i]).id) == p.sizes[i] {
      SizeReplyRoundTrip(p.sizes[i]);
    }
  }

  /** After "add to cart" on a product: a size is asked when it has sizes, otherwise the quantity. */
  predicate SizeAsked(c: Conversation, out: Outcome, ctx: Context, pid: nat, p: Product)
    reads c
  {
    if |p.sizes| > 0 then At(c, AwaitingSizeSelection, ctx[ViewedProductKey := CInt(pid)]) && out == Replied(SizePrompt(p))
    else At(c, AwaitingQuantity, ctx[ViewedProductKey := CInt(pid)]) && out == Replied(Text(AskQuantity))
  }

  /** The reply is a button whose id carries the add-to-cart prefix. */
  predicate AddButton(m: Incoming) {
    ButtonIdOf(m).Some? && StartsWith(ButtonIdOf(m).value, AddToCartPrefix)
  }

  /** The effect of an add-to-cart button, by what the lookup (which ignores `is_active`) finds. */
  predicate ActionTaken(c: Conversation, out: Outcome, state: string, ctx: Context, products: map<nat, Product>, r: Lookup)
    reads c
    requires r.Found? ==> r.id in products
  {
    match r
    case BadValue => Kept(c, state, ctx) && out == Raised(ValueError)
    case Missing => At(c, AwaitingCommand, ctx) && out == Replied(Text(ProductUnavailable))
    case Found(pid) => SizeAsked(c, out, ctx, pid, products[pid])
  }

  /** Remembers the product and asks for its size, or for the quantity when it has no sizes. */
  method AskSize(c: Conversation, pid: nat, product: Product) returns (out: Outcome)
    modifies c
    ensures SizeAsked(c, out, old(c.context), pid, product)
  {
    c.context := c.context[ViewedProductKey := CInt(pid)];
    if |product.sizes| > 0 {
      c.state := StateName(AwaitingSizeSelection);
      return Replied(SizePrompt(product));
    }
    c.state := StateName(AwaitingQuantity);
    out := Replied(Text(AskQuantity));
  }

  method HandleProductAction(c: Conversation, db: Store, m: Incoming) returns (out: Outcome)
    requires Serves(c, db)
    modifies c
    ensures AddButton(m) ==>
              ActionTaken(c, out, old(c.state), old(c.context), db.products, IdLookup(db.products, c.seller, ButtonIdOf(m).value, false))
    ensures ButtonIdOf(m) == Some("show_menu") ==> MenuShown(c, out, old(c.context), db.Rows())
    ensures !AddButton(m) && ButtonIdOf(m) != Some("show_menu") ==>
              Kept(c, old(c.state), old(c.context)) && out == Replied(Text(UseButtons))
    ensures Sendable(out)
  {
    var b := ButtonIdOf(m);
    if b.Some? && StartsWith(b.value, AddToCartPrefix) {
      var found := IdLookup(db.products, c.seller, b.value, false);
      match found {
        case BadValue =>
          return Raised(ValueError);
        case Missing =>
          c.state := StateName(AwaitingCommand);
          return Replied(Text(ProductUnavailable));
        case Found(pid) =>
          out := AskSize(c, pid, db.products[pid]);
          return;
      }
    } else if b == Some("show_menu") {
      out := HandleAwaitingCommand(c, db, Empty);
      return;
    }
    out := Replied(Text(UseButtons));
  }

  /** The add button under a product's details finds that product, active or not. */
  lemma DetailButtonAdds(products: map<nat, Product>, seller: nat, pid: nat)
    requires pid in products && products[pid].seller == seller
    ensures StartsWith(DetailButtons(pid)[0].id, AddToCartPrefix)
    ensures IdLookup(products, seller, DetailButtons(pid)[0].id, false) == Found(pid)
  {
    IdRoundTrip(AddToCartPrefix, pid);
  }

  method HandleSizeSelection(c: Conversation, m: Incoming) returns (out: Outcome)
    modifies c
    ensures ReplyIdOf(m).Some? && StartsWith(ReplyIdOf(m).value, SizePrefix) ==>
              && At(c, AwaitingQuantity, old(c.context)[SelectedSizeKey := CStr(SizeOfReply(ReplyIdOf(m).value))])
              && out == Replied(Text(AskQuantity))
    ensures !(ReplyIdOf(m).Some? && StartsWith(ReplyIdOf(m).value, SizePrefix)) ==>
              Kept(c, old(c.state), old(c.context)) && out == Replied(Text(ChooseSize))
    ensures Sendable(out)
  {
    var r := ReplyIdOf(m);
    if r.Some? && StartsWith(r.value, SizePrefix) {
      c.context := c.context[SelectedSizeKey := CStr(SizeOfReply(r.value))];
      c.state := StateName(AwaitingQuantity);
      return Replied(Text(AskQuantity));
    }
    out := Replied(Text(ChooseSize));
  }

  // ---------------------------------------------------------------- quantity and adding to the cart

  /** `context.get(key)` */
  function Get(ctx: Context, key: string): Option<CtxValue> {
    if key in ctx then Some(ctx[key]) else None
  }

  /**
   * `Product.objects.get(id=value)` on a context value: `None` matches no row,
   * a string goes through `int()` (which may refuse it), and only existing ids
   * are found. No seller and no `is_active` filter applies.
   */
  function LookupProduct(v: Option<CtxValue>, products: map<nat, Product>): (r: Lookup)
    ensures r.Found? ==> r.id in products
    ensures v.None? ==> r == Missing
    ensures r.BadValue? <==> v.Some? && v.value.CStr? && ParsePyInt(v.value.s).None?
  {
    match v
    case None => Missing
    case Some(CInt(i)) => if i >= 0 && i as nat in products then Found(i as nat) else Missing
    case Some(CStr(s)) =>
      match ParsePyInt(s)
      case None => BadValue
      case Some(i) => if i >= 0 && i as nat in products then Found(i as nat) else Missing
  }

  /** The size value a line is matched on: a stored integer is compared as its text. */
  function SizeValue(v: Option<CtxValue>): Option<string> {
    match v
    case None => None
    case Some(CStr(s)) => Some(s)
    case Some(CInt(i)) => Some(IntToString(i))
  }

  /** `add_item_to_cart` on a context product value: the tables afterwards and the outcome. */
  function AddOutcome(customer: string, seller: nat, d: Db, pv: Option<CtxValue>, q: nat, sv: Option<CtxValue>, now: int): (Db, Outcome) {
    match LookupProduct(pv, d.products)
    case BadValue => (d, Raised(ValueError))
    case Missing => (d, Replied(Text(ProductNotFound)))
    case Found(pid) => Cart.AddToCart(d, customer, seller, pid, SizeValue(sv), q, now)
  }

  /** Adding to the cart of an existing customer and seller keeps the database consistent. */
  lemma AddOutcomeConsistent(customer: string, seller: nat, d: Db, pv: Option<CtxValue>, q: nat, sv: Option<CtxValue>, now: int)
    requires Consistent(d) && customer in d.customers && seller in d.profiles
    ensures Consistent(AddOutcome(customer, seller, d, pv, q, sv, now).0)
  {
    var found := LookupProduct(pv, d.products);
    if found.Found? {
      Cart.AddToCartConsistent(d, customer, seller, found.id, SizeValue(sv), q, now);
    }
  }

  /** `Order.objects.get_or_create(customer, seller, status=IN_PROGRESS)` on the store: the cart's id, None when several match. */
  method GetOrCreateCartIn(db: Store, customer: string, seller: nat, now: int) returns (id: Option<nat>)
    modifies db
    ensures db.outbox == old(db.outbox)
    ensures Cart.GetOrCreateCart(old(db.Rows()), customer, seller, now).None? ==> id.None? && db.Rows() == old(db.Rows())
    ensures Cart.GetOrCreateCart(old(db.Rows()), customer, seller, now).Some? ==>
              id.Some? && Cart.GetOrCreateCart(old(db.Rows()), customer, seller, now).value == (id.value, db.Rows())
    ensures OnlyOrders(old(db.Rows()), db.Rows())
  {
    var carts := CartIds(db.Rows(), customer, seller);
    if |carts| > 1 {
      return None;
    } else if |carts| == 1 {
      return Some(carts[0]);
    }
    id := Some(db.nextOrderId);
    db.orders := db.orders[db.nextOrderId := NewCart(customer, seller, now)];
    db.nextOrderId := db.nextOrderId + 1;
  }

  /**
   * `OrderItem.objects.get_or_create(order, product, selected_size)` and the
   * quantity update: false (and no change) when several lines match.
   */
  method AddToLine(db: Store, id: nat, pid: nat, size: Option<string>, q: nat, price: int) returns (ok: bool)
    requires id in db.orders
    modifies db
    ensures db.outbox == old(db.outbox)
    ensures ok <==> |LineIndices(old(db.orders)[id].items, pid, size)| <= 1
    ensures !ok ==> db.Rows() == old(db.Rows())
    ensures ok ==> db.Rows() == SetOrder(old(db.Rows()), id, old(db.orders)[id].(items := AddLine(old(db.orders)[id].items, pid, size, q, price)))
    ensures OnlyOrders(old(db.Rows()), db.Rows())
  {
    var cart := db.orders[id];
    var lines := LineIndices(cart.items, pid, size);
    if |lines| > 1 {
      return false;
    }
    if |lines| == 0 {
      db.orders := db.orders[id := cart.(items := cart.items + [OrderItem(Some(pid), q, price, size)])];
    } else {
      var i := lines[0];
      db.orders := db.orders[id := cart.(items := cart.items[i := cart.items[i].(quantity := cart.items[i].quantity + q)])];
    }
    ok := true;
  }

  /**
   * `add_item_to_cart`: look the product up, get or create the cart and the
   * `(product, size)` line, add `q` (or start the line at `q`), recompute the
   * total.
   */
  method AddItemToCart(c: Conversation, db: Store, pv: Option<CtxValue>, q: nat, sv: Option<CtxValue>, now: int) returns (out: Outcome)
    modifies db
    ensures (db.Rows(), out) == AddOutcome(c.customer, c.seller, old(db.Rows()), pv, q, sv, now)
    ensures db.outbox == old(db.outbox)
    ensures OnlyOrders(old(db.Rows()), db.Rows())
  {
    ghost var d0 := db.Rows();
    var found := LookupProduct(pv, db.products);
    if found.BadValue? {
      return Raised(ValueError);
    } else if found.Missing? {
      return Replied(Text(ProductNotFound));
    }
    var pid := found.id;
    var product := db.products[pid];
    var size := SizeValue(sv);
    var cart := GetOrCreateCartIn(db, c.customer, c.seller, now);
    if cart.None? {
      return Raised(MultipleObjectsReturned);
    }
    ghost var d1 := db.Rows();
    var ok := AddToLine(db, cart.value, pid, size, q, product.price);
    if !ok {
      return Raised(MultipleObjectsReturned);
    }
    db.UpdateTotal(cart.value);
    out := Replied(Interactive(Buttons(AddedBody(q, product.name, size, db.orders[cart.value].total), Cart.AddedButtons)));
    ghost var items := AddLine(d1.orders[cart.value].items, pid, size, q, product.price);
    assert db.Rows() == d1.(orders := d1.orders[cart.value := d1.orders[cart.value].(items := items, total := LinesTotal(items))]);
    assert Cart.AddToCart(d0, c.customer, c.seller, pid, size, q, now) == (db.Rows(), out);
  }

  /** The conversation back at the menu state with the product and size forgotten. */
  predicate Cleared(c: Conversation, ctx: Context)
    reads c
  {
    At(c, AwaitingCommand, ctx - {ViewedProductKey, SelectedSizeKey})
  }

  /**
   * A positive quantity: the add runs; a refused product value answers
   * "not a number" and changes nothing, any reply (even "product not found")
   * clears the context and returns to the menu state, another exception
   * escapes with the conversation as it was.
   */
  predicate QuantityTaken(c: Conversation, out: Outcome, state: string, ctx: Context, before: Db, after: Db, q: nat, now: int)
    reads c
  {
    var added := AddOutcome(c.customer, c.seller, before, Get(ctx, ViewedProductKey), q, Get(ctx, SelectedSizeKey), now);
    && after == added.0
    && if added.1 == Raised(ValueError) then Kept(c, state, ctx) && out == Replied(Text(NotANumber))
       else if added.1.Replied? then Cleared(c, ctx) && out == added.1
       else Kept(c, state, ctx) && out == added.1
  }

  method HandleQuantity(c: Conversation, db: Store, m: Incoming, now: int) returns (out: Outcome)
    requires Attached(c, db)
    modifies c, db
    ensures Attached(c, db) && db.outbox == old(db.outbox)
    ensures ParsePyInt(TextOf(m)).None? ==>
              Kept(c, old(c.state), old(c.context)) && db.Rows() == old(db.Rows()) && out == Replied(Text(NotANumber))
    ensures ParsePyInt(TextOf(m)).Some? && ParsePyInt(TextOf(m)).value <= 0 ==>
              Kept(c, old(c.state), old(c.context)) && db.Rows() == old(db.Rows()) && out == Replied(Text(QuantityTooSmall))
    ensures ParsePyInt(TextOf(m)).Some? && ParsePyInt(TextOf(m)).value > 0 ==>
              QuantityTaken(c, out, old(c.state), old(c.context), old(db.Rows()), db.Rows(), ParsePyInt(TextOf(m)).value as nat, now)
    ensures Sendable(out)
    ensures OnlyOrders(old(db.Rows()), db.Rows())
  {
    var q := ParsePyInt(TextOf(m));
    if q.None? {
      return Replied(Text(NotANumber));
    } else if q.value <= 0 {
      return Replied(Text(QuantityTooSmall));
    }
    ghost var before := db.Rows();
    var r := AddItemToCart(c, db, Get(c.context, ViewedProductKey), q.value as nat, Get(c.context, SelectedSizeKey), now);
    AddOutcomeConsistent(c.customer, c.seller, before, Get(c.context, ViewedProductKey), q.value as nat, Get(c.context, SelectedSizeKey), now);
    if r == Raised(ValueError) {
      return Replied(Text(NotANumber));
    } else if r.Raised? {
      return r;
    }
    c.context := c.context - {ViewedProductKey, SelectedSizeKey};
    c.state := StateName(AwaitingCommand);
    out := r;
  }

  // ---------------------------------------------------------------- the cart view

  /** The cart view line of an order line whose product exists. */
  function CartLineOf(it: OrderItem, p: Product): CartLine {
    CartLine(it.quantity, p.name, if Truthy(it.size) then it.size else None, LineTotal(it))
  }

  /** The cart view's lines, or None when some line's product is gone (`item.product.name` on None). */
  function CartLinesOf(items: seq<OrderItem>, products: map<nat, Product>): Option<seq<CartLine>>
    decreases |items|
  {
    if |items| == 0 then Some([])
    else
      var n := |items| - 1;
      match CartLinesOf(items[..n], products)
      case None => None
      case Some(front) =>
        if items[n].product.None? || items[n].product.value !in products then None
        else Some(front + [CartLineOf(items[n], products[items[n].product.value])])
  }

  /** Once a prefix of the lines fails, the whole view fails. */
  lemma {:induction false} CartLinesPrefixFails(items: seq<OrderItem>, products: map<nat, Product>, i: nat)
    requires i <= |items| && CartLinesOf(items[..i], products).None?
    ensures CartLinesOf(items, products).None?
    decreases |items| - i
  {
    if i < |items| {
      assert items[..i + 1][..i] == items[..i];
      CartLinesPrefixFails(items, products, i + 1);
    } else {
      assert items[..i] == items;
    }
  }

  /** The view can be built exactly when every line still names an existing product. */
  lemma {:induction false} CartLinesDefined(items: seq<OrderItem>, products: map<nat, Product>)
    ensures CartLinesOf(items, products).Some? <==>
              forall i :: 0 <= i < |items| ==> items[i].product.Some? && items[i].product.value in products
    decreases |items|
  {
    if |items| > 0 {
      var n := |items| - 1;
      CartLinesDefined(items[..n], products);
      assert forall i :: 0 <= i < n ==> items[..n][i] == items[i];
    }
  }

  function LineTotalOf(l: CartLine): int {
    l.lineTotal
  }

  /** The cart view shows one line per order line, and its line totals add up to the order's Σ quantity × price. */
  lemma {:induction false} CartLinesAddUp(items: seq<OrderItem>, products: map<nat, Product>)
    requires CartLinesOf(items, products).Some?
    ensures |CartLinesOf(items, products).value| == |items|
    ensures SumOf(CartLinesOf(items, products).value, LineTotalOf) == LinesTotal(items)
    decreases |items|
  {
    if |items| > 0 {
      var n := |items| - 1;
      var front := CartLinesOf(items[..n], products).value;
      CartLinesAddUp(items[..n], products);
      var last := CartLineOf(items[n], products[items[n].product.value]);
      SumOfAppend(front, [last], LineTotalOf);
      assert SumOf([last], LineTotalOf) == last.lineTotal;
      LinesTotalAppend(items[..n], items[n]);
      assert items[..n] + [items[n]] == items;
    }
  }

  /** The line-building loop of the cart view. */
  method BuildCartLines(items: seq<OrderItem>, products: map<nat, Product>) returns (r: Option<seq<CartLine>>)
    ensures r == CartLinesOf(items, products)
  {
    var acc := [];
    var i := 0;
    while i < |items|
      invariant 0 <= i <= |items|
      invariant CartLinesOf(items[..i], products) == Some(acc)
    {
      var it := items[i];
      assert items[..i + 1][..i] == items[..i];
      if it.product.None? || it.product.value !in products {
        CartLinesPrefixFails(items, products, i + 1);
        return None;
      }
      acc := acc + [CartLineOf(it, products[it.product.value])];
      i := i + 1;
    }
    assert items[..i] == items;
    r := Some(acc);
  }

  /** What the cart view shows, by what the cart lookup finds. */
  predicate CartShown(c: Conversation, out: Outcome, state: string, ctx: Context, d: Db)
    reads c
  {
    var ids := CartIds(d, c.customer, c.seller);
    if |ids| == 0 then At(c, AwaitingCommand, ctx) && out == Replied(Text(CartEmpty))
    else if |ids| > 1 then Kept(c, state, ctx) && out == Raised(MultipleObjectsReturned)
    else
      var cart := d.orders[ids[0]];
      if |cart.items| == 0 then At(c, AwaitingCommand, ctx) && out == Replied(Text(CartEmpty))
      else match CartLinesOf(cart.items, d.products)
        case None => Kept(c, state, ctx) && out == Raised(AttributeError)
        case Some(lines) => At(c, ViewingCart, ctx) && out == Replied(Interactive(Buttons(CartBody(lines, cart.total), CartButtons)))
  }

  /** In a consistent store the cart view's lines add up to the total it shows. */
  lemma CartShownAddsUp(d: Db, customer: string, seller: nat)
    requires Consistent(d) && |CartIds(d, customer, seller)| == 1
    requires CartLinesOf(d.orders[CartIds(d, customer, seller)[0]].items, d.products).Some?
    ensures var cart := d.orders[CartIds(d, customer, seller)[0]];
            SumOf(CartLinesOf(cart.items, d.products).value, LineTotalOf) == cart.total
  {
    var cart := d.orders[CartIds(d, customer, seller)[0]];
    assert OrderConsistent(d, cart);
    CartLinesAddUp(cart.items, d.products);
  }

  /** The delivery prompt, as shown when the handler gets no button: the cart lookup must find exactly one cart. */
  predicate DeliveryOffered(c: Conversation, out: Outcome, state: string, ctx: Context, d: Db)
    reads c
  {
    var ids := CartIds(d, c.customer, c.seller);
    && Kept(c, state, ctx)
    && out == (if |ids| == 0 then Raised(DoesNotExist) else if |ids| > 1 then Raised(MultipleObjectsReturned)
               else Replied(Interactive(Buttons(DeliveryBody, DeliveryButtons))))
  }

  /** Without a button the delivery choice handler only asks again (or raises), and writes nothing. */
  lemma NoButtonOffersDelivery(c: Conversation, out: Outcome, state: string, ctx: Context, before: Db, after: Db, m: Incoming, call: StkCall)
    requires ButtonIdOf(m).None?
    requires DeliveryChosen(c, out, state, ctx, before, after, m, call)
    ensures after == before && DeliveryOffered(c, out, state, ctx, before)
  {
  }

  method HandleViewingCart(c: Conversation, db: Store, m: Incoming, call: StkCall) returns (out: Outcome)
    requires Attached(c, db)
    modifies c, db
    ensures Attached(c, db) && db.Rows() == old(db.Rows()) && db.outbox == old(db.outbox)
    ensures ButtonIdOf(m) == Some("checkout") ==>
              DeliveryOffered(c, out, StateName(AwaitingDeliveryChoice), old(c.context), db.Rows())
    ensures ButtonIdOf(m) != Some("checkout") ==> CartShown(c, out, old(c.state), old(c.context), db.Rows())
    ensures Sendable(out)
  {
    if ButtonIdOf(m) == Some("checkout") {
      c.state := StateName(AwaitingDeliveryChoice);
      ghost var before := db.Rows();
      out := HandleDeliveryChoice(c, db, Empty, call);
      NoButtonOffersDelivery(c, out, StateName(AwaitingDeliveryChoice), old(c.context), before, db.Rows(), Empty, call);
      return;
    }
    out := ShowCart(c, db);
  }

  /** The second part of the cart view handler: display the cart. */
  method ShowCart(c: Conversation, db: Store) returns (out: Outcome)
    requires Attached(c, db)
    modifies c
    ensures CartShown(c, out, old(c.state), old(c.context), db.Rows())
    ensures Sendable(out)
  {
    var ids := CartIds(db.Rows(), c.customer, c.seller);
    if |ids| == 0 {
      c.state := StateName(AwaitingCommand);
      return Replied(Text(CartEmpty));
    } else if |ids| > 1 {
      return Raised(MultipleObjectsReturned);
    }
    var cart := db.orders[ids[0]];
    if |cart.items| == 0 {
      c.state := StateName(AwaitingCommand);
      return Replied(Text(CartEmpty));
    }
    var lines := BuildCartLines(cart.items, db.products);
    if lines.None? {
      return Raised(AttributeError);
    }
    c.state := StateName(ViewingCart);
    out := Replied(Interactive(Buttons(CartBody(lines.value, cart.total), CartButtons)));
  }

  // ---------------------------------------------------------------- delivery and payment

  /** Some order other than `id` already holds this checkout id. */
  predicate CheckoutTaken(orders: map<nat, Order>, id: nat, co: string) {
    exists k :: k in orders && k != id && orders[k].checkoutId == Some(co)
  }

  /**
   * The payment handler on the tables: find the cart, ask for the STK push,
   * and on response code "0" mark the cart PENDING_PAYMENT with its checkout
   * id. As written the call itself raises.
   */
  function PaymentStep(d: Db, customer: string, seller: nat, call: StkCall): (Db, Outcome) {
    var ids := CartIds(d, customer, seller);
    if |ids| == 0 then (d, Replied(Text(CartMissing)))
    else if |ids| > 1 then (d, Raised(MultipleObjectsReturned))
    else
      var cart := d.orders[ids[0]];
      match call
      case AsWritten => (d, Raised(TypeError))
      case Corrected(s, token, clock, post) =>
        var resp := Mpesa.InitiateStkPush(s, token, clock, customer, cart.total, ids[0], post);
        if resp.Some? && resp.value.responseCode == Some("0") then
          var co := resp.value.checkoutRequestId;
          if co.Some? && CheckoutTaken(d.orders, ids[0], co.value) then (d, Raised(IntegrityError))
          else (SetOrder(d, ids[0], cart.(status := PendingPayment, checkoutId := co)), Replied(Text(PaymentPromptSent)))
        else (d, Replied(Text(PaymentNotStarted)))
  }

  /** Rewriting a cart's delivery, address or status fields, with its checkout id kept free, keeps the database consistent. */
  lemma SetCartConsistent(d: Db, id: nat, o: Order)
    requires Consistent(d) && id in d.orders
    requires o.customer == d.orders[id].customer && o.seller == d.orders[id].seller
    requires o.items == d.orders[id].items && o.total == d.orders[id].total
    requires o.checkoutId.Some? && o.checkoutId != d.orders[id].checkoutId ==> !CheckoutTaken(d.orders, id, o.checkoutId.value)
    ensures Consistent(SetOrder(d, id, o))
  {
    assert OrderConsistent(d, d.orders[id]);
    if o.checkoutId.Some? {
      forall k | k in d.orders && k != id ensures d.orders[k].checkoutId != o.checkoutId {
        if o.checkoutId == d.orders[id].checkoutId {
          assert d.orders[id].checkoutId.Some?;
        }
      }
    }
    SetOrderConsistent(d, id, o);
  }

  /** The payment step keeps the database consistent. */
  lemma PaymentStepConsistent(d: Db, customer: string, seller: nat, call: StkCall)
    requires Consistent(d)
    ensures Consistent(PaymentStep(d, customer, seller, call).0)
  {
    var ids := CartIds(d, customer, seller);
    if |ids| == 1 && call.Corrected? {
      var cart := d.orders[ids[0]];
      var resp := Mpesa.InitiateStkPush(call.settings, call.token, call.clock, customer, cart.total, ids[0], call.post);
      if resp.Some? && resp.value.responseCode == Some("0") {
        var co := resp.value.checkoutRequestId;
        if !(co.Some? && CheckoutTaken(d.orders, ids[0], co.value)) {
          SetCartConsistent(d, ids[0], cart.(status := PendingPayment, checkoutId := co));
        }
      }
    }
  }

  /** The payment step writes only the orders table and never answers with a payload the sender refuses. */
  lemma PaymentStepShape(d: Db, customer: string, seller: nat, call: StkCall)
    ensures OnlyOrders(d, PaymentStep(d, customer, seller, call).0)
    ensures Sendable(PaymentStep(d, customer, seller, call).1)
  {
  }

  /** As written, the payment step never reaches the push: with a cart it raises TypeError, and it writes nothing. */
  lemma PaymentAsWrittenRaises(d: Db, customer: string, seller: nat)
    ensures PaymentStep(d, customer, seller, AsWritten).0 == d
    ensures |CartIds(d, customer, seller)| == 1 ==> PaymentStep(d, customer, seller, AsWritten).1 == Raised(TypeError)
    ensures forall k :: k in PaymentStep(d, customer, seller, AsWritten).0.orders ==>
              PaymentStep(d, customer, seller, AsWritten).0.orders[k].status != PendingPayment || d.orders[k].status == PendingPayment
  {
  }

  /**
   * With the call corrected, an accepted push (response code "0") moves the
   * cart to PENDING_PAYMENT under the returned checkout id and touches no
   * other order; any other answer leaves the tables as they were.
   */
  lemma PaymentCorrectedPends(d: Db, customer: string, seller: nat, s: Mpesa.Settings, token: Option<string>,
                              clock: Mpesa.Clock, post: Option<Mpesa.StkResponse>)
    requires Consistent(d) && |CartIds(d, customer, seller)| == 1
    ensures var id := CartIds(d, customer, seller)[0];
            var r := PaymentStep(d, customer, seller, Corrected(s, token, clock, post));
            var resp := Mpesa.InitiateStkPush(s, token, clock, customer, d.orders[id].total, id, post);
            && Consistent(r.0)
            && (resp.Some? && resp.value.responseCode == Some("0") && r.1.Replied? ==>
                  && r.0.orders.Keys == d.orders.Keys
                  && r.0.orders[id].status == PendingPayment
                  && r.0.orders[id].checkoutId == resp.value.checkoutRequestId
                  && r.0.orders[id].items == d.orders[id].items
                  && (forall k :: k in d.orders && k != id ==> r.0.orders[k] == d.orders[k])
                  && r.1 == Replied(Text(PaymentPromptSent)))
            && (!(resp.Some? && resp.value.responseCode == Some("0")) ==>
                  r == (d, Replied(Text(PaymentNotStarted))))
  {
    PaymentStepConsistent(d, customer, seller, Corrected(s, token, clock, post));
    PaymentAccepted(d, customer, seller, Corrected(s, token, clock, post));
  }

  /** The payment step with the corrected call, by the push's answer: accepted, it marks the one cart; otherwise nothing is written. */
  lemma PaymentAccepted(d: Db, customer: string, seller: nat, call: StkCall)
    requires call.Corrected? && |CartIds(d, customer, seller)| == 1
    ensures var id := CartIds(d, customer, seller)[0];
            var r := PaymentStep(d, customer, seller, call);
            var resp := Mpesa.InitiateStkPush(call.settings, call.token, call.clock, customer, d.orders[id].total, id, call.post);
            && (resp.Some? && resp.value.responseCode == Some("0") && r.1.Replied? ==>
                  r == (SetOrder(d, id, d.orders[id].(status := PendingPayment, checkoutId := resp.value.checkoutRequestId)),
                        Replied(Text(PaymentPromptSent))))
            && (!(resp.Some? && resp.value.responseCode == Some("0")) ==> r == (d, Replied(Text(PaymentNotStarted))))
  {
  }

  method HandlePaymentConfirmation(c: Conversation, db: Store, call: StkCall) returns (out: Outcome)
    requires Attached(c, db)
    modifies db
    ensures Attached(c, db) && db.outbox == old(db.outbox)
    ensures (db.Rows(), out) == PaymentStep(old(db.Rows()), c.customer, c.seller, call)
    ensures Sendable(out)
    ensures OnlyOrders(old(db.Rows()), db.Rows())
  {
    ghost var before := db.Rows();
    PaymentStepConsistent(before, c.customer, c.seller, call);
    var ids := CartIds(db.Rows(), c.customer, c.seller);
    if |ids| == 0 {
      return Replied(Text(CartMissing));
    } else if |ids| > 1 {
      return Raised(MultipleObjectsReturned);
    }
    var id := ids[0];
    var cart := db.orders[id];
    match call {
      case AsWritten =>
        return Raised(TypeError);
      case Corrected(s, token, clock, post) =>
        var resp := Mpesa.InitiateStkPush(s, token, clock, c.customer, cart.total, id, post);
        if resp.Some? && resp.value.responseCode == Some("0") {
          var co := resp.value.checkoutRequestId;
          if co.Some? && CheckoutTaken(db.orders, id, co.value) {
            return Raised(IntegrityError);
          }
          db.orders := db.orders[id := cart.(status := PendingPayment, checkoutId := co)];
          return Replied(Text(PaymentPromptSent));
        }
        return Replied(Text(PaymentNotStarted));
    }
  }

  /** The delivery choice handler's effect, by what the cart lookup finds and which button was pressed. */
  predicate DeliveryChosen(c: Conversation, out: Outcome, state: string, ctx: Context, before: Db, after: Db, m: Incoming, call: StkCall)
    reads c
  {
    var ids := CartIds(before, c.customer, c.seller);
    var b := ButtonIdOf(m);
    if |ids| != 1 then
      Kept(c, state, ctx) && after == before && out == Raised(if |ids| == 0 then DoesNotExist else MultipleObjectsReturned)
    else
      var cart := before.orders[ids[0]];
      if b == Some("select_delivery") then
        At(c, AwaitingDeliveryAddress, ctx) && after == SetOrder(before, ids[0], cart.(delivery := Some(Delivery)))
        && out == Replied(Text(AddressPrompt))
      else if b == Some("select_pickup") then
        At(c, AwaitingPaymentConfirmation, ctx)
        && (after, out) == PaymentStep(SetOrder(before, ids[0], cart.(delivery := Some(Pickup))), c.customer, c.seller, call)
      else
        Kept(c, state, ctx) && after == before && out == Replied(Interactive(Buttons(DeliveryBody, DeliveryButtons)))
  }

  method HandleDeliveryChoice(c: Conversation, db: Store, m: Incoming, call: StkCall) returns (out: Outcome)
    requires Attached(c, db)
    modifies c, db
    ensures Attached(c, db) && db.outbox == old(db.outbox)
    ensures DeliveryChosen(c, out, old(c.state), old(c.context), old(db.Rows()), db.Rows(), m, call)
    ensures Sendable(out)
    ensures OnlyOrders(old(db.Rows()), db.Rows())
  {
    var b := ButtonIdOf(m);
    var ids := CartIds(db.Rows(), c.customer, c.seller);
    if |ids| != 1 {
      // `Order.objects.get` finds no cart or several.
      return Raised(if |ids| == 0 then DoesNotExist else MultipleObjectsReturned);
    }
    var id := ids[0];
    var cart := db.orders[id];
    ghost var before := db.Rows();
    if b == Some("select_delivery") {
      SetCartConsistent(before, id, cart.(delivery := Some(Delivery)));
      db.orders := db.orders[id := cart.(delivery := Some(Delivery))];
      assert db.Rows() == SetOrder(before, id, cart.(delivery := Some(Delivery)));
      c.state := StateName(AwaitingDeliveryAddress);
      return Replied(Text(AddressPrompt));
    } else if b == Some("select_pickup") {
      ghost var chosen := SetOrder(before, id, cart.(delivery := Some(Pickup)));
      PaymentStepShape(chosen, c.customer, c.seller, call);
      SetCartConsistent(before, id, cart.(delivery := Some(Pickup)));
      db.orders := db.orders[id := cart.(delivery := Some(Pickup))];
      assert db.Rows() == chosen;
      c.state := StateName(AwaitingPaymentConfirmation);
      out := HandlePaymentConfirmation(c, db, call);
      assert (db.Rows(), out) == PaymentStep(chosen, c.customer, c.seller, call);
      return;
    }
    out := Replied(Interactive(Buttons(DeliveryBody, DeliveryButtons)));
  }

  /**
   * The cart after an address message: a location pin sets the coordinates
   * (and the address text when the pin carries a non-empty one), a text sets
   * the address text; any other message is not an address.
   */
  function Addressed(o: Order, m: Incoming): (r: Option<Order>)
    ensures r.Some? <==> m.LocationMessage? || m.TextMessage?
    ensures r.Some? ==> r.value == o.(coordinates := r.value.coordinates, addressText := r.value.addressText)
  {
    match m
    case LocationMessage(loc) =>
      Some(o.(coordinates := Some(Coordinates(loc.latitude, loc.longitude)),
              addressText := if Truthy(loc.address) then loc.address else o.addressText))
    case TextMessage(body) => Some(o.(addressText := Some(body)))
    case _ => None
  }

  /** The delivery address handler's effect: the address is saved and payment begins, or the address is asked for again. */
  predicate AddressTaken(c: Conversation, out: Outcome, state: string, ctx: Context, before: Db, after: Db, m: Incoming, call: StkCall)
    reads c
  {
    var ids := CartIds(before, c.customer, c.seller);
    if |ids| != 1 then
      Kept(c, state, ctx) && after == before && out == Raised(if |ids| == 0 then DoesNotExist else MultipleObjectsReturned)
    else
      match Addressed(before.orders[ids[0]], m)
      case None => Kept(c, state, ctx) && after == before && out == Replied(Text(AskAddress))
      case Some(cart) =>
        At(c, AwaitingPaymentConfirmation, ctx) && (after, out) == PaymentStep(SetOrder(before, ids[0], cart), c.customer, c.seller, call)
  }

  method HandleDeliveryAddress(c: Conversation, db: Store, m: Incoming, call: StkCall) returns (out: Outcome)
    requires Attached(c, db)
    modifies c, db
    ensures Attached(c, db) && db.outbox == old(db.outbox)
    ensures AddressTaken(c, out, old(c.state), old(c.context), old(db.Rows()), db.Rows(), m, call)
    ensures Sendable(out)
    ensures OnlyOrders(old(db.Rows()), db.Rows())
  {
    var ids := CartIds(db.Rows(), c.customer, c.seller);
    if |ids| != 1 {
      // `Order.objects.get` finds no cart or several.
      return Raised(if |ids| == 0 then DoesNotExist else MultipleObjectsReturned);
    }
    var id := ids[0];
    // The pin or text becomes the cart's address fields; anything else is no address.
    var addressed := Addressed(db.orders[id], m);
    if addressed.None? {
      return Replied(Text(AskAddress));
    }
    var cart := addressed.value;
    ghost var before := db.Rows();
    ghost var saved := SetOrder(before, id, cart);
    PaymentStepShape(saved, c.customer, c.seller, call);
    SetCartConsistent(before, id, cart);
    db.orders := db.orders[id := cart];
    assert db.Rows() == saved;
    c.state := StateName(AwaitingPaymentConfirmation);
    out := HandlePaymentConfirmation(c, db, call);
    assert (db.Rows(), out) == PaymentStep(saved, c.customer, c.seller, call);
  }
}
