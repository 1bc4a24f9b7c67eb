/**
 * The database: every table as a map from primary key to row, the integrity
 * the schema and the engine maintain, the queries the engine runs, and the
 * cascades that deleting a row sets off.
 */
module Database {
  import opened Wrappers
  import opened Seqs
  import opened Sellers
  import opened Products
  import opened Chat
  import opened Orders
  import opened Messages

  /**
   * All tables. Profiles are keyed by their user's id; customers by phone
   * number; conversations by (customer phone, seller id). Order lines live
   * in their order. `next…Id` are the auto-increment counters.
   */
  datatype Db = Db(
    users: map<nat, User>,
    nextUserId: nat,
    profiles: map<nat, SellerProfile>,
    products: map<nat, Product>,
    nextProductId: nat,
    customers: map<string, Customer>,
    conversations: map<(string, nat), ConversationRow>,
    orders: map<nat, Order>,
    nextOrderId: nat)

  /** An order's foreign keys resolve, its lines have distinct keys and its stored total is the lines' sum. */
  predicate OrderConsistent(d: Db, o: Order) {
    && o.seller in d.profiles
    && (o.customer.Some? ==> o.customer.value in d.customers)
    && (forall i :: 0 <= i < |o.items| && o.items[i].product.Some? ==> o.items[i].product.value in d.products)
    && LineKeysUnique(o.items)
    && o.total == LinesTotal(o.items)
  }

  /** The unique constraint on `mpesa_checkout_request_id` (NULLs never clash). */
  predicate CheckoutIdsUnique(orders: map<nat, Order>) {
    forall a, b :: a in orders && b in orders && a != b && orders[a].checkoutId.Some?
      ==> orders[a].checkoutId != orders[b].checkoutId
  }

  /** The integrity every committed state keeps. */
  predicate Consistent(d: Db) {
    && (forall k :: k in d.users ==> k < d.nextUserId)
    && (forall k :: k in d.profiles ==> k in d.users)
    && (forall k :: k in d.products ==> k < d.nextProductId && d.products[k].seller in d.profiles)
    && SkusUnique(d.products)
    && (forall k :: k in d.orders ==> k < d.nextOrderId && OrderConsistent(d, d.orders[k]))
    && CheckoutIdsUnique(d.orders)
    && (forall key :: key in d.conversations ==> key.0 in d.customers && key.1 in d.profiles)
  }

  /** The cart filter: this customer's IN_PROGRESS order with this seller. */
  function IsCartOf(customer: string, seller: nat): (nat, Order) -> bool {
    (k: nat, o: Order) => o.customer == Some(customer) && o.seller == seller && o.status == InProgress
  }

  /** `Order.objects.filter(customer, seller, status=IN_PROGRESS)`: the ids found. */
  function CartIds(d: Db, customer: string, seller: nat): (r: seq<nat>)
    ensures forall i :: 0 <= i < |r| ==> r[i] in d.orders && IsCartOf(customer, seller)(r[i], d.orders[r[i]])
    ensures forall k :: k in d.orders && k < d.nextOrderId && IsCartOf(customer, seller)(k, d.orders[k]) ==> k in r
    ensures forall i, j :: 0 <= i < j < |r| ==> r[i] != r[j]
  {
    KeysDesc(d.orders, d.nextOrderId, IsCartOf(customer, seller))
  }

  /** At most one IN_PROGRESS cart per (customer, seller). */
  predicate SingleCart(orders: map<nat, Order>) {
    forall a, b :: a in orders && b in orders && a != b && orders[a].status == InProgress
      && orders[a].customer.Some? && orders[b].status == InProgress
      ==> orders[a].customer != orders[b].customer || orders[a].seller != orders[b].seller
  }

  /** With a single cart per pair, the cart lookup finds at most one order. */
  lemma SingleCartLookup(d: Db, customer: string, seller: nat)
    requires SingleCart(d.orders)
    ensures |CartIds(d, customer, seller)| <= 1
  {
    var r := CartIds(d, customer, seller);
    forall i | 0 <= i < |r| ensures r[i] == r[0] && i == 0 {
      assert IsCartOf(customer, seller)(r[i], d.orders[r[i]]);
      assert IsCartOf(customer, seller)(r[0], d.orders[r[0]]);
    }
    if |r| > 0 {
      assert r[|r| - 1] == r[0];
    }
  }

  /** The filter for a seller's live catalogue. */
  function IsActiveOf(seller: nat): (nat, Product) -> bool {
    (k: nat, p: Product) => p.seller == seller && p.isActive
  }

  /** `seller.products.filter(is_active=True)`, newest first. */
  function ActiveProducts(d: Db, seller: nat): (r: seq<nat>)
    ensures forall i :: 0 <= i < |r| ==> r[i] in d.products && d.products[r[i]].seller == seller && d.products[r[i]].isActive
    ensures forall k :: k in d.products && k < d.nextProductId && d.products[k].seller == seller && d.products[k].isActive ==> k in r
    ensures forall i, j :: 0 <= i < j < |r| ==> r[i] > r[j]
  {
    var r := KeysDesc(d.products, d.nextProductId, IsActiveOf(seller));
    assert forall k :: k in d.products && k < d.nextProductId && IsActiveOf(seller)(k, d.products[k]) ==> k in r;
    r
  }

  /** The filter for a name search within a seller's live catalogue. */
  function IsMatchOf(seller: nat, text: string): (nat, Product) -> bool {
    (k: nat, p: Product) => p.seller == seller && p.isActive && Strings.IContains(p.name, text)
  }

  /** `seller.products.filter(name__icontains=text, is_active=True)`, newest first. */
  function MatchingProducts(d: Db, seller: nat, text: string): (r: seq<nat>)
    ensures forall i :: 0 <= i < |r| ==> r[i] in d.products && IsMatchOf(seller, text)(r[i], d.products[r[i]])
    ensures forall k :: k in d.products && k < d.nextProductId && IsMatchOf(seller, text)(k, d.products[k]) ==> k in r
    ensures forall i, j :: 0 <= i < j < |r| ==> r[i] > r[j]
  {
    KeysDesc(d.products, d.nextProductId, IsMatchOf(seller, text))
  }

  /** Replacing an order by one whose keys resolve and whose checkout id is free keeps the database consistent. */
  lemma SetOrderConsistent(d: Db, id: nat, o: Order)
    requires Consistent(d) && id in d.orders && OrderConsistent(d, o)
    requires o.checkoutId.Some? ==> forall k :: k in d.orders && k != id ==> d.orders[k].checkoutId != o.checkoutId
    ensures Consistent(d.(orders := d.orders[id := o]))
  {
    var e := d.(orders := d.orders[id := o]);
    forall k | k in e.orders ensures k < e.nextOrderId && OrderConsistent(e, e.orders[k]) {
      if k != id {
        assert OrderConsistent(d, d.orders[k]);
      }
    }
  }

  /** Storing a new order under the next id keeps the database consistent. */
  lemma AddOrderConsistent(d: Db, o: Order)
    requires Consistent(d) && OrderConsistent(d, o) && o.checkoutId.None?
    ensures Consistent(d.(orders := d.orders[d.nextOrderId := o], nextOrderId := d.nextOrderId + 1))
  {
    var e := d.(orders := d.orders[d.nextOrderId := o], nextOrderId := d.nextOrderId + 1);
    forall k | k in e.orders ensures k < e.nextOrderId && OrderConsistent(e, e.orders[k]) {
      if k != d.nextOrderId {
        assert OrderConsistent(d, d.orders[k]);
      }
    }
  }

  /** Changing a product's stock or flags keeps the database consistent when its seller and SKU stay. */
  lemma SetProductConsistent(d: Db, id: nat, p: Product)
    requires Consistent(d) && id in d.products
    requires p.seller == d.products[id].seller && p.sku == d.products[id].sku
    ensures Consistent(d.(products := d.products[id := p]))
  {
    var e := d.(products := d.products[id := p]);
    forall k | k in e.orders ensures OrderConsistent(e, e.orders[k]) {
      assert OrderConsistent(d, d.orders[k]);
    }
  }

  /** Writing a conversation row for an existing customer and seller keeps the database consistent. */
  lemma SetConversationConsistent(d: Db, key: (string, nat), row: ConversationRow)
    requires Consistent(d) && key.0 in d.customers && key.1 in d.profiles
    ensures Consistent(d.(conversations := d.conversations[key := row]))
  {
    var e := d.(conversations := d.conversations[key := row]);
    forall k | k in e.orders ensures OrderConsistent(e, e.orders[k]) {
      assert OrderConsistent(d, d.orders[k]);
    }
  }

  /** Adding a customer keeps the database consistent. */
  lemma AddCustomerConsistent(d: Db, phone: string, c: Customer)
    requires Consistent(d)
    ensures Consistent(d.(customers := d.customers[phone := c]))
  {
    var e := d.(customers := d.customers[phone := c]);
    forall k | k in e.orders ensures OrderConsistent(e, e.orders[k]) {
      assert OrderConsistent(d, d.orders[k]);
    }
  }

  /**
   * Deleting a product row: it disappears, and every order line that named it
   * keeps its quantity and snapshot price but loses the product (SET_NULL).
   */
  function DeleteProductRows(d: Db, id: nat): Db {
    d.(products := d.products - {id},
       orders := map k | k in d.orders :: d.orders[k].(items := DetachProducts(d.orders[k].items, {id})))
  }

  /** Deleting a product keeps every order's total and the database consistent. */
  lemma DeleteProductConsistent(d: Db, id: nat)
    requires Consistent(d)
    ensures Consistent(DeleteProductRows(d, id))
    ensures forall k :: k in d.orders ==>
              && k in DeleteProductRows(d, id).orders
              && DeleteProductRows(d, id).orders[k].total == d.orders[k].total
              && |DeleteProductRows(d, id).orders[k].items| == |d.orders[k].items|
  {
    var e := DeleteProductRows(d, id);
    forall k | k in e.orders ensures k < e.nextOrderId && OrderConsistent(e, e.orders[k]) && e.orders[k].total == d.orders[k].total {
      var o := d.orders[k];
      assert OrderConsistent(d, o);
      DetachProductsTotal(o.items, {id});
      DetachProductsKeepsUnique(o.items, {id});
    }
  }

  /**
   * Deleting a customer: its conversations go with it (CASCADE) and its
   * orders stay, with no customer (SET_NULL).
   */
  function DeleteCustomerRows(d: Db, phone: string): Db {
    d.(customers := d.customers - {phone},
       conversations := map key | key in d.conversations && key.0 != phone :: d.conversations[key],
       orders := map k | k in d.orders :: if d.orders[k].customer == Some(phone) then d.orders[k].(customer := None) else d.orders[k])
  }

  /** Deleting a customer keeps every order and the database consistent. */
  lemma DeleteCustomerConsistent(d: Db, phone: string)
    requires Consistent(d)
    ensures Consistent(DeleteCustomerRows(d, phone))
    ensures DeleteCustomerRows(d, phone).orders.Keys == d.orders.Keys
  {
    DeleteCustomerOrders(d, phone);
    DeleteCustomerCheckouts(d, phone);
  }

  lemma DeleteCustomerOrders(d: Db, phone: string)
    requires Consistent(d)
    ensures var e := DeleteCustomerRows(d, phone);
            forall k :: k in e.orders ==> k < e.nextOrderId && OrderConsistent(e, e.orders[k])
  {
    var e := DeleteCustomerRows(d, phone);
    forall k | k in e.orders ensures k < e.nextOrderId && OrderConsistent(e, e.orders[k]) {
      assert OrderConsistent(d, d.orders[k]);
    }
  }

  lemma DeleteCustomerCheckouts(d: Db, phone: string)
    requires CheckoutIdsUnique(d.orders)
    ensures CheckoutIdsUnique(DeleteCustomerRows(d, phone).orders)
  {
    var e := DeleteCustomerRows(d, phone);
    assert forall k :: k in e.orders ==> k in d.orders && e.orders[k].checkoutId == d.orders[k].checkoutId;
  }

  /**
   * Deleting a seller's account: the profile, its products, its orders and
   * its conversations go (CASCADE); lines of other sellers' orders that named
   * one of its products lose the product.
   */
  function DeleteSellerRows(d: Db, seller: nat): Db {
    var gone := set k | k in d.products && d.products[k].seller == seller;
    d.(users := d.users - {seller},
       profiles := d.profiles - {seller},
       products := map k | k in d.products && d.products[k].seller != seller :: d.products[k],
       orders := map k | k in d.orders && d.orders[k].seller != seller :: d.orders[k].(items := DetachProducts(d.orders[k].items, gone)),
       conversations := map key | key in d.conversations && key.1 != seller :: d.conversations[key])
  }

  /** Deleting a seller removes exactly its orders and keeps the database consistent. */
  lemma DeleteSellerConsistent(d: Db, seller: nat)
    requires Consistent(d)
    ensures Consistent(DeleteSellerRows(d, seller))
    ensures forall k :: k in d.orders ==> (k in DeleteSellerRows(d, seller).orders <==> d.orders[k].seller != seller)
  {
    DeleteSellerOrders(d, seller);
    DeleteSellerCheckouts(d, seller);
    DeleteSellerSkus(d, seller);
  }

  lemma DeleteSellerCheckouts(d: Db, seller: nat)
    requires CheckoutIdsUnique(d.orders)
    ensures CheckoutIdsUnique(DeleteSellerRows(d, seller).orders)
  {
    var e := DeleteSellerRows(d, seller);
    assert forall k :: k in e.orders ==> k in d.orders && e.orders[k].checkoutId == d.orders[k].checkoutId;
  }

  lemma DeleteSellerSkus(d: Db, seller: nat)
    requires SkusUnique(d.products)
    ensures SkusUnique(DeleteSellerRows(d, seller).products)
  {
  }

  lemma DeleteSellerOrders(d: Db, seller: nat)
    requires Consistent(d)
    ensures var e := DeleteSellerRows(d, seller);
            forall k :: k in e.orders ==> k < e.nextOrderId && OrderConsistent(e, e.orders[k])
  {
    var gone := set k | k in d.products && d.products[k].seller == seller;
    var e := DeleteSellerRows(d, seller);
    forall k | k in e.orders ensures k < e.nextOrderId && OrderConsistent(e, e.orders[k]) {
      var o := d.orders[k];
      assert OrderConsistent(d, o);
      DetachProductsTotal(o.items, gone);
      DetachProductsKeepsUnique(o.items, gone);
      var items := e.orders[k].items;
      forall i | 0 <= i < |items| && items[i].product.Some? ensures items[i].product.value in e.products {
        assert o.items[i].product.Some? && o.items[i].product.value in d.products;
      }
    }
  }

  /**
   * The store a request works on. Handlers change its tables in place; the
   * `outbox` records, in order, every message handed to WhatsApp.
   */
  class Store {
    var users: map<nat, User>
    var nextUserId: nat
    var profiles: map<nat, SellerProfile>
    var products: map<nat, Product>
    var nextProductId: nat
    var customers: map<string, Customer>
    var conversations: map<(string, nat), ConversationRow>
    var orders: map<nat, Order>
    var nextOrderId: nat
    var outbox: seq<Request>

    /** A store holding the given tables and nothing sent yet. */
    constructor (d: Db)
      ensures Rows() == d && outbox == []
    {
      users, nextUserId, profiles := d.users, d.nextUserId, d.profiles;
      products, nextProductId, customers := d.products, d.nextProductId, d.customers;
      conversations, orders, nextOrderId := d.conversations, d.orders, d.nextOrderId;
      outbox := [];
    }

    /** The tables as a value. */
    function Rows(): Db
      reads this
    {
      Db(users, nextUserId, profiles, products, nextProductId, customers, conversations, orders, nextOrderId)
    }

    predicate Valid()
      reads this
    {
      Consistent(Rows())
    }

    /** `conversation.save()`: the row under the conversation's key becomes its current state. */
    method SaveConversation(c: Conversation)
      modifies this
      ensures Rows() == old(Rows()).(conversations := old(conversations)[c.Key() := c.Row()])
      ensures outbox == old(outbox)
    {
      conversations := conversations[c.Key() := c.Row()];
    }

    /** `Order.update_total`: the stored total becomes Σ quantity × snapshot price of the order's lines. */
    method UpdateTotal(id: nat)
      requires id in orders
      modifies this
      ensures Rows() == old(Rows()).(orders := old(orders)[id := old(orders)[id].(total := LinesTotal(old(orders)[id].items))])
      ensures outbox == old(outbox)
    {
      var o := orders[id];
      orders := orders[id := o.(total := LinesTotal(o.items))];
    }

    /** Hands one request to WhatsApp; the tables are untouched. */
    method Post(r: Request)
      modifies this
      ensures Rows() == old(Rows()) && outbox == old(outbox) + [r]
    {
      outbox := outbox + [r];
    }

    /** A rolled-back transaction: the tables return to `d`; messages already handed to WhatsApp stay sent. */
    method Restore(d: Db)
      modifies this
      ensures Rows() == d && outbox == old(outbox)
    {
      users, nextUserId, profiles := d.users, d.nextUserId, d.profiles;
      products, nextProductId, customers := d.products, d.nextProductId, d.customers;
      conversations, orders, nextOrderId := d.conversations, d.orders, d.nextOrderId;
    }
  }

  /** Recomputing a consistent order's total changes nothing: the stored total already is the lines' sum. */
  lemma UpdateTotalIdempotent(d: Db, id: nat)
    requires Consistent(d) && id in d.orders
    ensures d.orders[id].(total := LinesTotal(d.orders[id].items)) == d.orders[id]
  {
    assert OrderConsistent(d, d.orders[id]);
  }
}
