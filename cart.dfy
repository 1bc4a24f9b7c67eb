/**
 * The cart aggregate: what adding an item does to the tables, as a function
 * of the tables before, and the invariants it keeps.
 */
module Cart {
  import opened Wrappers
  import opened Products
  import opened Orders
  import opened Messages
  import opened Database

  /** The two buttons under the "added to cart" message. */
  const AddedButtons := [Button("view_cart", "View Cart 🛒"), Button("keep_shopping", "Keep Shopping")]

  /**
   * `Order.objects.get_or_create(customer, seller, status=IN_PROGRESS)`: the
   * cart's id and the tables afterwards; None when the lookup finds several.
   */
  function GetOrCreateCart(d: Db, customer: string, seller: nat, now: int): (r: Option<(nat, Db)>)
    ensures r.None? <==> |CartIds(d, customer, seller)| > 1
    ensures r.Some? ==> r.value.0 in r.value.1.orders
    ensures r.Some? && |CartIds(d, customer, seller)| == 1 ==> r.value == (CartIds(d, customer, seller)[0], d)
    ensures r.Some? && |CartIds(d, customer, seller)| == 0 ==>
              && r.value.0 == d.nextOrderId
              && r.value.1 == d.(orders := d.orders[d.nextOrderId := NewCart(customer, seller, now)], nextOrderId := d.nextOrderId + 1)
  {
    var ids := CartIds(d, customer, seller);
    if |ids| > 1 then None
    else if |ids| == 1 then Some((ids[0], d))
    else
      Some((d.nextOrderId, d.(orders := d.orders[d.nextOrderId := NewCart(customer, seller, now)], nextOrderId := d.nextOrderId + 1)))
  }

  /**
   * `add_item_to_cart` once the product is found: get or create the cart, get
   * or create the `(product, size)` line, add `q` to it, recompute the total.
   * Returns the tables afterwards and the reply (or the exception).
   */
  function AddToCart(d: Db, customer: string, seller: nat, pid: nat, size: Option<string>, q: nat, now: int): (Db, Outcome)
    requires pid in d.products
  {
    match GetOrCreateCart(d, customer, seller, now)
    case None => (d, Raised(MultipleObjectsReturned))
    case Some(found) =>
      var id := found.0;
      var d1 := found.1;
      var cart := d1.orders[id];
      if |LineIndices(cart.items, pid, size)| > 1 then (d1, Raised(MultipleObjectsReturned))
      else
        var items := AddLine(cart.items, pid, size, q, d.products[pid].price);
        var total := LinesTotal(items);
        (d1.(orders := d1.orders[id := cart.(items := items, total := total)]),
         Replied(Interactive(Buttons(AddedBody(q, d.products[pid].name, size, total), AddedButtons))))
  }

  /**
   * The central invariant: after an add the cart's stored total is Σ quantity
   * × snapshot price over its lines, and it grew by exactly q times the unit
   * price charged (the existing line's snapshot, or the current price).
   */
  lemma AddToCartTotal(d: Db, customer: string, seller: nat, pid: nat, size: Option<string>, q: nat, now: int)
    requires Consistent(d) && pid in d.products
    requires AddToCart(d, customer, seller, pid, size, q, now).1.Replied?
    ensures GetOrCreateCart(d, customer, seller, now).Some?
    ensures var found := GetOrCreateCart(d, customer, seller, now).value;
            var before := found.1.orders[found.0];
            var after := AddToCart(d, customer, seller, pid, size, q, now).0.orders[found.0];
            && after.total == LinesTotal(after.items)
            && after.total == before.total + q * ChargedPrice(before.items, pid, size, d.products[pid].price)
  {
    var found := GetOrCreateCart(d, customer, seller, now).value;
    var before := found.1.orders[found.0];
    if |CartIds(d, customer, seller)| == 1 {
      assert OrderConsistent(d, d.orders[found.0]);
    }
    assert before.total == LinesTotal(before.items);
    AddLineTotal(before.items, pid, size, q, d.products[pid].price);
  }

  /** An add changes nothing but the one cart (and the id counter when the cart is new). */
  lemma AddToCartFrame(d: Db, customer: string, seller: nat, pid: nat, size: Option<string>, q: nat, now: int)
    requires (forall k :: k in d.orders ==> k < d.nextOrderId) && pid in d.products
    ensures var e := AddToCart(d, customer, seller, pid, size, q, now).0;
            && e == d.(orders := e.orders, nextOrderId := e.nextOrderId)
            && (forall k :: k in d.orders && k !in CartIds(d, customer, seller) ==> k in e.orders && e.orders[k] == d.orders[k])
            && (forall k :: k in e.orders ==> k in d.orders || k == d.nextOrderId)
  {
    assert d.nextOrderId !in d.orders;
    AddToCartWrites(d, customer, seller, pid, size, q, now);
  }

  /** An add writes at most the one order the cart lookup found or created. */
  lemma AddToCartWrites(d: Db, customer: string, seller: nat, pid: nat, size: Option<string>, q: nat, now: int)
    requires pid in d.products
    ensures var g := GetOrCreateCart(d, customer, seller, now);
            var e := AddToCart(d, customer, seller, pid, size, q, now).0;
            && (g.None? ==> e == d)
            && (g.Some? ==> g.value.0 in e.orders && e == g.value.1.(orders := g.value.1.orders[g.value.0 := e.orders[g.value.0]]))
  {
  }

  /** The added cart still satisfies every order invariant: keys resolve, lines distinct, total the lines' sum. */
  lemma AddedCartConsistent(d1: Db, id: nat, pid: nat, size: Option<string>, q: nat, price: int)
    requires id in d1.orders && OrderConsistent(d1, d1.orders[id]) && pid in d1.products
    ensures |LineIndices(d1.orders[id].items, pid, size)| <= 1
    ensures var cart := d1.orders[id];
            var items := AddLine(cart.items, pid, size, q, price);
            OrderConsistent(d1, cart.(items := items, total := LinesTotal(items)))
  {
    var cart := d1.orders[id];
    AddLineShape(cart.items, pid, size, q, price);
    var items := AddLine(cart.items, pid, size, q, price);
    var ix := LineIndices(cart.items, pid, size);
    forall i | 0 <= i < |items| && items[i].product.Some? ensures items[i].product.value in d1.products {
      if i < |cart.items| && !(|ix| == 0 && i == |cart.items|) {
        if |ix| == 1 && i == ix[0] {
          assert items[i].product == cart.items[i].product;
        }
      }
    }
  }

  /** The cart found or created is a consistent order of consistent tables. */
  lemma FoundCartConsistent(d: Db, customer: string, seller: nat, now: int)
    requires Consistent(d) && customer in d.customers && seller in d.profiles
    requires GetOrCreateCart(d, customer, seller, now).Some?
    ensures var g := GetOrCreateCart(d, customer, seller, now).value;
            Consistent(g.1) && OrderConsistent(g.1, g.1.orders[g.0])
  {
    var g := GetOrCreateCart(d, customer, seller, now).value;
    if |CartIds(d, customer, seller)| == 0 {
      var cart := NewCart(customer, seller, now);
      AddOrderConsistent(d, cart);
      assert g == (d.nextOrderId, d.(orders := d.orders[d.nextOrderId := cart], nextOrderId := d.nextOrderId + 1));
      assert OrderConsistent(g.1, cart);
    } else {
      assert g == (CartIds(d, customer, seller)[0], d);
      assert OrderConsistent(d, d.orders[g.0]);
    }
  }

  /** Writing the added line into a consistent cart keeps the tables consistent. */
  lemma AddedLineConsistent(d1: Db, id: nat, pid: nat, size: Option<string>, q: nat, price: int)
    requires Consistent(d1) && id in d1.orders && OrderConsistent(d1, d1.orders[id]) && pid in d1.products
    ensures |LineIndices(d1.orders[id].items, pid, size)| <= 1
    ensures var cart := d1.orders[id];
            var items := AddLine(cart.items, pid, size, q, price);
            Consistent(d1.(orders := d1.orders[id := cart.(items := items, total := LinesTotal(items))]))
  {
    AddedCartConsistent(d1, id, pid, size, q, price);
    var cart := d1.orders[id];
    var items := AddLine(cart.items, pid, size, q, price);
    SetOrderConsistent(d1, id, cart.(items := items, total := LinesTotal(items)));
  }

  /** Adding to the cart of an existing customer and seller keeps the database consistent. */
  lemma AddToCartConsistent(d: Db, customer: string, seller: nat, pid: nat, size: Option<string>, q: nat, now: int)
    requires Consistent(d) && pid in d.products && customer in d.customers && seller in d.profiles
    ensures Consistent(AddToCart(d, customer, seller, pid, size, q, now).0)
  {
    var g := GetOrCreateCart(d, customer, seller, now);
    if g.Some? {
      FoundCartConsistent(d, customer, seller, now);
      var d1 := g.value.1;
      assert d1.products == d.products;
      AddedLineConsistent(d1, g.value.0, pid, size, q, d.products[pid].price);
    }
  }

  /** Getting or creating a cart keeps at most one cart per (customer, seller). */
  lemma GetOrCreateSingleCart(d: Db, customer: string, seller: nat, now: int)
    requires Consistent(d) && SingleCart(d.orders)
    ensures GetOrCreateCart(d, customer, seller, now).Some?
    ensures SingleCart(GetOrCreateCart(d, customer, seller, now).value.1.orders)
  {
    SingleCartLookup(d, customer, seller);
    var ids := CartIds(d, customer, seller);
    if |ids| == 0 {
      forall k | k in d.orders ensures !IsCartOf(customer, seller)(k, d.orders[k]) {
        assert k < d.nextOrderId;
        assert k !in ids;
      }
    }
  }

  /** Rewriting an order without touching its status, customer or seller keeps at most one cart per pair. */
  lemma SameHeaderKeepsSingleCart(orders: map<nat, Order>, id: nat, o: Order)
    requires SingleCart(orders) && id in orders
    requires o.status == orders[id].status && o.customer == orders[id].customer && o.seller == orders[id].seller
    ensures SingleCart(orders[id := o])
  {
  }

  /**
   * With at most one cart per (customer, seller) before, an add never raises
   * and there is still at most one cart per pair afterwards.
   */
  lemma AddToCartSingleCart(d: Db, customer: string, seller: nat, pid: nat, size: Option<string>, q: nat, now: int)
    requires Consistent(d) && SingleCart(d.orders) && pid in d.products
    ensures AddToCart(d, customer, seller, pid, size, q, now).1.Replied?
    ensures SingleCart(AddToCart(d, customer, seller, pid, size, q, now).0.orders)
  {
    GetOrCreateSingleCart(d, customer, seller, now);
    var g := GetOrCreateCart(d, customer, seller, now).value;
    var id := g.0;
    var d1 := g.1;
    assert LineKeysUnique(d1.orders[id].items) by {
      if |CartIds(d, customer, seller)| == 0 {
        assert d1.orders[id] == NewCart(customer, seller, now);
      } else {
        assert OrderConsistent(d, d.orders[id]);
      }
    }
    UniqueKeysAtMostOneLine(d1.orders[id].items, pid, size);
    var cart := d1.orders[id];
    var items := AddLine(cart.items, pid, size, q, d.products[pid].price);
    SameHeaderKeepsSingleCart(d1.orders, id, cart.(items := items, total := LinesTotal(items)));
  }
}
