/**
 * The sellers' order API: the orders a seller sees, the HTTP methods the
 * endpoint answers, and the partial update it saves.
 */
module OrderApi {
  import opened Wrappers
  import opened Strings
  import opened Seqs
  import opened Orders
  import opened Database

  /** Listed for `seller`: its own order that is no longer a cart. */
  function IsListedOf(seller: nat): (nat, Order) -> bool {
    (k: nat, o: Order) => o.seller == seller && o.status != InProgress
  }

  /** The sort key `created_at` of an order id. */
  function CreatedAtOf(d: Db): nat -> int {
    (k: nat) => if k in d.orders then d.orders[k].createdAt else 0
  }

  /**
   * `get_queryset`: the seller's orders without the carts, newest
   * `created_at` first (orders created in the same instant in no fixed order).
   */
  function OrderQueryset(d: Db, seller: nat): (r: seq<nat>)
    ensures forall k :: k in r <==> k in d.orders && k < d.nextOrderId && IsListedOf(seller)(k, d.orders[k])
    ensures SortedDesc(r, CreatedAtOf(d))
  {
    var ids := KeysDesc(d.orders, d.nextOrderId, IsListedOf(seller));
    var r := SortDesc(ids, CreatedAtOf(d));
    SameElements(ids, r);
    r
  }

  /** The list runs from the newest `created_at` to the oldest. */
  lemma QuerysetNewestFirst(d: Db, seller: nat)
    ensures var r := OrderQueryset(d, seller);
            forall i, j :: 0 <= i < j < |r| ==> d.orders[r[i]].createdAt >= d.orders[r[j]].createdAt
  {
    var r := OrderQueryset(d, seller);
    forall i, j | 0 <= i < j < |r| ensures d.orders[r[i]].createdAt >= d.orders[r[j]].createdAt {
      assert CreatedAtOf(d)(r[i]) >= CreatedAtOf(d)(r[j]);
    }
  }

  /** Lists with the same multiset hold the same elements. */
  lemma SameElements<T>(xs: seq<T>, ys: seq<T>)
    requires multiset(xs) == multiset(ys)
    ensures forall x :: x in xs <==> x in ys
  {
    forall x ensures x in xs <==> x in ys {
      assert x in xs <==> x in multiset(xs);
      assert x in ys <==> x in multiset(ys);
    }
  }

  /** In a consistent store, the list is exactly the seller's non-cart orders. */
  lemma QuerysetExact(d: Db, seller: nat)
    requires Consistent(d)
    ensures forall k :: k in OrderQueryset(d, seller) <==> k in d.orders && d.orders[k].seller == seller && d.orders[k].status != InProgress
  {
  }

  /** The verbs the endpoint answers (`http_method_names`); the request method is compared lower-cased. */
  const AllowedMethods := ["get", "patch", "head", "options"]

  /** Whether the endpoint dispatches the method; any other is answered 405. */
  predicate MethodAllowed(verb: string) {
    Lower(verb) in AllowedMethods
  }

  /** Listing, retrieving and patching are served; creating, replacing and deleting orders are not. */
  lemma OnlyReadAndPatch()
    ensures MethodAllowed("GET") && MethodAllowed("PATCH")
    ensures !MethodAllowed("POST") && !MethodAllowed("PUT") && !MethodAllowed("DELETE")
  {
    assert Lower("GET") == "get";
    assert Lower("PATCH") == "patch";
    assert Lower("POST") == "post";
    assert Lower("PUT") == "put";
    assert Lower("DELETE") == "delete";
  }

  /**
   * The writable fields of a PATCH, those `OrderSerializer` does not list as
   * read-only (orders/serializers.py:25-30); None is an omitted field. The
   * delivery option and address may be sent as null (`Some(None)`).
   */
  datatype OrderPatch = OrderPatch(
    status: Option<string>,
    delivery: Option<Option<string>>,
    addressText: Option<Option<string>>)

  datatype PatchError =
    | OrderNotFound
    | InvalidFields(fields: seq<string>)   // the fields whose value is not one of the choices, in field order

  /** The delivery choice field: one of the two choices, or the empty string the column admits. */
  function ParseDelivery(name: string): (r: Option<DeliveryOption>)
    ensures r.Some? ==> DeliveryName(r.value) == name
  {
    if name == "PICKUP" then Some(Pickup) else if name == "DELIVERY" then Some(Delivery)
    else if name == "" then Some(BlankChoice) else None
  }

  /** Every stored delivery value is accepted back by the choice field. */
  lemma ParseDeliveryName(o: DeliveryOption)
    ensures ParseDelivery(DeliveryName(o)) == Some(o)
  {
  }

  /** The fields of a patch holding a value that is not one of their choices (a blank delivery option is one). */
  function BadFields(p: OrderPatch): (r: seq<string>)
    ensures r == [] <==>
              && (p.status.Some? ==> ParseStatus(p.status.value).Some?)
              && (p.delivery.Some? && p.delivery.value.Some? ==> ParseDelivery(p.delivery.value.value).Some?)
  {
    (if p.status.Some? && ParseStatus(p.status.value).None? then ["status"] else [])
    + (if p.delivery.Some? && p.delivery.value.Some? && ParseDelivery(p.delivery.value.value).None? then ["delivery_option"] else [])
  }

  /**
   * An order with a patch's fields written over it; omitted fields keep
   * their value, and a sent address is stored with the white space at both
   * ends removed (the text field's `trim_whitespace`).
   */
  function Patched(o: Order, p: OrderPatch): Order
    requires BadFields(p) == []
  {
    o.(status := if p.status.Some? then ParseStatus(p.status.value).value else o.status,
       delivery := if p.delivery.Some? then (if p.delivery.value.Some? then ParseDelivery(p.delivery.value.value) else None) else o.delivery,
       addressText := if p.addressText.Some? then
                        (if p.addressText.value.Some? then Some(Strip(p.addressText.value.value, Python)) else None)
                      else o.addressText)
  }

  /**
   * `partial_update`: the order must be in the seller's list (carts and
   * other sellers' orders are 404), the choice fields must be valid, and the
   * patch is then saved with no check on the status transition.
   */
  function PatchOrder(d: Db, seller: nat, id: nat, p: OrderPatch): Result<Db, PatchError> {
    if id !in OrderQueryset(d, seller) then Err(OrderNotFound)
    else if BadFields(p) != [] then Err(InvalidFields(BadFields(p)))
    else Ok(d.(orders := d.orders[id := Patched(d.orders[id], p)]))
  }

  /**
   * A patch only writes the named fields of the one order: its lines, total,
   * customer, seller and payment ids stay, and every other row stays; the
   * database stays consistent.
   */
  lemma PatchFrame(d: Db, seller: nat, id: nat, p: OrderPatch)
    requires Consistent(d) && PatchOrder(d, seller, id, p).Ok?
    ensures var e := PatchOrder(d, seller, id, p).value;
            && id in d.orders && e.orders.Keys == d.orders.Keys
            && (forall k :: k in d.orders && k != id ==> e.orders[k] == d.orders[k])
            && e.orders[id].items == d.orders[id].items && e.orders[id].total == d.orders[id].total
            && e.orders[id].customer == d.orders[id].customer && e.orders[id].seller == seller
            && e.orders[id].checkoutId == d.orders[id].checkoutId && e.orders[id].transactionId == d.orders[id].transactionId
            && e.products == d.products && e.customers == d.customers && e.profiles == d.profiles
            && Consistent(e)
  {
    PatchShape(d, seller, id, p);
    PatchConsistent(d, seller, id, p);
  }

  /** A successful patch rewrites one listed order with only its status, delivery and address changed. */
  lemma PatchShape(d: Db, seller: nat, id: nat, p: OrderPatch)
    requires PatchOrder(d, seller, id, p).Ok?
    ensures id in d.orders && d.orders[id].seller == seller && BadFields(p) == []
    ensures var q := Patched(d.orders[id], p);
            && PatchOrder(d, seller, id, p).value == d.(orders := d.orders[id := q])
            && q == d.orders[id].(status := q.status, delivery := q.delivery, addressText := q.addressText)
  {
    assert id in OrderQueryset(d, seller);
  }

  lemma PatchConsistent(d: Db, seller: nat, id: nat, p: OrderPatch)
    requires Consistent(d) && PatchOrder(d, seller, id, p).Ok?
    ensures Consistent(PatchOrder(d, seller, id, p).value)
  {
    PatchShape(d, seller, id, p);
    var o := d.orders[id];
    var q := Patched(o, p);
    assert OrderConsistent(d, o);
    if o.checkoutId.Some? {
      forall k | k in d.orders && k != id ensures d.orders[k].checkoutId != o.checkoutId {
        assert CheckoutIdsUnique(d.orders);
      }
    }
    SetOrderConsistent(d, id, q);
  }

  /**
   * No transition is checked: any listed order can be moved to any of the ten
   * statuses, back to a cart or out of a terminal status included.
   */
  lemma AnyTransition(d: Db, seller: nat, id: nat, s: OrderStatus)
    requires id in d.orders && id < d.nextOrderId && d.orders[id].seller == seller && d.orders[id].status != InProgress
    ensures var r := PatchOrder(d, seller, id, OrderPatch(Some(StatusName(s)), None, None));
            r.Ok? && r.value.orders[id].status == s
  {
    ParseStatusName(s, StatusName(s));
    assert IsListedOf(seller)(id, d.orders[id]);
  }

  /**
   * A blank delivery option and a padded address are accepted: the order
   * then holds the empty choice and the trimmed address, its status kept.
   */
  lemma BlankDeliveryAccepted(d: Db, seller: nat, id: nat, address: string)
    requires id in d.orders && id < d.nextOrderId && d.orders[id].seller == seller && d.orders[id].status != InProgress
    ensures var r := PatchOrder(d, seller, id, OrderPatch(None, Some(Some("")), Some(Some(address))));
            && r.Ok?
            && r.value.orders[id].delivery == Some(BlankChoice)
            && r.value.orders[id].addressText == Some(Strip(address, Python))
            && r.value.orders[id].status == d.orders[id].status
  {
    assert IsListedOf(seller)(id, d.orders[id]);
  }

  /** An order that is a cart, or another seller's, cannot be patched. */
  lemma CartsNotPatchable(d: Db, seller: nat, id: nat, p: OrderPatch)
    requires id in d.orders && (d.orders[id].status == InProgress || d.orders[id].seller != seller)
    ensures PatchOrder(d, seller, id, p) == Err(OrderNotFound)
  {
  }
}
