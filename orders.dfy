/**
 * Orders and their lines. An order in status IN_PROGRESS is a customer's
 * cart; each line snapshots the unit price at the time it was added, and an
 * order's total is the sum of quantity times snapshot price over its lines.
 * Money is integer cents.
 */
module Orders {
  import opened Wrappers
  import opened Strings

  datatype OrderStatus =
    | InProgress
    | PendingPayment
    | PendingApproval
    | Processing
    | ReadyForPickup
    | OutForDelivery
    | Delivered
    | PickedUp
    | Cancelled
    | Failed

  function StatusName(s: OrderStatus): string {
    match s
    case InProgress => "IN_PROGRESS"
    case PendingPayment => "PENDING_PAYMENT"
    case PendingApproval => "PENDING_APPROVAL"
    case Processing => "PROCESSING"
    case ReadyForPickup => "READY_FOR_PICKUP"
    case OutForDelivery => "OUT_FOR_DELIVERY"
    case Delivered => "DELIVERED"
    case PickedUp => "PICKED_UP"
    case Cancelled => "CANCELLED"
    case Failed => "FAILED"
  }

  /** The status a column value or a client-sent choice names, or None when it is not one of the ten. */
  function ParseStatus(name: string): Option<OrderStatus> {
    if name == "IN_PROGRESS" then Some(InProgress)
    else if name == "PENDING_PAYMENT" then Some(PendingPayment)
    else if name == "PENDING_APPROVAL" then Some(PendingApproval)
    else if name == "PROCESSING" then Some(Processing)
    else if name == "READY_FOR_PICKUP" then Some(ReadyForPickup)
    else if name == "OUT_FOR_DELIVERY" then Some(OutForDelivery)
    else if name == "DELIVERED" then Some(Delivered)
    else if name == "PICKED_UP" then Some(PickedUp)
    else if name == "CANCELLED" then Some(Cancelled)
    else if name == "FAILED" then Some(Failed)
    else None
  }

  lemma ParseStatusName(s: OrderStatus, name: string)
    ensures ParseStatus(StatusName(s)) == Some(s)
    ensures ParseStatus(name) == Some(s) <==> name == StatusName(s)
  {
  }

  /**
   * How the order reaches the customer; an order that has not chosen yet
   * holds None (NULL). The column also admits the empty string
   * (`blank=True`), which only a seller's update can store.
   */
  datatype DeliveryOption = Pickup | Delivery | BlankChoice

  function DeliveryName(d: DeliveryOption): string {
    match d
    case Pickup => "PICKUP"
    case Delivery => "DELIVERY"
    case BlankChoice => ""
  }

  /** A shared location pin, latitude and longitude as the JSON numbers' text. */
  datatype Coordinates = Coordinates(latitude: string, longitude: string)

  /**
   * An order line. `product` is None once the product row was deleted; the
   * snapshot `price` and the quantity stay. The quantity column admits 0.
   */
  datatype OrderItem = OrderItem(product: Option<nat>, quantity: nat, price: int, size: Option<string>)

  /**
   * An order row with its lines. `customer` is the customer's phone number, None
   * once the customer was deleted; `coordinates` None is the empty JSON object;
   * `createdAt` is the creation time.
   */
  datatype Order = Order(
    customer: Option<string>,
    seller: nat,
    status: OrderStatus,
    total: int,
    delivery: Option<DeliveryOption>,
    addressText: Option<string>,
    coordinates: Option<Coordinates>,
    transactionId: Option<string>,
    checkoutId: Option<string>,
    createdAt: int,
    items: seq<OrderItem>)

  /** An order created by `get_or_create` from customer, seller and status alone. */
  function NewCart(customer: string, seller: nat, now: int): (o: Order)
    ensures o.status == InProgress && o.total == 0 && o.items == []
    ensures o.customer == Some(customer) && o.seller == seller && o.createdAt == now
    ensures o.delivery.None? && o.checkoutId.None? && o.transactionId.None?
  {
    Order(Some(customer), seller, InProgress, 0, None, None, None, None, None, now, [])
  }

  /** The line's contribution to the total, also the dashboard's displayed subtotal. */
  function LineTotal(it: OrderItem): int {
    it.quantity * it.price
  }

  /** Σ quantity × price over the lines; 0 for no lines. */
  function LinesTotal(items: seq<OrderItem>): int
    decreases |items|
  {
    if |items| == 0 then 0 else LineTotal(items[0]) + LinesTotal(items[1..])
  }

  lemma {:induction false} LinesTotalAppend(items: seq<OrderItem>, it: OrderItem)
    ensures LinesTotal(items + [it]) == LinesTotal(items) + LineTotal(it)
    decreases |items|
  {
    if |items| == 0 {
      assert items + [it] == [it];
    } else {
      assert (items + [it])[1..] == items[1..] + [it];
      LinesTotalAppend(items[1..], it);
    }
  }

  lemma {:induction false} LinesTotalUpdate(items: seq<OrderItem>, i: nat, it: OrderItem)
    requires i < |items|
    ensures LinesTotal(items[i := it]) == LinesTotal(items) - LineTotal(items[i]) + LineTotal(it)
    decreases |items|
  {
    if i > 0 {
      assert items[i := it][1..] == items[1..][i - 1 := it];
      LinesTotalUpdate(items[1..], i - 1, it);
    } else {
      assert items[i := it][1..] == items[1..];
    }
  }

  /** Lines that carry no price of their own make no difference: the total is non-negative when prices are. */
  lemma {:induction false} LinesTotalNonNegative(items: seq<OrderItem>)
    requires forall i :: 0 <= i < |items| ==> items[i].price >= 0
    ensures LinesTotal(items) >= 0
    decreases |items|
  {
    if |items| > 0 {
      LinesTotalNonNegative(items[1..]);
    }
  }

  /** The positions of the lines `OrderItem.objects.get_or_create(order, product, selected_size)` matches. */
  function LineIndices(items: seq<OrderItem>, product: nat, size: Option<string>): (r: seq<nat>)
    ensures forall k :: 0 <= k < |r| ==> r[k] < |items| && items[r[k]].product == Some(product) && items[r[k]].size == size
    ensures forall i :: 0 <= i < |items| && items[i].product == Some(product) && items[i].size == size ==> i in r
    decreases |items|
  {
    if |items| == 0 then []
    else
      var n := |items| - 1;
      LineIndices(items[..n], product, size) + (if items[n].product == Some(product) && items[n].size == size then [n] else [])
  }

  /** No two lines of a surviving product share a size. */
  predicate LineKeysUnique(items: seq<OrderItem>) {
    forall i, j :: 0 <= i < j < |items| && items[i].product.Some? ==>
      (items[i].product, items[i].size) != (items[j].product, items[j].size)
  }

  lemma {:induction false} UniqueKeysAtMostOneLine(items: seq<OrderItem>, product: nat, size: Option<string>)
    requires LineKeysUnique(items)
    ensures |LineIndices(items, product, size)| <= 1
    decreases |items|
  {
    if |items| > 0 {
      var n := |items| - 1;
      var front := items[..n];
      assert LineKeysUnique(front) by {
        forall i, j | 0 <= i < j < |front| && front[i].product.Some?
          ensures (front[i].product, front[i].size) != (front[j].product, front[j].size)
        {
          assert front[i] == items[i] && front[j] == items[j];
        }
      }
      UniqueKeysAtMostOneLine(front, product, size);
      if items[n].product == Some(product) && items[n].size == size {
        forall i | 0 <= i < n ensures !(front[i].product == Some(product) && front[i].size == size) {
          assert front[i] == items[i];
        }
        NoMatchNoIndices(front, product, size);
      }
    }
  }

  lemma {:induction false} NoMatchNoIndices(items: seq<OrderItem>, product: nat, size: Option<string>)
    requires forall i :: 0 <= i < |items| ==> !(items[i].product == Some(product) && items[i].size == size)
    ensures LineIndices(items, product, size) == []
    decreases |items|
  {
    if |items| > 0 {
      var n := |items| - 1;
      assert forall i :: 0 <= i < n ==> items[..n][i] == items[i];
      NoMatchNoIndices(items[..n], product, size);
    }
  }

  /**
   * The lines after adding `q` of `product` in `size`: an existing line for
   * that key gains `q` and keeps its snapshot price, otherwise a new line of
   * quantity `q` at `price` is appended.
   */
  function AddLine(items: seq<OrderItem>, product: nat, size: Option<string>, q: nat, price: int): (r: seq<OrderItem>)
    requires |LineIndices(items, product, size)| <= 1
  {
    var ix := LineIndices(items, product, size);
    if |ix| == 0 then items + [OrderItem(Some(product), q, price, size)]
    else items[ix[0] := items[ix[0]].(quantity := items[ix[0]].quantity + q)]
  }

  /** The unit price the added quantity is charged at: the existing line's snapshot, or the current price. */
  function ChargedPrice(items: seq<OrderItem>, product: nat, size: Option<string>, price: int): int {
    var ix := LineIndices(items, product, size);
    if |ix| == 0 then price else items[ix[0]].price
  }

  /** The cart's new total is the old total plus q times the charged price. */
  lemma AddLineTotal(items: seq<OrderItem>, product: nat, size: Option<string>, q: nat, price: int)
    requires |LineIndices(items, product, size)| <= 1
    ensures LinesTotal(AddLine(items, product, size, q, price))
            == LinesTotal(items) + q * ChargedPrice(items, product, size, price)
  {
    var ix := LineIndices(items, product, size);
    if |ix| == 0 {
      LinesTotalAppend(items, OrderItem(Some(product), q, price, size));
    } else {
      IncrementTotal(items, ix[0], q);
    }
  }

  lemma IncrementTotal(items: seq<OrderItem>, i: nat, q: nat)
    requires i < |items|
    ensures LinesTotal(items[i := items[i].(quantity := items[i].quantity + q)])
            == LinesTotal(items) + q * items[i].price
  {
    var it := items[i].(quantity := items[i].quantity + q);
    LinesTotalUpdate(items, i, it);
    assert LineTotal(it) == (items[i].quantity + q) * items[i].price;
  }

  /** Adding never creates a second line for a key, and touches no other line. */
  lemma AddLineShape(items: seq<OrderItem>, product: nat, size: Option<string>, q: nat, price: int)
    requires LineKeysUnique(items)
    ensures |LineIndices(items, product, size)| <= 1
    ensures LineKeysUnique(AddLine(items, product, size, q, price))
    ensures var r := AddLine(items, product, size, q, price);
            var ix := LineIndices(items, product, size);
            && (|ix| == 0 ==> |r| == |items| + 1 && r[..|items|] == items && r[|items|] == OrderItem(Some(product), q, price, size))
            && (|ix| == 1 ==>
                  && |r| == |items|
                  && r[ix[0]].quantity == items[ix[0]].quantity + q
                  && r[ix[0]].price == items[ix[0]].price
                  && forall i :: 0 <= i < |items| && i != ix[0] ==> r[i] == items[i])
  {
    UniqueKeysAtMostOneLine(items, product, size);
    var r := AddLine(items, product, size, q, price);
    var ix := LineIndices(items, product, size);
    if |ix| == 0 {
      assert r[..|items|] == items;
      forall i, j | 0 <= i < j < |r| && r[i].product.Some?
        ensures (r[i].product, r[i].size) != (r[j].product, r[j].size)
      {
        if j == |items| {
          assert i !in ix;
        }
      }
    }
  }

  /** The lines after the product rows in `gone` are deleted: their lines lose the reference and keep everything else. */
  function DetachProducts(items: seq<OrderItem>, gone: set<nat>): (r: seq<OrderItem>)
    ensures |r| == |items|
    ensures forall i :: 0 <= i < |items| ==>
      r[i] == (if items[i].product.Some? && items[i].product.value in gone then items[i].(product := None) else items[i])
  {
    seq(|items|, i requires 0 <= i < |items| =>
      if items[i].product.Some? && items[i].product.value in gone then items[i].(product := None) else items[i])
  }

  /** Deleting products leaves every total consistent: quantities and snapshot prices survive. */
  lemma {:induction false} DetachProductsTotal(items: seq<OrderItem>, gone: set<nat>)
    ensures LinesTotal(DetachProducts(items, gone)) == LinesTotal(items)
    decreases |items|
  {
    if |items| > 0 {
      DetachProductsTotal(items[1..], gone);
      assert DetachProducts(items, gone)[1..] == DetachProducts(items[1..], gone);
    }
  }

  /** Detached lines no longer name a product, so the surviving lines keep distinct keys. */
  lemma DetachProductsKeepsUnique(items: seq<OrderItem>, gone: set<nat>)
    requires LineKeysUnique(items)
    ensures LineKeysUnique(DetachProducts(items, gone))
    ensures forall i :: 0 <= i < |items| && DetachProducts(items, gone)[i].product.Some? ==>
              DetachProducts(items, gone)[i].product.value !in gone
  {
  }

  /** The text an order line renders as: `quantity x name`, or 'Deleted Product' without a product. */
  function ItemLabel(it: OrderItem, productName: Option<string>): (r: string)
    ensures it.product.None? ==> r == NatToString(it.quantity) + " x Deleted Product"
  {
    NatToString(it.quantity) + " x " +
      (if it.product.Some? && productName.Some? then productName.value else "Deleted Product")
  }
}
