/**
 * The M-Pesa STK callback: the reconciliation that settles or fails a
 * PENDING_PAYMENT order when Safaricom reports the payment's result. The
 * whole reconciliation runs in one database transaction, so an exception
 * part-way rolls every table back, while a WhatsApp message already handed
 * over stays sent.
 */
module Payments {
  import opened Wrappers
  import opened Seqs
  import opened Sellers
  import opened Products
  import opened Orders
  import opened Messages
  import opened Database

  /** One `CallbackMetadata.Item` entry: its `Name` and its `Value`, either may be absent. */
  datatype MetaItem = MetaItem(name: Option<string>, value: Option<string>)

  /** The parts of `Body.stkCallback` the reconciliation reads; None is an absent key. */
  datatype Callback = Callback(
    checkoutId: Option<string>,
    resultCode: Option<int>,
    resultDesc: Option<string>,
    items: seq<MetaItem>)

  /** The JSON answer: HTTP status, `ResultCode` and `ResultDesc`. */
  datatype Ack = Ack(status: nat, resultCode: int, resultDesc: string)

  const Accepted := Ack(200, 0, "Accepted")

  const DefaultFailure := "Payment was not completed."

  const ReceiptName := "MpesaReceiptNumber"

  /**
   * Where the receipt number is written. As written the code assigns an
   * attribute whose name differs from the model field by one letter, so the
   * value never reaches the row; `Declared` writes the declared field.
   */
  datatype ReceiptField = Misspelt | Declared

  /** The tables after the callback and the messages it handed to WhatsApp, in order. */
  datatype Effect = Effect(rows: Db, sent: seq<Request>)

  /** The filter for the order carrying a checkout request id. */
  function HasCheckout(cid: string): (nat, Order) -> bool {
    (k: nat, o: Order) => o.checkoutId == Some(cid)
  }

  /** `Order.objects.filter(mpesa_checkout_request_id=cid)`: the ids found. */
  function OrdersWithCheckout(d: Db, cid: string): (r: seq<nat>)
    ensures forall i :: 0 <= i < |r| ==> r[i] in d.orders && d.orders[r[i]].checkoutId == Some(cid)
    ensures forall i, j :: 0 <= i < j < |r| ==> r[i] < r[j]
  {
    KeysAsc(d.orders, d.nextOrderId, HasCheckout(cid))
  }

  /** The unique column makes the lookup find exactly the one order that carries the id, if any. */
  lemma CheckoutLookup(d: Db, cid: string, k: nat)
    requires Consistent(d) && k in d.orders && d.orders[k].checkoutId == Some(cid)
    ensures OrdersWithCheckout(d, cid) == [k]
  {
    var r := OrdersWithCheckout(d, cid);
    assert HasCheckout(cid)(k, d.orders[k]);
    assert k in r;
    forall i | 0 <= i < |r| ensures r[i] == r[0] && i == 0 {
      assert d.orders[r[i]].checkoutId == Some(cid);
      assert d.orders[r[0]].checkoutId == Some(cid);
    }
    assert r[|r| - 1] == r[0];
  }

  /** A lookup finds at most one order. */
  lemma CheckoutLookupAtMostOne(d: Db, cid: string)
    requires Consistent(d)
    ensures |OrdersWithCheckout(d, cid)| <= 1
  {
    var r := OrdersWithCheckout(d, cid);
    if |r| > 0 {
      CheckoutLookup(d, cid, r[0]);
    }
  }

  /** The value of the last metadata item named `MpesaReceiptNumber` (None inside when it has no value); None when there is none. */
  function Receipt(items: seq<MetaItem>): (r: Option<Option<string>>)
    ensures r.None? <==> forall i :: 0 <= i < |items| ==> items[i].name != Some(ReceiptName)
    ensures r.Some? ==> exists i :: 0 <= i < |items| && items[i].name == Some(ReceiptName) && items[i].value == r.value
                                    && forall j :: i < j < |items| ==> items[j].name != Some(ReceiptName)
    decreases |items|
  {
    if |items| == 0 then None
    else
      var last := items[|items| - 1];
      if last.name == Some(ReceiptName) then Some(last.value)
      else
        var r := Receipt(items[..|items| - 1]);
        assert forall i :: 0 <= i < |items| - 1 ==> items[..|items| - 1][i] == items[i];
        r
  }

  /** The metadata loop: each matching item overwrites the receipt, so the last one wins. */
  method LastReceipt(items: seq<MetaItem>) returns (r: Option<Option<string>>)
    ensures r == Receipt(items)
  {
    r := None;
    var i := 0;
    while i < |items|
      invariant 0 <= i <= |items|
      invariant r == Receipt(items[..i])
    {
      assert items[..i + 1][..i] == items[..i];
      if items[i].name == Some(ReceiptName) {
        r := Some(items[i].value);
      }
      i := i + 1;
    }
    assert items[..i] == items;
  }

  /** One line's stock update: a surviving product loses the line's quantity when it has that much, else keeps its stock. */
  function StockStep(products: map<nat, Product>, it: OrderItem): (r: map<nat, Product>)
    ensures r.Keys == products.Keys
    ensures forall k :: k in products ==> r[k] == products[k].(inventory := r[k].inventory) && r[k].inventory <= products[k].inventory
  {
    if it.product.Some? && it.product.value in products && products[it.product.value].inventory >= it.quantity then
      var p := products[it.product.value];
      products[it.product.value := p.(inventory := p.inventory - it.quantity)]
    else products
  }

  /** The products table after the stock loop has run over `items` in order. */
  function Restocked(products: map<nat, Product>, items: seq<OrderItem>): (r: map<nat, Product>)
    ensures r.Keys == products.Keys
    decreases |items|
  {
    if |items| == 0 then products
    else StockStep(Restocked(products, items[..|items| - 1]), items[|items| - 1])
  }

  /** Some line names product k. */
  predicate Names(items: seq<OrderItem>, k: nat) {
    exists i :: 0 <= i < |items| && items[i].product == Some(k)
  }

  /**
   * The stock loop changes only stock, never raises it, and leaves products
   * no line names as they were; stock cannot go below zero (it is a `nat`).
   */
  lemma {:induction false} RestockedFrame(products: map<nat, Product>, items: seq<OrderItem>)
    ensures Restocked(products, items).Keys == products.Keys
    ensures forall k :: k in products ==>
              && Restocked(products, items)[k] == products[k].(inventory := Restocked(products, items)[k].inventory)
              && Restocked(products, items)[k].inventory <= products[k].inventory
    ensures forall k :: k in products && !Names(items, k) ==> Restocked(products, items)[k] == products[k]
    decreases |items|
  {
    if |items| > 0 {
      var front := items[..|items| - 1];
      RestockedFrame(products, front);
      forall k | k in products && !Names(items, k) ensures !Names(front, k) {
        forall i | 0 <= i < |front| ensures front[i].product != Some(k) {
          assert front[i] == items[i];
        }
      }
    }
  }

  /** Stock the other lines leave alone: a product named by exactly line i drops by its quantity if it had enough, and is unchanged otherwise. */
  lemma {:induction false} RestockedSingleLine(products: map<nat, Product>, items: seq<OrderItem>, i: nat, k: nat)
    requires 0 <= i < |items| && items[i].product == Some(k) && k in products
    requires forall j :: 0 <= j < |items| && j != i ==> items[j].product != Some(k)
    ensures Restocked(products, items)[k].inventory ==
              if products[k].inventory >= items[i].quantity then products[k].inventory - items[i].quantity
              else products[k].inventory
    decreases |items|
  {
    RestockedFrame(products, items);
    var front := items[..|items| - 1];
    if i == |items| - 1 {
      assert !Names(front, k) by {
        forall j | 0 <= j < |front| ensures front[j].product != Some(k) {
          assert front[j] == items[j];
        }
      }
      RestockedFrame(products, front);
    } else {
      forall j | 0 <= j < |front| && j != i ensures front[j].product != Some(k) {
        assert front[j] == items[j];
      }
      RestockedSingleLine(products, front, i, k);
      RestockedFrame(products, front);
    }
  }

  /** The stock loop, saving each product it decrements. */
  method DecrementStock(db: Store, items: seq<OrderItem>)
    modifies db
    ensures db.Rows() == old(db.Rows()).(products := Restocked(old(db.products), items)) && db.outbox == old(db.outbox)
  {
    ghost var before := db.Rows();
    var i := 0;
    while i < |items|
      invariant 0 <= i <= |items|
      invariant db.products == Restocked(before.products, items[..i])
      invariant db.Rows() == before.(products := db.products) && db.outbox == old(db.outbox)
    {
      DecrementLine(db, items[i]);
      assert items[..i + 1][..i] == items[..i];
      i := i + 1;
    }
    assert items[..i] == items;
  }

  /** One pass of the stock loop: a surviving product with enough stock loses the line's quantity and is saved. */
  method DecrementLine(db: Store, it: OrderItem)
    modifies db
    ensures db.Rows() == old(db.Rows()).(products := StockStep(old(db.products), it)) && db.outbox == old(db.outbox)
  {
    if it.product.Some? && it.product.value in db.products {
      var p := db.products[it.product.value];
      if p.inventory >= it.quantity {
        db.products := db.products[it.product.value := p.(inventory := p.inventory - it.quantity)];
      }
    }
  }

  /** The seller's item summary, one `quantity x name` per line; None when a line's product is gone, which raises. */
  function Summary(items: seq<OrderItem>, products: map<nat, Product>): (r: Option<seq<string>>)
    ensures r.Some? <==> forall i :: 0 <= i < |items| ==> items[i].product.Some? && items[i].product.value in products
    ensures r.Some? ==> |r.value| == |items|
    decreases |items|
  {
    if |items| == 0 then Some([])
    else
      var it := items[|items| - 1];
      var front := Summary(items[..|items| - 1], products);
      assert forall i :: 0 <= i < |items| - 1 ==> items[..|items| - 1][i] == items[i];
      if front.None? || it.product.None? || it.product.value !in products then None
      else Some(front.value + [ItemLabel(it, Some(products[it.product.value].name))])
  }

  /** The summary comprehension. */
  method SummaryLines(items: seq<OrderItem>, products: map<nat, Product>) returns (r: Option<seq<string>>)
    ensures r == Summary(items, products)
  {
    var lines: seq<string> := [];
    var i := 0;
    while i < |items|
      invariant 0 <= i <= |items|
      invariant Summary(items[..i], products) == Some(lines)
    {
      assert items[..i + 1][..i] == items[..i];
      var it := items[i];
      if it.product.None? || it.product.value !in products {
        assert Summary(items[..i + 1], products).None?;
        SummaryNonePropagates(items, products, i + 1);
        return None;
      }
      lines := lines + [ItemLabel(it, Some(products[it.product.value].name))];
      i := i + 1;
    }
    assert items[..i] == items;
    r := Some(lines);
  }

  /** A missing product in a prefix stays missing in the whole list. */
  lemma SummaryNonePropagates(items: seq<OrderItem>, products: map<nat, Product>, n: nat)
    requires n <= |items| && Summary(items[..n], products).None?
    ensures Summary(items, products).None?
  {
    var j :| 0 <= j < n && !(items[..n][j].product.Some? && items[..n][j].product.value in products);
    assert items[j] == items[..n][j];
  }

  /** The number paid-order alerts go to, when the seller has one set. */
  function AlertNumber(d: Db, seller: nat): Option<string> {
    if seller in d.profiles && Truthy(d.profiles[seller].notificationPhoneNumber) then d.profiles[seller].notificationPhoneNumber
    else None
  }

  /** The order once paid: PENDING_APPROVAL, and (only with the declared field) the receipt recorded. */
  function Paid(o: Order, cb: Callback, field: ReceiptField): Order {
    var receipt := Receipt(cb.items);
    o.(status := PendingApproval,
       transactionId := if field == Declared && receipt.Some? then receipt.value else o.transactionId)
  }

  /**
   * The success branch for pending order `id`: the order paid, stock
   * decremented, then the customer told and the seller alerted. A missing
   * customer, or a deleted product in the seller's summary, raises and rolls
   * the tables back.
   */
  function Settled(d: Db, id: nat, cb: Callback, field: ReceiptField): Effect
    requires id in d.orders
  {
    var o := d.orders[id];
    var e := Committed(d, id, cb, field);
    if o.customer.None? then Effect(d, [])
    else
      var toCustomer := TextRequest(o.customer.value, PaymentReceived(id, o.total));
      match AlertNumber(d, o.seller)
      case None => Effect(e, [toCustomer])
      case Some(number) =>
        match Summary(o.items, e.products)
        case None => Effect(d, [toCustomer])
        case Some(lines) => Effect(e, [toCustomer, TextRequest(number, NewPaidOrder(id, o.total, lines))])
  }

  /** The tables a committed success leaves: stock decremented and the order paid. */
  function Committed(d: Db, id: nat, cb: Callback, field: ReceiptField): Db
    requires id in d.orders
  {
    d.(products := Restocked(d.products, d.orders[id].items), orders := d.orders[id := Paid(d.orders[id], cb, field)])
  }

  /** The tables a committed failure leaves. */
  function Failing(d: Db, id: nat): Db
    requires id in d.orders
  {
    d.(orders := d.orders[id := d.orders[id].(status := Failed)])
  }

  /** The reason shown to the customer: `ResultDesc`, or the default when the key is absent. */
  function Reason(cb: Callback): string {
    if cb.resultDesc.Some? then cb.resultDesc.value else DefaultFailure
  }

  /** The failure branch: the order FAILED and the customer told why; a missing customer rolls back. */
  function Declined(d: Db, id: nat, cb: Callback): Effect
    requires id in d.orders
  {
    var o := d.orders[id];
    if o.customer.None? then Effect(d, [])
    else Effect(Failing(d, id), [TextRequest(o.customer.value, PaymentFailed(id, Reason(cb)))])
  }

  /** The whole callback as a function of the tables and the callback. */
  function Reconcile(d: Db, cb: Callback, field: ReceiptField): Effect {
    if cb.checkoutId.None? || cb.checkoutId.value == "" then Effect(d, [])
    else
      var ids := OrdersWithCheckout(d, cb.checkoutId.value);
      if |ids| != 1 then Effect(d, [])
      else if d.orders[ids[0]].status != PendingPayment then Effect(d, [])
      else if cb.resultCode == Some(0) then Settled(d, ids[0], cb, field)
      else Declined(d, ids[0], cb)
  }

  /** The pending order a callback settles, if any. */
  function Target(d: Db, cb: Callback): (r: Option<nat>)
    ensures r.Some? ==> r.value in d.orders && d.orders[r.value].status == PendingPayment && d.orders[r.value].checkoutId == cb.checkoutId
  {
    if cb.checkoutId.None? || cb.checkoutId.value == "" then None
    else
      var ids := OrdersWithCheckout(d, cb.checkoutId.value);
      if |ids| == 1 && d.orders[ids[0]].status == PendingPayment then Some(ids[0]) else None
  }

  /** The callback either changes nothing or runs one branch on its target order; each branch commits or rolls back. */
  lemma ReconcileByTarget(d: Db, cb: Callback, field: ReceiptField)
    ensures Target(d, cb).None? ==> Reconcile(d, cb, field) == Effect(d, [])
    ensures Target(d, cb).Some? ==>
              var id := Target(d, cb).value;
              && Reconcile(d, cb, field) == (if cb.resultCode == Some(0) then Settled(d, id, cb, field) else Declined(d, id, cb))
              && Settled(d, id, cb, field).rows in {d, Committed(d, id, cb, field)}
              && Declined(d, id, cb).rows in {d, Failing(d, id)}
  {
  }

  /**
   * Only a PENDING_PAYMENT order is touched: without a checkout id, with an
   * unknown one, or when the order was already settled, nothing changes and
   * nothing is sent.
   */
  lemma OnlyPendingTouched(d: Db, cb: Callback, field: ReceiptField)
    requires Consistent(d)
    ensures Target(d, cb).None? ==> Reconcile(d, cb, field) == Effect(d, [])
    ensures cb.checkoutId.Some? && (forall k :: k in d.orders ==> d.orders[k].checkoutId != cb.checkoutId) ==> Target(d, cb).None?
    ensures forall k :: k in d.orders && d.orders[k].checkoutId == cb.checkoutId && d.orders[k].status != PendingPayment ==> Target(d, cb).None?
  {
    ReconcileByTarget(d, cb, field);
    forall k | k in d.orders && d.orders[k].checkoutId == cb.checkoutId && d.orders[k].status != PendingPayment
      ensures Target(d, cb).None?
    {
      if cb.checkoutId.Some? {
        CheckoutLookup(d, cb.checkoutId.value, k);
      }
    }
  }

  /**
   * What the callback changes: at most the target order, and stock; users,
   * profiles, customers, conversations and counters stay; every other order
   * stays; products keep everything but their stock, which never rises.
   */
  lemma ReconcileFrame(d: Db, cb: Callback, field: ReceiptField)
    ensures var e := Reconcile(d, cb, field).rows;
            && e == d.(products := e.products, orders := e.orders)
            && e.orders.Keys == d.orders.Keys
            && (forall k :: k in d.orders && Some(k) != Target(d, cb) ==> e.orders[k] == d.orders[k])
            && e.products.Keys == d.products.Keys
            && (forall k :: k in d.products ==> e.products[k] == d.products[k].(inventory := e.products[k].inventory)
                                                && e.products[k].inventory <= d.products[k].inventory)
  {
    ReconcileByTarget(d, cb, field);
    var t := Target(d, cb);
    if t.Some? {
      RestockedFrame(d.products, d.orders[t.value].items);
    }
  }

  /**
   * A successful payment for a pending order with a customer: the order is
   * PENDING_APPROVAL, stock is the stock loop's, the customer is told first,
   * and the seller is alerted exactly when an alert number is set and every
   * line still has its product; a deleted product then rolls everything back.
   */
  lemma SuccessOutcome(d: Db, cb: Callback, field: ReceiptField, id: nat)
    requires Target(d, cb) == Some(id) && cb.resultCode == Some(0) && d.orders[id].customer.Some?
    ensures var o := d.orders[id];
            var r := Reconcile(d, cb, field);
            && |r.sent| >= 1 && r.sent[0] == TextRequest(o.customer.value, PaymentReceived(id, o.total))
            && (|r.sent| == 2 <==> AlertNumber(d, o.seller).Some? && Summary(o.items, d.products).Some?)
            && |r.sent| <= 2
            && (AlertNumber(d, o.seller).Some? && Summary(o.items, d.products).None? ==> r.rows == d)
            && (r.rows != d ==> r.rows.orders[id].status == PendingApproval
                                && r.rows.products == Restocked(d.products, o.items))
            && (AlertNumber(d, o.seller).None? ==> r.rows.orders[id] == Paid(o, cb, field))
  {
    var o := d.orders[id];
    RestockedFrame(d.products, o.items);
    SummaryKeys(o.items, d.products, Restocked(d.products, o.items));
  }

  /** The summary only asks which products exist, so two tables with the same keys give the same answer. */
  lemma SummaryKeys(items: seq<OrderItem>, p: map<nat, Product>, q: map<nat, Product>)
    requires p.Keys == q.Keys
    ensures Summary(items, p).Some? <==> Summary(items, q).Some?
  {
  }

  /** A failed or cancelled payment: the order is FAILED and the customer gets the reason, the default when none was given. */
  lemma FailureOutcome(d: Db, cb: Callback, field: ReceiptField, id: nat)
    requires Target(d, cb) == Some(id) && cb.resultCode != Some(0) && d.orders[id].customer.Some?
    ensures var r := Reconcile(d, cb, field);
            && r.rows == d.(orders := d.orders[id := d.orders[id].(status := Failed)])
            && r.sent == [TextRequest(d.orders[id].customer.value, PaymentFailed(id, Reason(cb)))]
            && (cb.resultDesc.None? ==> Reason(cb) == "Payment was not completed.")
  {
  }

  /** An order without its customer raises when the customer is to be told, and the whole transaction is undone. */
  lemma NoCustomerRollsBack(d: Db, cb: Callback, field: ReceiptField, id: nat)
    requires Target(d, cb) == Some(id) && d.orders[id].customer.None?
    ensures Reconcile(d, cb, field) == Effect(d, [])
  {
  }

  /** The callback keeps the database consistent. */
  lemma ReconcileConsistent(d: Db, cb: Callback, field: ReceiptField)
    requires Consistent(d)
    ensures Consistent(Reconcile(d, cb, field).rows)
  {
    ReconcileByTarget(d, cb, field);
    var t := Target(d, cb);
    if t.Some? {
      var id := t.value;
      CommittedConsistent(d, id, cb, field);
      FailingConsistent(d, id);
    }
  }

  lemma CommittedConsistent(d: Db, id: nat, cb: Callback, field: ReceiptField)
    requires Consistent(d) && id in d.orders
    ensures Consistent(Committed(d, id, cb, field))
  {
    var o := d.orders[id];
    assert OrderConsistent(d, o);
    RestockedFrame(d.products, o.items);
    var e1 := d.(products := Restocked(d.products, o.items));
    RestockedConsistent(d, o.items);
    assert OrderConsistent(e1, o);
    CheckoutFree(e1, id);
    SetOrderConsistent(e1, id, Paid(o, cb, field));
  }

  lemma FailingConsistent(d: Db, id: nat)
    requires Consistent(d) && id in d.orders
    ensures Consistent(Failing(d, id))
  {
    assert OrderConsistent(d, d.orders[id]);
    CheckoutFree(d, id);
    SetOrderConsistent(d, id, d.orders[id].(status := Failed));
  }

  /** An order's own checkout id is carried by no other order. */
  lemma CheckoutFree(d: Db, id: nat)
    requires Consistent(d) && id in d.orders
    ensures d.orders[id].checkoutId.Some? ==> forall k :: k in d.orders && k != id ==> d.orders[k].checkoutId != d.orders[id].checkoutId
  {
  }

  /** Changing stock only keeps the database consistent. */
  lemma RestockedConsistent(d: Db, items: seq<OrderItem>)
    requires Consistent(d)
    ensures Consistent(d.(products := Restocked(d.products, items)))
  {
    RestockedFrame(d.products, items);
    var e := d.(products := Restocked(d.products, items));
    forall k | k in e.orders ensures OrderConsistent(e, e.orders[k]) {
      assert OrderConsistent(d, d.orders[k]);
    }
    assert SkusUnique(e.products) by {
      forall a, b | a in e.products && b in e.products && a != b && e.products[a].seller == e.products[b].seller && e.products[a].sku.Some?
        ensures e.products[a].sku != e.products[b].sku
      {
        assert d.products[a].sku == e.products[a].sku && d.products[b].sku == e.products[b].sku;
      }
    }
  }

  /**
   * A repeated callback changes no table: once an order has left
   * PENDING_PAYMENT the status guard stops the second run, and a run that
   * rolled back left the tables as they were. A second run after a committed
   * first one sends nothing, so stock is decremented once.
   */
  lemma ReconcileIdempotent(d: Db, cb: Callback, field: ReceiptField)
    requires Consistent(d)
    ensures var once := Reconcile(d, cb, field);
            && Reconcile(once.rows, cb, field).rows == once.rows
            && (once.rows != d ==> Reconcile(once.rows, cb, field).sent == [])
  {
    var once := Reconcile(d, cb, field);
    ReconcileConsistent(d, cb, field);
    ReconcileByTarget(d, cb, field);
    var t := Target(d, cb);
    if t.Some? && once.rows != d {
      var id := t.value;
      assert once.rows == Committed(d, id, cb, field) || once.rows == Failing(d, id);
      assert id in once.rows.orders && once.rows.orders[id].checkoutId == cb.checkoutId;
      assert once.rows.orders[id].status != PendingPayment;
      OnlyPendingTouched(once.rows, cb, field);
    } else {
      ReconcileByTarget(once.rows, cb, field);
    }
  }

  /** As written, a successful callback never records the receipt number: the order's transaction id stays what it was. */
  lemma ReceiptNotPersisted(d: Db, cb: Callback, id: nat)
    requires Target(d, cb) == Some(id) && cb.resultCode == Some(0)
    ensures var r := Reconcile(d, cb, Misspelt).rows;
            r.orders[id].transactionId == d.orders[id].transactionId
  {
    ReconcileByTarget(d, cb, Misspelt);
    var paid := Committed(d, id, cb, Misspelt).orders[id];
    assert paid == Paid(d.orders[id], cb, Misspelt);
    assert paid.transactionId == d.orders[id].transactionId;
  }

  /** Writing the declared field, a committed success records the last receipt number the callback carried. */
  lemma ReceiptRecorded(d: Db, cb: Callback, id: nat)
    requires Target(d, cb) == Some(id) && cb.resultCode == Some(0) && Receipt(cb.items).Some?
    requires Reconcile(d, cb, Declared).rows != d
    ensures Reconcile(d, cb, Declared).rows.orders[id].transactionId == Receipt(cb.items).value
    ensures Reconcile(d, cb, Declared).rows.orders[id].status == PendingApproval
  {
  }

  /** The success branch run in place on the store. */
  method Settle(db: Store, id: nat, cb: Callback, field: ReceiptField)
    requires id in db.orders
    modifies db
    ensures (db.Rows(), db.outbox) == (Settled(old(db.Rows()), id, cb, field).rows, old(db.outbox) + Settled(old(db.Rows()), id, cb, field).sent)
  {
    var before := db.Rows();
    var order := db.orders[id];
    var receipt := LastReceipt(cb.items);
    var paid := order.(status := PendingApproval);
    if field == Declared && receipt.Some? {
      paid := paid.(transactionId := receipt.value);
    }
    assert paid == Paid(order, cb, field);
    DecrementStock(db, order.items);
    db.orders := db.orders[id := paid];
    assert db.Rows() == before.(products := Restocked(before.products, order.items), orders := before.orders[id := paid]);
    if order.customer.None? {
      db.Restore(before);
      assert Settled(before, id, cb, field) == Effect(before, []);
      assert db.outbox == old(db.outbox) + [];
      return;
    }
    assert db.Rows() == Committed(before, id, cb, field);
    var toCustomer := TextRequest(order.customer.value, PaymentReceived(id, order.total));
    db.Post(toCustomer);
    var number := AlertNumber(before, order.seller);
    if number.None? {
      assert Settled(before, id, cb, field) == Effect(Committed(before, id, cb, field), [toCustomer]);
      return;
    }
    var lines := SummaryLines(order.items, db.products);
    if lines.None? {
      db.Restore(before);
      assert Settled(before, id, cb, field) == Effect(before, [toCustomer]);
      return;
    }
    var alert := TextRequest(number.value, NewPaidOrder(id, order.total, lines.value));
    db.Post(alert);
    assert Settled(before, id, cb, field) == Effect(Committed(before, id, cb, field), [toCustomer, alert]);
    assert db.outbox == old(db.outbox) + [toCustomer, alert];
  }

  /** The failure branch run in place on the store. */
  method Decline(db: Store, id: nat, cb: Callback)
    requires id in db.orders
    modifies db
    ensures (db.Rows(), db.outbox) == (Declined(old(db.Rows()), id, cb).rows, old(db.outbox) + Declined(old(db.Rows()), id, cb).sent)
  {
    var reason := if cb.resultDesc.Some? then cb.resultDesc.value else DefaultFailure;
    var order := db.orders[id];
    if order.customer.None? {
      assert Declined(db.Rows(), id, cb) == Effect(db.Rows(), []);
      assert db.outbox == old(db.outbox) + [];
      return;
    }
    db.orders := db.orders[id := order.(status := Failed)];
    db.Post(TextRequest(order.customer.value, PaymentFailed(id, reason)));
  }

  /** `mpesa_callback`: reconcile, then acknowledge, whatever happened. */
  method MpesaCallback(db: Store, cb: Callback, field: ReceiptField) returns (ack: Ack)
    requires db.Valid()
    modifies db
    ensures ack == Accepted && db.Valid()
    ensures db.Rows() == Reconcile(old(db.Rows()), cb, field).rows
    ensures db.outbox == old(db.outbox) + Reconcile(old(db.Rows()), cb, field).sent
  {
    ghost var before := db.Rows();
    ReconcileConsistent(before, cb, field);
    ack := Accepted;
    if cb.checkoutId.None? || cb.checkoutId.value == "" {
      return;
    }
    var ids := OrdersWithCheckout(db.Rows(), cb.checkoutId.value);
    if |ids| != 1 {
      return;
    }
    var id := ids[0];
    if db.orders[id].status != PendingPayment {
      return;
    }
    if cb.resultCode == Some(0) {
      Settle(db, id, cb, field);
    } else {
      Decline(db, id, cb);
    }
  }
}
