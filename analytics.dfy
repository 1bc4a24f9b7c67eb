/**
 * The seller's analytics overview: sales and order totals, the average
 * order value, monthly sales over the last 180 days, the distribution of
 * order statuses and the five best-selling products.
 */
module Analytics {
  import opened Wrappers
  import opened Seqs
  import opened Orders
  import opened Database
  import opened OrderApi

  // ---------------------------------------------------------------------
  // The two order sets
  // ---------------------------------------------------------------------

  /** The orders that count towards revenue: analysed ones that were neither cancelled nor failed. */
  function IsRevenueOf(seller: nat): (nat, Order) -> bool {
    (k: nat, o: Order) => IsListedOf(seller)(k, o) && o.status != Cancelled && o.status != Failed
  }

  /** The analysed orders: the seller's orders that are not carts. */
  function AnalysedIds(d: Db, seller: nat): (r: seq<nat>)
    ensures forall k :: k in r <==> k in d.orders && k < d.nextOrderId && IsListedOf(seller)(k, d.orders[k])
    ensures forall i, j :: 0 <= i < j < |r| ==> r[i] < r[j]
  {
    KeysAsc(d.orders, d.nextOrderId, IsListedOf(seller))
  }

  /** The revenue orders. */
  function RevenueIds(d: Db, seller: nat): (r: seq<nat>)
    ensures forall k :: k in r <==> k in d.orders && k < d.nextOrderId && IsRevenueOf(seller)(k, d.orders[k])
    ensures forall i :: 0 <= i < |r| ==> r[i] in d.orders
    ensures forall i, j :: 0 <= i < j < |r| ==> r[i] < r[j]
  {
    KeysAsc(d.orders, d.nextOrderId, IsRevenueOf(seller))
  }

  /** In a consistent store, revenue orders are exactly the analysed ones not CANCELLED or FAILED. */
  lemma RevenueExact(d: Db, seller: nat)
    requires Consistent(d)
    ensures forall k :: k in RevenueIds(d, seller) <==>
              k in AnalysedIds(d, seller) && d.orders[k].status != Cancelled && d.orders[k].status != Failed
    ensures forall k :: k in AnalysedIds(d, seller) <==>
              k in d.orders && d.orders[k].seller == seller && d.orders[k].status != InProgress
  {
  }

  // ---------------------------------------------------------------------
  // Totals
  // ---------------------------------------------------------------------

  /** An order's stored total, by id. */
  function TotalOf(d: Db): nat -> int {
    (k: nat) => if k in d.orders then d.orders[k].total else 0
  }

  /** `total_sales`: the revenue orders' totals added up; an empty sum is 0. */
  function TotalSales(d: Db, seller: nat): int {
    SumOf(RevenueIds(d, seller), TotalOf(d))
  }

  /** `total_orders`: every analysed order, the failed and cancelled ones included. */
  function TotalOrders(d: Db, seller: nat): nat {
    |AnalysedIds(d, seller)|
  }

  /**
   * `average_order_value` as the fraction it is computed from: total sales
   * over total orders, and 0 (as 0 / 1) when there are no orders.
   */
  function AverageOrderValue(d: Db, seller: nat): (r: (int, nat))
    ensures r.1 > 0
    ensures TotalOrders(d, seller) == 0 ==> r.0 == 0
    ensures TotalOrders(d, seller) > 0 ==> r == (TotalSales(d, seller), TotalOrders(d, seller))
  {
    if TotalOrders(d, seller) > 0 then (TotalSales(d, seller), TotalOrders(d, seller)) else (0, 1)
  }

  /** Filtering the same keys by a weaker predicate finds at least as many. */
  lemma {:induction false} KeysAscMonotone<T>(m: map<nat, T>, n: nat, p: (nat, T) -> bool, q: (nat, T) -> bool)
    requires forall k, v :: p(k, v) ==> q(k, v)
    ensures |KeysAsc(m, n, p)| <= |KeysAsc(m, n, q)|
    decreases n
  {
    if n > 0 {
      KeysAscMonotone(m, n - 1, p, q);
    }
  }

  /** There are never more revenue orders than orders; with no order there is no sale. */
  lemma RevenueAtMostOrders(d: Db, seller: nat)
    ensures |RevenueIds(d, seller)| <= TotalOrders(d, seller)
    ensures TotalOrders(d, seller) == 0 ==> TotalSales(d, seller) == 0
  {
    KeysAscMonotone(d.orders, d.nextOrderId, IsRevenueOf(seller), IsListedOf(seller));
    if TotalOrders(d, seller) == 0 {
      assert RevenueIds(d, seller) == [];
    }
  }

  /** A failed or cancelled order of the seller is counted as an order but is not revenue. */
  lemma FailedCountedNotSold(d: Db, seller: nat, k: nat)
    requires k in d.orders && k < d.nextOrderId && d.orders[k].seller == seller
    requires d.orders[k].status == Failed || d.orders[k].status == Cancelled
    ensures k in AnalysedIds(d, seller) && k !in RevenueIds(d, seller)
  {
    assert IsListedOf(seller)(k, d.orders[k]);
  }

  /** With every stored total non-negative, so are the total sales. */
  lemma SalesNonNegative(d: Db, seller: nat)
    requires forall k :: k in d.orders ==> d.orders[k].total >= 0
    ensures TotalSales(d, seller) >= 0
  {
    var r := RevenueIds(d, seller);
    SumOfNonNegative(r, TotalOf(d));
  }

  // ---------------------------------------------------------------------
  // Status distribution
  // ---------------------------------------------------------------------

  const AllStatuses: seq<OrderStatus> :=
    [InProgress, PendingPayment, PendingApproval, Processing, ReadyForPickup,
     OutForDelivery, Delivered, PickedUp, Cancelled, Failed]

  /** The list names each of the ten statuses. */
  lemma EveryStatusListed()
    ensures forall s :: s in AllStatuses
  {
    forall s ensures s in AllStatuses {
      match s
      case InProgress => assert AllStatuses[0] == s;
      case PendingPayment => assert AllStatuses[1] == s;
      case PendingApproval => assert AllStatuses[2] == s;
      case Processing => assert AllStatuses[3] == s;
      case ReadyForPickup => assert AllStatuses[4] == s;
      case OutForDelivery => assert AllStatuses[5] == s;
      case Delivered => assert AllStatuses[6] == s;
      case PickedUp => assert AllStatuses[7] == s;
      case Cancelled => assert AllStatuses[8] == s;
      case Failed => assert AllStatuses[9] == s;
    }
  }

  /** How many entries of `xs` are `s`. */
  function Count(xs: seq<OrderStatus>, s: OrderStatus): nat
    decreases |xs|
  {
    if |xs| == 0 then 0 else (if xs[0] == s then 1 else 0) + Count(xs[1..], s)
  }

  /** The statuses of the analysed orders. */
  function AnalysedStatuses(d: Db, seller: nat): (r: seq<OrderStatus>)
    ensures |r| == TotalOrders(d, seller)
  {
    var ids := AnalysedIds(d, seller);
    seq(|ids|, i requires 0 <= i < |ids| => d.orders[ids[i]].status)
  }

  /** `status_distribution`: each status that occurs among the analysed orders, with its number of orders. */
  function StatusDistribution(d: Db, seller: nat): (r: map<OrderStatus, nat>)
    ensures forall s :: s in r <==> Count(AnalysedStatuses(d, seller), s) > 0
    ensures forall s :: s in r ==> r[s] == Count(AnalysedStatuses(d, seller), s)
  {
    var xs := AnalysedStatuses(d, seller);
    EveryStatusListed();
    map s | s in AllStatuses && Count(xs, s) > 0 :: Count(xs, s)
  }

  /** The ten per-status counts of a list, added up. */
  function CountsSum(xs: seq<OrderStatus>): nat {
    Count(xs, InProgress) + Count(xs, PendingPayment) + Count(xs, PendingApproval) + Count(xs, Processing)
    + Count(xs, ReadyForPickup) + Count(xs, OutForDelivery) + Count(xs, Delivered) + Count(xs, PickedUp)
    + Count(xs, Cancelled) + Count(xs, Failed)
  }

  /** Every entry has exactly one status, so the per-status counts add up to the length. */
  lemma {:induction false} CountsSumLength(xs: seq<OrderStatus>)
    ensures CountsSum(xs) == |xs|
    decreases |xs|
  {
    if |xs| > 0 {
      CountsSumLength(xs[1..]);
    }
  }

  /** The count the distribution reports for a status, 0 when it is absent. */
  function Reported(r: map<OrderStatus, nat>): OrderStatus -> int {
    (s: OrderStatus) => if s in r then r[s] else 0
  }

  /** A sum over the ten statuses, written out. */
  lemma SumOverStatuses(f: OrderStatus -> int)
    ensures SumOf(AllStatuses, f) ==
              f(InProgress) + f(PendingPayment) + f(PendingApproval) + f(Processing) + f(ReadyForPickup)
              + f(OutForDelivery) + f(Delivered) + f(PickedUp) + f(Cancelled) + f(Failed)
  {
    var a := AllStatuses;
    assert SumOf(a[10..], f) == 0;
    assert SumOf(a[9..], f) == f(Failed) + SumOf(a[10..], f);
    assert SumOf(a[8..], f) == f(Cancelled) + SumOf(a[9..], f);
    assert SumOf(a[7..], f) == f(PickedUp) + SumOf(a[8..], f);
    assert SumOf(a[6..], f) == f(Delivered) + SumOf(a[7..], f);
    assert SumOf(a[5..], f) == f(OutForDelivery) + SumOf(a[6..], f);
    assert SumOf(a[4..], f) == f(ReadyForPickup) + SumOf(a[5..], f);
    assert SumOf(a[3..], f) == f(Processing) + SumOf(a[4..], f);
    assert SumOf(a[2..], f) == f(PendingApproval) + SumOf(a[3..], f);
    assert SumOf(a[1..], f) == f(PendingPayment) + SumOf(a[2..], f);
  }

  /** The per-status counts of the distribution add up to `total_orders`. */
  lemma StatusCountsSum(d: Db, seller: nat)
    ensures SumOf(AllStatuses, Reported(StatusDistribution(d, seller))) == TotalOrders(d, seller)
  {
    var xs := AnalysedStatuses(d, seller);
    var f := Reported(StatusDistribution(d, seller));
    forall s ensures f(s) == Count(xs, s) {
    }
    CountsSumLength(xs);
    SumOverStatuses(f);
  }

  // ---------------------------------------------------------------------
  // Top products
  // ---------------------------------------------------------------------

  /** A sold line reduced to what the ranking reads: the product's name (None once the product is gone) and the quantity. */
  datatype Sold = Sold(name: Option<string>, quantity: nat)

  /** `product__name` of a line. */
  function NameOf(d: Db, product: Option<nat>): Option<string> {
    if product.Some? && product.value in d.products then Some(d.products[product.value].name) else None
  }

  /** The lines of the given orders, order by order. */
  function LinesOf(d: Db, ids: seq<nat>): seq<Sold>
    decreases |ids|
  {
    if |ids| == 0 then []
    else
      var items := if ids[0] in d.orders then d.orders[ids[0]].items else [];
      seq(|items|, i requires 0 <= i < |items| => Sold(NameOf(d, items[i].product), items[i].quantity))
      + LinesOf(d, ids[1..])
  }

  /** Σ quantity over the lines of one name. */
  function QuantityOf(lines: seq<Sold>, name: Option<string>): nat
    decreases |lines|
  {
    if |lines| == 0 then 0
    else (if lines[0].name == name then lines[0].quantity else 0) + QuantityOf(lines[1..], name)
  }

  /** Some line sold under this name. */
  predicate Sells(lines: seq<Sold>, name: Option<string>) {
    exists i :: 0 <= i < |lines| && lines[i].name == name
  }

  lemma SellsStep(lines: seq<Sold>)
    requires |lines| > 0
    ensures forall n :: Sells(lines, n) <==> n == lines[0].name || Sells(lines[1..], n)
  {
    forall n ensures Sells(lines, n) <==> n == lines[0].name || Sells(lines[1..], n) {
      if Sells(lines[1..], n) {
        var i :| 0 <= i < |lines[1..]| && lines[1..][i].name == n;
        assert lines[i + 1].name == n;
      }
      if Sells(lines, n) && n != lines[0].name {
        var i :| 0 <= i < |lines| && lines[i].name == n;
        assert lines[1..][i - 1].name == n;
      }
    }
  }

  /** The distinct names among the lines. */
  function Names(lines: seq<Sold>): (r: seq<Option<string>>)
    ensures forall n :: n in r <==> Sells(lines, n)
    ensures forall i, j :: 0 <= i < j < |r| ==> r[i] != r[j]
    decreases |lines|
  {
    if |lines| == 0 then []
    else
      var rest := Names(lines[1..]);
      SellsStep(lines);
      if lines[0].name in rest then rest else [lines[0].name] + rest
  }

  /** One group per distinct name, with its summed quantity. */
  function Groups(lines: seq<Sold>): (r: seq<Sold>)
    ensures |r| == |Names(lines)|
    ensures forall i :: 0 <= i < |r| ==> r[i] == Sold(Names(lines)[i], QuantityOf(lines, Names(lines)[i]))
  {
    var names := Names(lines);
    seq(|names|, i requires 0 <= i < |names| => Sold(names[i], QuantityOf(lines, names[i])))
  }

  /** How many products the ranking keeps. */
  const TopCount := 5

  /** The name shown for a group; a gone product shows as "Unknown". */
  function Label(name: Option<string>): string {
    if name.Some? && name.value != "" then name.value else "Unknown"
  }

  function QuantityKey(g: Sold): int {
    g.quantity
  }

  /** The groups sorted by descending quantity, cut to the first five. */
  function Ranked(lines: seq<Sold>): (r: seq<Sold>)
    ensures |r| <= TopCount
  {
    var sorted := SortDesc(Groups(lines), QuantityKey);
    sorted[..if |sorted| < TopCount then |sorted| else TopCount]
  }

  /** `top_products`: the ranked groups of the revenue orders' lines, with their labels. */
  function TopProducts(d: Db, seller: nat): seq<(string, nat)> {
    var top := Ranked(LinesOf(d, RevenueIds(d, seller)));
    seq(|top|, i requires 0 <= i < |top| => (Label(top[i].name), top[i].quantity))
  }

  /**
   * The ranking holds at most five groups, in descending quantity, each a
   * real group with its summed quantity and no name twice; as many as there
   * are names when fewer than five; and any group left out sold no more than
   * each one kept.
   */
  lemma RankedSpec(lines: seq<Sold>)
    ensures var r := Ranked(lines);
            && |r| == (if |Names(lines)| < TopCount then |Names(lines)| else TopCount)
            && (forall i, j :: 0 <= i < j < |r| ==> r[i].quantity >= r[j].quantity)
            && (forall i :: 0 <= i < |r| ==> r[i].name in Names(lines) && r[i].quantity == QuantityOf(lines, r[i].name))
            && (forall i, j :: 0 <= i < j < |r| ==> r[i].name != r[j].name)
            && (forall n :: n in Names(lines) ==>
                  Sold(n, QuantityOf(lines, n)) in r || forall i :: 0 <= i < |r| ==> r[i].quantity >= QuantityOf(lines, n))
  {
    RankedDescending(lines);
    RankedAreGroups(lines);
    RankedDistinct(lines);
    RankedKeepsLargest(lines);
  }

  /** The kept groups are a prefix of the sorted groups. */
  lemma RankedPrefix(lines: seq<Sold>)
    ensures var sorted := SortDesc(Groups(lines), QuantityKey);
            && |Ranked(lines)| <= |sorted|
            && Ranked(lines) == sorted[..|Ranked(lines)|]
  {
  }

  lemma RankedDescending(lines: seq<Sold>)
    ensures var r := Ranked(lines);
            forall i, j :: 0 <= i < j < |r| ==> r[i].quantity >= r[j].quantity
  {
    var sorted := SortDesc(Groups(lines), QuantityKey);
    var r := Ranked(lines);
    RankedPrefix(lines);
    forall i, j | 0 <= i < j < |r| ensures r[i].quantity >= r[j].quantity {
      assert r[i] == sorted[i] && r[j] == sorted[j];
      assert QuantityKey(sorted[i]) >= QuantityKey(sorted[j]);
    }
  }

  lemma RankedAreGroups(lines: seq<Sold>)
    ensures var r := Ranked(lines);
            forall i :: 0 <= i < |r| ==> r[i].name in Names(lines) && r[i].quantity == QuantityOf(lines, r[i].name)
  {
    var groups := Groups(lines);
    var sorted := SortDesc(groups, QuantityKey);
    var r := Ranked(lines);
    RankedPrefix(lines);
    forall i | 0 <= i < |r| ensures r[i].name in Names(lines) && r[i].quantity == QuantityOf(lines, r[i].name) {
      assert r[i] == sorted[i];
      assert sorted[i] in multiset(groups);
      var j :| 0 <= j < |groups| && groups[j] == sorted[i];
    }
  }

  /** Sorting keeps the groups' names distinct, so no name is ranked twice. */
  lemma RankedDistinct(lines: seq<Sold>)
    ensures var r := Ranked(lines);
            forall i, j :: 0 <= i < j < |r| ==> r[i].name != r[j].name
  {
    var names := Names(lines);
    var groups := Groups(lines);
    var sorted := SortDesc(groups, QuantityKey);
    var r := Ranked(lines);
    forall i, j | 0 <= i < j < |groups| ensures groups[i] != groups[j] {
      assert groups[i].name == names[i] && groups[j].name == names[j];
    }
    PermutationDistinct(groups, sorted);
    RankedPrefix(lines);
    RankedAreGroups(lines);
    forall i, j | 0 <= i < j < |r| ensures r[i].name != r[j].name {
      assert r[i] == sorted[i] && r[j] == sorted[j];
    }
  }

  lemma RankedKeepsLargest(lines: seq<Sold>)
    ensures var r := Ranked(lines);
            forall n :: n in Names(lines) ==>
              Sold(n, QuantityOf(lines, n)) in r || forall i :: 0 <= i < |r| ==> r[i].quantity >= QuantityOf(lines, n)
  {
    var groups := Groups(lines);
    var sorted := SortDesc(groups, QuantityKey);
    var r := Ranked(lines);
    RankedPrefix(lines);
    forall n | n in Names(lines)
      ensures Sold(n, QuantityOf(lines, n)) in r || forall i :: 0 <= i < |r| ==> r[i].quantity >= QuantityOf(lines, n)
    {
      var a :| 0 <= a < |Names(lines)| && Names(lines)[a] == n;
      var g := Sold(n, QuantityOf(lines, n));
      assert groups[a] == g;
      assert g in multiset(sorted);
      var j :| 0 <= j < |sorted| && sorted[j] == g;
      if j >= |r| {
        forall i | 0 <= i < |r| ensures r[i].quantity >= QuantityOf(lines, n) {
          assert r[i] == sorted[i];
          assert QuantityKey(sorted[i]) >= QuantityKey(sorted[j]);
        }
      } else {
        assert r[j] == g;
      }
    }
  }

  /** A product with no line in any revenue order is absent from the ranking. */
  lemma UnsoldNotRanked(lines: seq<Sold>, name: Option<string>)
    requires forall i :: 0 <= i < |lines| ==> lines[i].name != name
    ensures forall i :: 0 <= i < |Ranked(lines)| ==> Ranked(lines)[i].name != name
  {
    RankedSpec(lines);
  }

  // ---------------------------------------------------------------------
  // Monthly sales
  // ---------------------------------------------------------------------

  /** The window: 180 days, in seconds, the unit of `createdAt`. */
  const Window := 180 * 24 * 60 * 60

  /** The revenue orders created at or after `now` minus 180 days. */
  function Recent(d: Db, seller: nat, now: int): (r: seq<nat>)
    ensures forall k :: k in r <==> k in RevenueIds(d, seller) && d.orders[k].createdAt >= now - Window
    ensures forall i :: 0 <= i < |r| ==> r[i] in d.orders
  {
    Filter(RevenueIds(d, seller), (k: nat) => k in d.orders && d.orders[k].createdAt >= now - Window)
  }

  function Filter(xs: seq<nat>, p: nat -> bool): (r: seq<nat>)
    ensures forall x :: x in r <==> x in xs && p(x)
    decreases |xs|
  {
    if |xs| == 0 then []
    else (if p(xs[0]) then [xs[0]] else []) + Filter(xs[1..], p)
  }

  /** Some of the given orders was created in month `m`; `monthOf` is the calendar truncation of a time. */
  predicate InMonth(d: Db, ids: seq<nat>, monthOf: int -> int, m: int)
    requires forall i :: 0 <= i < |ids| ==> ids[i] in d.orders
  {
    exists i :: 0 <= i < |ids| && monthOf(d.orders[ids[i]].createdAt) == m
  }

  /** The month of each given order, repeats included. */
  function MonthsOf(d: Db, ids: seq<nat>, monthOf: int -> int): (r: seq<int>)
    requires forall i :: 0 <= i < |ids| ==> ids[i] in d.orders
    ensures forall m :: m in r <==> InMonth(d, ids, monthOf, m)
  {
    var r := seq(|ids|, i requires 0 <= i < |ids| => monthOf(d.orders[ids[i]].createdAt));
    assert forall i :: 0 <= i < |ids| ==> r[i] == monthOf(d.orders[ids[i]].createdAt);
    r
  }

  /** Σ total over the given orders created in month `m`. */
  function MonthTotal(d: Db, ids: seq<nat>, monthOf: int -> int, m: int): int {
    SumOf(ids, (k: nat) => if k in d.orders && monthOf(d.orders[k].createdAt) == m then d.orders[k].total else 0)
  }

  predicate StrictlyAscending(xs: seq<int>) {
    forall i, j :: 0 <= i < j < |xs| ==> xs[i] < xs[j]
  }

  /** Inserts `x` into a strictly ascending list unless it is already there. */
  function InsertAsc(x: int, xs: seq<int>): (r: seq<int>)
    requires StrictlyAscending(xs)
    ensures StrictlyAscending(r)
    ensures forall y :: y in r <==> y == x || y in xs
    decreases |xs|
  {
    if |xs| == 0 then [x]
    else if x < xs[0] then [x] + xs
    else if x == xs[0] then xs
    else
      var rest := InsertAsc(x, xs[1..]);
      assert forall y :: y in xs <==> y == xs[0] || y in xs[1..];
      assert forall i :: 0 <= i < |xs[1..]| ==> xs[0] < xs[1..][i];
      forall i | 0 <= i < |rest| ensures xs[0] < rest[i] {
        assert rest[i] in rest;
      }
      [xs[0]] + rest
  }

  /** The distinct values of a list in ascending order (`ORDER BY month` after the grouping). */
  function Ascending(xs: seq<int>): (r: seq<int>)
    ensures StrictlyAscending(r)
    ensures forall y :: y in r <==> y in xs
    decreases |xs|
  {
    if |xs| == 0 then []
    else
      assert forall y :: y in xs <==> y == xs[0] || y in xs[1..];
      InsertAsc(xs[0], Ascending(xs[1..]))
  }

  /**
   * `monthly_sales`: for each month with a recent revenue order, in ascending
   * order, the total of that month's recent revenue orders. Formatting the
   * month as `%Y-%m` is not modelled: months are numbered by `monthOf`.
   */
  function MonthlySales(d: Db, seller: nat, now: int, monthOf: int -> int): (r: seq<(int, int)>)
    ensures forall i, j :: 0 <= i < j < |r| ==> r[i].0 < r[j].0
    ensures forall m :: (exists i :: 0 <= i < |r| && r[i].0 == m) <==> InMonth(d, Recent(d, seller, now), monthOf, m)
    ensures forall i :: 0 <= i < |r| ==> r[i].1 == MonthTotal(d, Recent(d, seller, now), monthOf, r[i].0)
  {
    var ids := Recent(d, seller, now);
    var months := Ascending(MonthsOf(d, ids, monthOf));
    var r := seq(|months|, i requires 0 <= i < |months| => (months[i], MonthTotal(d, ids, monthOf, months[i])));
    assert forall i :: 0 <= i < |r| ==> r[i].0 == months[i];
    r
  }

  /** An order older than 180 days, or one that is not revenue, contributes to no month. */
  lemma OldOrdersNotInMonths(d: Db, seller: nat, now: int, monthOf: int -> int, k: nat)
    requires k in d.orders && d.orders[k].createdAt < now - Window
    ensures k !in Recent(d, seller, now)
  {
  }
}
