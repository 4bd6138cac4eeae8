/**
 * Order rows and how a broker snapshot is projected over them: first the rows
 * the broker reports as open, then the fill totals, then the confirmed cancels.
 */
module BrokerOrders {
  import opened Common

  type BrokerId = string
  type Symbol = string

  datatype Side = Buy | Sell

  datatype OrderType = Limit | Market

  datatype Status =
    | Created | Validating | Submitting | Acknowledged | Open | PartiallyFilled
    | Filled | CancelPending | Cancelled | ReplacePending | Replaced | Rejected
    | Unknown | Reconciling

  /** Statuses in which the broker is expected to know the order. */
  predicate BrokerVisible(s: Status) {
    s.Submitting? || s.Acknowledged? || s.Open? || s.PartiallyFilled? || s.CancelPending?
    || s.ReplacePending? || s.Unknown? || s.Reconciling?
  }

  /** An order row; own unless it was imported from the broker's open-order list. */
  datatype Order = Order(
    own: bool,
    symbol: Symbol,
    market: string,
    side: Side,
    orderType: OrderType,
    limitPrice: Option<real>,
    requested: int,
    filled: int,
    cancelled: int,
    remaining: int,
    status: Status,
    nextActionAt: Option<int>,
    version: nat)

  /** A row of the broker's open-order list. */
  datatype OpenRow = OpenRow(
    id: BrokerId,
    symbol: Symbol,
    market: string,
    side: Side,
    requested: int,
    filled: int,
    remaining: int,
    limitPrice: Option<real>)

  /** A row of the broker's fill list. Two rows equal in every field are two occurrences of one identity. */
  datatype BrokerFill = BrokerFill(
    id: BrokerId,
    symbol: Symbol,
    side: Side,
    quantity: int,
    price: real,
    fee: real,
    tax: real,
    orderTime: string,
    market: string)

  type Orders = map<BrokerId, Order>

  function Get<K, V>(m: map<K, V>, k: K): Option<V> {
    if k in m then Some(m[k]) else None
  }

  // ---------------------------------------------------------------- what a snapshot says about one order

  function RowOf(rows: seq<OpenRow>, id: BrokerId): (row: Option<OpenRow>)
    ensures row.Some? ==> row.value in rows && row.value.id == id
    ensures row.None? ==> forall r :: r in rows ==> r.id != id
  {
    if rows == [] then None
    else if rows[|rows| - 1].id == id then Some(rows[|rows| - 1])
    else RowOf(rows[..|rows| - 1], id)
  }

  /** The total filled quantity reported for an order, if any fill of it is reported. */
  function TotalOf(fills: seq<BrokerFill>, id: BrokerId): (total: Option<int>)
    ensures total.Some? <==> exists f :: f in fills && f.id == id
  {
    if fills == [] then None
    else
      var last := fills[|fills| - 1];
      var before := TotalOf(fills[..|fills| - 1], id);
      if last.id != id then before
      else Some((if before.Some? then before.value else 0) + last.quantity)
  }

  predicate DistinctIds(rows: seq<OpenRow>) {
    forall i, j :: 0 <= i < j < |rows| ==> rows[i].id != rows[j].id
  }

  predicate ValidOpenRow(row: OpenRow) {
    && row.requested > 0
    && row.filled >= 0
    && row.remaining >= 0
    && row.requested - row.filled - row.remaining >= 0
  }

  // ---------------------------------------------------------------- the three passes on one order

  function OpenStatus(row: OpenRow): Status {
    if row.filled != 0 then PartiallyFilled else Open
  }

  function Import(row: OpenRow): Order {
    Order(false, row.symbol, row.market, row.side, if row.limitPrice.Some? then Limit else Market, row.limitPrice,
          row.requested, row.filled, row.requested - row.filled - row.remaining, row.remaining,
          OpenStatus(row), None, 1)
  }

  /** The row with its version raised, if anything but the bookkeeping fields changed. */
  function Touch(before: Order, after: Order): Order {
    if after.(nextActionAt := before.nextActionAt, version := before.version) != before
    then after.(version := before.version + 1)
    else after
  }

  function ApplyOpenRow(order: Order, row: OpenRow): Order {
    Touch(order,
          order.(symbol := row.symbol,
                 market := row.market,
                 side := row.side,
                 orderType := if row.limitPrice.Some? then Limit else Market,
                 limitPrice := row.limitPrice,
                 requested := row.requested,
                 filled := row.filled,
                 cancelled := row.requested - row.filled - row.remaining,
                 remaining := row.remaining,
                 status := OpenStatus(row)))
  }

  function Opened(order: Option<Order>, row: Option<OpenRow>): Option<Order> {
    match (order, row)
    case (_, None) => order
    case (None, Some(r)) => Some(Import(r))
    case (Some(o), Some(r)) => Some(ApplyOpenRow(o, r))
  }

  /** A reported fill total on an order that is no longer open. */
  function FillsProjected(order: Order, total: int): Order {
    if total > order.requested || order.status == CancelPending then
      order
    else if total == order.requested then
      Touch(order, order.(filled := total, cancelled := 0, remaining := 0, status := Filled, nextActionAt := None))
    else if total > 0 then
      Touch(order, order.(filled := total, cancelled := 0, remaining := order.requested - total, status := Reconciling))
    else
      order
  }

  /** A requested cancel on an order that is no longer open: only the unfilled remainder is cancelled. */
  function CancelProjected(order: Order, total: int): Order {
    if order.status != CancelPending || total < 0 || total > order.requested then
      order
    else
      Touch(order, order.(filled := total, remaining := 0, cancelled := order.requested - total,
                          status := if total == order.requested then Filled else Cancelled,
                          nextActionAt := None))
  }

  /** One order after the whole projection. */
  function Projected(order: Option<Order>, row: Option<OpenRow>, total: Option<int>): Option<Order> {
    var seen := Opened(order, row);
    if row.Some? || seen.None? then
      seen
    else
      var filled := if total.Some? then FillsProjected(seen.value, total.value) else seen.value;
      Some(CancelProjected(filled, if total.Some? then total.value else filled.filled))
  }

  /** The order table after the whole projection. */
  function ProjectedOrders(orders: Orders, open: seq<OpenRow>, fills: seq<BrokerFill>): (after: Orders)
    ensures forall id :: Get(after, id) == Projected(Get(orders, id), RowOf(open, id), TotalOf(fills, id))
  {
    map id | id in orders.Keys + (set r | r in open :: r.id) ::
      Projected(Get(orders, id), RowOf(open, id), TotalOf(fills, id)).value
  }

  // ---------------------------------------------------------------- conservation

  /** Every share of the order is filled, cancelled or remaining. */
  predicate Balanced(order: Order) {
    && order.requested > 0
    && order.filled >= 0 && order.cancelled >= 0 && order.remaining >= 0
    && order.requested == order.filled + order.cancelled + order.remaining
  }

  lemma ProjectionConserves(order: Option<Order>, row: Option<OpenRow>, total: Option<int>)
    requires order.Some? ==> Balanced(order.value)
    requires row.Some? ==> ValidOpenRow(row.value)
    ensures Projected(order, row, total).Some? ==> Balanced(Projected(order, row, total).value)
  {
  }

  // ---------------------------------------------------------------- fixed points

  /** The cancel of a partly filled order was confirmed by the snapshot: the same snapshot will reopen it. */
  predicate Reopens(order: Option<Order>, row: Option<OpenRow>, total: Option<int>) {
    && order.Some? && row.None? && total.Some?
    && order.value.status == CancelPending
    && 0 < total.value < order.value.requested
  }

  lemma OpenRowIsFinal(order: Option<Order>, row: OpenRow, total: Option<int>)
    ensures var once := Projected(order, Some(row), total);
            Projected(once, Some(row), total) == once
  {
    hide FillsProjected, CancelProjected;
  }

  /** On an order that is no longer open either the fill totals say something or the cancel does. */
  lemma OnePassActs(order: Order, total: Option<int>)
    ensures Projected(Some(order), None, total) ==
            Some(if order.status == CancelPending
                 then CancelProjected(order, if total.Some? then total.value else order.filled)
                 else if total.Some? then FillsProjected(order, total.value)
                 else order)
  {
    hide Touch;
    FillsTwice(order, if total.Some? then total.value else 0);
  }

  lemma FillsTwice(order: Order, total: int)
    ensures order.status != CancelPending ==>
              FillsProjected(FillsProjected(order, total), total) == FillsProjected(order, total)
    ensures FillsProjected(order, total).status == CancelPending <==> order.status == CancelPending
  {
  }

  lemma CancelledThenFills(order: Order, total: Option<int>)
    ensures order.status == CancelPending ==>
              var once := CancelProjected(order, if total.Some? then total.value else order.filled);
              && (once.status == CancelPending ==> once == order)
              && (total.Some? && 0 < total.value < order.requested ==>
                    once.status == Cancelled && FillsProjected(once, total.value).status == Reconciling)
              && (total.Some? && once.status != CancelPending && !(0 < total.value < order.requested) ==>
                    FillsProjected(once, total.value) == once)
  {
  }

  lemma ProjectTwice(order: Option<Order>, row: Option<OpenRow>, total: Option<int>)
    ensures var once := Projected(order, row, total);
            var twice := Projected(once, row, total);
            && Projected(twice, row, total) == twice
            && (twice == once <==> !Reopens(order, row, total))
            && (Reopens(order, row, total) ==> once.value.status == Cancelled && twice.value.status == Reconciling)
  {
    hide Import, ApplyOpenRow, FillsProjected, CancelProjected, Projected;
    var once := Projected(order, row, total);
    if row.Some? {
      OpenRowIsFinal(order, row.value, total);
    } else if order.None? {
      UnknownStays(total);
    } else {
      var o := order.value;
      OnePassActs(o, total);
      OnePassActs(once.value, total);
      var twice := Projected(once, row, total);
      OnePassActs(twice.value, total);
      CancelledThenFills(o, total);
      if total.Some? {
        FillsTwice(o, total.value);
        FillsTwice(once.value, total.value);
      }
    }
  }

  lemma UnknownStays(total: Option<int>)
    ensures Projected(None, None, total) == None
  {
  }

  /**
   * Projecting one snapshot over and over is stable after the second time, and
   * after the first unless it confirms the cancel of a partly filled order.
   */
  lemma OrdersReachFixedPoint(orders: Orders, open: seq<OpenRow>, fills: seq<BrokerFill>)
    ensures var once := ProjectedOrders(orders, open, fills);
            var twice := ProjectedOrders(once, open, fills);
            && ProjectedOrders(twice, open, fills) == twice
            && (twice == once <==>
                  forall id :: id in orders ==> !Reopens(Get(orders, id), RowOf(open, id), TotalOf(fills, id)))
  {
    var once := ProjectedOrders(orders, open, fills);
    var twice := ProjectedOrders(once, open, fills);
    var thrice := ProjectedOrders(twice, open, fills);
    forall id
      ensures Get(thrice, id) == Get(twice, id)
      ensures Get(twice, id) == Get(once, id) <==> !Reopens(Get(orders, id), RowOf(open, id), TotalOf(fills, id))
    {
      ProjectTwice(Get(orders, id), RowOf(open, id), TotalOf(fills, id));
    }
    SameGets(thrice, twice);
    SameGets(twice, once);
  }

  lemma SameGets<K, V>(a: map<K, V>, b: map<K, V>)
    ensures a == b <==> forall k :: Get(a, k) == Get(b, k)
  {
    if forall k :: Get(a, k) == Get(b, k) {
      forall k
        ensures k in a <==> k in b
        ensures k in a ==> a[k] == b[k]
      {
        assert Get(a, k) == Get(b, k);
      }
    }
  }
}
