/**
 * When a stop fires and when stops, decisions, entries and approvals do create an
 * order, and which one, said without the functions that compute it.
 */
module DeskLaws {
  import opened Common
  import opened BrokerOrders
  import opened Positions
  import opened OrderCreation
  import opened Guards
  import opened StopTriggers
  import opened Approvals

  // ---------------------------------------------------------------- what is under way

  /** No order of the symbol may still execute. */
  ghost predicate Quiet(orders: seq<OrderRow>, symbol: Symbol) {
    forall i :: 0 <= i < |orders| && orders[i].symbol == symbol ==>
      orders[i].status in {Filled, Cancelled, Replaced, BrokerOrders.Rejected}
  }

  ghost predicate Unused(orders: seq<OrderRow>, key: Key) {
    forall i :: 0 <= i < |orders| ==> orders[i].key != key
  }

  /** A tradable quote in good order, received within the allowed time and not in the future. */
  predicate Current(m: Moment) {
    && m.quote.Some? && m.quote.value.isNormal && m.quote.value.isTrading
    && m.quote.value.receivedAt <= m.now <= m.quote.value.receivedAt + m.staleSeconds
  }

  predicate UsableBid(m: Moment) {
    m.quote.Some? && m.quote.value.bid.Some? && m.quote.value.bid.value > 0.0
  }

  lemma QuietSpelledOut(orders: seq<OrderRow>, symbol: Symbol)
    ensures HasActive(orders, symbol) <==> !Quiet(orders, symbol)
    ensures Quiet(orders, symbol) ==> Reserved(orders, symbol) == 0
  {
    if !HasActive(orders, symbol) {
      NothingReserved(orders, symbol);
    }
  }

  lemma UnusedSpelledOut(orders: seq<OrderRow>, key: Key)
    ensures Unused(orders, key) <==> Find(orders, key).None?
  {
  }

  // ---------------------------------------------------------------- the stop price

  /** k is x in units of 0.0001, to the nearest, halves away from zero. */
  predicate Nearest(k: int, x: real) {
    if x >= 0.0 then -0.5 < k as real - x * 10000.0 <= 0.5 else -0.5 <= k as real - x * 10000.0 < 0.5
  }

  /** The cost changed by the percentage: of the managed shares if there are any, else of all. */
  function ExactStop(p: Position, lossPct: real): real {
    Changed(if p.managed > 0 then p.managedAverage else p.average, lossPct)
  }

  function Changed(cost: real, lossPct: real): real {
    cost * (100.0 + lossPct) / 100.0
  }

  /** The bid is not above the exact stop rounded to units of 0.0001. */
  ghost predicate AtStop(bid: real, p: Position, lossPct: real) {
    exists k :: Nearest(k, ExactStop(p, lossPct)) && bid <= k as real / 10000.0
  }

  lemma NearestIsUnique(k: int, l: int, x: real)
    requires Nearest(k, x) && Nearest(l, x)
    ensures k == l
  {
  }

  lemma RoundsToNearest(x: real) returns (k: int)
    ensures Nearest(k, x) && RoundHalfUp(x) == k as real / 10000.0
  {
    if x >= 0.0 {
      k := (x * 10000.0 + 0.5).Floor;
    } else {
      k := -(-x * 10000.0 + 0.5).Floor;
    }
  }

  lemma SameFactor(cost: real, lossPct: real)
    ensures cost * (1.0 + lossPct / 100.0) == Changed(cost, lossPct)
  {
    var f := lossPct / 100.0;
    assert 100.0 * f == lossPct;
    assert (100.0 + lossPct) / 100.0 == 1.0 + f;
    ProductQuotient(cost, 100.0 + lossPct);
  }

  lemma ProductQuotient(a: real, b: real)
    ensures a * b / 100.0 == a * (b / 100.0)
  {
    var q := b / 100.0;
    assert b == 100.0 * q;
    assert a * b == a * (100.0 * q) == 100.0 * (a * q);
  }

  lemma StopPriceRounds(p: Position, lossPct: real)
    ensures StopPrice(p, lossPct) == RoundHalfUp(ExactStop(p, lossPct))
  {
    hide RoundHalfUp;
    SameFactor(CostOf(p), lossPct);
  }

  lemma StopPriceMeans(p: Position, lossPct: real, bid: real)
    ensures bid <= StopPrice(p, lossPct) <==> AtStop(bid, p, lossPct)
  {
    hide RoundHalfUp, Nearest, StopPrice, ExactStop;
    StopPriceRounds(p, lossPct);
    var k := RoundsToNearest(ExactStop(p, lossPct));
    if AtStop(bid, p, lossPct) {
      var l :| Nearest(l, ExactStop(p, lossPct)) && bid <= l as real / 10000.0;
      NearestIsUnique(k, l, ExactStop(p, lossPct));
    }
  }

  /** A usable bid is at the stop. */
  ghost predicate Reached(p: Position, lossPct: real, m: Moment) {
    UsableBid(m) && AtStop(m.quote.value.bid.value, p, lossPct)
  }

  lemma FiresMeans(p: Position, s: StopSetting, m: Moment)
    ensures Fires(p, s, m) <==> Reached(p, s.lossPct, m)
  {
    hide StopPrice, AtStop;
    if UsableBid(m) {
      StopPriceMeans(p, s.lossPct, m.quote.value.bid.value);
    }
  }

  /**
   * Prices scaled alike are judged alike, up to one unit: a bid a unit or more
   * below the exact stop fires at any scale, one a unit or more above it at none.
   */
  lemma StopScales(p: Position, q: Position, scale: real, lossPct: real, bid: real)
    requires scale >= 1.0 && CostOf(q) == CostOf(p) * scale
    ensures bid * 100.0 <= CostOf(p) * (100.0 + lossPct) - 0.01 ==>
              AtStop(bid, p, lossPct) && AtStop(bid * scale, q, lossPct)
    ensures bid * 100.0 >= CostOf(p) * (100.0 + lossPct) + 0.01 ==>
              !AtStop(bid, p, lossPct) && !AtStop(bid * scale, q, lossPct)
  {
    hide AtStop;
    var exact := CostOf(p) * (100.0 + lossPct);
    ScaledExact(CostOf(p), 100.0 + lossPct, scale);
    WithinAUnit(p, lossPct, bid);
    WithinAUnit(q, lossPct, bid * scale);
    assert CostOf(q) * (100.0 + lossPct) == exact * scale;
    assert bid * scale * 100.0 == bid * 100.0 * scale;
    if bid * 100.0 <= exact - 0.01 {
      Widens(bid * 100.0, exact, scale);
    }
    if bid * 100.0 >= exact + 0.01 {
      Widens(exact, bid * 100.0, scale);
    }
  }

  lemma ScaledExact(cost: real, factor: real, scale: real)
    ensures cost * scale * factor == cost * factor * scale
  {
    assert cost * scale * factor == cost * (scale * factor);
    assert cost * factor * scale == cost * (factor * scale);
  }

  lemma Widens(a: real, b: real, scale: real)
    requires a <= b - 0.01 && scale >= 1.0
    ensures a * scale <= b * scale - 0.01
  {
    var gap := b - a;
    assert b * scale - a * scale == gap * scale;
    assert gap * scale >= gap by {
      assert gap * (scale - 1.0) >= 0.0;
    }
  }

  lemma WithinAUnit(p: Position, lossPct: real, bid: real)
    ensures bid * 100.0 <= CostOf(p) * (100.0 + lossPct) - 0.01 ==> AtStop(bid, p, lossPct)
    ensures bid * 100.0 >= CostOf(p) * (100.0 + lossPct) + 0.01 ==> !AtStop(bid, p, lossPct)
  {
    hide RoundHalfUp;
    var x := ExactStop(p, lossPct);
    var k := RoundsToNearest(x);
    assert x * 100.0 == CostOf(p) * (100.0 + lossPct);
    if bid <= x - 0.0001 {
      assert bid <= k as real / 10000.0;
    }
    if AtStop(bid, p, lossPct) {
      var l :| Nearest(l, x) && bid <= l as real / 10000.0;
      assert bid < x + 0.0001;
    }
  }

  // ---------------------------------------------------------------- a stop that sells

  /** Nothing keeps a stop from selling the whole managed part of this version of the position. */
  ghost predicate StopGoes(orders: seq<OrderRow>, symbol: Symbol, p: Position, version: nat, m: Moment) {
    && p.state == Held && p.quantity > 0 && p.version == version && 0 < p.managed <= p.available
    && Quiet(orders, symbol) && Current(m)
    && m.gate == Some(Ready) && m.sessionTradable && m.isMock
  }

  lemma StopGoesMeans(orders: seq<OrderRow>, symbol: Symbol, p: Position, version: nat, m: Moment)
    ensures StopBlocked(orders, symbol, p, version, m).None? <==> StopGoes(orders, symbol, p, version, m)
  {
    hide HasActive, Quiet, Reserved;
    QuietSpelledOut(orders, symbol);
  }

  /** The price is the exact stop rounded to units of 0.0001. */
  ghost predicate IsStopPrice(price: real, p: Position, lossPct: real) {
    exists k :: Nearest(k, ExactStop(p, lossPct)) && price == k as real / 10000.0
  }

  /** The order of a stop: the whole managed part at the bid, under the trigger's key. */
  ghost predicate IsStopOrder(row: OrderRow, t: Id, symbol: Symbol, p: Position, lossPct: real, bid: real) {
    && row.key == StopKey(t) && row.symbol == symbol && row.side == Sell && row.limitPrice == Some(bid)
    && row.quantity == row.remaining == p.managed && row.status == Created
    && row.payload.ByTrigger? && IsStopPrice(row.payload.stopPrice, p, lossPct)
    && row.payload == ByTrigger(t, symbol, bid, p.managed, p.version, row.payload.stopPrice)
  }

  lemma StopPriceIs(p: Position, lossPct: real)
    ensures IsStopPrice(StopPrice(p, lossPct), p, lossPct)
  {
    hide RoundHalfUp, Nearest, StopPrice, ExactStop;
    StopPriceRounds(p, lossPct);
    var k := RoundsToNearest(ExactStop(p, lossPct));
  }

  /** What an evaluation of trigger t leaves, by whether a sale goes and what its key stands for. */
  ghost predicate Evaluated(b: Board, t: Id, p: Position, s: StopSetting, m: Moment, after: Board) {
    t < |b.triggers| == |after.triggers|
    && var row := b.triggers[t];
    var now := after.triggers[t];
    && (forall u :: 0 <= u < |b.triggers| && u != t ==> after.triggers[u] == b.triggers[u])
    && now.symbol == row.symbol && now.version == row.version && now.policy == row.policy
    && if !StopGoes(b.orders, row.symbol, p, row.version, m) then
         && now.state == ExitPending && now.result.Some? && now.event.Some? && after.orders == b.orders
         && (row.event.Some? ==> now.event == row.event && after.events == b.events)
         && (row.event.None? ==> now.event == Some(|b.events|) && |after.events| == |b.events| + 1
                                 && after.events[..|b.events|] == b.events && after.events[|b.events|].ActiveEvent?)
       else if !s.sellsAutomatically then
         now.state == ShadowRecorded && now.result == None && after.orders == b.orders
       else if !UsableBid(m) then
         now.state == ExitPending && now.result == Some(NoExecutableQuote) && after.orders == b.orders
       else if Unused(b.orders, StopKey(t)) then
         && now.state == Fulfilled && |after.orders| == |b.orders| + 1 && after.orders[..|b.orders|] == b.orders
         && IsStopOrder(after.orders[|b.orders|], t, row.symbol, p, s.lossPct, m.quote.value.bid.value)
       else
         after.orders == b.orders && (now.state == Fulfilled || now.state == ExitPending)
  }

  lemma JudgeMeans(b: Board, t: Id, p: Position, s: StopSetting, m: Moment)
    requires t < |b.triggers|
    ensures Evaluated(b, t, p, s, m, Judge(b, t, p, s, m))
  {
    hide StopBlocked, StopGoes, StopPrice, Find, Unused, Resolve, IsStopPrice;
    StopPriceIs(p, s.lossPct);
    StopGoesMeans(b.orders, b.triggers[t].symbol, p, b.triggers[t].version, m);
    StopGoesIsHeld(b.orders, b.triggers[t].symbol, p, b.triggers[t].version, m);
    UnusedSpelledOut(b.orders, StopKey(t));
  }

  lemma StopGoesIsHeld(orders: seq<OrderRow>, symbol: Symbol, p: Position, version: nat, m: Moment)
    ensures StopGoes(orders, symbol, p, version, m) ==> p.managed > 0 && m.quote.Some?
  {
  }

  ghost predicate Watches(t: Trigger, symbol: Symbol, version: nat, policy: Option<Id>) {
    t.symbol == symbol && t.version == version && t.policy == policy
    && t.state in {Pending, ShadowRecorded, ExitPending}
  }

  /**
   * The evaluation of an open position: a trigger that watches this version is
   * judged again; without one, a new one is raised and judged exactly if a usable
   * bid is at the stop.
   */
  ghost predicate TickEvaluates(b: Board, symbol: Symbol, p: Position, s: StopSetting, m: Moment, after: Board) {
    || (exists t: Id :: t < |b.triggers| && Watches(b.triggers[t], symbol, p.version, s.policy)
                        && Evaluated(b, t, p, s, m, after))
    || (&& (forall t :: 0 <= t < |b.triggers| ==> !Watches(b.triggers[t], symbol, p.version, s.policy))
        && if Reached(p, s.lossPct, m)
           then
             exists raised: Board ::
               && raised.orders == b.orders && |raised.triggers| == |b.triggers| + 1
               && raised.triggers[|b.triggers|] == Trigger(symbol, p.version, s.policy, Pending, None, None)
               && Evaluated(raised, |b.triggers|, p, s, m, after)
           else after.orders == b.orders && |after.triggers| == |b.triggers|)
  }

  lemma EvaluatePositionMeans(b: Board, symbol: Symbol, p: Position, s: StopSetting, m: Moment)
    requires p.state == Held && p.quantity > 0 && EvaluatePosition(b, symbol, p, s, m).Some?
    ensures TickEvaluates(b, symbol, p, s, m, EvaluatePosition(b, symbol, p, s, m).value)
  {
    hide Judge, Evaluated, Reached, SupersedeStale, Taken, StopPrice, ShouldTrigger;
    var existing := FindLive(b.triggers, symbol, p.version, s.policy);
    if existing.Some? {
      JudgeMeans(b, existing.value, p, s, m);
      assert Watches(b.triggers[existing.value], symbol, p.version, s.policy);
    } else {
      FiresMeans(p, s, m);
      SupersedeStaleOrdersStay(b, symbol, s.policy, |b.triggers|);
      var raised := Raise(SupersedeStale(b, symbol, s.policy, |b.triggers|), symbol, p.version, s.policy);
      JudgeMeans(raised, |b.triggers|, p, s, m);
    }
  }

  // ---------------------------------------------------------------- a decision that sells

  /** Nothing keeps the decision from selling so many shares of this version of the position. */
  ghost predicate SaleMayGo(orders: seq<OrderRow>, position: Option<Position>, d: Decision, version: Option<nat>,
                            quantity: int, m: Moment) {
    && m.isMock && m.now <= d.validUntil
    && position.Some? && position.value.state == Held && position.value.quantity > 0
    && (version.Some? ==> position.value.version == version.value)
    && (d.action == PartialSell ==> d.ratio.Some? && 0.01 <= d.ratio.value <= 1.0)
    && Quiet(orders, d.symbol)
    && 1 <= quantity <= position.value.managed && quantity <= position.value.available
    && m.gate == Some(Ready) && Current(m) && m.isHead && UsableBid(m) && m.sessionTradable
  }

  /** The whole shares a decision plans to sell of what it may: all of them, or its ratio of them. */
  ghost predicate Plans(d: Decision, position: Position, quantity: int)
    requires d.action == FullSell || d.ratio.Some?
  {
    var sellable := Max(0, Min(position.managed, position.available));
    if d.action == FullSell then quantity == sellable
    else quantity as real <= sellable as real * d.ratio.value < quantity as real + 1.0
  }

  lemma SaleMeans(orders: seq<OrderRow>, position: Option<Position>, d: Decision, version: Option<nat>,
                  requested: Option<int>, m: Moment)
    requires Guards.Sells(d.action)
    ensures var plan := PlanSale(orders, position, d, m.quote);
            var quantity := if requested.Some? then requested.value else plan.quantity;
            SaleBlocked(orders, d, plan, version, requested, m).None? <==>
              SaleMayGo(orders, position, d, version, quantity, m)
  {
    hide HasActive, Quiet, Reserved;
    QuietSpelledOut(orders, d.symbol);
  }

  lemma PlanMeans(orders: seq<OrderRow>, position: Position, d: Decision, quote: Option<Quote>)
    requires Guards.Sells(d.action) && Quiet(orders, d.symbol)
    requires d.action == PartialSell ==> d.ratio.Some? && 0.01 <= d.ratio.value <= 1.0
    ensures Plans(d, position, PlanSale(orders, Some(position), d, quote).quantity)
    ensures PlanSale(orders, Some(position), d, quote).price == if quote.Some? then quote.value.bid else None
  {
    hide HasActive, Quiet, Reserved;
    QuietSpelledOut(orders, d.symbol);
  }

  // ---------------------------------------------------------------- a decision that buys

  /** k is x in units of 0.0001, to the nearest, halves to the even one. */
  predicate NearestEven(k: int, x: real) {
    -0.5 <= k as real - x * 10000.0 <= 0.5
    && (k as real - x * 10000.0 == 0.5 || x * 10000.0 - k as real == 0.5 ==> k % 2 == 0)
  }

  /** The distance of bid and ask in percent of their middle. */
  function Spread(bid: real, ask: real): real
    requires bid + ask > 0.0
  {
    (ask - bid) / ((bid + ask) / 2.0) * 100.0
  }

  ghost predicate SpreadWithin(m: Moment, max: real) {
    && m.quote.Some? && m.quote.value.bid.Some? && m.quote.value.ask.Some?
    && var bid, ask := m.quote.value.bid.value, m.quote.value.ask.value;
       && bid + ask > 0.0
       && exists k :: NearestEven(k, Spread(bid, ask)) && k as real / 10000.0 <= max
  }

  lemma RoundsHalfEven(x: real) returns (k: int)
    ensures NearestEven(k, x) && Guards.RoundHalfEven(x) == k as real / 10000.0
  {
    var scaled := x * 10000.0;
    var down := scaled.Floor;
    var rest := scaled - down as real;
    k := if rest < 0.5 || (rest == 0.5 && down % 2 == 0) then down else down + 1;
  }

  lemma NearestEvenIsUnique(k: int, l: int, x: real)
    requires NearestEven(k, x) && NearestEven(l, x)
    ensures k == l
  {
  }

  lemma SpreadMeans(m: Moment, max: real)
    ensures SpreadWithin(m, max) <==> SpreadPct(m.quote).Some? && SpreadPct(m.quote).value <= max
  {
    hide Guards.RoundHalfEven, NearestEven, Spread;
    if m.quote.Some? && m.quote.value.bid.Some? && m.quote.value.ask.Some? {
      var bid, ask := m.quote.value.bid.value, m.quote.value.ask.value;
      if bid + ask > 0.0 {
        SpreadIs(m.quote);
        var k := RoundsHalfEven(Spread(bid, ask));
        if SpreadWithin(m, max) {
          var l :| NearestEven(l, Spread(bid, ask)) && l as real / 10000.0 <= max;
          NearestEvenIsUnique(k, l, Spread(bid, ask));
        }
      }
    }
  }

  lemma SpreadIs(q: Option<Quote>)
    requires q.Some? && q.value.bid.Some? && q.value.ask.Some? && q.value.bid.value + q.value.ask.value > 0.0
    ensures SpreadPct(q) == Some(Guards.RoundHalfEven(Spread(q.value.bid.value, q.value.ask.value)))
  {
    hide Guards.RoundHalfEven;
  }

  /** Nothing keeps the decision from buying. */
  ghost predicate EntryMayGo(d: Decision, m: Moment, e: Entry) {
    && m.isMock && m.now <= d.validUntil
    && m.quote.Some? && m.isHead && m.quote.value.isNormal && m.now <= m.quote.value.receivedAt + m.staleSeconds
    && e.watched && m.gate == Some(Ready) && !e.paused
    && e.amount.Some? && e.totalExposure + e.amount.value <= e.maxTotal
    && e.symbolExposure + e.amount.value <= e.maxPerSymbol
    && e.limits.None? && SpreadWithin(m, e.maxSpreadPct) && e.last.None?
  }

  lemma EntryMeans(d: Decision, m: Moment, e: Entry)
    ensures EntryBlocked(d, m, e).None? <==> EntryMayGo(d, m, e)
  {
    hide SpreadPct, SpreadWithin;
    SpreadMeans(m, e.maxSpreadPct);
  }

  /** The whole shares that an amount buys at a price. */
  predicate Buys(amount: real, price: real, quantity: int) {
    price > 0.0 && quantity as real * price <= amount < (quantity + 1) as real * price
  }

  lemma Shares(amount: real, price: real) returns (shares: real)
    requires price > 0.0
    ensures shares == amount / price && shares * price == amount
  {
    shares := amount / price;
  }

  lemma ScaledUp(a: real, b: real, w: real)
    requires a <= b && w > 0.0
    ensures a * w <= b * w
  {
    var gap := b - a;
    assert gap * w >= 0.0;
    assert b * w == a * w + gap * w;
  }

  lemma StrictlyScaledUp(a: real, b: real, w: real)
    requires a < b && w > 0.0
    ensures a * w < b * w
  {
    var gap := b - a;
    assert gap * w > 0.0;
    assert b * w == a * w + gap * w;
  }

  /** The quotient lies on the side of n that the amount lies of n times the price. */
  lemma SharesAgainst(amount: real, price: real, shares: real, n: real)
    requires price > 0.0 && shares * price == amount
    ensures n <= shares <==> n * price <= amount
    ensures n == 0.0 ==> n * price == 0.0
  {
    if n <= shares {
      ScaledUp(n, shares, price);
    } else {
      StrictlyScaledUp(shares, n, price);
    }
  }

  lemma WholeShares(amount: real, price: real)
    requires amount >= 0.0 && price > 0.0
    ensures BuyQuantity(Some(amount), Some(price)) == (amount / price).Floor >= 0
  {
    var shares := Shares(amount, price);
    SharesAgainst(amount, price, shares, 0.0);
  }

  lemma BuyMeans(amount: real, price: real)
    requires amount >= 0.0 && price > 0.0
    ensures Buys(amount, price, BuyQuantity(Some(amount), Some(price)))
  {
    hide BuyQuantity;
    WholeShares(amount, price);
    var shares := Shares(amount, price);
    var n := shares.Floor;
    SharesAgainst(amount, price, shares, n as real);
    SharesAgainst(amount, price, shares, (n + 1) as real);
  }

  // ---------------------------------------------------------------- which rule names the reason

  const STOP_RULES := [PositionFound, PositionVersionMatch, ManagedQuantityPositive, SellQuantityAvailable, BrokerReady,
                       NoActiveOrder, MarketDataFresh, SessionTradable, EnvironmentMock]

  /** The rule of a stop that this code stands for. */
  ghost predicate StopRule(code: Code, orders: seq<OrderRow>, symbol: Symbol, p: Position, version: nat, m: Moment) {
    match code
    case PositionFound => p.state == Held && p.quantity > 0
    case PositionVersionMatch => p.version == version
    case ManagedQuantityPositive => p.managed > 0
    case SellQuantityAvailable => p.managed <= Min(p.managed, p.available) - Reserved(orders, symbol)
    case BrokerReady => m.gate == Some(Ready)
    case NoActiveOrder => Quiet(orders, symbol)
    case MarketDataFresh => Current(m)
    case SessionTradable => m.sessionTradable
    case _ => m.isMock
  }

  ghost predicate StopRulesHold(orders: seq<OrderRow>, symbol: Symbol, p: Position, version: nat, m: Moment, n: nat)
    requires n <= |STOP_RULES|
  {
    forall j :: 0 <= j < n ==> StopRule(STOP_RULES[j], orders, symbol, p, version, m)
  }

  /** A stop is blocked by the first of its rules that does not hold. */
  lemma StopBlockedByFirst(orders: seq<OrderRow>, symbol: Symbol, p: Position, version: nat, m: Moment)
      returns (k: nat)
    requires StopBlocked(orders, symbol, p, version, m).Some?
    ensures k < |STOP_RULES| && StopBlocked(orders, symbol, p, version, m) == Some(STOP_RULES[k])
    ensures StopRulesHold(orders, symbol, p, version, m, k)
    ensures !StopRule(STOP_RULES[k], orders, symbol, p, version, m)
  {
    hide HasActive, Quiet, Reserved;
    QuietSpelledOut(orders, symbol);
    k := if p.state != Held || p.quantity <= 0 then 0
         else if p.version != version then 1
         else if p.managed <= 0 then 2
         else if p.managed > Min(p.managed, p.available) - Reserved(orders, symbol) then 3
         else if m.gate != Some(Ready) then 4
         else if !Quiet(orders, symbol) then 5
         else if !Current(m) then 6
         else if !m.sessionTradable then 7
         else 8;
  }

  const SALE_RULES := [EnvironmentMock, DecisionExpired, PositionFound, PositionVersionMatch, ManagedQuantityPositive,
                       SellRatioValid, NoActiveOrder, QuantityBelowOne, SellQuantityAvailable, BrokerReady,
                       MarketDataFresh, SellPriceAvailable, SessionTradable]

  /** The rule of a sale that this code stands for. */
  ghost predicate SaleRule(code: Code, orders: seq<OrderRow>, position: Option<Position>, d: Decision,
                           version: Option<nat>, quantity: int, m: Moment) {
    match code
    case EnvironmentMock => m.isMock
    case DecisionExpired => m.now <= d.validUntil
    case PositionFound => position.Some? && position.value.state == Held && position.value.quantity > 0
    case PositionVersionMatch => position.Some? && version.Some? ==> position.value.version == version.value
    case ManagedQuantityPositive => position.Some? && position.value.managed > 0
    case SellRatioValid => d.action == PartialSell ==> d.ratio.Some? && 0.01 <= d.ratio.value <= 1.0
    case NoActiveOrder => Quiet(orders, d.symbol)
    case QuantityBelowOne => quantity >= 1
    case SellQuantityAvailable =>
      position.Some?
      && quantity <= Min(position.value.managed, position.value.available) - Reserved(orders, d.symbol)
    case BrokerReady => m.gate == Some(Ready)
    case MarketDataFresh => Current(m) && m.isHead
    case SellPriceAvailable => UsableBid(m)
    case _ => m.sessionTradable
  }

  ghost predicate SaleRulesHold(orders: seq<OrderRow>, position: Option<Position>, d: Decision, version: Option<nat>,
                                quantity: int, m: Moment, n: nat)
    requires n <= |SALE_RULES|
  {
    forall j :: 0 <= j < n ==> SaleRule(SALE_RULES[j], orders, position, d, version, quantity, m)
  }

  lemma PlanFacts(orders: seq<OrderRow>, position: Option<Position>, d: Decision, quote: Option<Quote>)
    ensures var plan := PlanSale(orders, position, d, quote);
            && plan.position == position && plan.price == (if quote.Some? then quote.value.bid else None)
            && plan.sellable == (if position.Some? then Sellable(orders, d.symbol, position.value) else 0)
            && (d.action == PartialSell ==>
                  (plan.ratio.Some? <==> d.ratio.Some? && 0.01 <= d.ratio.value <= 1.0))
  {
    hide Sellable;
  }

  lemma FirstSaleRules(orders: seq<OrderRow>, position: Option<Position>, d: Decision, version: Option<nat>,
                       requested: Option<int>, m: Moment)
    ensures var quantity := if requested.Some? then requested.value
                            else PlanSale(orders, position, d, m.quote).quantity;
            var blocked := SaleBlocked(orders, d, PlanSale(orders, position, d, m.quote), version, requested, m);
            blocked ==
            if !SaleRule(EnvironmentMock, orders, position, d, version, quantity, m)
            then Some(EnvironmentMock)
            else if !SaleRule(DecisionExpired, orders, position, d, version, quantity, m)
            then Some(DecisionExpired)
            else if !SaleRule(PositionFound, orders, position, d, version, quantity, m)
            then Some(PositionFound)
            else if !SaleRule(PositionVersionMatch, orders, position, d, version, quantity, m)
            then Some(PositionVersionMatch)
            else if !SaleRule(ManagedQuantityPositive, orders, position, d, version, quantity, m)
            then Some(ManagedQuantityPositive)
            else if !SaleRule(SellRatioValid, orders, position, d, version, quantity, m)
            then Some(SellRatioValid)
            else blocked
  {
    hide HasActive, Quiet, Reserved, PlanSale;
    QuietSpelledOut(orders, d.symbol);
    PlanFacts(orders, position, d, m.quote);
  }

  lemma LastSaleRules(orders: seq<OrderRow>, position: Option<Position>, d: Decision, version: Option<nat>,
                      requested: Option<int>, m: Moment)
    requires var quantity := if requested.Some? then requested.value
                             else PlanSale(orders, position, d, m.quote).quantity;
             && SaleRule(EnvironmentMock, orders, position, d, version, quantity, m)
             && SaleRule(DecisionExpired, orders, position, d, version, quantity, m)
             && SaleRule(PositionFound, orders, position, d, version, quantity, m)
             && SaleRule(PositionVersionMatch, orders, position, d, version, quantity, m)
             && SaleRule(ManagedQuantityPositive, orders, position, d, version, quantity, m)
             && SaleRule(SellRatioValid, orders, position, d, version, quantity, m)
    ensures var quantity := if requested.Some? then requested.value
                            else PlanSale(orders, position, d, m.quote).quantity;
            SaleBlocked(orders, d, PlanSale(orders, position, d, m.quote), version, requested, m) ==
            if !SaleRule(NoActiveOrder, orders, position, d, version, quantity, m)
            then Some(NoActiveOrder)
            else if !SaleRule(QuantityBelowOne, orders, position, d, version, quantity, m)
            then Some(QuantityBelowOne)
            else if !SaleRule(SellQuantityAvailable, orders, position, d, version, quantity, m)
            then Some(SellQuantityAvailable)
            else if !SaleRule(BrokerReady, orders, position, d, version, quantity, m)
            then Some(BrokerReady)
            else if !SaleRule(MarketDataFresh, orders, position, d, version, quantity, m)
            then Some(MarketDataFresh)
            else if !SaleRule(SellPriceAvailable, orders, position, d, version, quantity, m)
            then Some(SellPriceAvailable)
            else if !SaleRule(SessionTradable, orders, position, d, version, quantity, m)
            then Some(SessionTradable)
            else None
  {
    hide HasActive, Quiet, Reserved, PlanSale;
    QuietSpelledOut(orders, d.symbol);
    PlanFacts(orders, position, d, m.quote);
  }

  lemma SaleRulesInOrder(orders: seq<OrderRow>, position: Option<Position>, d: Decision, version: Option<nat>,
                         requested: Option<int>, m: Moment)
    ensures var quantity := if requested.Some? then requested.value
                            else PlanSale(orders, position, d, m.quote).quantity;
            SaleBlocked(orders, d, PlanSale(orders, position, d, m.quote), version, requested, m) ==
            if !SaleRule(EnvironmentMock, orders, position, d, version, quantity, m)
            then Some(EnvironmentMock)
            else if !SaleRule(DecisionExpired, orders, position, d, version, quantity, m)
            then Some(DecisionExpired)
            else if !SaleRule(PositionFound, orders, position, d, version, quantity, m)
            then Some(PositionFound)
            else if !SaleRule(PositionVersionMatch, orders, position, d, version, quantity, m)
            then Some(PositionVersionMatch)
            else if !SaleRule(ManagedQuantityPositive, orders, position, d, version, quantity, m)
            then Some(ManagedQuantityPositive)
            else if !SaleRule(SellRatioValid, orders, position, d, version, quantity, m)
            then Some(SellRatioValid)
            else if !SaleRule(NoActiveOrder, orders, position, d, version, quantity, m)
            then Some(NoActiveOrder)
            else if !SaleRule(QuantityBelowOne, orders, position, d, version, quantity, m)
            then Some(QuantityBelowOne)
            else if !SaleRule(SellQuantityAvailable, orders, position, d, version, quantity, m)
            then Some(SellQuantityAvailable)
            else if !SaleRule(BrokerReady, orders, position, d, version, quantity, m)
            then Some(BrokerReady)
            else if !SaleRule(MarketDataFresh, orders, position, d, version, quantity, m)
            then Some(MarketDataFresh)
            else if !SaleRule(SellPriceAvailable, orders, position, d, version, quantity, m)
            then Some(SellPriceAvailable)
            else if !SaleRule(SessionTradable, orders, position, d, version, quantity, m)
            then Some(SessionTradable)
            else None
  {
    hide SaleRule, SaleBlocked, PlanSale;
    FirstSaleRules(orders, position, d, version, requested, m);
    var quantity := if requested.Some? then requested.value else PlanSale(orders, position, d, m.quote).quantity;
    if
      && SaleRule(EnvironmentMock, orders, position, d, version, quantity, m)
      && SaleRule(DecisionExpired, orders, position, d, version, quantity, m)
      && SaleRule(PositionFound, orders, position, d, version, quantity, m)
      && SaleRule(PositionVersionMatch, orders, position, d, version, quantity, m)
      && SaleRule(ManagedQuantityPositive, orders, position, d, version, quantity, m)
      && SaleRule(SellRatioValid, orders, position, d, version, quantity, m)
    {
      LastSaleRules(orders, position, d, version, requested, m);
    }
  }

  /** A decision's or an approval's sale is blocked by the first of its rules that does not hold. */
  lemma SaleBlockedByFirst(orders: seq<OrderRow>, position: Option<Position>, d: Decision, version: Option<nat>,
                           requested: Option<int>, m: Moment) returns (k: nat)
    requires SaleBlocked(orders, d, PlanSale(orders, position, d, m.quote), version, requested, m).Some?
    ensures var plan := PlanSale(orders, position, d, m.quote);
            var quantity := if requested.Some? then requested.value else plan.quantity;
            && k < |SALE_RULES| && SaleBlocked(orders, d, plan, version, requested, m) == Some(SALE_RULES[k])
            && SaleRulesHold(orders, position, d, version, quantity, m, k)
            && !SaleRule(SALE_RULES[k], orders, position, d, version, quantity, m)
  {
    hide SaleRule, SaleBlocked, PlanSale;
    SaleRulesInOrder(orders, position, d, version, requested, m);
    var quantity := if requested.Some? then requested.value else PlanSale(orders, position, d, m.quote).quantity;
    k := if !SaleRule(EnvironmentMock, orders, position, d, version, quantity, m) then 0
         else if !SaleRule(DecisionExpired, orders, position, d, version, quantity, m) then 1
         else if !SaleRule(PositionFound, orders, position, d, version, quantity, m) then 2
         else if !SaleRule(PositionVersionMatch, orders, position, d, version, quantity, m) then 3
         else if !SaleRule(ManagedQuantityPositive, orders, position, d, version, quantity, m) then 4
         else if !SaleRule(SellRatioValid, orders, position, d, version, quantity, m) then 5
         else if !SaleRule(NoActiveOrder, orders, position, d, version, quantity, m) then 6
         else if !SaleRule(QuantityBelowOne, orders, position, d, version, quantity, m) then 7
         else if !SaleRule(SellQuantityAvailable, orders, position, d, version, quantity, m) then 8
         else if !SaleRule(BrokerReady, orders, position, d, version, quantity, m) then 9
         else if !SaleRule(MarketDataFresh, orders, position, d, version, quantity, m) then 10
         else if !SaleRule(SellPriceAvailable, orders, position, d, version, quantity, m) then 11
         else 12;
  }

  const ENTRY_RULES := [EnvironmentMock, DecisionExpired, SnapshotMissing, MarketDataFresh, SymbolNotWatched,
                        BrokerReady,
                        EmergencyStop, OrderSizeNotConfigured, TotalExposureLimit, SymbolExposureLimit]

  predicate EntryRule(code: Code, d: Decision, m: Moment, e: Entry) {
    match code
    case EnvironmentMock => m.isMock
    case DecisionExpired => m.now <= d.validUntil
    case SnapshotMissing => m.quote.Some?
    case MarketDataFresh =>
      m.quote.Some? && m.isHead && m.quote.value.isNormal && m.now <= m.quote.value.receivedAt + m.staleSeconds
    case SymbolNotWatched => e.watched
    case BrokerReady => m.gate == Some(Ready)
    case EmergencyStop => !e.paused
    case OrderSizeNotConfigured => e.amount.Some?
    case TotalExposureLimit => e.amount.Some? && e.totalExposure + e.amount.value <= e.maxTotal
    case SymbolExposureLimit => e.amount.Some? && e.symbolExposure + e.amount.value <= e.maxPerSymbol
    case _ => true
  }

  ghost predicate EntryRulesHold(d: Decision, m: Moment, e: Entry, n: nat)
    requires n <= |ENTRY_RULES|
  {
    forall j :: 0 <= j < n ==> EntryRule(ENTRY_RULES[j], d, m, e)
  }

  lemma EntryRulesInOrder(d: Decision, m: Moment, e: Entry)
    ensures EntryBlocked(d, m, e) ==
              if !EntryRule(EnvironmentMock, d, m, e) then Some(EnvironmentMock)
              else if !EntryRule(DecisionExpired, d, m, e) then Some(DecisionExpired)
              else if !EntryRule(SnapshotMissing, d, m, e) then Some(SnapshotMissing)
              else if !EntryRule(MarketDataFresh, d, m, e) then Some(MarketDataFresh)
              else if !EntryRule(SymbolNotWatched, d, m, e) then Some(SymbolNotWatched)
              else if !EntryRule(BrokerReady, d, m, e) then Some(BrokerReady)
              else if !EntryRule(EmergencyStop, d, m, e) then Some(EmergencyStop)
              else if !EntryRule(OrderSizeNotConfigured, d, m, e) then Some(OrderSizeNotConfigured)
              else if !EntryRule(TotalExposureLimit, d, m, e) then Some(TotalExposureLimit)
              else if !EntryRule(SymbolExposureLimit, d, m, e) then Some(SymbolExposureLimit)
              else if e.limits.Some? then e.limits
              else if !SpreadWithin(m, e.maxSpreadPct) then Some(SpreadLimit)
              else e.last
  {
    hide SpreadPct, SpreadWithin;
    SpreadMeans(m, e.maxSpreadPct);
  }

  /**
   * An entry is blocked by the first of these rules that does not hold, and after
   * them by the limits, the spread and the rest.
   */
  lemma EntryBlockedByFirst(d: Decision, m: Moment, e: Entry) returns (k: nat)
    ensures k <= |ENTRY_RULES| && EntryRulesHold(d, m, e, k)
    ensures k < |ENTRY_RULES| ==> EntryBlocked(d, m, e) == Some(ENTRY_RULES[k]) && !EntryRule(ENTRY_RULES[k], d, m, e)
    ensures k == |ENTRY_RULES| ==>
              EntryBlocked(d, m, e) == if e.limits.Some? then e.limits
                                       else if !SpreadWithin(m, e.maxSpreadPct) then Some(SpreadLimit)
                                       else e.last
  {
    hide EntryRule, EntryBlocked, SpreadWithin;
    EntryRulesInOrder(d, m, e);
    k := if !EntryRule(EnvironmentMock, d, m, e) then 0
         else if !EntryRule(DecisionExpired, d, m, e) then 1
         else if !EntryRule(SnapshotMissing, d, m, e) then 2
         else if !EntryRule(MarketDataFresh, d, m, e) then 3
         else if !EntryRule(SymbolNotWatched, d, m, e) then 4
         else if !EntryRule(BrokerReady, d, m, e) then 5
         else if !EntryRule(EmergencyStop, d, m, e) then 6
         else if !EntryRule(OrderSizeNotConfigured, d, m, e) then 7
         else if !EntryRule(TotalExposureLimit, d, m, e) then 8
         else if !EntryRule(SymbolExposureLimit, d, m, e) then 9
         else 10;
  }

  // ---------------------------------------------------------------- routing

  /** How the decision's action is to be carried out. */
  predicate InMode(d: Decision, s: RouteSetting, mode: Mode) {
    match d.action
    case Enter => s.buy == mode
    case PartialSell => s.partialSell == mode
    case FullSell => s.fullSell == mode
    case StopOut => s.fixedStop == mode
    case _ => mode == Disabled
  }

  /** The decision is still to be routed, and orders are enabled. */
  predicate ToRoute(b: Book, d: Decision, s: RouteSetting) {
    d.isTrading && ExecutionKey(d.id, d.action, s.policy, s.riskPolicy) !in b.executions && s.ordersEnabled
  }

  /** Nothing keeps the decision from buying or selling. */
  ghost predicate MayGo(orders: seq<OrderRow>, position: Option<Position>, d: Decision, m: Moment, e: Entry) {
    match d.action
    case Enter => EntryMayGo(d, m, e)
    case PartialSell =>
      d.ratio.Some? && position.Some?
      && exists q :: Plans(d, position.value, q) && SaleMayGo(orders, position, d, None, q, m)
    case FullSell =>
      position.Some? && exists q :: Plans(d, position.value, q) && SaleMayGo(orders, position, d, None, q, m)
    case _ => false
  }

  /** At least one share is bought, at a usable ask; a sale that may go always sells one. */
  predicate HasSize(d: Decision, m: Moment, e: Entry) {
    d.action == Enter ==>
      && m.quote.Some? && m.quote.value.ask.Some? && e.amount.Some?
      && 0.0 < m.quote.value.ask.value <= e.amount.value
  }

  function OrderKey(d: Decision): Key {
    if d.action == Enter then BuyKey(d.id) else SellKey(d.id, d.action)
  }

  /** The order of a decision: a limit order at the ask or the bid, for what it buys or plans to sell. */
  ghost predicate IsDecisionOrder(row: OrderRow, d: Decision, position: Option<Position>, m: Moment, e: Entry) {
    && row.key == OrderKey(d) && row.symbol == d.symbol && row.status == Created && row.remaining == row.quantity
    && row.limitPrice.Some? && m.quote.Some?
    && row.payload.ByDecision? && row.payload.decision == d.id && row.payload.action == d.action
    && row.payload.symbol == d.symbol && row.payload.venue == d.venue
    && row.payload.price == row.limitPrice.value && row.payload.quantity == row.quantity
    && if d.action == Enter then
         && row.side == Buy && row.limitPrice == m.quote.value.ask && row.payload.positionVersion == None
         && e.amount.Some? && Buys(e.amount.value, row.limitPrice.value, row.quantity)
       else
         && row.side == Sell && row.limitPrice == m.quote.value.bid && position.Some?
         && row.payload.positionVersion == Some(position.value.version)
         && (d.action == FullSell || d.ratio.Some?) && Plans(d, position.value, row.quantity)
  }

  /** The decision leads to an order of its own now. */
  ghost predicate Orders(b: Book, d: Decision, s: RouteSetting, position: Option<Position>, m: Moment, e: Entry) {
    && ToRoute(b, d, s) && InMode(d, s, Automatic) && MayGo(b.orders, position, d, m, e) && HasSize(d, m, e)
    && d.venue != OtherVenue && Unused(b.orders, OrderKey(d))
  }

  lemma MayGoMeans(orders: seq<OrderRow>, position: Option<Position>, d: Decision, m: Moment, e: Entry)
    ensures MayGo(orders, position, d, m, e) <==> RouteBlocked(orders, position, d, m, e).None?
    ensures MayGo(orders, position, d, m, e) && d.action != Enter ==>
              && Guards.Sells(d.action) && position.Some? && UsableBid(m) && (d.action == PartialSell ==> d.ratio.Some?)
              && var plan := PlanSale(orders, position, d, m.quote);
                 plan.quantity > 0 && plan.price == m.quote.value.bid && Plans(d, position.value, plan.quantity)
  {
    hide EntryBlocked, EntryMayGo, SaleBlocked, PlanSale, Plans, Quiet;
    if d.action == Enter {
      EntryMeans(d, m, e);
    } else if Guards.Sells(d.action) {
      SaleMeans(orders, position, d, None, None, m);
      if position.Some? && Quiet(orders, d.symbol)
         && (d.action == PartialSell ==> d.ratio.Some? && 0.01 <= d.ratio.value <= 1.0) {
        PlanMeans(orders, position.value, d, m.quote);
        PlansOnce(d, position.value, PlanSale(orders, position, d, m.quote).quantity);
      }
    }
  }

  lemma PlansOnce(d: Decision, position: Position, quantity: int)
    requires d.action == FullSell || d.ratio.Some?
    requires Plans(d, position, quantity)
    ensures forall q :: Plans(d, position, q) ==> q == quantity
  {
  }

  lemma EntrySizeMeans(d: Decision, m: Moment, e: Entry)
    requires EntryMayGo(d, m, e) && d.action == Enter
    ensures HasSize(d, m, e) <==> Ask(m).Some? && BuyQuantity(e.amount, Ask(m)) > 0
    ensures HasSize(d, m, e) ==> Buys(e.amount.value, Ask(m).value, BuyQuantity(e.amount, Ask(m)))
  {
    hide SpreadWithin, BuyQuantity, Buys;
    UnusablePrice(e.amount, Ask(m));
    if Ask(m).Some? && Ask(m).value > 0.0 {
      if e.amount.value >= 0.0 {
        BuyMeans(e.amount.value, Ask(m).value);
        AtLeastOne(e.amount.value, Ask(m).value);
      } else {
        NegativeQuotient(e.amount.value, Ask(m).value);
      }
    }
  }

  lemma UnusablePrice(amount: Option<real>, price: Option<real>)
    ensures price.None? || price.value <= 0.0 ==> BuyQuantity(amount, price) == 0
  {
  }

  lemma AtLeastOne(amount: real, price: real)
    requires amount >= 0.0 && price > 0.0
    ensures price <= amount <==> BuyQuantity(Some(amount), Some(price)) >= 1
  {
    hide BuyQuantity;
    WholeShares(amount, price);
    var shares := Shares(amount, price);
    SharesAgainst(amount, price, shares, 1.0);
  }

  lemma NegativeQuotient(amount: real, price: real)
    requires amount < 0.0 && price > 0.0
    ensures BuyQuantity(Some(amount), Some(price)) <= 0
  {
    var shares := Shares(amount, price);
    SharesAgainst(amount, price, shares, 0.0);
  }

  /** The book after a request under an unused key was carried out for an execution. */
  ghost predicate Carried(b: Book, key: ExecutionKey, after: Book) {
    && |after.orders| == |b.orders| + 1 && after.orders[..|b.orders|] == b.orders && after.approvals == b.approvals
    && after.executions == b.executions[key := Execution(Ordered, None, Some(|b.orders|), Some(OrderCreated))]
  }

  lemma OrderNowMeans(b: Book, key: ExecutionKey, r: Request)
    requires r.quantity > 0 && r.orderType == Limit && r.limitPrice.Some?
    ensures var after := OrderNow(b, key, r);
            && after.approvals == b.approvals
            && (|after.orders| > |b.orders| <==> r.venue != OtherVenue && Unused(b.orders, r.key))
            && (|after.orders| <= |b.orders| ==> after.orders == b.orders)
            && (|after.orders| > |b.orders| ==> Carried(b, key, after) && after.orders[|b.orders|] == NewRow(r))
  {
    hide Find, Unused;
    UnusedSpelledOut(b.orders, r.key);
  }

  /**
   * Routing creates an order exactly if the decision is still to be routed, is to
   * be carried out automatically, nothing keeps it from going, it has a size and
   * its key is unused; the order is then the decision's own.
   */
  lemma RouteMeans(b: Book, d: Decision, s: RouteSetting, position: Option<Position>, m: Moment, e: Entry)
    requires Route(b, d, s, position, m, e).Some?
    ensures var after := Route(b, d, s, position, m, e).value;
            var key := ExecutionKey(d.id, d.action, s.policy, s.riskPolicy);
            && (|after.orders| > |b.orders| <==> Orders(b, d, s, position, m, e))
            && (!Orders(b, d, s, position, m, e) ==> after.orders == b.orders)
            && (Orders(b, d, s, position, m, e) ==>
                  Carried(b, key, after) && IsDecisionOrder(after.orders[|b.orders|], d, position, m, e))
  {
    hide RouteBlocked, MayGo, HasSize, PlanSale, BuyQuantity, OrderNow, Unused, Plans, Buys, Carried, IsDecisionOrder;
    MayGoMeans(b.orders, position, d, m, e);
    if ToRoute(b, d, s) && InMode(d, s, Automatic) && MayGo(b.orders, position, d, m, e) {
      RoutedNow(b, d, s, position, m, e);
    }
  }

  lemma RoutedNow(b: Book, d: Decision, s: RouteSetting, position: Option<Position>, m: Moment, e: Entry)
    requires ToRoute(b, d, s) && InMode(d, s, Automatic) && MayGo(b.orders, position, d, m, e)
    requires Route(b, d, s, position, m, e).Some?
    ensures var after := Route(b, d, s, position, m, e).value;
            var key := ExecutionKey(d.id, d.action, s.policy, s.riskPolicy);
            var orders := HasSize(d, m, e) && d.venue != OtherVenue && Unused(b.orders, OrderKey(d));
            && (|after.orders| > |b.orders| <==> orders)
            && (!orders ==> after.orders == b.orders)
            && (orders ==> Carried(b, key, after) && IsDecisionOrder(after.orders[|b.orders|], d, position, m, e))
  {
    hide RouteBlocked, MayGo, HasSize, PlanSale, BuyQuantity, OrderNow, Unused, Plans, Buys, Carried;
    MayGoMeans(b.orders, position, d, m, e);
    var key := ExecutionKey(d.id, d.action, s.policy, s.riskPolicy);
    if d.action == Enter {
      EntryGoes(b.orders, position, d, m, e);
      EntrySizeMeans(d, m, e);
      if HasSize(d, m, e) {
        OrderNowMeans(b, key, BuyRequest(d, Ask(m).value, BuyQuantity(e.amount, Ask(m))));
        SizedEntry(d, m, e);
      }
    } else {
      var plan := PlanSale(b.orders, position, d, m.quote);
      PlanKeepsPosition(b.orders, position, d, m.quote);
      NoSizeForSales(d, m, e);
      OrderNowMeans(b, key, SellRequest(d, plan.price.value, plan.quantity, position.value.version));
    }
  }

  lemma EntryGoes(orders: seq<OrderRow>, position: Option<Position>, d: Decision, m: Moment, e: Entry)
    requires d.action == Enter && MayGo(orders, position, d, m, e)
    ensures EntryMayGo(d, m, e)
  {
  }

  lemma SizedEntry(d: Decision, m: Moment, e: Entry)
    requires d.action == Enter && HasSize(d, m, e)
    ensures m.quote.Some? && e.amount.Some?
  {
  }

  lemma NoSizeForSales(d: Decision, m: Moment, e: Entry)
    requires d.action != Enter
    ensures HasSize(d, m, e)
  {
  }

  lemma PlanKeepsPosition(orders: seq<OrderRow>, position: Option<Position>, d: Decision, quote: Option<Quote>)
    ensures PlanSale(orders, position, d, quote).position == position
  {
  }

  /** The decision is put to the user now. */
  ghost predicate Asks(b: Book, d: Decision, s: RouteSetting, position: Option<Position>, m: Moment, e: Entry) {
    ToRoute(b, d, s) && InMode(d, s, ManualApproval) && MayGo(b.orders, position, d, m, e)
  }

  /** An approval asks for what would be bought or sold, at the price it would have been, until the decision ends. */
  ghost predicate IsAskedFor(a: Approval, d: Decision, s: RouteSetting, position: Option<Position>, m: Moment,
                             e: Entry) {
    && a.execution == ExecutionKey(d.id, d.action, s.policy, s.riskPolicy) && a.decision == d
    && a.expiresAt == d.validUntil && a.state == Awaiting && a.order == None && a.result == None && a.version == 1
    && m.quote.Some?
    && if d.action == Enter then
         && a.scope.reference == m.quote.value.ask && a.scope.positionVersion == None
         && m.quote.value.ask.Some? && e.amount.Some?
         && Buys(e.amount.value, m.quote.value.ask.value, a.scope.quantity)
       else
         && a.scope.reference == m.quote.value.bid && position.Some?
         && a.scope.positionVersion == Some(position.value.version)
         && (d.action == FullSell || d.ratio.Some?) && Plans(d, position.value, a.scope.quantity)
  }

  /**
   * Routing asks the user exactly if the decision is to be carried out by hand and
   * nothing keeps it from going. It fails, and keeps nothing, exactly if then
   * nothing could be bought.
   */
  lemma AskingMeans(b: Book, d: Decision, s: RouteSetting, position: Option<Position>, m: Moment, e: Entry)
    ensures var after := Route(b, d, s, position, m, e);
            var key := ExecutionKey(d.id, d.action, s.policy, s.riskPolicy);
            && (after.None? <==> Asks(b, d, s, position, m, e) && !HasSize(d, m, e))
            && (after.Some? && !Asks(b, d, s, position, m, e) ==> after.value.approvals == b.approvals)
            && (after.Some? && Asks(b, d, s, position, m, e) ==>
                  && |after.value.approvals| == |b.approvals| + 1
                     && after.value.approvals[..|b.approvals|] == b.approvals
                  && IsAskedFor(after.value.approvals[|b.approvals|], d, s, position, m, e)
                  && after.value.orders == b.orders
                  && after.value.executions ==
                       b.executions[key := Execution(ApprovalPending, Some(|b.approvals|), None, None)])
  {
    hide RouteBlocked, MayGo, HasSize, PlanSale, BuyQuantity, OrderNow, Plans, Buys, IsAskedFor;
    MayGoMeans(b.orders, position, d, m, e);
    OrderNowAsksNothing(b);
    if Asks(b, d, s, position, m, e) {
      AskedNow(b, d, s, position, m, e);
    }
  }

  lemma OrderNowAsksNothing(b: Book)
    ensures forall key, r :: OrderNow(b, key, r).approvals == b.approvals
  {
  }

  lemma AskedNow(b: Book, d: Decision, s: RouteSetting, position: Option<Position>, m: Moment, e: Entry)
    requires Asks(b, d, s, position, m, e)
    ensures ScopeFor(b.orders, position, d, m, e).quantity <= 0 <==> !HasSize(d, m, e)
    ensures HasSize(d, m, e) ==>
              IsAskedFor(Approval(KeyFor(d, s), d, ScopeFor(b.orders, position, d, m, e), d.validUntil, Awaiting, None,
                                  None, 1),
                         d, s, position, m, e)
  {
    hide MayGo, HasSize, PlanSale, BuyQuantity, Plans, Buys;
    MayGoMeans(b.orders, position, d, m, e);
    if d.action == Enter {
      EntryGoes(b.orders, position, d, m, e);
      EntrySizeMeans(d, m, e);
      NoPriceNoSize(e.amount, Ask(m));
      if HasSize(d, m, e) {
        SizedEntry(d, m, e);
      }
    } else {
      NoSizeForSales(d, m, e);
    }
  }

  lemma NoPriceNoSize(amount: Option<real>, price: Option<real>)
    ensures price.None? ==> BuyQuantity(amount, price) == 0
  {
  }

  /** What routing makes of the decision's execution. */
  ghost predicate Records(b: Book, d: Decision, s: RouteSetting, position: Option<Position>, m: Moment, e: Entry,
                          after: Book) {
    var key := ExecutionKey(d.id, d.action, s.policy, s.riskPolicy);
    if !d.isTrading || key in b.executions then after == b
    else
      && key in after.executions && after.executions == b.executions[key := after.executions[key]]
      && var state := after.executions[key].state;
         if d.action == Stand then state == NoAction
         else if InMode(d, s, Disabled) then state == NotEnabled
         else if !MayGo(b.orders, position, d, m, e) then state == GuardBlocked && after.executions[key].result.Some?
         else if !s.ordersEnabled then state == ShadowOnlyRecorded
         else if InMode(d, s, ManualApproval) then state == ApprovalPending
         else if !HasSize(d, m, e) then state == GuardBlocked
         else if d.venue == OtherVenue then state == FailedSafe
         else state == Ordered || (state == FailedSafe && !Unused(b.orders, OrderKey(d)))
  }

  lemma RecordMeans(b: Book, d: Decision, s: RouteSetting, position: Option<Position>, m: Moment, e: Entry)
    requires Route(b, d, s, position, m, e).Some?
    ensures Records(b, d, s, position, m, e, Route(b, d, s, position, m, e).value)
  {
    hide RouteBlocked, MayGo, HasSize, PlanSale, BuyQuantity, OrderNow, Unused;
    MayGoMeans(b.orders, position, d, m, e);
    OrderNowRecords(b);
    if MayGo(b.orders, position, d, m, e) {
      if d.action == Enter {
        EntryGoes(b.orders, position, d, m, e);
        EntrySizeMeans(d, m, e);
      } else {
        NoSizeForSales(d, m, e);
        PlanKeepsPosition(b.orders, position, d, m.quote);
      }
    }
  }

  lemma OrderNowRecords(b: Book)
    ensures forall key, r: Request :: r.quantity > 0 && r.orderType == Limit && r.limitPrice.Some? ==>
              var after := OrderNow(b, key, r);
              && key in after.executions && after.executions == b.executions[key := after.executions[key]]
              && (r.venue == OtherVenue ==> after.executions[key].state == FailedSafe)
              && (r.venue != OtherVenue ==>
                    || after.executions[key].state == Ordered
                    || (after.executions[key].state == FailedSafe && !Unused(b.orders, r.key)))
  {
    forall key, r: Request | r.quantity > 0 && r.orderType == Limit && r.limitPrice.Some?
      ensures var after := OrderNow(b, key, r);
              && key in after.executions && after.executions == b.executions[key := after.executions[key]]
              && (r.venue == OtherVenue ==> after.executions[key].state == FailedSafe)
              && (r.venue != OtherVenue ==>
                    || after.executions[key].state == Ordered
                    || (after.executions[key].state == FailedSafe && !Unused(b.orders, r.key)))
    {
      UnusedSpelledOut(b.orders, r.key);
    }
  }

  /** Everything routing does to the book, and when it fails. */
  ghost predicate RoutesTo(b: Book, d: Decision, s: RouteSetting, position: Option<Position>, m: Moment, e: Entry,
                           after: Book) {
    && Records(b, d, s, position, m, e, after)
    && (if Orders(b, d, s, position, m, e)
        then |after.orders| == |b.orders| + 1 && after.orders[..|b.orders|] == b.orders
             && IsDecisionOrder(after.orders[|b.orders|], d, position, m, e)
             && after.executions[ExecutionKey(d.id, d.action, s.policy, s.riskPolicy)].order == Some(|b.orders|)
        else after.orders == b.orders)
    && (if Asks(b, d, s, position, m, e)
        then |after.approvals| == |b.approvals| + 1 && after.approvals[..|b.approvals|] == b.approvals
             && IsAskedFor(after.approvals[|b.approvals|], d, s, position, m, e)
        else after.approvals == b.approvals)
  }

  lemma RoutingMeans(b: Book, d: Decision, s: RouteSetting, position: Option<Position>, m: Moment, e: Entry)
    ensures var after := Route(b, d, s, position, m, e);
            && (after.None? <==> Asks(b, d, s, position, m, e) && !HasSize(d, m, e))
            && (after.Some? ==> RoutesTo(b, d, s, position, m, e, after.value))
  {
    hide Route, Records, Orders, Asks, HasSize, IsDecisionOrder, IsAskedFor;
    AskingMeans(b, d, s, position, m, e);
    if Route(b, d, s, position, m, e).Some? {
      RouteMeans(b, d, s, position, m, e);
      RecordMeans(b, d, s, position, m, e);
    }
  }

  // ---------------------------------------------------------------- approving

  /** The price is no further from the one asked about than the tolerated percentage of it. */
  predicate Near(price: real, reference: real, maxPct: real) {
    reference > 0.0 && (price - reference) * 100.0 <= maxPct * reference
    && (reference - price) * 100.0 <= maxPct * reference
  }

  /** The price an order for the decision would have now. */
  function PriceNow(d: Decision, m: Moment): Option<real> {
    if m.quote.None? then None else if d.action == Enter then m.quote.value.ask else m.quote.value.bid
  }

  /** Nothing keeps the approval, as it was asked for, from being carried out now. */
  ghost predicate ApprovalMayGo(orders: seq<OrderRow>, position: Option<Position>, a: Approval, m: Moment, e: Entry) {
    var d := a.decision;
    && match d.action {
       case Enter => EntryMayGo(d, m, e)
       case PartialSell => SaleMayGo(orders, position, d, a.scope.positionVersion, a.scope.quantity, m)
       case FullSell => SaleMayGo(orders, position, d, a.scope.positionVersion, a.scope.quantity, m)
       case _ => false
       }
    && a.scope.reference.Some? && PriceNow(d, m).Some?
    && Near(PriceNow(d, m).value, a.scope.reference.value, e.maxDeviationPct)
    && a.scope.quantity >= 1
  }

  lemma NearMeans(price: real, reference: real, maxPct: real)
    ensures DeviationOk(Some(reference), Some(price), maxPct) <==> Near(price, reference, maxPct)
  {
    if reference > 0.0 {
      var distance := if price < reference then reference - price else price - reference;
      QuotientAtMost(distance, reference, maxPct);
    }
  }

  lemma QuotientAtMost(distance: real, reference: real, maxPct: real)
    requires reference > 0.0
    ensures distance / reference * 100.0 <= maxPct <==> distance * 100.0 <= maxPct * reference
  {
    var q := distance / reference;
    assert q * reference == distance;
    var scaled := q * 100.0;
    assert scaled * reference == distance * 100.0;
    if scaled <= maxPct {
      ScaledUp(scaled, maxPct, reference);
    } else {
      StrictlyScaledUp(maxPct, scaled, reference);
    }
  }

  lemma ApprovalMeans(orders: seq<OrderRow>, position: Option<Position>, a: Approval, m: Moment, e: Entry)
    ensures ApprovalBlocked(orders, position, a, m, e).None? <==> ApprovalMayGo(orders, position, a, m, e)
    ensures ApprovalMayGo(orders, position, a, m, e) ==> PriceNow(a.decision, m) == Price(a.decision, m)
  {
    hide EntryBlocked, EntryMayGo, SaleBlocked, SaleMayGo, PlanSale, DeviationOk, Near;
    var d := a.decision;
    if d.action == Enter {
      EntryMeans(d, m, e);
    } else if Guards.Sells(d.action) {
      SaleMeans(orders, position, d, a.scope.positionVersion, Some(a.scope.quantity), m);
    }
    NoneIsFar(a.scope.reference, Price(d, m), e.maxDeviationPct);
    if a.scope.reference.Some? && Price(d, m).Some? {
      NearMeans(Price(d, m).value, a.scope.reference.value, e.maxDeviationPct);
    }
  }

  lemma NoneIsFar(reference: Option<real>, price: Option<real>, maxPct: real)
    ensures reference.None? || price.None? ==> !DeviationOk(reference, price, maxPct)
  {
  }

  /** The order of an approval: what was asked for, at the price now, under the key the user gave. */
  predicate IsApprovedOrder(row: OrderRow, id: Id, a: Approval, key: Key, m: Moment) {
    var d := a.decision;
    && row.key == key && row.symbol == d.symbol && row.side == (if d.action == Enter then Buy else Sell)
    && row.limitPrice.Some? && row.limitPrice == PriceNow(d, m)
    && row.quantity == row.remaining == a.scope.quantity && row.status == Created && m.quote.Some?
    && row.payload == ByApproval(id, d.id, d.action, d.symbol, d.venue, row.limitPrice, a.scope.quantity,
                                 a.scope.positionVersion, Some(m.quote.value.id), key)
  }

  /** The attempt carries the approval out. */
  ghost predicate Approves(b: Book, id: Id, key: Key, position: Option<Position>, m: Moment, e: Entry) {
    && id < |b.approvals| && b.approvals[id].state == Awaiting && m.now < b.approvals[id].expiresAt
    && b.approvals[id].execution in b.executions
    && ApprovalMayGo(b.orders, position, b.approvals[id], m, e)
    && b.approvals[id].decision.venue != OtherVenue && Unused(b.orders, key)
  }

  /**
   * An approval attempt creates an order exactly if the approval awaits, has not
   * run out, nothing keeps what was asked for from going now, the price is near the
   * one asked about, and the key is unused.
   */
  lemma ApproveMeans(b: Book, id: Id, key: Key, position: Option<Position>, m: Moment, e: Entry)
    ensures var after := Approve(b, id, key, position, m, e);
            && (|after.orders| > |b.orders| <==> Approves(b, id, key, position, m, e))
            && (!Approves(b, id, key, position, m, e) ==> after.orders == b.orders)
            && (Approves(b, id, key, position, m, e) ==>
                  && |after.orders| == |b.orders| + 1 && after.orders[..|b.orders|] == b.orders
                  && IsApprovedOrder(after.orders[|b.orders|], id, b.approvals[id], key, m)
                  && after.approvals == b.approvals[id := b.approvals[id].(
                                          state := Approved, order := Some(|b.orders|),
                                            version := b.approvals[id].version + 1)]
                  && var execution := b.approvals[id].execution;
                     after.executions == b.executions[execution := b.executions[execution].(
                                           state := Ordered, order := Some(|b.orders|), result := Some(OrderCreated))])
  {
    hide ApprovalBlocked, ApprovalMayGo, Find, Unused, Price, PriceNow;
    if id < |b.approvals| {
      var a := b.approvals[id];
      ApprovalMeans(b.orders, position, a, m, e);
      UnusedSpelledOut(b.orders, key);
      if ApprovalMayGo(b.orders, position, a, m, e) {
        ApprovedHasPrice(b.orders, position, a, m, e);
      }
    }
  }

  /** Everything an approval attempt does to the book. */
  ghost predicate ApprovesTo(b: Book, id: Id, key: Key, position: Option<Position>, m: Moment, e: Entry, after: Book) {
    && (if Approves(b, id, key, position, m, e)
        then
          && |after.orders| == |b.orders| + 1 && after.orders[..|b.orders|] == b.orders
          && IsApprovedOrder(after.orders[|b.orders|], id, b.approvals[id], key, m)
        else after.orders == b.orders)
    && if id >= |b.approvals| || b.approvals[id].state != Awaiting then after == b
       else
         var a, key := b.approvals[id], b.approvals[id].execution;
         && |after.approvals| == |b.approvals|
         && (forall other :: 0 <= other < |b.approvals| && other != id ==> after.approvals[other] == b.approvals[other])
         && (forall other :: other != key ==> (other in after.executions <==> other in b.executions))
         && (forall other :: other != key && other in b.executions ==> after.executions[other] == b.executions[other])
         && var now := after.approvals[id];
            && now == a.(state := now.state, order := now.order, result := now.result, version := now.version)
            && if a.expiresAt <= m.now then now.state == Lapsed && after.executions == b.executions
               else if key !in b.executions then after == b
               else
                 && key in after.executions
                 && if !ApprovalMayGo(b.orders, position, a, m, e) then
                      now.state == Invalidated && after.executions[key].state == ExecutionInvalidated
                    else if now.state == Approved then
                      now.order.Some? && after.executions[key].state == Ordered
                      && after.executions[key].order == now.order
                    else now.state == Invalidated && after.executions[key].state == FailedSafe
  }

  lemma ApprovingMeans(b: Book, id: Id, key: Key, position: Option<Position>, m: Moment, e: Entry)
    ensures ApprovesTo(b, id, key, position, m, e, Approve(b, id, key, position, m, e))
  {
    hide ApprovalBlocked, ApprovalMayGo, Approves, IsApprovedOrder, Create, ApprovalRequest;
    ApproveMeans(b, id, key, position, m, e);
    if id < |b.approvals| {
      ApprovalMeans(b.orders, position, b.approvals[id], m, e);
    }
  }

  lemma ApprovedHasPrice(orders: seq<OrderRow>, position: Option<Position>, a: Approval, m: Moment, e: Entry)
    requires ApprovalMayGo(orders, position, a, m, e)
    ensures PriceNow(a.decision, m).Some? && m.quote.Some? && a.scope.quantity >= 1
  {
  }
}
