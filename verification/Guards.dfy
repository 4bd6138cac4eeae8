/**
 * The checks an order has to pass before it is created, in the order in which
 * they are made: the first that fails names the reason.
 */
module Guards {
  import opened Common
  import opened BrokerOrders
  import opened Positions
  import opened OrderCreation

  /** A market snapshot, as far as orders look at it. */
  datatype Quote = Quote(id: Id, bid: Option<real>, ask: Option<real>, isNormal: bool, isTrading: bool, receivedAt: int)

  /**
   * What holds at the moment of an evaluation; isHead if the quote is the head of its
   * stream and the stream has no gap.
   */
  datatype Moment = Moment(
    now: int,
    quote: Option<Quote>,
    isHead: bool,
    gate: Option<GateStatus>,
    sessionTradable: bool,
    isMock: bool,
    staleSeconds: int)

  predicate Fresh(m: Moment) {
    && m.quote.Some?
    && m.quote.value.isNormal && m.quote.value.isTrading
    && 0 <= m.now - m.quote.value.receivedAt <= m.staleSeconds
  }

  /** What may still be sold of a position: its managed part, as far as the broker lets it go, less what is reserved. */
  function Sellable(orders: seq<OrderRow>, symbol: Symbol, p: Position): int {
    Max(0, Min(Max(0, p.managed), Max(0, p.available)) - Reserved(orders, symbol))
  }

  // ---------------------------------------------------------------- the fixed stop

  /**
   * The first rule that keeps a stop from selling the whole managed part. The
   * rules against reconciling and against an untradable instrument come after
   * stricter ones and are never the first to fail.
   */
  function StopBlocked(orders: seq<OrderRow>, symbol: Symbol, p: Position, expectedVersion: nat,
                       m: Moment): Option<Code> {
    if p.state != Held || p.quantity <= 0 then Some(PositionFound)
    else if p.version != expectedVersion then Some(PositionVersionMatch)
    else if p.managed <= 0 then Some(ManagedQuantityPositive)
    else if Max(0, Min(Max(0, p.managed), p.available) - Reserved(orders, symbol)) < Max(0, p.managed)
      then Some(SellQuantityAvailable)
    else if m.gate != Some(Ready) then Some(BrokerReady)
    else if HasActive(orders, symbol) then Some(NoActiveOrder)
    else if !Fresh(m) then Some(MarketDataFresh)
    else if !m.sessionTradable then Some(SessionTradable)
    else if !m.isMock then Some(EnvironmentMock)
    else None
  }

  // ---------------------------------------------------------------- decisions

  datatype Decision = Decision(id: Id, isTrading: bool, symbol: Symbol, venue: Venue, action: Action, validUntil: int,
                               ratio: Option<real>)

  predicate Sells(a: Action) {
    a.PartialSell? || a.FullSell?
  }

  datatype SellPlan = SellPlan(position: Option<Position>, sellable: int, quantity: int, price: Option<real>,
                               ratio: Option<real>)

  /** The ratio of a partial sale, if the decision states an acceptable one. */
  function SellRatio(d: Decision): Option<real> {
    if d.action == PartialSell && d.ratio.Some? && 0.01 <= d.ratio.value <= 1.0 then d.ratio else None
  }

  function PlanSale(orders: seq<OrderRow>, position: Option<Position>, d: Decision, quote: Option<Quote>): SellPlan {
    var sellable := if position.Some? then Sellable(orders, d.symbol, position.value) else 0;
    var ratio := SellRatio(d);
    SellPlan(position, sellable,
             if d.action == FullSell then sellable
             else if ratio.Some? then (sellable as real * ratio.value).Floor
             else 0,
             if quote.Some? then quote.value.bid else None,
             ratio)
  }

  /**
   * The first rule that keeps a decision from selling; an approval also fixes the
   * quantity and the position's version.
   */
  function SaleBlocked(orders: seq<OrderRow>, d: Decision, plan: SellPlan, expectedVersion: Option<nat>,
                       requested: Option<int>,
                       m: Moment): Option<Code> {
    var quantity := if requested.Some? then requested.value else plan.quantity;
    if !m.isMock then Some(EnvironmentMock)
    else if m.now > d.validUntil then Some(DecisionExpired)
    else if plan.position.None? || plan.position.value.state != Held || plan.position.value.quantity <= 0
      then Some(PositionFound)
    else if expectedVersion.Some? && plan.position.value.version != expectedVersion.value
      then Some(PositionVersionMatch)
    else if plan.position.value.managed <= 0 then Some(ManagedQuantityPositive)
    else if d.action == PartialSell && plan.ratio.None? then Some(SellRatioValid)
    else if HasActive(orders, d.symbol) then Some(NoActiveOrder)
    else if quantity < 1 then Some(QuantityBelowOne)
    else if quantity > plan.sellable then Some(SellQuantityAvailable)
    else if m.gate != Some(Ready) then Some(BrokerReady)
    else if !Fresh(m) || !m.isHead then Some(MarketDataFresh)
    else if plan.price.None? || plan.price.value <= 0.0 then Some(SellPriceAvailable)
    else if !m.sessionTradable then Some(SessionTradable)
    else None
  }

  /**
   * The account's exposure and limits when a BUY is evaluated. The rules on open
   * positions, entries and losses, and the last ones on the broker connection
   * and loss events, are given by the first of them that fails.
   */
  datatype Entry = Entry(
    amount: Option<real>,
    symbolExposure: real,
    totalExposure: real,
    maxPerSymbol: real,
    maxTotal: real,
    watched: bool,
    paused: bool,
    limits: Option<Code>,
    maxSpreadPct: real,
    last: Option<Code>,
    maxDeviationPct: real)

  /** To four decimals, halves to the even digit. */
  function RoundHalfEven(x: real): real {
    var scaled := x * 10000.0;
    var down := scaled.Floor;
    var rest := scaled - down as real;
    (if rest < 0.5 || (rest == 0.5 && down % 2 == 0) then down else down + 1) as real / 10000.0
  }

  /** The spread as a percentage of the midpoint. */
  function SpreadPct(q: Option<Quote>): Option<real> {
    if q.None? || q.value.bid.None? || q.value.ask.None? then None
    else
      var bid, ask := q.value.bid.value, q.value.ask.value;
      var midpoint := (bid + ask) / 2.0;
      if midpoint <= 0.0 then None else Some(RoundHalfEven((ask - bid) / midpoint * 100.0))
  }

  /** A BUY accepts a quote that arrived late by some clock, and one of a halted instrument. */
  predicate FreshForEntry(m: Moment) {
    m.quote.Some? && m.isHead && m.quote.value.isNormal && m.now - m.quote.value.receivedAt <= m.staleSeconds
  }

  /** The first rule that keeps a decision from buying. */
  function EntryBlocked(d: Decision, m: Moment, e: Entry): Option<Code> {
    var amount := if e.amount.Some? then e.amount.value else 0.0;
    if !m.isMock then Some(EnvironmentMock)
    else if m.now > d.validUntil then Some(DecisionExpired)
    else if m.quote.None? then Some(SnapshotMissing)
    else if !FreshForEntry(m) then Some(MarketDataFresh)
    else if !e.watched then Some(SymbolNotWatched)
    else if m.gate != Some(Ready) then Some(BrokerReady)
    else if e.paused then Some(EmergencyStop)
    else if e.amount.None? then Some(OrderSizeNotConfigured)
    else if e.totalExposure + amount > e.maxTotal then Some(TotalExposureLimit)
    else if e.symbolExposure + amount > e.maxPerSymbol then Some(SymbolExposureLimit)
    else if e.limits.Some? then e.limits
    else if SpreadPct(m.quote).None? || SpreadPct(m.quote).value > e.maxSpreadPct then Some(SpreadLimit)
    else e.last
  }

  /** Whole shares the entry amount buys; none at an unusable price. */
  function BuyQuantity(amount: Option<real>, price: Option<real>): int {
    if amount.None? || price.None? || price.value <= 0.0 then 0
    else
      var shares := amount.value / price.value;
      if shares >= 0.0 then shares.Floor else -((-shares).Floor)
  }

  function Abs(x: real): real {
    if x < 0.0 then -x else x
  }

  predicate DeviationOk(reference: Option<real>, current: Option<real>, maxPct: real) {
    && reference.Some? && current.Some? && reference.value > 0.0
    && Abs(current.value - reference.value) / reference.value * 100.0 <= maxPct
  }

  // ---------------------------------------------------------------- what passing means

  /**
   * A sale within the managed part, the broker's available quantity and what is not
   * reserved, with nothing else under way.
   */
  predicate Covered(orders: seq<OrderRow>, symbol: Symbol, p: Position, quantity: int) {
    && 1 <= quantity
    && quantity <= p.managed - Reserved(orders, symbol)
    && quantity <= p.available - Reserved(orders, symbol)
    && !HasActive(orders, symbol)
  }

  lemma StopSaleIsCovered(orders: seq<OrderRow>, symbol: Symbol, p: Position, expectedVersion: nat, m: Moment)
    requires StopBlocked(orders, symbol, p, expectedVersion, m).None?
    ensures Covered(orders, symbol, p, Max(0, p.managed))
  {
    NothingReserved(orders, symbol);
  }

  lemma DecisionSaleIsCovered(orders: seq<OrderRow>, position: Option<Position>, d: Decision, quote: Option<Quote>,
                              expectedVersion: Option<nat>, requested: Option<int>, m: Moment)
    requires var plan := PlanSale(orders, position, d, quote);
             SaleBlocked(orders, d, plan, expectedVersion, requested, m).None?
    ensures position.Some?
    ensures Covered(orders, d.symbol, position.value,
                    if requested.Some? then requested.value else PlanSale(orders, position, d, quote).quantity)
  {
    NothingReserved(orders, d.symbol);
  }

  /** What an entry spends at its price stays within the entry amount. */
  lemma EntrySpendsAtMostAmount(amount: Option<real>, price: Option<real>)
    requires BuyQuantity(amount, price) > 0
    ensures amount.Some? && price.Some? && price.value > 0.0
    ensures BuyQuantity(amount, price) as real * price.value <= amount.value
  {
    var shares := amount.value / price.value;
    assert shares * price.value == amount.value;
    assert BuyQuantity(amount, price) == shares.Floor;
    ScaledUp(shares.Floor as real, shares, price.value);
  }

  lemma ScaledUp(a: real, b: real, w: real)
    requires w >= 0.0 && a <= b
    ensures a * w <= b * w
  {
  }

  /** An automatic entry keeps both exposures within their limits. */
  lemma EntryStaysWithinLimits(d: Decision, m: Moment, e: Entry, price: Option<real>)
    requires EntryBlocked(d, m, e).None? && BuyQuantity(e.amount, price) > 0
    ensures e.symbolExposure + BuyQuantity(e.amount, price) as real * price.value <= e.maxPerSymbol
    ensures e.totalExposure + BuyQuantity(e.amount, price) as real * price.value <= e.maxTotal
  {
    EntrySpendsAtMostAmount(e.amount, price);
  }

  /** A price within the tolerated deviation costs at most that much more than the amount it was sized for. */
  lemma DeviatedEntryIsBounded(amount: Option<real>, reference: Option<real>, current: Option<real>, maxPct: real)
    requires BuyQuantity(amount, reference) > 0 && DeviationOk(reference, current, maxPct)
    ensures BuyQuantity(amount, reference) as real * current.value <= amount.value * (1.0 + maxPct / 100.0)
  {
    var quantity, r, c := BuyQuantity(amount, reference) as real, reference.value, current.value;
    EntrySpendsAtMostAmount(amount, reference);
    RelativeBound(r, c, maxPct);
    var factor := 1.0 + maxPct / 100.0;
    ScaledUp(c, r * factor, quantity);
    ScaledUp(quantity * r, amount.value, factor);
    assert (r * factor) * quantity == (quantity * r) * factor;
  }

  lemma RelativeBound(r: real, c: real, maxPct: real)
    requires r > 0.0 && Abs(c - r) / r * 100.0 <= maxPct
    ensures c <= r * (1.0 + maxPct / 100.0) && maxPct >= 0.0
  {
    var q := Abs(c - r) / r;
    assert q * r == Abs(c - r);
    assert q >= 0.0;
    ScaledUp(q, maxPct / 100.0, r);
    assert r * (1.0 + maxPct / 100.0) == r + maxPct / 100.0 * r;
  }
}
