/**
 * The fills of the account's own orders as the database returns them: per
 * symbol, by the time they were filled and among equal times by row identifier.
 */
module OwnFills {
  import opened Common
  import opened BrokerOrders
  import opened FillLedger
  import opened ManagedReplay

  /** What the database holds of orders and fills at some moment. */
  datatype Stored = Stored(orders: Orders, fills: seq<FillKey>, filledAt: map<FillKey, int>)

  /** How the row identifiers of fills compare. They are partly random, so nothing is known about it. */
  type Rank = FillKey -> int

  /** A fill of an own order that now has this symbol. The table admits positive quantities only. */
  predicate OwnFill(orders: Orders, key: FillKey, symbol: Symbol) {
    key.fill.id in orders && orders[key.fill.id].own && orders[key.fill.id].symbol == symbol && key.fill.quantity > 0
  }

  function OwnKeys(orders: Orders, fills: seq<FillKey>, symbol: Symbol): (keys: seq<FillKey>)
    ensures forall k :: k in keys <==> k in fills && OwnFill(orders, k, symbol)
  {
    if fills == [] then []
    else
      var last := fills[|fills| - 1];
      OwnKeys(orders, fills[..|fills| - 1], symbol) + if OwnFill(orders, last, symbol) then [last] else []
  }

  function TimeOf(filledAt: map<FillKey, int>, key: FillKey): int {
    if key in filledAt then filledAt[key] else 0
  }

  predicate NotAfter(filledAt: map<FillKey, int>, rank: Rank, a: FillKey, b: FillKey) {
    var s, t := TimeOf(filledAt, a), TimeOf(filledAt, b);
    s < t || (s == t && rank(a) <= rank(b))
  }

  function Insert(sorted: seq<FillKey>, key: FillKey, filledAt: map<FillKey, int>, rank: Rank): (r: seq<FillKey>)
    ensures multiset(r) == multiset(sorted) + multiset{key}
    ensures forall k :: k in r <==> k == key || k in sorted
  {
    if sorted == [] then [key]
    else
      var n := |sorted| - 1;
      assert sorted == sorted[..n] + [sorted[n]];
      if NotAfter(filledAt, rank, sorted[n], key) then sorted + [key]
      else Insert(sorted[..n], key, filledAt, rank) + [sorted[n]]
  }

  function Sorted(keys: seq<FillKey>, filledAt: map<FillKey, int>, rank: Rank): (r: seq<FillKey>)
    ensures multiset(r) == multiset(keys)
    ensures forall k :: k in r <==> k in keys
  {
    if keys == [] then []
    else
      var n := |keys| - 1;
      assert keys == keys[..n] + [keys[n]];
      Insert(Sorted(keys[..n], filledAt, rank), keys[n], filledAt, rank)
  }

  function Trades(orders: Orders, keys: seq<FillKey>, symbol: Symbol): seq<Trade>
    requires forall k :: k in keys ==> OwnFill(orders, k, symbol)
  {
    seq(|keys|, i requires 0 <= i < |keys| && OwnFill(orders, keys[i], symbol) =>
      Trade(orders[keys[i].fill.id].side, keys[i].fill.quantity, keys[i].fill.price))
  }

  /** What the managed replay of a symbol reads. */
  function OwnTrades(stored: Stored, rank: Rank, symbol: Symbol): seq<Trade> {
    Trades(stored.orders, Sorted(OwnKeys(stored.orders, stored.fills, symbol), stored.filledAt, rank), symbol)
  }

  ghost predicate InTimeOrder(keys: seq<FillKey>, filledAt: map<FillKey, int>, rank: Rank) {
    forall i, j :: 0 <= i < j < |keys| ==> NotAfter(filledAt, rank, keys[i], keys[j])
  }

  lemma AppendKeepsOrder(front: seq<FillKey>, last: FillKey, filledAt: map<FillKey, int>, rank: Rank)
    requires InTimeOrder(front, filledAt, rank)
    requires forall k :: k in front ==> NotAfter(filledAt, rank, k, last)
    ensures InTimeOrder(front + [last], filledAt, rank)
  {
    hide NotAfter;
  }

  lemma {:induction false} InsertKeepsOrder(sorted: seq<FillKey>, key: FillKey, filledAt: map<FillKey, int>, rank: Rank)
    requires InTimeOrder(sorted, filledAt, rank)
    ensures InTimeOrder(Insert(sorted, key, filledAt, rank), filledAt, rank)
  {
    if sorted != [] {
      var n := |sorted| - 1;
      if NotAfter(filledAt, rank, sorted[n], key) {
        AppendKeepsOrder(sorted, key, filledAt, rank);
      } else {
        InsertKeepsOrder(sorted[..n], key, filledAt, rank);
        AppendKeepsOrder(Insert(sorted[..n], key, filledAt, rank), sorted[n], filledAt, rank);
      }
    }
  }

  /** The replay sees every own fill of the symbol once, oldest first. */
  lemma {:induction false} SortedByTime(keys: seq<FillKey>, filledAt: map<FillKey, int>, rank: Rank)
    ensures InTimeOrder(Sorted(keys, filledAt, rank), filledAt, rank)
  {
    if keys != [] {
      SortedByTime(keys[..|keys| - 1], filledAt, rank);
      InsertKeepsOrder(Sorted(keys[..|keys| - 1], filledAt, rank), keys[|keys| - 1], filledAt, rank);
    }
  }

  // ---------------------------------------------------------------- what the replay depends on

  predicate Owned(order: Option<Order>) {
    order.Some? && order.value.own
  }

  /** Orders that agree in everything the replay reads of them. */
  predicate SameTrader(a: Option<Order>, b: Option<Order>) {
    Owned(a) == Owned(b) && (Owned(a) ==> a.value.symbol == b.value.symbol && a.value.side == b.value.side)
  }

  ghost predicate SameTraders(a: Orders, b: Orders) {
    forall id :: SameTrader(Get(a, id), Get(b, id))
  }

  lemma {:induction false} SameOwnKeys(a: Orders, b: Orders, fills: seq<FillKey>, symbol: Symbol)
    requires SameTraders(a, b)
    ensures OwnKeys(a, fills, symbol) == OwnKeys(b, fills, symbol)
  {
    if fills != [] {
      var last := fills[|fills| - 1];
      SameOwnKeys(a, b, fills[..|fills| - 1], symbol);
      assert SameTrader(Get(a, last.fill.id), Get(b, last.fill.id));
    }
  }

  lemma SameTrades(a: Orders, b: Orders, keys: seq<FillKey>, symbol: Symbol)
    requires SameTraders(a, b)
    requires forall k :: k in keys ==> OwnFill(a, k, symbol)
    ensures forall k :: k in keys ==> OwnFill(b, k, symbol)
    ensures Trades(a, keys, symbol) == Trades(b, keys, symbol)
  {
    forall k | k in keys
      ensures OwnFill(b, k, symbol) && a[k.fill.id].side == b[k.fill.id].side
    {
      assert SameTrader(Get(a, k.fill.id), Get(b, k.fill.id));
    }
  }

  lemma SameOwnTrades(a: Orders, b: Orders, fills: seq<FillKey>, filledAt: map<FillKey, int>, rank: Rank,
                      symbol: Symbol)
    requires SameTraders(a, b)
    ensures OwnTrades(Stored(a, fills, filledAt), rank, symbol) == OwnTrades(Stored(b, fills, filledAt), rank, symbol)
  {
    hide OwnFill, OwnKeys, Sorted, Trades, SameTraders;
    SameOwnKeys(a, b, fills, symbol);
    SameTrades(a, b, Sorted(OwnKeys(a, fills, symbol), filledAt, rank), symbol);
  }

  // ---------------------------------------------------------------- fills of other orders

  lemma {:induction false} ForeignKeysIgnored(orders: Orders, fills: seq<FillKey>, news: seq<FillKey>, symbol: Symbol)
    requires forall k :: k in news ==> !Owned(Get(orders, k.fill.id))
    ensures OwnKeys(orders, fills + news, symbol) == OwnKeys(orders, fills, symbol)
  {
    if news == [] {
      assert fills + news == fills;
    } else {
      var n := |news| - 1;
      ForeignKeysIgnored(orders, fills, news[..n], symbol);
      assert (fills + news)[..|fills + news| - 1] == fills + news[..n];
    }
  }

  ghost predicate SameTimes(keys: seq<FillKey>, a: map<FillKey, int>, b: map<FillKey, int>) {
    forall k :: k in keys ==> TimeOf(a, k) == TimeOf(b, k)
  }

  lemma {:induction false} SameInsert(sorted: seq<FillKey>, key: FillKey, a: map<FillKey, int>, b: map<FillKey, int>,
                                      rank: Rank)
    requires SameTimes(sorted + [key], a, b)
    ensures Insert(sorted, key, a, rank) == Insert(sorted, key, b, rank)
  {
    hide TimeOf;
    if sorted != [] {
      assert key in sorted + [key] && sorted[|sorted| - 1] in sorted + [key];
      SameInsert(sorted[..|sorted| - 1], key, a, b, rank);
    }
  }

  lemma {:induction false} SameSorted(keys: seq<FillKey>, a: map<FillKey, int>, b: map<FillKey, int>, rank: Rank)
    requires SameTimes(keys, a, b)
    ensures Sorted(keys, a, rank) == Sorted(keys, b, rank)
  {
    hide TimeOf, Insert;
    if keys != [] {
      var n := |keys| - 1;
      SameSorted(keys[..n], a, b, rank);
      SameInsert(Sorted(keys[..n], a, rank), keys[n], a, b, rank);
    }
  }

  /** Fills of orders that are not own change nothing the replay reads. */
  lemma ForeignFillsIgnored(a: Stored, b: Stored, news: seq<FillKey>, rank: Rank, symbol: Symbol)
    requires SameTraders(a.orders, b.orders) && b.fills == a.fills + news && SameTimes(a.fills, a.filledAt, b.filledAt)
    requires forall k :: k in news ==> !Owned(Get(b.orders, k.fill.id))
    ensures OwnTrades(b, rank, symbol) == OwnTrades(a, rank, symbol)
  {
    hide OwnFill, Sorted, Trades, SameTraders, TimeOf;
    var keys := OwnKeys(b.orders, a.fills, symbol);
    ForeignKeysIgnored(b.orders, a.fills, news, symbol);
    SameSorted(keys, a.filledAt, b.filledAt, rank);
    SameOwnTrades(a.orders, b.orders, a.fills, a.filledAt, rank, symbol);
  }
}
