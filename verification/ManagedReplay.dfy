/**
 * The managed part of a position, replayed from the account's own fills of one
 * symbol: an average-cost ledger that sells down to zero and never below.
 */
module ManagedReplay {
  import opened Common
  import opened BrokerOrders

  type Lot = q: int | q > 0 witness 1

  datatype Trade = Trade(side: Side, quantity: Lot, price: real)

  datatype Managed = Managed(quantity: nat, average: real)

  /** The average price of m shares held at a together with n bought at b. */
  function MeanPrice(a: real, m: nat, b: real, n: Lot): real {
    (a * m as real + b * n as real) / (m + n) as real
  }

  function Step(held: Managed, t: Trade): Managed {
    match t.side
    case Buy =>
      Managed(held.quantity + t.quantity, MeanPrice(held.average, held.quantity, t.price, t.quantity))
    case Sell =>
      if held.quantity <= t.quantity then Managed(0, 0.0) else Managed(held.quantity - t.quantity, held.average)
  }

  function Replay(trades: seq<Trade>): Managed {
    if trades == [] then Managed(0, 0.0) else Step(Replay(trades[..|trades| - 1]), trades[|trades| - 1])
  }

  /** Without any own fills there is nothing to replay, which is not the same as holding nothing. */
  function Replayed(trades: seq<Trade>): Option<Managed> {
    if trades == [] then None else Some(Replay(trades))
  }

  /** The replay as the service runs it, over local accumulators. */
  method ReplayManagedPosition(trades: seq<Trade>) returns (replayed: Option<Managed>)
    ensures replayed == Replayed(trades)
  {
    if trades == [] {
      return None;
    }
    var quantity: nat, average := 0, 0.0;
    for i := 0 to |trades|
      invariant Managed(quantity, average) == Replay(trades[..i])
    {
      assert trades[..i + 1][..i] == trades[..i];
      var t := trades[i];
      if t.side == Buy {
        average := MeanPrice(average, quantity, t.price, t.quantity);
        quantity := quantity + t.quantity;
      } else {
        quantity := Max(0, quantity - t.quantity);
        if quantity == 0 {
          average := 0.0;
        }
      }
    }
    assert trades[..|trades|] == trades;
    return Some(Managed(quantity, average));
  }

  // ---------------------------------------------------------------- the quantity

  function Signed(t: Trade): int {
    if t.side == Buy then t.quantity else 0 - t.quantity
  }

  /** Bought minus sold. */
  function Net(trades: seq<Trade>): int {
    if trades == [] then 0 else Net(trades[..|trades| - 1]) + Signed(trades[|trades| - 1])
  }

  /** The deepest the net ever went, counting the start. */
  function LowestNet(trades: seq<Trade>): (low: int)
    ensures low <= 0
  {
    if trades == [] then 0 else Min(LowestNet(trades[..|trades| - 1]), Net(trades))
  }

  lemma {:induction false} LowestNetBounds(trades: seq<Trade>, k: nat)
    requires k <= |trades|
    ensures LowestNet(trades) <= Net(trades[..k])
  {
    if k < |trades| {
      var n := |trades| - 1;
      LowestNetBounds(trades[..n], k);
      assert trades[..n][..k] == trades[..k];
    } else {
      assert trades[..k] == trades;
    }
  }

  lemma {:induction false} LowestNetAttained(trades: seq<Trade>) returns (k: nat)
    ensures k <= |trades| && LowestNet(trades) == Net(trades[..k])
  {
    k := 0;
    if trades != [] {
      var n := |trades| - 1;
      if LowestNet(trades) == Net(trades) {
        k := |trades|;
        assert trades[..k] == trades;
      } else {
        k := LowestNetAttained(trades[..n]);
        assert trades[..n][..k] == trades[..k];
      }
    }
  }

  lemma LowestNetIsLowest(trades: seq<Trade>)
    ensures forall k :: 0 <= k <= |trades| ==> LowestNet(trades) <= Net(trades[..k])
    ensures exists k :: 0 <= k <= |trades| && LowestNet(trades) == Net(trades[..k])
  {
    hide LowestNet, Net;
    forall k | 0 <= k <= |trades|
      ensures LowestNet(trades) <= Net(trades[..k])
    {
      LowestNetBounds(trades, k);
    }
    var k := LowestNetAttained(trades);
  }

  /** Clamping at zero reflects the net at its running minimum. */
  lemma {:induction false} ReplayReflectsNet(trades: seq<Trade>)
    ensures Replay(trades).quantity == Net(trades) - LowestNet(trades)
  {
    if trades != [] {
      ReplayReflectsNet(trades[..|trades| - 1]);
    }
  }

  /** The replay equals buys minus sells exactly when the account never sold more than it had bought. */
  lemma ReplayIsNetUnlessOversold(trades: seq<Trade>)
    ensures Replay(trades).quantity == Net(trades) <==> forall k :: 0 <= k <= |trades| ==> Net(trades[..k]) >= 0
  {
    ReplayReflectsNet(trades);
    LowestNetIsLowest(trades);
  }

  // ---------------------------------------------------------------- the average

  lemma {:induction false} NothingHeldHasNoCost(trades: seq<Trade>)
    ensures Replay(trades).quantity == 0 ==> Replay(trades).average == 0.0
  {
  }

  /** Once the managed part is sold out, everything before that point is forgotten. */
  lemma {:induction false} FlatForgets(before: seq<Trade>, after: seq<Trade>)
    requires Replay(before).quantity == 0
    ensures Replay(before + after) == Replay(after)
  {
    if after == [] {
      NothingHeldHasNoCost(before);
      assert before + after == before;
    } else {
      var n := |after| - 1;
      FlatForgets(before, after[..n]);
      assert (before + after)[..|before| + n] == before + after[..n];
    }
  }

  /** Every BUY of the run was done at a price between low and high. */
  predicate BoughtWithin(trades: seq<Trade>, low: real, high: real) {
    forall i :: 0 <= i < |trades| && trades[i].side == Buy ==> low <= trades[i].price <= high
  }

  lemma MeanWithin(a: real, m: nat, b: real, n: Lot, low: real, high: real)
    requires low <= b <= high
    requires m > 0 ==> low <= a <= high
    ensures low <= MeanPrice(a, m, b, n) <= high
  {
    var x, y := m as real, n as real;
    var held, bought := a * x, b * y;
    assert MeanPrice(a, m, b, n) == (held + bought) / (x + y);
    Weighted(low, a, b, x, y);
    Weighted(-high, -a, -b, x, y);
    QuotientWithin(held + bought, x + y, low, high);
  }

  lemma Weighted(low: real, a: real, b: real, x: real, y: real)
    requires x >= 0.0 && y >= 0.0 && low <= b && (x > 0.0 ==> low <= a)
    ensures low * (x + y) <= a * x + b * y
  {
    Scaled(low, a, x);
    Scaled(low, b, y);
  }

  lemma QuotientWithin(cost: real, shares: real, low: real, high: real)
    requires shares > 0.0 && low * shares <= cost <= high * shares
    ensures low <= cost / shares <= high
  {
    var mean := cost / shares;
    assert mean * shares == cost;
    Unscaled(low, mean, shares);
    Unscaled(mean, high, shares);
  }

  lemma Scaled(a: real, b: real, w: real)
    requires w >= 0.0 && (w > 0.0 ==> a <= b)
    ensures a * w <= b * w
  {
  }

  lemma Unscaled(a: real, b: real, w: real)
    requires w > 0.0 && a * w <= b * w
    ensures a <= b
  {
  }

  lemma {:induction false} AverageWithinBuys(trades: seq<Trade>, low: real, high: real)
    requires BoughtWithin(trades, low, high)
    ensures Replay(trades).quantity > 0 ==> low <= Replay(trades).average <= high
  {
    if trades != [] {
      var n := |trades| - 1;
      AverageWithinBuys(trades[..n], low, high);
      var held, t := Replay(trades[..n]), trades[n];
      if t.side == Buy {
        MeanWithin(held.average, held.quantity, t.price, t.quantity, low, high);
      }
    }
  }

  /**
   * While something is held, its average cost lies between the lowest and the
   * highest price bought at since the managed part was last sold out.
   */
  lemma AverageWithinRecentBuys(before: seq<Trade>, after: seq<Trade>, low: real, high: real)
    requires Replay(before).quantity == 0
    requires BoughtWithin(after, low, high)
    ensures Replay(before + after).quantity > 0 ==> low <= Replay(before + after).average <= high
  {
    FlatForgets(before, after);
    AverageWithinBuys(after, low, high);
  }

  /** What a run of buys paid. */
  function Cost(trades: seq<Trade>): real {
    if trades == [] then 0.0
    else Cost(trades[..|trades| - 1]) + trades[|trades| - 1].price * trades[|trades| - 1].quantity as real
  }

  lemma MeanTimesShares(a: real, m: nat, b: real, n: Lot)
    ensures MeanPrice(a, m, b, n) * (m + n) as real == a * m as real + b * n as real
  {
  }

  /** The average is the whole cost over all shares, until something is sold. */
  lemma {:induction false} AverageIsCostPerShare(trades: seq<Trade>)
    requires forall i :: 0 <= i < |trades| ==> trades[i].side == Buy
    ensures Replay(trades).average * Replay(trades).quantity as real == Cost(trades)
    ensures Replay(trades).quantity == Net(trades)
  {
    if trades != [] {
      var n := |trades| - 1;
      AverageIsCostPerShare(trades[..n]);
      var held, t := Replay(trades[..n]), trades[n];
      MeanTimesShares(held.average, held.quantity, t.price, t.quantity);
    }
  }

  /** Selling part of what is held leaves its average cost as it was. */
  lemma PartialSaleKeepsAverage(trades: seq<Trade>, sale: Trade)
    requires sale.side == Sell && sale.quantity < Replay(trades).quantity
    ensures Replay(trades + [sale]).average == Replay(trades).average
  {
    assert (trades + [sale])[..|trades|] == trades;
  }
}
