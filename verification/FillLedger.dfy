/**
 * The fill ledger. A broker repeats its whole fill list on every poll and gives
 * fills no identifier, so a fill is keyed by all its fields and by how many
 * equal ones the same list reported before it.
 */
module FillLedger {
  import opened Common
  import opened BrokerOrders

  datatype FillKey = FillKey(fill: BrokerFill, occurrence: nat)

  /** How many fills equal to f the list reports. */
  function Occurrences(fills: seq<BrokerFill>, f: BrokerFill): (n: nat)
    ensures n > 0 <==> f in fills
  {
    if fills == [] then 0
    else Occurrences(fills[..|fills| - 1], f) + if fills[|fills| - 1] == f then 1 else 0
  }

  /** Fills of an unknown order are left for later; those of an overfilled order are never recorded. */
  predicate Eligible(orders: Orders, fills: seq<BrokerFill>, f: BrokerFill) {
    && f.id in orders
    && TotalOf(fills, f.id).Some?
    && TotalOf(fills, f.id).value <= orders[f.id].requested
  }

  /** How many fills equal to f this snapshot asks the ledger to hold. */
  function Demand(orders: Orders, fills: seq<BrokerFill>, f: BrokerFill): nat {
    if Eligible(orders, fills, f) then Occurrences(fills, f) else 0
  }

  ghost predicate NoDuplicates(ledger: seq<FillKey>) {
    forall i, j :: 0 <= i < j < |ledger| ==> ledger[i] != ledger[j]
  }

  /** The ledger holds exactly the first n fills of each identity f, for n == held(f). */
  ghost predicate Holds(ledger: seq<FillKey>, held: BrokerFill -> nat) {
    && NoDuplicates(ledger)
    && forall f: BrokerFill, k: nat :: FillKey(f, k) in ledger <==> k < held(f)
  }

  /** The ledger after a snapshot was recorded: nothing is lost and each identity is topped up to its demand. */
  ghost predicate Recorded(before: seq<FillKey>, after: seq<FillKey>, orders: Orders, fills: seq<BrokerFill>) {
    && before <= after
    && NoDuplicates(after)
    && forall f: BrokerFill, k: nat :: FillKey(f, k) in after <==>
         FillKey(f, k) in before || k < Demand(orders, fills, f)
  }

  // ---------------------------------------------------------------- recording one snapshot

  function KeyAt(fills: seq<BrokerFill>, i: nat): FillKey
    requires i < |fills|
  {
    FillKey(fills[i], Occurrences(fills[..i], fills[i]))
  }

  /** The i-th reported fill is due and has no row yet. */
  predicate IsNew(ledger: seq<FillKey>, orders: Orders, fills: seq<BrokerFill>, i: nat)
    requires i < |fills|
  {
    Eligible(orders, fills, fills[i]) && KeyAt(fills, i) !in ledger
  }

  /** The rows that the first n reported fills add, in the order in which they are reported. */
  function NewFills(ledger: seq<FillKey>, orders: Orders, fills: seq<BrokerFill>, n: nat): seq<FillKey>
    requires n <= |fills|
  {
    if n == 0 then []
    else
      NewFills(ledger, orders, fills, n - 1)
      + if IsNew(ledger, orders, fills, n - 1) then [KeyAt(fills, n - 1)] else []
  }

  function Record(ledger: seq<FillKey>, orders: Orders, fills: seq<BrokerFill>): seq<FillKey> {
    ledger + NewFills(ledger, orders, fills, |fills|)
  }

  lemma OneMoreFill(fills: seq<BrokerFill>, i: nat)
    requires i < |fills|
    ensures forall f :: Occurrences(fills[..i + 1], f) == Occurrences(fills[..i], f) + if f == fills[i] then 1 else 0
  {
    assert fills[..i + 1][..i] == fills[..i];
  }

  lemma {:induction false} NewFillsAre(ledger: seq<FillKey>, orders: Orders, fills: seq<BrokerFill>, n: nat)
    requires n <= |fills|
    ensures NoDuplicates(NewFills(ledger, orders, fills, n))
    ensures forall f: BrokerFill, k: nat :: FillKey(f, k) in NewFills(ledger, orders, fills, n) <==>
              Eligible(orders, fills, f) && k < Occurrences(fills[..n], f) && FillKey(f, k) !in ledger
  {
    hide Eligible, Occurrences;
    if n > 0 {
      NewFillsAre(ledger, orders, fills, n - 1);
      OneMoreFill(fills, n - 1);
    }
  }

  lemma RecordIsRecorded(ledger: seq<FillKey>, orders: Orders, fills: seq<BrokerFill>)
    requires NoDuplicates(ledger)
    ensures Recorded(ledger, Record(ledger, orders, fills), orders, fills)
  {
    hide Eligible, Occurrences;
    NewFillsAre(ledger, orders, fills, |fills|);
    assert fills[..|fills|] == fills;
    forall e | e in NewFills(ledger, orders, fills, |fills|)
      ensures e !in ledger
    {
      assert e == FillKey(e.fill, e.occurrence);
    }
  }

  lemma {:induction false} OccurrencesGrow(fills: seq<BrokerFill>, i: nat, f: BrokerFill)
    requires i <= |fills|
    ensures Occurrences(fills[..i], f) <= Occurrences(fills, f)
  {
    if i < |fills| {
      var n := |fills| - 1;
      OccurrencesGrow(fills[..n], i, f);
      assert fills[..n][..i] == fills[..i];
    } else {
      assert fills[..i] == fills;
    }
  }

  /** Recording the same snapshot again adds nothing, as long as it still asks for the same fills. */
  lemma RecordedOnce(ledger: seq<FillKey>, before: Orders, after: Orders, fills: seq<BrokerFill>)
    requires NoDuplicates(ledger)
    requires forall f :: Eligible(before, fills, f) <==> Eligible(after, fills, f)
    ensures Record(Record(ledger, before, fills), after, fills) == Record(ledger, before, fills)
  {
    hide Eligible;
    var once := Record(ledger, before, fills);
    RecordIsRecorded(ledger, before, fills);
    forall i | 0 <= i < |fills|
      ensures !IsNew(once, after, fills, i)
    {
      OneMoreFill(fills, i);
      OccurrencesGrow(fills, i + 1, fills[i]);
    }
    NothingNew(once, after, fills, |fills|);
  }

  lemma {:induction false} NothingNew(ledger: seq<FillKey>, orders: Orders, fills: seq<BrokerFill>, n: nat)
    requires n <= |fills| && forall i :: 0 <= i < n ==> !IsNew(ledger, orders, fills, i)
    ensures NewFills(ledger, orders, fills, n) == []
  {
    hide IsNew;
    if n > 0 {
      NothingNew(ledger, orders, fills, n - 1);
    }
  }

  // ---------------------------------------------------------------- runs of polls

  /** One snapshot raises what is held of each identity to at least its demand, and no further. */
  lemma RecordingTakesMaximum(before: seq<FillKey>, after: seq<FillKey>, orders: Orders, fills: seq<BrokerFill>,
                              held: BrokerFill -> nat)
    requires Holds(before, held) && Recorded(before, after, orders, fills)
    ensures Holds(after, f => if held(f) < Demand(orders, fills, f) then Demand(orders, fills, f) else held(f))
  {
  }

  /** One poll: the order rows as the projection sees them, and the reported fills. */
  datatype Poll = Poll(orders: Orders, fills: seq<BrokerFill>)

  function MaxDemand(polls: seq<Poll>, f: BrokerFill): nat {
    if polls == [] then 0
    else
      var last := polls[|polls| - 1];
      var before := MaxDemand(polls[..|polls| - 1], f);
      if before < Demand(last.orders, last.fills, f) then Demand(last.orders, last.fills, f) else before
  }

  /** Any run of polls; between two of them anything may happen to the order rows. */
  ghost predicate PollRun(ledgers: seq<seq<FillKey>>, polls: seq<Poll>) {
    && |ledgers| == |polls| + 1
    && ledgers[0] == []
    && forall i :: 0 <= i < |polls| ==> Recorded(ledgers[i], ledgers[i + 1], polls[i].orders, polls[i].fills)
  }

  /**
   * After any run of polls the ledger holds each fill identity exactly as often as
   * the one poll that reported it most while its order was known and not overfilled.
   */
  lemma {:induction false} LedgerHoldsMaximum(ledgers: seq<seq<FillKey>>, polls: seq<Poll>)
    requires PollRun(ledgers, polls)
    ensures Holds(ledgers[|polls|], f => MaxDemand(polls, f))
  {
    if polls != [] {
      var n := |polls| - 1;
      LedgerHoldsMaximum(ledgers[..n + 1], polls[..n]);
      RecordingTakesMaximum(ledgers[n], ledgers[n + 1], polls[n].orders, polls[n].fills, f => MaxDemand(polls[..n], f));
    }
  }

  // ---------------------------------------------------------------- totals

  /** The shares the ledger records for one order. */
  function LedgerTotal(ledger: seq<FillKey>, id: BrokerId): int {
    if ledger == [] then 0
    else
      var last := ledger[|ledger| - 1];
      LedgerTotal(ledger[..|ledger| - 1], id) + if last.fill.id == id then last.fill.quantity else 0
  }

  function Reported(fills: seq<BrokerFill>, id: BrokerId): int {
    if TotalOf(fills, id).Some? then TotalOf(fills, id).value else 0
  }

  lemma {:induction false} TotalWithout(ledger: seq<FillKey>, i: nat, id: BrokerId)
    requires i < |ledger|
    ensures LedgerTotal(ledger, id)
         == LedgerTotal(ledger[..i] + ledger[i + 1..], id)
            + if ledger[i].fill.id == id then ledger[i].fill.quantity else 0
  {
    var n := |ledger| - 1;
    var without := ledger[..i] + ledger[i + 1..];
    if i == n {
      assert without == ledger[..n];
    } else {
      TotalWithout(ledger[..n], i, id);
      assert without[..|without| - 1] == ledger[..n][..i] + ledger[..n][i + 1..];
    }
  }

  lemma {:induction false} NothingRecorded(ledger: seq<FillKey>, id: BrokerId)
    requires forall e :: e in ledger ==> e.fill.id != id
    ensures LedgerTotal(ledger, id) == 0
  {
    if ledger != [] {
      NothingRecorded(ledger[..|ledger| - 1], id);
    }
  }

  /** A ledger that holds each reported fill of an order once per occurrence adds up to the reported total. */
  lemma {:induction false} TotalsAgree(ledger: seq<FillKey>, fills: seq<BrokerFill>, id: BrokerId)
    requires NoDuplicates(ledger)
    requires forall f: BrokerFill, k: nat :: f.id == id ==> (FillKey(f, k) in ledger <==> k < Occurrences(fills, f))
    ensures LedgerTotal(ledger, id) == Reported(fills, id)
    decreases |fills|
  {
    if fills == [] {
      forall e | e in ledger
        ensures e.fill.id != id
      {
        assert FillKey(e.fill, e.occurrence) == e;
      }
      NothingRecorded(ledger, id);
    } else {
      var n := |fills| - 1;
      var last := fills[n];
      if last.id != id {
        TotalsAgree(ledger, fills[..n], id);
      } else {
        var key := FillKey(last, Occurrences(fills, last) - 1);
        assert key in ledger;
        var i :| 0 <= i < |ledger| && ledger[i] == key;
        var without := ledger[..i] + ledger[i + 1..];
        WithoutKey(ledger, i);
        TotalsAgree(without, fills[..n], id);
        TotalWithout(ledger, i, id);
      }
    }
  }

  lemma WithoutKey(ledger: seq<FillKey>, i: nat)
    requires i < |ledger| && NoDuplicates(ledger)
    ensures NoDuplicates(ledger[..i] + ledger[i + 1..])
    ensures forall e :: e in ledger[..i] + ledger[i + 1..] <==> e in ledger && e != ledger[i]
  {
    var without := ledger[..i] + ledger[i + 1..];
    forall e | e in ledger && e != ledger[i]
      ensures e in without
    {
      var j :| 0 <= j < |ledger| && ledger[j] == e;
      assert without[if j < i then j else j - 1] == e;
    }
  }

  /** Re-polling a growing fill list never counts a fill twice. */
  lemma GrowingListCountedOnce(ledgers: seq<seq<FillKey>>, polls: seq<Poll>, id: BrokerId)
    requires PollRun(ledgers, polls) && polls != []
    requires var last := polls[|polls| - 1];
             && id in last.orders && Reported(last.fills, id) <= last.orders[id].requested
             && forall i, f: BrokerFill :: 0 <= i < |polls| && f.id == id ==>
                  Occurrences(polls[i].fills, f) <= Occurrences(last.fills, f)
    ensures LedgerTotal(ledgers[|polls|], id) == Reported(polls[|polls| - 1].fills, id)
  {
    var last := polls[|polls| - 1];
    LedgerHoldsMaximum(ledgers, polls);
    forall f: BrokerFill | f.id == id
      ensures MaxDemand(polls, f) == Occurrences(last.fills, f)
    {
      MaxDemandBounded(polls, f, Occurrences(last.fills, f));
    }
    TotalsAgree(ledgers[|polls|], last.fills, id);
  }

  lemma {:induction false} MaxDemandBounded(polls: seq<Poll>, f: BrokerFill, bound: nat)
    requires forall i :: 0 <= i < |polls| ==> Occurrences(polls[i].fills, f) <= bound
    ensures MaxDemand(polls, f) <= bound
  {
    if polls != [] {
      MaxDemandBounded(polls[..|polls| - 1], f, bound);
    }
  }
}
