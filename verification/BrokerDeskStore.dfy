/**
 * The order sender over the order table: rows are picked, locked and moved in place,
 * and a request is sent in between.
 */
module BrokerDeskStore {
  import opened Common
  import opened BrokerOrders
  import opened OrderCreation
  import opened BrokerDesk

  class SenderTables {
    var rows: seq<OrderRow>
    var ids: map<Id, BrokerId>
    var orders: Orders

    /** The sender's part of the tables; all else is as in rest. */
    ghost function Model(rest: Tables): Tables
      reads this
    {
      rest.(desk := rest.desk.(orders := rows), ids := ids, orders := orders)
    }

    /** Writes one status, to the row and so to the order that the projection knows it as. */
    method Transition(i: Id, status: Status, ghost rest: Tables)
      requires i < |rows| && status != CancelPending && (i in ids ==> ids[i] in orders)
      modifies this
      ensures Model(rest) == Moved(old(Model(rest)), i, status)
      ensures |rows| == |old(rows)| && ids == old(ids) && rows == old(rows)[i := old(rows)[i].(status := status)]
      ensures i !in ids ==> orders == old(orders)
    {
      rows := rows[i := rows[i].(status := status)];
      if i in ids {
        var order := orders[ids[i]];
        orders := orders[ids[i] := order.(status := status, version := order.version + 1)];
      }
    }

    /** The first half of sending: the row is SUBMITTING before anything leaves. */
    method SendLockedOrder(i: Id, ready: bool, ghost rest: Tables) returns (begun: bool)
      requires Joined(Model(rest))
      modifies this
      ensures Model(rest) == SendBegun(old(Model(rest)), i, ready)
      ensures begun <==> ready && InStatus(old(Model(rest)), i, Created)
    {
      hide Cancellable;
      if !ready || i >= |rows| || rows[i].status != Created {
        return false;
      }
      UnsentRow(Model(rest), i);
      Transition(i, Validating, rest);
      Transition(i, Submitting, rest);
      return true;
    }

    /** Picks the oldest order that was not sent yet, and only that one. */
    method SendNextCreatedOrder(ready: bool, ghost rest: Tables) returns (sent: Option<Id>)
      requires Joined(Model(rest))
      modifies this
      ensures sent.Some? ==>
                && ready && InStatus(old(Model(rest)), sent.value, Created)
                && (forall j :: 0 <= j < sent.value ==> old(rows)[j].status != Created)
                && Model(rest) == SendBegun(old(Model(rest)), sent.value, true)
      ensures sent.None? ==>
                && Model(rest) == old(Model(rest))
                && (ready ==> forall j :: 0 <= j < |rows| ==> rows[j].status != Created)
    {
      var i := 0;
      while i < |rows| && rows[i].status != Created
        invariant i <= |rows| && forall j :: 0 <= j < i ==> rows[j].status != Created
      {
        i := i + 1;
      }
      if i == |rows| || !ready {
        return None;
      }
      var _ := SendLockedOrder(i, ready, rest);
      return Some(i);
    }

    /** The second half: what the broker answered, unless the lease or the row's status is gone by then. */
    method FinishSend(i: Id, leased: bool, answer: Answer, ghost rest: Tables) returns (stored: bool)
      requires Joined(Model(rest))
      modifies this
      ensures Model(rest) == SendFinished(old(Model(rest)), i, leased, answer)
      ensures stored <==>
                leased && InStatus(old(Model(rest)), i, Submitting)
                && (answer.Accepted? ==> answer.broker !in old(orders))
      ensures stored && answer.Accepted? ==>
                && ids == old(ids)[i := answer.broker] && answer.broker in orders
                && var row, order := old(rows)[i], orders[answer.broker];
                && order.own && order.symbol == row.symbol && order.market == answer.market && order.side == row.side
                && order.limitPrice == row.limitPrice && order.requested == row.quantity && order.filled == 0
                && order.cancelled == 0 && order.remaining == row.remaining && order.status == Acknowledged
                && order.nextActionAt == answer.nextActionAt
    {
      hide Cancellable;
      if !leased || i >= |rows| || rows[i].status != Submitting {
        return false;
      }
      UnsentRow(Model(rest), i);
      stored := true;
      match answer
      case Declined =>
        Transition(i, Rejected, rest);
      case Lost =>
        Transition(i, Unknown, rest);
      case Accepted(broker, market, nextActionAt) =>
        if broker in orders {
          return false;
        }
        var row := rows[i];
        Transition(i, Acknowledged, rest);
        ids := ids[i := broker];
        orders := orders[broker := AcceptedOrder(row, market, nextActionAt)];
    }

    /**
     * When the wait for the row's fills ends, if it waits. A deadline is only ever set
     * under the policy to cancel the rest.
     */
    function Deadline(i: Id): (at: Option<int>)
      reads this
    {
      if i < |rows| && Cancellable(rows[i]) && i in ids && ids[i] in orders then orders[ids[i]].nextActionAt else None
    }

    predicate Due(i: Id, now: int)
      reads this
    {
      Deadline(i).Some? && Deadline(i).value <= now
    }

    /** Row i is due and no other due row goes before it: by deadline, and among equal ones by age. */
    ghost predicate FirstDue(i: Id, now: int, n: nat)
      reads this
    {
      && i < n && Due(i, now)
      && forall j :: 0 <= j < n && Due(j, now) ==>
           Deadline(i).value < Deadline(j).value || (Deadline(i).value == Deadline(j).value && i <= j)
    }

    /** Picks the buy whose deadline passed first, and only that one. */
    method CancelNextExpiredBuy(ready: bool, now: int, ghost rest: Tables) returns (cancelled: Option<Id>)
      requires Joined(Model(rest))
      modifies this
      ensures cancelled.Some? ==>
                && ready && old(FirstDue(cancelled.value, now, |rows|))
                && Model(rest) == CancelBegun(old(Model(rest)), cancelled.value, true)
                && rows == old(rows)[cancelled.value := old(rows)[cancelled.value].(status := CancelPending)]
      ensures cancelled.None? ==>
                && Model(rest) == old(Model(rest))
                && (ready ==> forall j :: 0 <= j < |rows| ==> !Due(j, now))
    {
      var first: Option<Id> := None;
      for i := 0 to |rows|
        invariant first.None? ==> forall j :: 0 <= j < i ==> !Due(j, now)
        invariant first.Some? ==> FirstDue(first.value, now, i)
      {
        if Due(i, now) && (first.None? || Deadline(i).value < Deadline(first.value).value) {
          first := Some(i);
        }
      }
      if first.None? || !ready {
        return None;
      }
      var _ := CancelExpiredBuy(first.value, ready, rest);
      return first;
    }

    /** An expired buy is marked CANCEL_PENDING before the cancel is requested. */
    method CancelExpiredBuy(i: Id, ready: bool, ghost rest: Tables) returns (begun: bool)
      requires Joined(Model(rest))
      modifies this
      ensures Model(rest) == CancelBegun(old(Model(rest)), i, ready)
      ensures begun <==>
                && ready && i < |old(rows)| && old(rows)[i].side == Buy && old(rows)[i].remaining > 0
                && old(rows)[i].status in {Acknowledged, Open, PartiallyFilled}
      ensures begun ==> rows == old(rows)[i := old(rows)[i].(status := if i in ids then CancelPending else Reconciling)]
    {
      hide Moved, Joined;
      if !ready || i >= |rows| || !Cancellable(rows[i]) {
        return false;
      }
      NumberedRow(Model(rest), i);
      if i !in ids {
        Transition(i, Reconciling, rest);
        return true;
      }
      MarkCancelPending(i, rest);
      return true;
    }

    method MarkCancelPending(i: Id, ghost rest: Tables)
      requires i < |rows| && i in ids && ids[i] in orders
      modifies this
      ensures Model(rest) == Moved(old(Model(rest)), i, CancelPending)
      ensures ids == old(ids) && rows == old(rows)[i := old(rows)[i].(status := CancelPending)]
    {
      rows := rows[i := rows[i].(status := CancelPending)];
      var order := orders[ids[i]];
      orders := orders[ids[i] := order.(status := CancelPending, version := order.version + 1, nextActionAt := None)];
    }

    /** What the broker answered to the cancel; an accepted one waits for the next snapshot. */
    method FinishCancel(i: Id, leased: bool, answer: Answer, ghost rest: Tables)
      requires Joined(Model(rest))
      modifies this
      ensures Model(rest) == CancelFinished(old(Model(rest)), i, leased, answer)
    {
      hide Cancellable, Moved;
      if !leased || i >= |rows| || rows[i].status != CancelPending {
        return;
      }
      NumberedRow(Model(rest), i);
      match answer
      case Accepted(_, _, _) =>
      case Declined =>
        Transition(i, Reconciling, rest);
      case Lost =>
        Transition(i, Unknown, rest);
    }
  }

  lemma NumberedRow(t: Tables, i: Id)
    requires Joined(t)
    ensures i in t.ids ==> t.ids[i] in t.orders
  {
    assert i in t.ids ==> RowInv(t, i);
  }
}
