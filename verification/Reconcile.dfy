/** The reconciler's pass over pending follower orders. Times are in nanoseconds. */
module Reconcile {
  import opened Collections
  import opened StatusUpdates
  import Sizing
  import FanOut

  /** What the broker says about an order's history when asked. */
  datatype History = Unreadable | Empty | Latest(status: string, filled: int)

  const FIVE_MINUTES: int := 300_000_000_000

  predicate IsTerminal(status: string) {
    status == "COMPLETE" || status == "REJECTED" || status == "CANCELLED"
  }

  predicate IsPending(r: Row, cutoff: int) {
    r.terminal.None? && r.qty > 0 && r.createdAt < cutoff
  }

  /** A missing broker id reads as empty text. */
  function BrokerText(r: Row): string {
    if r.brokerId.Some? then r.brokerId.value else ""
  }

  function MarkFailed(rows: Rows, id: RowId): Rows {
    if id in rows then rows[id := rows[id].(terminal := Some("FAILED"))] else rows
  }

  /** The status statement, whose finding nothing is ignored. */
  function Resolve(rows: Rows, r: Row, status: string, filled: int): Rows {
    var result := SetStatus(rows, BrokerText(r), status, filled);
    if result.Updated? then result.rows else rows
  }

  /** Whether the broker's latest word settles the order. */
  predicate Resolved(r: Row, h: History) {
    BrokerText(r) != "" && h.Latest? && IsTerminal(h.status)
  }

  /** One pending order, as read at the start of the pass, inspected at time `t`. */
  function Inspect(rows: Rows, id: RowId, r: Row, h: History, t: int): Rows {
    if Resolved(r, h) then Resolve(rows, r, h.status, h.filled)
    else if t - r.createdAt > FIVE_MINUTES then MarkFailed(rows, id)
    else rows
  }

  /** The answers and clock readings of one pass, per inspected order. */
  datatype Pass = Pass(history: map<RowId, History>, readAt: map<RowId, int>)

  function InspectAll(before: Rows, ids: seq<RowId>, pass: Pass): Rows
    requires forall id :: id in ids ==> id in before && id in pass.history && id in pass.readAt
  {
    if ids == [] then before
    else
      var n := |ids| - 1;
      Inspect(InspectAll(before, ids[..n], pass), ids[n], before[ids[n]], pass.history[ids[n]], pass.readAt[ids[n]])
  }

  class Poller {
    var rows: Rows
    const pendingThreshold: int

    constructor (rows: Rows, pendingThreshold: int)
      ensures this.rows == rows
      ensures this.pendingThreshold == if pendingThreshold <= 0 then 120_000_000_000 else pendingThreshold
    {
      this.rows := rows;
      this.pendingThreshold := if pendingThreshold <= 0 then 120_000_000_000 else pendingThreshold;
    }

    /** Fetch the stuck orders, then go through them one by one. `ids` is the fetched list. */
    method InspectPending(now: int, ids: seq<RowId>, pass: Pass)
      requires forall id :: id in ids <==> id in rows && IsPending(rows[id], now - pendingThreshold)
      requires forall id :: id in ids ==> id in pass.history && id in pass.readAt
      modifies this
      ensures rows == InspectAll(old(rows), ids, pass)
    {
      var fetched := rows;
      for i := 0 to |ids|
        invariant rows == InspectAll(old(rows), ids[..i], pass)
      {
        assert ids[..i + 1][..i] == ids[..i];
        var id := ids[i];
        var order := fetched[id];
        var aged := pass.readAt[id] - order.createdAt > FIVE_MINUTES;
        if BrokerText(order) == "" {
          if aged { rows := MarkFailed(rows, id); }
        } else {
          match pass.history[id] {
            case Unreadable =>
              if aged { rows := MarkFailed(rows, id); }
            case Empty =>
              if aged { rows := MarkFailed(rows, id); }
            case Latest(status, filled) =>
              if IsTerminal(status) {
                rows := Resolve(rows, order, status, filled);
              } else if aged {
                rows := MarkFailed(rows, id);
              }
          }
        }
      }
      assert ids[..|ids|] == ids;
    }
  }

  /** Rows and broker ids stay, and a settled row stays settled. */
  predicate OnlySettles(before: Rows, after: Rows) {
    && after.Keys == before.Keys
    && (forall id :: id in before ==>
          && after[id] == before[id].(terminal := after[id].terminal, filled := after[id].filled)
          && (before[id].terminal.Some? ==> after[id].terminal.Some?))
  }

  lemma InspectSettles(rows: Rows, id: RowId, r: Row, h: History, t: int)
    requires id in rows && r.brokerId == rows[id].brokerId
    ensures OnlySettles(rows, Inspect(rows, id, r, h, t))
    ensures Inspect(rows, id, r, h, t)[id].terminal.Some? <==>
      rows[id].terminal.Some? || Resolved(r, h) || t - r.createdAt > FIVE_MINUTES
  {
    if Resolved(r, h) { assert Holds(rows[id], BrokerText(r)); }
  }

  lemma {:induction false} InspectAllSettles(before: Rows, ids: seq<RowId>, pass: Pass)
    requires forall id :: id in ids ==> id in before && id in pass.history && id in pass.readAt
    ensures OnlySettles(before, InspectAll(before, ids, pass))
    ensures forall id ::
      id in ids && (Resolved(before[id], pass.history[id]) || pass.readAt[id] - before[id].createdAt > FIVE_MINUTES) ==>
        InspectAll(before, ids, pass)[id].terminal.Some?
  {
    if ids != [] {
      var n := |ids| - 1;
      InspectAllSettles(before, ids[..n], pass);
      assert ids == ids[..n] + [ids[n]];
      var id := ids[n];
      InspectSettles(InspectAll(before, ids[..n], pass), id, before[id], pass.history[id], pass.readAt[id]);
    }
  }

  /** The list is what a pass at this time fetches, and the broker is asked about each of it. */
  predicate Fetched(before: Rows, ids: seq<RowId>, pass: Pass, now: int, threshold: int) {
    && (forall i :: i in ids ==> i in before && IsPending(before[i], now - threshold))
    && (forall i :: i in before && IsPending(before[i], now - threshold) ==> i in ids)
    && (forall i :: i in ids ==> i in pass.history && i in pass.readAt && pass.readAt[i] >= now)
  }

  predicate Aged(r: Row, now: int, threshold: int) {
    now - r.createdAt > (if threshold > FIVE_MINUTES then threshold else FIVE_MINUTES)
  }

  /** After one pass no placeable order older than max(5 minutes, threshold) is without a status,
      whatever the broker answered and wherever its job was lost. */
  lemma PassSettlesOldOrders(before: Rows, ids: seq<RowId>, pass: Pass, now: int, threshold: int, id: RowId)
    requires Fetched(before, ids, pass, now, threshold)
    requires id in before && before[id].qty > 0 && Aged(before[id], now, threshold)
    ensures id in InspectAll(before, ids, pass) && InspectAll(before, ids, pass)[id].terminal.Some?
  {
    InspectAllSettles(before, ids, pass);
  }

  // ---------------------------------------------------------------- what a pass writes

  predicate Distinct(ids: seq<RowId>) {
    forall i, j :: 0 <= i < j < |ids| ==> ids[i] != ids[j]
  }

  /** The order has no broker id, or no other row holds it. */
  predicate SoleHolder(rows: Rows, id: RowId)
    requires id in rows
  {
    || rows[id].brokerId == None || rows[id].brokerId == Some("")
    || forall other :: other in rows && other != id ==> rows[other].brokerId != rows[id].brokerId
  }

  /** The broker was asked about the order, and its latest word is final. */
  predicate Answered(r: Row, h: History) {
    && r.brokerId.Some? && r.brokerId.value != ""
    && h.Latest? && h.status in {"COMPLETE", "REJECTED", "CANCELLED"}
  }

  lemma {:induction false} UnfetchedUntouched(before: Rows, ids: seq<RowId>, pass: Pass, id: RowId)
    requires forall i :: i in ids ==> i in before && i in pass.history && i in pass.readAt
    requires id in before && id !in ids && SoleHolder(before, id)
    ensures id in InspectAll(before, ids, pass) && InspectAll(before, ids, pass)[id] == before[id]
  {
    if ids != [] {
      var n := |ids| - 1;
      UnfetchedUntouched(before, ids[..n], pass, id);
      InspectAllSettles(before, ids[..n], pass);
      assert ids[n] in ids && ids[n] != id;
    }
  }

  lemma InspectWrites(rows: Rows, id: RowId, r: Row, h: History, t: int)
    requires id in rows && rows[id] == r
    ensures id in Inspect(rows, id, r, h, t)
    ensures Inspect(rows, id, r, h, t)[id] ==
            if Answered(r, h) then r.(terminal := Some(h.status), filled := h.filled)
            else if t - r.createdAt > 300_000_000_000 then r.(terminal := Some("FAILED"))
            else r
  {
    if Answered(r, h) { assert Holds(rows[id], BrokerText(r)); }
  }

  /** What a pass leaves of each fetched order, on its columns: the broker's final status and filled
      quantity where it gave one, FAILED past five minutes where it did not, and the row untouched
      otherwise. Nothing else of the row changes. */
  lemma {:induction false} FetchedOutcome(before: Rows, ids: seq<RowId>, pass: Pass, id: RowId)
    requires forall i :: i in ids ==> i in before && i in pass.history && i in pass.readAt
    requires Distinct(ids) && id in ids && SoleHolder(before, id)
    ensures id in InspectAll(before, ids, pass)
    ensures var r, h, age := before[id], pass.history[id], pass.readAt[id] - before[id].createdAt;
            InspectAll(before, ids, pass)[id] ==
            if Answered(r, h) then r.(terminal := Some(h.status), filled := h.filled)
            else if age > 300_000_000_000 then r.(terminal := Some("FAILED"))
            else r
  {
    var n := |ids| - 1;
    var rows := InspectAll(before, ids[..n], pass);
    var last := ids[n];
    if last == id {
      UnfetchedUntouched(before, ids[..n], pass, id);
      InspectWrites(rows, id, before[id], pass.history[id], pass.readAt[id]);
    } else {
      FetchedOutcome(before, ids[..n], pass, id);
      InspectAllSettles(before, ids[..n], pass);
      OtherLeavesRow(before, rows, last, pass.history[last], pass.readAt[last], id);
    }
  }

  lemma OtherLeavesRow(before: Rows, rows: Rows, other: RowId, h: History, t: int, id: RowId)
    requires OnlySettles(before, rows) && other in before && id in before && other != id && SoleHolder(before, id)
    ensures id in Inspect(rows, other, before[other], h, t)
    ensures Inspect(rows, other, before[other], h, t)[id] == rows[id]
  {
  }

  /** One pass over all stored rows: those without a status, of a positive quantity and older than the
      threshold end as above, and every other row keeps every column. */
  lemma PassOutcome(before: Rows, ids: seq<RowId>, pass: Pass, now: int, threshold: int, id: RowId)
    requires Fetched(before, ids, pass, now, threshold)
    requires Distinct(ids) && id in before && SoleHolder(before, id)
    ensures id in InspectAll(before, ids, pass)
    ensures var r, after := before[id], InspectAll(before, ids, pass)[id];
            if r.terminal == None && r.qty > 0 && now - r.createdAt > threshold then
              && id in pass.history && id in pass.readAt
              && after == (if Answered(r, pass.history[id])
                           then r.(terminal := Some(pass.history[id].status), filled := pass.history[id].filled)
                           else if pass.readAt[id] - r.createdAt > 300_000_000_000
                           then r.(terminal := Some("FAILED"))
                           else r)
            else after == r
  {
    if id in ids { FetchedOutcome(before, ids, pass, id); } else { UnfetchedUntouched(before, ids, pass, id); }
  }

  /** For an old order that never reached the broker, one pass settles it exactly when it had a status
      already or asks for a positive quantity: a zero-quantity row whose fan-out was cut off before
      marking it skipped is never picked up. */
  lemma LostOrderSettledIff(before: Rows, ids: seq<RowId>, pass: Pass, now: int, threshold: int, id: RowId)
    requires Fetched(before, ids, pass, now, threshold)
    requires id in before && BrokerText(before[id]) == "" && Aged(before[id], now, threshold)
    ensures id in InspectAll(before, ids, pass)
    ensures InspectAll(before, ids, pass)[id].terminal.Some? <==> before[id].terminal.Some? || before[id].qty > 0
  {
    if before[id].qty > 0 {
      PassSettlesOldOrders(before, ids, pass, now, threshold, id);
    } else {
      UnfetchedUntouched(before, ids, pass, id);
    }
  }

  // ---------------------------------------------------------------- a fan-out and then a pass

  /** The stored rows hold these orders, whatever else they hold. */
  ghost predicate Stores(rows: Rows, orders: map<FanOut.Tag, FanOut.OrderRow>) {
    forall t :: t in orders ==>
      && RowId(orders[t].id) in rows
      && var r := rows[RowId(orders[t].id)];
         r.tag == t && r.follower == orders[t].follower && r.qty == orders[t].qty && r.terminal == orders[t].terminal
  }

  lemma CopyQuantityNonNegative(fillQty: int, ratio: Sizing.Decimal, lot: int, maxQty: int)
    requires fillQty >= 0
    ensures Sizing.CopyQuantity(fillQty, ratio, lot, maxQty).qty >= 0
  {
    if !Sizing.IsOne(ratio) { Sizing.SizeOrderNonNegative(fillQty, ratio, lot, maxQty); }
  }

  /** Every order a fan-out inserts ends with a status: skipped and dead-lettered rows at once, and each
      other by one pass once it is old enough, whether or not its job was ever taken from its queue. */
  lemma FanOutThenPass(w: FanOut.World, fill: FanOut.Fill, links: seq<FanOut.Link>, lot: int, i: nat,
    rows: Rows, ids: seq<RowId>, pass: Pass, now: int, threshold: int)
    requires FanOut.DistinctFollowers(links) && i < |links| && fill.qty >= 0
    requires FanOut.CopyTag(fill.id, links[i].follower) !in w.orders
    requires Stores(rows, FanOut.FanOutTo(w, fill, links, lot, {}).orders) && Fetched(rows, ids, pass, now, threshold)
    requires RowId(w.nextId + i) in rows ==> Aged(rows[RowId(w.nextId + i)], now, threshold)
    ensures var after := InspectAll(rows, ids, pass);
            RowId(w.nextId + i) in after && after[RowId(w.nextId + i)].terminal.Some?
  {
    var c := FanOut.SizeLink(fill, links[i], lot);
    FanOut.FanOutPointwise(w, fill, links, lot, {}, i);
    CopyQuantityNonNegative(fill.qty, links[i].ratio, lot, links[i].maxQty);
    NewRowStored(w, fill, c, lot, w.nextId + i, FanOut.FanOutTo(w, fill, links, lot, {}), rows);
    InspectAllSettles(rows, ids, pass);
    if rows[RowId(w.nextId + i)].terminal.None? {
      PassSettlesOldOrders(rows, ids, pass, now, threshold, RowId(w.nextId + i));
    }
  }

  /** The row of a new order: settled already, or of a positive quantity. */
  lemma NewRowStored(w: FanOut.World, fill: FanOut.Fill, c: FanOut.Candidate, lot: int, id: int,
    after: FanOut.World, rows: Rows)
    requires c.tag !in w.orders && c.qty >= 0 && Stores(rows, after.orders)
    requires FanOut.Look(after, c.follower, c.tag) == FanOut.ViewAfter(w, fill, c, lot, id, {})
    ensures RowId(id) in rows && (rows[RowId(id)].terminal.Some? || rows[RowId(id)].qty > 0)
  {
    assert c.tag in after.orders && after.orders[c.tag].id == id && after.orders[c.tag].qty == c.qty;
  }
}
