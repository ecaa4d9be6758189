/** The archive run over the three tables: what it selects, writes and purges, and what a restore
    puts back. */
module ArchiveRun {
  import opened Collections
  import opened Timestamps
  import opened ArchiveTable
  import opened ArchiveFiles

  /** The three tables, and the accounts there are. */
  datatype Db = Db(fills: Table, orders: Table, events: Table, accounts: set<string>)
  datatype Arc = Arc(fills: Partitions, orders: Partitions, events: Partitions)
  datatype System = System(db: Db, arc: Arc)
  datatype Days = Days(fills: DayMap, orders: DayMap, events: DayMap)

  /** Ids picked for one run. */
  datatype Batch = Batch(fills: Table, orders: Table, events: Table)

  predicate Kinds(db: Db) {
    && (forall id :: id in db.fills ==> db.fills[id].FillRow?)
    && (forall id :: id in db.orders ==> db.orders[id].OrderRow?)
    && (forall id :: id in db.events ==> db.events[id].EventRow?)
  }

  // ---------------------------------------------------------------- the three queries

  predicate OrderEligible(r: Row, cutoff: int) {
    r.OrderRow? && r.at <= cutoff && (r.terminal.Some? || r.intendedQty == 0)
  }

  function EligibleOrders(db: Db, cutoff: int): Table {
    map id | id in db.orders && OrderEligible(db.orders[id], cutoff) :: db.orders[id]
  }

  predicate FillEligible(r: Row, cutoff: int) {
    && r.FillRow? && r.at <= cutoff
    && (r.dispatchState == "dispatched" || r.dispatchState == "dead"
        || r.status == "REJECTED" || r.status == "CANCELLED")
  }

  predicate Refers(r: Row, fillId: RowId) {
    r.OrderRow? && r.fill == Some(fillId)
  }

  /** Fills of which every order is itself being archived. */
  function EligibleFills(db: Db, cutoff: int, orderIds: set<RowId>): Table {
    map id | id in db.fills && FillEligible(db.fills[id], cutoff)
             && !(exists o :: o in db.orders && o !in orderIds && Refers(db.orders[o], id)) :: db.fills[id]
  }

  predicate EventEligible(r: Row, orderIds: set<RowId>, fillIds: set<RowId>) {
    && r.EventRow?
    && ((r.order.Some? && r.order.value in orderIds) || (r.order.None? && r.fill.Some? && r.fill.value in fillIds))
  }

  function EligibleEvents(db: Db, orderIds: set<RowId>, fillIds: set<RowId>): Table {
    if orderIds == {} && fillIds == {} then map[]
    else map id | id in db.events && EventEligible(db.events[id], orderIds, fillIds) :: db.events[id]
  }

  function Select(db: Db, cutoff: int): Batch {
    var orders := EligibleOrders(db, cutoff);
    var fills := EligibleFills(db, cutoff, orders.Keys);
    Batch(fills, orders, EligibleEvents(db, orders.Keys, fills.Keys))
  }

  // ---------------------------------------------------------------- the purge transaction

  predicate OrderRefsHold(db: Db) {
    forall id :: id in db.orders && db.orders[id].OrderRow? && db.orders[id].fill.Some? ==>
      db.orders[id].fill.value in db.fills
  }

  predicate EventRefsHold(db: Db) {
    forall id :: id in db.events && db.events[id].EventRow? ==>
      && (db.events[id].order.Some? ==> db.events[id].order.value in db.orders)
      && (db.events[id].fill.Some? ==> db.events[id].fill.value in db.fills)
  }

  predicate ForeignKeys(db: Db) {
    OrderRefsHold(db) && EventRefsHold(db)
  }

  function Without(db: Db, batch: Batch): Db {
    Db(db.fills - batch.fills.Keys, db.orders - batch.orders.Keys, db.events - batch.events.Keys, db.accounts)
  }

  /** Delete in one transaction: all or, when a reference would dangle, nothing. */
  function Purge(db: Db, batch: Batch): Db {
    if ForeignKeys(Without(db, batch)) then Without(db, batch) else db
  }

  /** An event naming both an order and a fill names the order's own fill. */
  predicate EventsMatchOrders(db: Db) {
    forall id :: id in db.events && db.events[id].EventRow? && db.events[id].order.Some? && db.events[id].fill.Some?
      && db.events[id].order.value in db.orders && db.orders[db.events[id].order.value].OrderRow?
      ==> db.orders[db.events[id].order.value].fill == db.events[id].fill
  }

  lemma KeptOrdersKeepFills(db: Db, cutoff: int)
    requires Kinds(db) && ForeignKeys(db)
    ensures OrderRefsHold(Without(db, Select(db, cutoff)))
  {
    var batch := Select(db, cutoff);
    var after := Without(db, batch);
    forall o | o in after.orders && after.orders[o].OrderRow? && after.orders[o].fill.Some?
      ensures after.orders[o].fill.value in after.fills
    {
      assert o in db.orders && o !in batch.orders.Keys;
      assert Refers(db.orders[o], db.orders[o].fill.value);
    }
  }

  /** A kept event of a kept order points at a fill that is being purged. */
  predicate StrayEvent(db: Db, batch: Batch, e: RowId) {
    && e in db.events && e !in batch.events && db.events[e].EventRow?
    && db.events[e].order.Some? && db.events[e].fill.Some? && db.events[e].fill.value in batch.fills
  }

  /** The purge commits exactly when no kept event of a kept order names a purged fill. */
  lemma PurgeCommitsIff(db: Db, cutoff: int)
    requires Kinds(db) && ForeignKeys(db)
    ensures var batch := Select(db, cutoff);
            ForeignKeys(Without(db, batch)) <==> !exists e :: StrayEvent(db, batch, e)
  {
    var batch := Select(db, cutoff);
    var after := Without(db, batch);
    KeptOrdersKeepFills(db, cutoff);
    if !exists e :: StrayEvent(db, batch, e) {
      forall e | e in after.events && after.events[e].EventRow?
        ensures after.events[e].order.Some? ==> after.events[e].order.value in after.orders
        ensures after.events[e].fill.Some? ==> after.events[e].fill.value in after.fills
      {
        KeptEvent(db, cutoff, e);
        assert !StrayEvent(db, batch, e);
      }
    }
    forall e | StrayEvent(db, batch, e)
      ensures !EventRefsHold(after)
    {
      assert e in after.events && after.events[e].fill.value !in after.fills;
    }
  }

  lemma KeptEvent(db: Db, cutoff: int, e: RowId)
    requires var batch := Select(db, cutoff); e in db.events && e !in batch.events
    ensures var batch := Select(db, cutoff); !EventEligible(db.events[e], batch.orders.Keys, batch.fills.Keys)
  {
  }

  /** With matching events the purge always commits and leaves no dangling reference. */
  lemma PurgeLeavesNoDangling(db: Db, cutoff: int)
    requires Kinds(db) && ForeignKeys(db) && EventsMatchOrders(db)
    ensures Purge(db, Select(db, cutoff)) == Without(db, Select(db, cutoff))
    ensures ForeignKeys(Purge(db, Select(db, cutoff)))
  {
    var batch := Select(db, cutoff);
    forall e | StrayEvent(db, batch, e)
      ensures false
    {
      KeptEvent(db, cutoff, e);
      var o := db.events[e].order.value;
      assert o in db.orders && o !in batch.orders;
      assert Refers(db.orders[o], db.events[e].fill.value);
    }
    PurgeCommitsIff(db, cutoff);
  }

  // ---------------------------------------------------------------- the whole run, and its stops

  predicate Inv(sys: System, days: Days) {
    && Kinds(sys.db)
    && KeyedById(sys.db.fills) && Dated(sys.db.fills, days.fills) && WellPlaced(sys.arc.fills, days.fills)
    && KeyedById(sys.db.orders) && Dated(sys.db.orders, days.orders) && WellPlaced(sys.arc.orders, days.orders)
    && KeyedById(sys.db.events) && Dated(sys.db.events, days.events) && WellPlaced(sys.arc.events, days.events)
  }

  /** The three logical tables. */
  ghost function LogicalDb(sys: System, days: Days): Db
    requires Inv(sys, days)
  {
    Db(Logical(sys.db.fills, sys.arc.fills, days.fills),
       Logical(sys.db.orders, sys.arc.orders, days.orders),
       Logical(sys.db.events, sys.arc.events, days.events), sys.db.accounts)
  }

  /** The system after the process wrote these partitions, in these orders, and stopped. */
  function Stopped(sys: System, batch: Batch, orderDates: seq<Date>, fillDates: seq<Date>,
      eventDates: seq<Date>): System {
    sys.(arc := Arc(AfterWrites(sys.arc.fills, batch.fills, fillDates),
                    AfterWrites(sys.arc.orders, batch.orders, orderDates),
                    AfterWrites(sys.arc.events, batch.events, eventDates)))
  }

  function AllWritten(arc: Arc, batch: Batch): Arc {
    Arc(WrittenOn(arc.fills, batch.fills, Dates(batch.fills)),
        WrittenOn(arc.orders, batch.orders, Dates(batch.orders)),
        WrittenOn(arc.events, batch.events, Dates(batch.events)))
  }

  /** An uninterrupted run. */
  function FullRun(sys: System, cutoff: int): System {
    var batch := Select(sys.db, cutoff);
    System(Purge(sys.db, batch), AllWritten(sys.arc, batch))
  }

  lemma WritesAnyOrder(db: Table, arc: Partitions, rows: Table, dates: seq<Date>, day: DayMap)
    requires WellPlaced(arc, day) && KeyedById(rows) && Dated(rows, day) && rows.Keys <= db.Keys
    ensures WellPlaced(AfterWrites(arc, rows, dates), day)
    ensures Logical(db, AfterWrites(arc, rows, dates), day) == Logical(db, arc, day)
  {
    AfterWritesUnordered(arc, rows, dates);
    WritesKeepLogical(db, arc, rows, (set d | d in dates), day);
  }

  /** A stop after any partition writes, in any order, leaves all three logical tables unchanged. */
  lemma StopKeepsLogical(sys: System, cutoff: int, orderDates: seq<Date>, fillDates: seq<Date>,
      eventDates: seq<Date>, days: Days)
    requires Inv(sys, days)
    ensures var stopped := Stopped(sys, Select(sys.db, cutoff), orderDates, fillDates, eventDates);
            Inv(stopped, days) && LogicalDb(stopped, days) == LogicalDb(sys, days)
  {
    var batch := Select(sys.db, cutoff);
    WritesAnyOrder(sys.db.orders, sys.arc.orders, batch.orders, orderDates, days.orders);
    WritesAnyOrder(sys.db.fills, sys.arc.fills, batch.fills, fillDates, days.fills);
    WritesAnyOrder(sys.db.events, sys.arc.events, batch.events, eventDates, days.events);
  }

  /** One table through a whole run. */
  lemma TableRunKeepsLogical(db: Table, arc: Partitions, rows: Table, day: DayMap)
    requires WellPlaced(arc, day) && KeyedById(db) && Dated(db, day)
    requires forall id :: id in rows ==> id in db && rows[id] == db[id]
    ensures var arc' := WrittenOn(arc, rows, Dates(rows));
            && WellPlaced(arc', day)
            && Logical(db, arc', day) == Logical(db, arc, day)
            && Logical(db - rows.Keys, arc', day) == Logical(db, arc, day)
  {
    var arc' := WrittenOn(arc, rows, Dates(rows));
    WritesKeepLogical(db, arc, rows, Dates(rows), day);
    AllRowsArchived(arc, rows, day);
    PurgeKeepsLogicalIff(db, arc', rows.Keys, day);
  }

  /** Rows taken from the live tables as they are. */
  predicate TakenFrom(db: Db, batch: Batch) {
    && (forall id :: id in batch.fills ==> id in db.fills && batch.fills[id] == db.fills[id])
    && (forall id :: id in batch.orders ==> id in db.orders && batch.orders[id] == db.orders[id])
    && (forall id :: id in batch.events ==> id in db.events && batch.events[id] == db.events[id])
  }

  lemma WrittenKeepsLogical(sys: System, batch: Batch, days: Days)
    requires Inv(sys, days) && TakenFrom(sys.db, batch)
    ensures var done := System(sys.db, AllWritten(sys.arc, batch));
            Inv(done, days) && LogicalDb(done, days) == LogicalDb(sys, days)
  {
    TableRunKeepsLogical(sys.db.orders, sys.arc.orders, batch.orders, days.orders);
    TableRunKeepsLogical(sys.db.fills, sys.arc.fills, batch.fills, days.fills);
    TableRunKeepsLogical(sys.db.events, sys.arc.events, batch.events, days.events);
  }

  lemma PurgedKeepsLogical(sys: System, batch: Batch, days: Days)
    requires Inv(sys, days) && TakenFrom(sys.db, batch)
    ensures var done := System(Without(sys.db, batch), AllWritten(sys.arc, batch));
            Inv(done, days) && LogicalDb(done, days) == LogicalDb(sys, days)
  {
    TableRunKeepsLogical(sys.db.orders, sys.arc.orders, batch.orders, days.orders);
    TableRunKeepsLogical(sys.db.fills, sys.arc.fills, batch.fills, days.fills);
    TableRunKeepsLogical(sys.db.events, sys.arc.events, batch.events, days.events);
  }

  /** A completed run, committed or rolled back, leaves the logical tables unchanged. */
  lemma FullRunKeepsLogical(sys: System, cutoff: int, days: Days)
    requires Inv(sys, days)
    ensures Inv(FullRun(sys, cutoff), days)
    ensures LogicalDb(FullRun(sys, cutoff), days) == LogicalDb(sys, days)
  {
    var batch := Select(sys.db, cutoff);
    assert TakenFrom(sys.db, batch);
    WrittenKeepsLogical(sys, batch, days);
    PurgedKeepsLogical(sys, batch, days);
  }

  lemma RerunOneTable(arc: Partitions, rows: Table, dates: seq<Date>)
    requires forall d :: d in dates ==> d in Dates(rows)
    ensures WrittenOn(AfterWrites(arc, rows, dates), rows, Dates(rows)) == WrittenOn(arc, rows, Dates(rows))
  {
    AfterWritesUnordered(arc, rows, dates);
    RewriteAfterStop(arc, rows, (set d | d in dates), Dates(rows));
  }

  /** Running again after a stop ends where an uninterrupted run ends. */
  lemma RerunAfterStop(sys: System, cutoff: int, orderDates: seq<Date>, fillDates: seq<Date>, eventDates: seq<Date>)
    requires forall d :: d in orderDates ==> d in Dates(Select(sys.db, cutoff).orders)
    requires forall d :: d in fillDates ==> d in Dates(Select(sys.db, cutoff).fills)
    requires forall d :: d in eventDates ==> d in Dates(Select(sys.db, cutoff).events)
    ensures FullRun(Stopped(sys, Select(sys.db, cutoff), orderDates, fillDates, eventDates), cutoff)
            == FullRun(sys, cutoff)
  {
    var batch := Select(sys.db, cutoff);
    RerunOneTable(sys.arc.orders, batch.orders, orderDates);
    RerunOneTable(sys.arc.fills, batch.fills, fillDates);
    RerunOneTable(sys.arc.events, batch.events, eventDates);
  }

  // ---------------------------------------------------------------- which rows go

  /** A fill is done when it is old enough and was dispatched or given up, or ended at the broker. */
  predicate FillDone(r: Row, cutoff: int) {
    && r.FillRow? && r.at <= cutoff
    && (r.dispatchState in {"dispatched", "dead"} || r.status in {"REJECTED", "CANCELLED"})
  }

  /** Exactly which rows an archive run whose purge commits takes out of the database: an order if it is
      old enough and has a status or asks for nothing, a fill if it is done and no order left names it,
      an event if its order went, or for want of an order its fill. */
  lemma ArchivedExactly(sys: System, cutoff: int, id: RowId)
    requires Kinds(sys.db) && ForeignKeys(sys.db)
    requires FullRun(sys, cutoff).db == Without(sys.db, Select(sys.db, cutoff))
    ensures var db, after := sys.db, FullRun(sys, cutoff).db;
            && (id in db.orders ==>
                  var r := db.orders[id];
                  id !in after.orders <==> r.at <= cutoff && (r.terminal.Some? || r.intendedQty == 0))
            && (id in db.fills ==>
                  (id !in after.fills <==>
                   && FillDone(db.fills[id], cutoff)
                   && forall o :: o in after.orders ==> after.orders[o].fill != Some(id)))
            && (id in db.events ==>
                  (id !in after.events <==>
                   if db.events[id].order.Some? then db.events[id].order.value !in after.orders
                   else db.events[id].fill.Some? && db.events[id].fill.value !in after.fills))
  {
    var db, batch, after := sys.db, Select(sys.db, cutoff), FullRun(sys, cutoff).db;
    if id in db.fills {
      FillGone(db, cutoff, id);
      LeftBehind(db.orders, batch.orders.Keys, id);
    }
    if id in db.events { EventGone(db, cutoff, id); }
  }

  /** The orders left that name a fill are those not taken that do. */
  lemma LeftBehind(orders: Table, taken: set<RowId>, id: RowId)
    requires forall o :: o in orders ==> orders[o].OrderRow?
    ensures (forall o :: o in orders - taken ==> (orders - taken)[o].fill != Some(id)) <==>
            (forall o :: o in orders && o !in taken ==> orders[o].fill != Some(id))
  {
    assert forall o :: o in orders - taken <==> o in orders && o !in taken;
    assert forall o :: o in orders - taken ==> (orders - taken)[o] == orders[o];
  }

  lemma FillGone(db: Db, cutoff: int, id: RowId)
    requires Kinds(db) && id in db.fills
    ensures var batch := Select(db, cutoff);
            id in batch.fills <==>
            && FillDone(db.fills[id], cutoff)
            && forall o :: o in db.orders && o !in batch.orders ==> db.orders[o].fill != Some(id)
  {
    var batch := Select(db, cutoff);
    assert forall o :: o in db.orders ==> (Refers(db.orders[o], id) <==> db.orders[o].fill == Some(id));
  }

  lemma EventGone(db: Db, cutoff: int, id: RowId)
    requires Kinds(db) && ForeignKeys(db) && id in db.events
    ensures var batch := Select(db, cutoff);
            id in batch.events <==>
            if db.events[id].order.Some? then db.events[id].order.value in batch.orders
            else db.events[id].fill.Some? && db.events[id].fill.value in batch.fills
  {
  }

  /** Nothing unsettled goes: whatever becomes of the purge, an order still without a status and of some
      quantity stays, and so does every order and fill newer than the cutoff. */
  lemma UnsettledStay(sys: System, cutoff: int, id: RowId)
    requires Kinds(sys.db)
    ensures var db, after := sys.db, FullRun(sys, cutoff).db;
            && (id in db.orders ==>
                  var r := db.orders[id];
                  r.at > cutoff || (r.terminal.None? && r.intendedQty != 0) ==>
                    id in after.orders && after.orders[id] == r)
            && (id in db.fills && db.fills[id].at > cutoff ==> id in after.fills && after.fills[id] == db.fills[id])
  {
  }

  // ---------------------------------------------------------------- the imperative run

  class Archiver {
    var db: Db
    var fillFiles: Files
    var orderFiles: Files
    var eventFiles: Files

    ghost function State(): System
      reads this
    {
      System(db, Arc(Contents(fillFiles), Contents(orderFiles), Contents(eventFiles)))
    }

    constructor (db: Db)
      ensures State() == System(db, Arc(map[], map[], map[]))
    {
      this.db := db;
      fillFiles, orderFiles, eventFiles := map[], map[], map[];
      new;
      assert Contents(map[]) == map[];
    }

    /** Write all partitions of a batch: orders, then fills, then events. */
    method WriteBatch(batch: Batch)
      requires KeyedById(batch.fills) && KeyedById(batch.orders) && KeyedById(batch.events)
      modifies this
      ensures State() == System(old(db), AllWritten(old(State()).arc, batch))
    {
      var orderRows := SortedRows(batch.orders);
      orderFiles := WriteTablePartitions(orderFiles, orderRows);
      var fillRows := SortedRows(batch.fills);
      fillFiles := WriteTablePartitions(fillFiles, fillRows);
      var eventRows := SortedRows(batch.events);
      eventFiles := WriteTablePartitions(eventFiles, eventRows);
    }

    /** Delete the batch in one transaction, or fail with nothing deleted; the counts are the rows that
        went. */
    method PurgeBatch(batch: Batch) returns (ok: bool, fills: nat, orders: nat, events: nat)
      requires TakenFrom(db, batch)
      modifies this`db
      ensures ok == ForeignKeys(Without(old(db), batch))
      ensures db == Purge(old(db), batch)
      ensures fills == |old(db.fills)| - |db.fills|
      ensures orders == |old(db.orders)| - |db.orders|
      ensures events == |old(db.events)| - |db.events|
    {
      fills, orders, events := 0, 0, 0;
      ok := ForeignKeys(Without(db, batch));
      if ok {
        DeletedCount(db.fills, batch.fills);
        DeletedCount(db.orders, batch.orders);
        DeletedCount(db.events, batch.events);
        fills, orders, events := |batch.fills|, |batch.orders|, |batch.events|;
        db := Without(db, batch);
      }
    }

    /** Select, write, then purge; nothing at all when nothing is eligible. An error is returned exactly
        when the purge is refused, and the partitions are written even then. */
    method Archive(cutoff: int) returns (ok: bool, fills: nat, orders: nat, events: nat)
      requires KeyedById(db.fills) && KeyedById(db.orders) && KeyedById(db.events)
      modifies this
      ensures var batch := Select(old(db), cutoff);
              ok <==> batch == Batch(map[], map[], map[]) || ForeignKeys(Without(old(db), batch))
      ensures State() == FullRun(old(State()), cutoff)
      ensures fills == |old(db.fills)| - |db.fills|
      ensures orders == |old(db.orders)| - |db.orders|
      ensures events == |old(db.events)| - |db.events|
    {
      var batch := Select(db, cutoff);
      if batch.orders == map[] && batch.fills == map[] && batch.events == map[] {
        NothingSelected(State(), cutoff);
        return true, 0, 0, 0;
      }
      ok, fills, orders, events := ArchiveBatch(batch);
    }

    method ArchiveBatch(batch: Batch) returns (ok: bool, fills: nat, orders: nat, events: nat)
      requires KeyedById(batch.fills) && KeyedById(batch.orders) && KeyedById(batch.events) && TakenFrom(db, batch)
      modifies this
      ensures State() == System(Purge(old(db), batch), AllWritten(old(State()).arc, batch))
      ensures ok == ForeignKeys(Without(old(db), batch))
      ensures fills == |old(db.fills)| - |db.fills|
      ensures orders == |old(db.orders)| - |db.orders|
      ensures events == |old(db.events)| - |db.events|
    {
      WriteBatch(batch);
      ok, fills, orders, events := PurgeBatch(batch);
    }
  }

  lemma DeletedCount(t: Table, rows: Table)
    requires rows.Keys <= t.Keys
    ensures |t - rows.Keys| == |t| - |rows|
  {
    assert (t - rows.Keys).Keys == t.Keys - rows.Keys;
    assert |t.Keys - rows.Keys| == |t.Keys| - |rows.Keys|;
  }

  lemma NothingSelected(sys: System, cutoff: int)
    requires Select(sys.db, cutoff) == Batch(map[], map[], map[])
    ensures FullRun(sys, cutoff) == sys
  {
    NothingWritten(sys.arc.fills, map[]);
    NothingWritten(sys.arc.orders, map[]);
    NothingWritten(sys.arc.events, map[]);
    assert Dates(map[]) == {};
    assert Without(sys.db, Batch(map[], map[], map[])) == sys.db;
  }
}
