/** Restoring archived partitions: parents before children, ids already present left alone. */
module ArchiveRestore {
  import opened Collections
  import opened Timestamps
  import opened ArchiveTable
  import opened ArchiveRun
  import ArchiveFiles

  datatype Kind = Fills | Orders | Events

  /** A finished restore, or the database as it stood when an insert was refused. */
  datatype Outcome = Done(db: Db) | Failed(db: Db)

  function Of(db: Db, kind: Kind): Table {
    match kind case Fills => db.fills case Orders => db.orders case Events => db.events
  }

  function With(db: Db, kind: Kind, t: Table): Db {
    match kind case Fills => db.(fills := t) case Orders => db.(orders := t) case Events => db.(events := t)
  }

  function PartitionsOf(arc: Arc, kind: Kind): Partitions {
    match kind case Fills => arc.fills case Orders => arc.orders case Events => arc.events
  }

  function DayOfKind(days: Days, kind: Kind): DayMap {
    match kind case Fills => days.fills case Orders => days.orders case Events => days.events
  }

  /** No two rows share a key of any unique constraint. */
  predicate UniqueKeys(t: Table) {
    forall a, b :: a in t && b in t && a != b ==> t[a].keys !! t[b].keys
  }

  predicate AccountsKnown(t: Table, accounts: set<string>) {
    forall id :: id in t ==> t[id].accounts <= accounts
  }

  /** What the database itself refuses to violate. */
  predicate Constraints(db: Db) {
    && ForeignKeys(db)
    && UniqueKeys(db.fills) && UniqueKeys(db.orders) && UniqueKeys(db.events)
    && AccountsKnown(db.fills, db.accounts) && AccountsKnown(db.orders, db.accounts)
    && AccountsKnown(db.events, db.accounts)
  }

  /** Insert one partition file of one table. */
  function LoadFile(db: Db, arc: Arc, kind: Kind, d: Date): Db {
    With(db, kind, InsertAbsent(Of(db, kind), Get(PartitionsOf(arc, kind), d)))
  }

  /** Insert a table's files in order; each file is inserted whole or refused. */
  function Load(db: Db, arc: Arc, kind: Kind, dates: seq<Date>): Outcome {
    if dates == [] then Done(db)
    else
      match Load(db, arc, kind, dates[..|dates| - 1])
      case Failed(at) => Failed(at)
      case Done(so) =>
        var next := LoadFile(so, arc, kind, dates[|dates| - 1]);
        if Constraints(next) then Done(next) else Failed(so)
  }

  /** Fills, then orders, then events. */
  function RestoreDates(db: Db, arc: Arc, dates: seq<Date>): Outcome {
    match Load(db, arc, Fills, dates)
    case Failed(at) => Failed(at)
    case Done(a) =>
      match Load(a, arc, Orders, dates)
      case Failed(at) => Failed(at)
      case Done(b) => Load(b, arc, Events, dates)
  }

  // ---------------------------------------------------------------- what a load leaves

  function SetOf(dates: seq<Date>): set<Date> {
    set d | d in dates
  }

  ghost predicate Placed(arc: Arc, days: Days) {
    WellPlaced(arc.fills, days.fills) && WellPlaced(arc.orders, days.orders) && WellPlaced(arc.events, days.events)
  }

  /** The database once the table's partitions of `dates` are loaded and nothing was refused. */
  ghost function Loaded(db: Db, arc: Arc, kind: Kind, dates: seq<Date>, days: Days): Db
    requires Placed(arc, days)
  {
    With(db, kind, RestoredOn(Of(db, kind), PartitionsOf(arc, kind), SetOf(dates), DayOfKind(days, kind)))
  }

  lemma LoadedOneMore(db: Db, arc: Arc, kind: Kind, dates: seq<Date>, days: Days)
    requires Placed(arc, days) && dates != []
    ensures var n := |dates| - 1;
            Loaded(db, arc, kind, dates, days) == LoadFile(Loaded(db, arc, kind, dates[..n], days), arc, kind, dates[n])
  {
    var n := |dates| - 1;
    assert dates == dates[..n] + [dates[n]];
    assert SetOf(dates) == SetOf(dates[..n]) + {dates[n]};
    RestoreOneMore(Of(db, kind), PartitionsOf(arc, kind), SetOf(dates[..n]), dates[n], DayOfKind(days, kind));
  }

  lemma LoadedNone(db: Db, arc: Arc, kind: Kind, days: Days)
    requires Placed(arc, days)
    ensures Loaded(db, arc, kind, [], days) == db
  {
    var all := Archived(PartitionsOf(arc, kind), DayOfKind(days, kind));
    assert OnDays(all, {}, DayOfKind(days, kind)) == map[];
  }

  /** A load that is not refused inserts exactly the missing rows of those partitions. */
  lemma {:induction false} LoadDone(db: Db, arc: Arc, kind: Kind, dates: seq<Date>, days: Days)
    requires Placed(arc, days) && Constraints(db) && Load(db, arc, kind, dates).Done?
    ensures Load(db, arc, kind, dates).db == Loaded(db, arc, kind, dates, days)
    ensures Constraints(Loaded(db, arc, kind, dates, days))
  {
    if dates == [] {
      LoadedNone(db, arc, kind, days);
    } else {
      LoadDone(db, arc, kind, dates[..|dates| - 1], days);
      LoadedOneMore(db, arc, kind, dates, days);
    }
  }

  /** A load succeeds when every prefix of it satisfies the constraints. */
  lemma {:induction false} LoadSucceeds(db: Db, arc: Arc, kind: Kind, dates: seq<Date>, days: Days)
    requires Placed(arc, days)
    requires forall k :: 0 <= k <= |dates| ==> Constraints(Loaded(db, arc, kind, dates[..k], days))
    ensures Load(db, arc, kind, dates) == Done(Loaded(db, arc, kind, dates, days))
  {
    assert dates[..|dates|] == dates;
    if dates == [] {
      LoadedNone(db, arc, kind, days);
    } else {
      var init := dates[..|dates| - 1];
      forall k | 0 <= k <= |init|
        ensures Constraints(Loaded(db, arc, kind, init[..k], days))
      {
        assert init[..k] == dates[..k];
      }
      LoadSucceeds(db, arc, kind, init, days);
      LoadedOneMore(db, arc, kind, dates, days);
    }
  }

  // ---------------------------------------------------------------- full restore

  predicate SubTable(a: Table, b: Table) {
    forall id :: id in a ==> id in b && a[id] == b[id]
  }

  lemma UniqueKeysPart(a: Table, b: Table)
    requires SubTable(a, b) && UniqueKeys(b)
    ensures UniqueKeys(a)
  {
  }

  /** More days loaded, more rows, and never a row changed. */
  lemma RestoredGrows(db: Table, arc: Partitions, done: set<Date>, more: set<Date>, day: DayMap)
    requires WellPlaced(arc, day) && done <= more
    ensures SubTable(RestoredOn(db, arc, done, day), RestoredOn(db, arc, more, day))
    ensures SubTable(db, RestoredOn(db, arc, done, day))
  {
  }

  /** Part-way through restoring fills, everything still holds together. */
  lemma FillsPrefix(db: Db, full: Db, fills: Table)
    requires Constraints(db) && Constraints(full) && SubTable(db.fills, fills)
    requires SubTable(fills, full.fills) && db.accounts == full.accounts
    ensures Constraints(db.(fills := fills))
  {
    UniqueKeysPart(fills, full.fills);
  }

  /** Orders are restored onto the full fills, so no order comes before its fill. */
  lemma OrdersPrefix(db: Db, full: Db, orders: Table)
    requires Constraints(db) && Constraints(full) && db.fills == full.fills
    requires SubTable(db.orders, orders) && SubTable(orders, full.orders) && db.accounts == full.accounts
    ensures Constraints(db.(orders := orders))
  {
    UniqueKeysPart(orders, full.orders);
  }

  /** Events are restored onto the full fills and orders. */
  lemma EventsPrefix(db: Db, full: Db, events: Table)
    requires Constraints(db) && Constraints(full) && db.fills == full.fills && db.orders == full.orders
    requires SubTable(db.events, events) && SubTable(events, full.events) && db.accounts == full.accounts
    ensures Constraints(db.(events := events))
  {
    UniqueKeysPart(events, full.events);
  }

  predicate Covers(dates: seq<Date>, arc: Arc) {
    arc.fills.Keys + arc.orders.Keys + arc.events.Keys <= SetOf(dates)
  }

  /** The database with the archived rows of these dates added where they are missing. */
  ghost function RestoredDb(sys: System, dates: seq<Date>, days: Days): Db
    requires Inv(sys, days)
  {
    Db(RestoredOn(sys.db.fills, sys.arc.fills, SetOf(dates), days.fills),
       RestoredOn(sys.db.orders, sys.arc.orders, SetOf(dates), days.orders),
       RestoredOn(sys.db.events, sys.arc.events, SetOf(dates), days.events), sys.db.accounts)
  }

  /** Restoring any dates succeeds exactly when the database with those dates' rows added satisfies the
      database's own constraints, and then that is what the database is: the order of the tables never
      puts a child before its parent. */
  lemma RestoreIff(sys: System, dates: seq<Date>, days: Days)
    requires Inv(sys, days) && Constraints(sys.db)
    ensures RestoreDates(sys.db, sys.arc, dates).Done? <==> Constraints(RestoredDb(sys, dates, days))
    ensures RestoreDates(sys.db, sys.arc, dates).Done? ==>
              RestoreDates(sys.db, sys.arc, dates).db == RestoredDb(sys, dates, days)
  {
    if RestoreDates(sys.db, sys.arc, dates).Done? {
      RestoreResult(sys, dates, days);
    }
    if Constraints(RestoredDb(sys, dates, days)) {
      RestoreSucceeds(sys, dates, days);
    }
  }

  /** Rows of the table name known accounts only, and no two share a key. */
  predicate Sound(t: Table, accounts: set<string>) {
    && (forall id, a :: id in t && a in t[id].accounts ==> a in accounts)
    && (forall x, y, key :: x in t && y in t && key in t[x].keys && key in t[y].keys ==> x == y)
  }

  /** Row by row: orders name stored fills, events stored orders and fills, and each table is sound. */
  predicate Admissible(db: Db) {
    && Sound(db.fills, db.accounts) && Sound(db.orders, db.accounts) && Sound(db.events, db.accounts)
    && (forall id :: id in db.orders && db.orders[id].OrderRow? && db.orders[id].fill.Some? ==>
          db.orders[id].fill.value in db.fills)
    && (forall id :: id in db.events && db.events[id].EventRow? && db.events[id].order.Some? ==>
          db.events[id].order.value in db.orders)
    && (forall id :: id in db.events && db.events[id].EventRow? && db.events[id].fill.Some? ==>
          db.events[id].fill.value in db.fills)
  }

  lemma SoundIff(t: Table, accounts: set<string>)
    ensures Sound(t, accounts) <==> UniqueKeys(t) && AccountsKnown(t, accounts)
  {
    if Sound(t, accounts) {
      forall a, b | a in t && b in t && a != b ensures t[a].keys !! t[b].keys {
        if key :| key in t[a].keys && key in t[b].keys { assert false; }
      }
    }
  }

  /** So a restore succeeds exactly when the rows it would leave are admissible. */
  lemma RestoreAdmittedIff(sys: System, dates: seq<Date>, days: Days)
    requires Inv(sys, days) && Admissible(sys.db)
    ensures RestoreDates(sys.db, sys.arc, dates).Done? <==> Admissible(RestoredDb(sys, dates, days))
  {
    AdmissibleIff(sys.db);
    AdmissibleIff(RestoredDb(sys, dates, days));
    RestoreIff(sys, dates, days);
  }

  lemma AdmissibleIff(db: Db)
    ensures Admissible(db) <==> Constraints(db)
  {
    SoundIff(db.fills, db.accounts);
    SoundIff(db.orders, db.accounts);
    SoundIff(db.events, db.accounts);
  }

  lemma RestoreResult(sys: System, dates: seq<Date>, days: Days)
    requires Inv(sys, days) && Constraints(sys.db)
    requires RestoreDates(sys.db, sys.arc, dates).Done?
    ensures RestoreDates(sys.db, sys.arc, dates).db == RestoredDb(sys, dates, days)
    ensures Constraints(RestoredDb(sys, dates, days))
  {
    var db, arc := sys.db, sys.arc;
    LoadDone(db, arc, Fills, dates, days);
    var a := Load(db, arc, Fills, dates).db;
    LoadDone(a, arc, Orders, dates, days);
    var b := Load(a, arc, Orders, dates).db;
    LoadDone(b, arc, Events, dates, days);
  }

  lemma RestoreSucceeds(sys: System, dates: seq<Date>, days: Days)
    requires Inv(sys, days) && Constraints(sys.db)
    requires Constraints(RestoredDb(sys, dates, days))
    ensures RestoreDates(sys.db, sys.arc, dates).Done?
  {
    var db, arc, full := sys.db, sys.arc, RestoredDb(sys, dates, days);
    forall k | 0 <= k <= |dates|
      ensures Constraints(Loaded(db, arc, Fills, dates[..k], days))
    {
      RestoredGrows(db.fills, arc.fills, SetOf(dates[..k]), SetOf(dates), days.fills);
      FillsPrefix(db, full, RestoredOn(db.fills, arc.fills, SetOf(dates[..k]), days.fills));
    }
    LoadSucceeds(db, arc, Fills, dates, days);
    var a := db.(fills := full.fills);
    assert Constraints(a) by { assert dates[..|dates|] == dates; }
    forall k | 0 <= k <= |dates|
      ensures Constraints(Loaded(a, arc, Orders, dates[..k], days))
    {
      RestoredGrows(db.orders, arc.orders, SetOf(dates[..k]), SetOf(dates), days.orders);
      OrdersPrefix(a, full, RestoredOn(db.orders, arc.orders, SetOf(dates[..k]), days.orders));
    }
    LoadSucceeds(a, arc, Orders, dates, days);
    var b := a.(orders := full.orders);
    assert Constraints(b) by { assert dates[..|dates|] == dates; }
    forall k | 0 <= k <= |dates|
      ensures Constraints(Loaded(b, arc, Events, dates[..k], days))
    {
      RestoredGrows(db.events, arc.events, SetOf(dates[..k]), SetOf(dates), days.events);
      EventsPrefix(b, full, RestoredOn(db.events, arc.events, SetOf(dates[..k]), days.events));
    }
    LoadSucceeds(b, arc, Events, dates, days);
  }

  lemma RestoredAll(sys: System, dates: seq<Date>, days: Days)
    requires Inv(sys, days) && Covers(dates, sys.arc)
    ensures RestoredDb(sys, dates, days) == LogicalDb(sys, days)
  {
    RestoreAllIsLogical(sys.db.fills, sys.arc.fills, SetOf(dates), days.fills);
    RestoreAllIsLogical(sys.db.orders, sys.arc.orders, SetOf(dates), days.orders);
    RestoreAllIsLogical(sys.db.events, sys.arc.events, SetOf(dates), days.events);
  }

  /** Restoring every partition succeeds exactly when the logical tables satisfy the database's own
      constraints, and then the database is the logical tables. */
  lemma FullRestoreIff(sys: System, dates: seq<Date>, days: Days)
    requires Inv(sys, days) && Constraints(sys.db) && Covers(dates, sys.arc)
    ensures RestoreDates(sys.db, sys.arc, dates).Done? <==> Constraints(LogicalDb(sys, days))
    ensures RestoreDates(sys.db, sys.arc, dates).Done? ==>
              RestoreDates(sys.db, sys.arc, dates).db == LogicalDb(sys, days)
  {
    RestoreIff(sys, dates, days);
    RestoredAll(sys, dates, days);
  }

  /** Archive, then restore everything: the database is back to the logical tables it had. */
  lemma ArchiveThenRestore(sys: System, cutoff: int, dates: seq<Date>, days: Days)
    requires Inv(sys, days) && Constraints(LogicalDb(sys, days)) && Constraints(sys.db)
    requires Covers(dates, FullRun(sys, cutoff).arc)
    ensures var after := FullRun(sys, cutoff);
            RestoreDates(after.db, after.arc, dates) == Done(LogicalDb(sys, days))
  {
    var after := FullRun(sys, cutoff);
    FullRunKeepsLogical(sys, cutoff, days);
    UniqueKeysPart(after.db.fills, sys.db.fills);
    UniqueKeysPart(after.db.orders, sys.db.orders);
    UniqueKeysPart(after.db.events, sys.db.events);
    FullRestoreIff(after, dates, days);
  }

  /** A second full restore changes nothing. */
  lemma RestoreIdempotent(sys: System, dates: seq<Date>, days: Days)
    requires Inv(sys, days) && Constraints(sys.db) && Covers(dates, sys.arc)
    requires RestoreDates(sys.db, sys.arc, dates).Done?
    ensures var restored := RestoreDates(sys.db, sys.arc, dates).db;
            RestoreDates(restored, sys.arc, dates) == Done(restored)
  {
    FullRestoreIff(sys, dates, days);
    var full := LogicalDb(sys, days);
    forall kind, d
      ensures LoadFile(full, sys.arc, kind, d) == full
    {
      AlreadyThere(sys, kind, d, days);
    }
    LoadedAgain(full, sys.arc, Fills, dates);
    LoadedAgain(full, sys.arc, Orders, dates);
    LoadedAgain(full, sys.arc, Events, dates);
  }

  lemma {:induction false} LoadedAgain(full: Db, arc: Arc, kind: Kind, dates: seq<Date>)
    requires Constraints(full) && forall d :: d in dates ==> LoadFile(full, arc, kind, d) == full
    ensures Load(full, arc, kind, dates) == Done(full)
  {
    if dates != [] {
      LoadedAgain(full, arc, kind, dates[..|dates| - 1]);
    }
  }

  lemma AlreadyThere(sys: System, kind: Kind, d: Date, days: Days)
    requires Inv(sys, days)
    ensures LoadFile(LogicalDb(sys, days), sys.arc, kind, d) == LogicalDb(sys, days)
  {
    FileAlreadyThere(Of(sys.db, kind), PartitionsOf(sys.arc, kind), d, DayOfKind(days, kind));
  }

  lemma FileAlreadyThere(db: Table, arc: Partitions, d: Date, day: DayMap)
    requires WellPlaced(arc, day)
    ensures InsertAbsent(Logical(db, arc, day), Get(arc, d)) == Logical(db, arc, day)
  {
    var all := Archived(arc, day);
    assert forall id :: id in Get(arc, d) ==> id in all && all[id] == Get(arc, d)[id];
    UnderOverride(Get(arc, d), all, db);
  }

  lemma UnderOverride(file: Table, all: Table, db: Table)
    requires SubTable(file, all)
    ensures file + (all + db) == all + db
  {
  }

  // ---------------------------------------------------------------- the imperative restore

  predicate InRange(d: Date, from: Option<int>, upto: Option<int>) {
    && (from.Some? ==> DayOf(from.value).day <= d.day)
    && (upto.Some? ==> d.day <= DayOf(upto.value).day)
  }

  /** The instant is on a day of the range: from the midnight before its first instant to the midnight
      after its last, either bound left open. */
  predicate InstantIn(at: int, from: Option<int>, upto: Option<int>) {
    && (from.Some? ==> DayStart(from.value) <= at)
    && (upto.Some? ==> at < DayStart(upto.value) + 86_400_000_000)
  }

  lemma RangeByInstants(at: int, from: Option<int>, upto: Option<int>)
    ensures InRange(DayOf(at), from, upto) <==> InstantIn(at, from, upto)
  {
    if from.Some? { DaysByInstants(from.value, at); }
    if upto.Some? { DaysByInstants(upto.value, at); }
  }

  /** Archived rows are in the partition of their own instant. */
  ghost predicate PlacedByInstant(arc: Partitions) {
    forall d, id :: d in arc && id in arc[d] ==> DayOf(arc[d][id].at) == d
  }

  /** Archiving places them so. */
  lemma WritesByInstant(arc: Partitions, rows: Table, done: set<Date>)
    requires PlacedByInstant(arc)
    ensures PlacedByInstant(WrittenOn(arc, rows, done))
  {
    var w: Partitions := WrittenOn(arc, rows, done);
    forall d: Date, id: RowId | d in w && id in w[d] ensures DayOf(w[d][id].at) == d {
      var p := Part(rows, d);
      if d in done && id in p { assert w[d][id] == rows[id]; } else { assert id in arc[d] && w[d][id] == arc[d][id]; }
    }
  }

  /** These are the dates a restore of this range discovers. */
  predicate Discovered(dates: seq<Date>, arc: Arc, from: Option<int>, upto: Option<int>) {
    && (forall d :: d in dates ==> (d in arc.fills || d in arc.orders || d in arc.events) && InRange(d, from, upto))
    && (forall d :: d in arc.fills && InRange(d, from, upto) ==> d in dates)
    && (forall d :: d in arc.orders && InRange(d, from, upto) ==> d in dates)
    && (forall d :: d in arc.events && InRange(d, from, upto) ==> d in dates)
  }

  /** Without bounds every partition is covered. */
  lemma OpenRangeCovers(dates: seq<Date>, arc: Arc)
    requires Discovered(dates, arc, None, None)
    ensures Covers(dates, arc)
  {
  }

  /** Which rows a successful restore of a range leaves in a table: those there before, and the archived
      ones whose instant is on a day of the range. */
  lemma RangeRestoresRows(sys: System, dates: seq<Date>, days: Days, from: Option<int>, upto: Option<int>, kind: Kind,
    id: RowId)
    requires Inv(sys, days) && Constraints(sys.db) && Discovered(dates, sys.arc, from, upto)
    requires PlacedByInstant(PartitionsOf(sys.arc, kind)) && RestoreDates(sys.db, sys.arc, dates).Done?
    ensures WellPlaced(PartitionsOf(sys.arc, kind), DayOfKind(days, kind))
    ensures var archived := Archived(PartitionsOf(sys.arc, kind), DayOfKind(days, kind));
            var after := Of(RestoreDates(sys.db, sys.arc, dates).db, kind);
            && (id in after <==> id in Of(sys.db, kind) || (id in archived && InstantIn(archived[id].at, from, upto)))
            && (id in after ==> after[id] == if id in Of(sys.db, kind) then Of(sys.db, kind)[id] else archived[id])
  {
    var arc, day := PartitionsOf(sys.arc, kind), DayOfKind(days, kind);
    RestoreIff(sys, dates, days);
    ArchivedLookup(arc, day, id);
    if id in Archived(arc, day) { RangeByInstants(Archived(arc, day)[id].at, from, upto); }
  }

  predicate SortedDates(dates: seq<Date>) {
    forall i, j :: 0 <= i < j < |dates| ==> dates[i].day < dates[j].day
  }

  lemma LatestExists(s: set<Date>) returns (m: Date)
    requires s != {}
    ensures m in s && forall d :: d in s ==> d.day <= m.day
  {
    m := AnyElement(s);
    if s - {m} != {} {
      var y := LatestExists(s - {m});
      m := if m.day <= y.day then y else m;
    }
  }

  /** A set of dates in ascending order. */
  method SortDates(s: set<Date>) returns (dates: seq<Date>)
    ensures SetOf(dates) == s && SortedDates(dates)
    decreases s
  {
    if s == {} {
      return [];
    }
    ghost var latest := LatestExists(s);
    var m :| m in s && forall d :: d in s ==> d.day <= m.day;
    var earlier := SortDates(s - {m});
    assert forall i :: 0 <= i < |earlier| ==> earlier[i] in SetOf(earlier);
    dates := earlier + [m];
    assert SetOf(dates) == SetOf(earlier) + {m};
  }

  /** Where each table's id sequence stands: the last id it handed out. */
  datatype Sequences = Sequences(fills: int, orders: int, events: int)

  /** The value a resync gives: the greatest id, or one. */
  predicate Resynced(t: Table, last: int) {
    && last >= 1 && (forall id :: id in t ==> id.n <= last)
    && (last == 1 || RowId(last) in t)
  }

  /** The sequences once the first few resync statements have run. */
  predicate ResyncedUpto(before: Sequences, after: Sequences, db: Db, done: nat) {
    && (if done >= 1 then Resynced(db.fills, after.fills) else after.fills == before.fills)
    && (if done >= 2 then Resynced(db.orders, after.orders) else after.orders == before.orders)
    && (if done >= 3 then Resynced(db.events, after.events) else after.events == before.events)
  }

  method GreatestId(t: Table) returns (last: int)
    ensures Resynced(t, last)
  {
    if t.Keys == {} { return 1; }
    ghost var greatest := ArchiveFiles.GreatestExists(t.Keys);
    var m :| m in t.Keys && forall k :: k in t.Keys ==> k.n <= m.n;
    last := if m.n < 1 then 1 else m.n;
  }

  /** The id of some row of the table now, or of its loaded partitions, is at least this; or this is one. */
  ghost predicate Reached(db: Table, arc: Partitions, dates: seq<Date>, n: int) {
    || n <= 1
    || (exists id :: id in db && n <= id.n)
    || (exists d, id :: d in dates && d in arc && id in arc[d] && n <= id.n)
  }

  /** No partition that was left out holds this id. */
  ghost predicate LeftOutLacks(arc: Partitions, dates: seq<Date>, id: RowId) {
    forall d :: d in arc && d !in dates ==> id !in arc[d]
  }

  /** Every row left out has an id no greater than some id restored. */
  ghost predicate LeftOutReached(db: Table, arc: Partitions, dates: seq<Date>) {
    forall d, id :: d in arc && d !in dates && id in arc[d] ==> Reached(db, arc, dates, id.n)
  }

  lemma RestoredLookup(db: Table, arc: Partitions, dates: seq<Date>, day: DayMap, id: RowId)
    requires WellPlaced(arc, day)
    ensures id in RestoredOn(db, arc, SetOf(dates), day) <==>
            id in db || exists d :: d in dates && d in arc && id in arc[d]
  {
    ArchivedLookup(arc, day, id);
  }

  lemma LogicalLookup(db: Table, arc: Partitions, dates: seq<Date>, day: DayMap, id: RowId)
    requires WellPlaced(arc, day)
    ensures id in Logical(db, arc, day) <==>
            id in RestoredOn(db, arc, SetOf(dates), day) || !LeftOutLacks(arc, dates, id)
  {
    ArchivedLookup(arc, day, id);
    if !LeftOutLacks(arc, dates, id) {
      var d :| d in arc && d !in dates && id in arc[d];
      assert day(id) == d;
    }
  }

  lemma ReachedIff(db: Table, arc: Partitions, dates: seq<Date>, day: DayMap, last: int, n: int)
    requires WellPlaced(arc, day) && Resynced(RestoredOn(db, arc, SetOf(dates), day), last)
    ensures Reached(db, arc, dates, n) <==> n <= last
  {
    var t := RestoredOn(db, arc, SetOf(dates), day);
    forall id: RowId ensures id in t <==> id in db || exists d :: d in dates && d in arc && id in arc[d] {
      RestoredLookup(db, arc, dates, day, id);
    }
    if n <= last && last != 1 {
      assert RowId(last) in t && n <= RowId(last).n;
    }
  }

  /** One table, with the partitions of some dates loaded and its sequence resynced. */
  lemma NextIdInTable(db: Table, arc: Partitions, dates: seq<Date>, day: DayMap, last: int)
    requires WellPlaced(arc, day) && Resynced(RestoredOn(db, arc, SetOf(dates), day), last)
    ensures RowId(last + 1) !in Logical(db, arc, day) <==> LeftOutLacks(arc, dates, RowId(last + 1))
    ensures (forall n :: n > last ==> RowId(n) !in Logical(db, arc, day)) <==> LeftOutReached(db, arc, dates)
  {
    var t := RestoredOn(db, arc, SetOf(dates), day);
    forall id: RowId
      ensures id in Logical(db, arc, day) <==> id in t || !LeftOutLacks(arc, dates, id)
    {
      LogicalLookup(db, arc, dates, day, id);
    }
    forall n: int ensures Reached(db, arc, dates, n) <==> n <= last { ReachedIff(db, arc, dates, day, last, n); }
    AllNewIff(db, arc, dates, day, last);
  }

  lemma AllNewIff(db: Table, arc: Partitions, dates: seq<Date>, day: DayMap, last: int)
    requires WellPlaced(arc, day) && Resynced(RestoredOn(db, arc, SetOf(dates), day), last)
    requires forall id :: id in Logical(db, arc, day) <==>
               id in RestoredOn(db, arc, SetOf(dates), day) || !LeftOutLacks(arc, dates, id)
    requires forall n :: Reached(db, arc, dates, n) <==> n <= last
    ensures (forall n :: n > last ==> RowId(n) !in Logical(db, arc, day)) <==> LeftOutReached(db, arc, dates)
  {
    if LeftOutReached(db, arc, dates) {
      forall n | n > last ensures RowId(n) !in Logical(db, arc, day) {
        assert !Reached(db, arc, dates, RowId(n).n);
        assert LeftOutLacks(arc, dates, RowId(n));
      }
    }
    if forall n :: n > last ==> RowId(n) !in Logical(db, arc, day) {
      forall d, id | d in arc && d !in dates && id in arc[d] ensures Reached(db, arc, dates, id.n) {
        assert !LeftOutLacks(arc, dates, id);
        assert id in Logical(db, arc, day) && id == RowId(id.n);
      }
    }
  }

  /** After a restore of any dates and a resync, of any table: the next id is new exactly when no
      partition left out holds it, and every id to come is new exactly when each row left out has an id
      no greater than some id in the database or in a partition loaded, or one. */
  lemma NextIdNewIff(sys: System, dates: seq<Date>, days: Days, kind: Kind, last: int)
    requires Inv(sys, days) && Constraints(sys.db) && RestoreDates(sys.db, sys.arc, dates).Done?
    requires Resynced(Of(RestoreDates(sys.db, sys.arc, dates).db, kind), last)
    ensures WellPlaced(PartitionsOf(sys.arc, kind), DayOfKind(days, kind))
    ensures var db, arc := Of(sys.db, kind), PartitionsOf(sys.arc, kind);
            var logical := Logical(db, arc, DayOfKind(days, kind));
            && (RowId(last + 1) !in logical <==> LeftOutLacks(arc, dates, RowId(last + 1)))
            && ((forall n :: n > last ==> RowId(n) !in logical) <==> LeftOutReached(db, arc, dates))
  {
    RestoreIff(sys, dates, days);
    NextIdInTable(Of(sys.db, kind), PartitionsOf(sys.arc, kind), dates, DayOfKind(days, kind), last);
  }

  class Restorer {
    var db: Db
    var sequences: Sequences
    const arc: Arc

    constructor (db: Db, sequences: Sequences, arc: Arc)
      ensures this.db == db && this.sequences == sequences && this.arc == arc
    {
      this.db, this.sequences, this.arc := db, sequences, arc;
    }

    /** Three statements, of which the first `upto` succeed. */
    method ResynchronizeSequences(upto: nat) returns (ok: bool)
      modifies this`sequences
      ensures ok == (upto >= 3)
      ensures ResyncedUpto(old(sequences), sequences, db, upto)
    {
      if upto < 1 { return false; }
      var n := GreatestId(db.fills);
      sequences := sequences.(fills := n);
      if upto < 2 { return false; }
      n := GreatestId(db.orders);
      sequences := sequences.(orders := n);
      if upto < 3 { return false; }
      n := GreatestId(db.events);
      sequences := sequences.(events := n);
      ok := true;
    }

    /** All partition dates of any table inside the range, ascending. */
    method DiscoverDatePartitions(from: Option<int>, upto: Option<int>) returns (dates: seq<Date>)
      ensures SortedDates(dates)
      ensures forall d :: d in dates <==>
        (d in arc.fills || d in arc.orders || d in arc.events) && InRange(d, from, upto)
    {
      var found := set d | d in arc.fills.Keys + arc.orders.Keys + arc.events.Keys && InRange(d, from, upto);
      dates := SortDates(found);
      assert forall d :: d in dates <==> d in SetOf(dates);
    }

    /** Insert one table's files in date order, stopping at the first refusal. */
    method LoadTable(kind: Kind, dates: seq<Date>) returns (ok: bool, count: nat)
      modifies this`db
      ensures Load(old(db), arc, kind, dates) == if ok then Done(db) else Failed(db)
      ensures |Of(db, kind)| == |old(Of(db, kind))| + count
    {
      count := 0;
      for i := 0 to |dates|
        invariant Load(old(db), arc, kind, dates[..i]) == Done(db)
        invariant |Of(db, kind)| == |old(Of(db, kind))| + count
      {
        assert dates[..i + 1][..i] == dates[..i];
        var file := Get(PartitionsOf(arc, kind), dates[i]);
        var next := LoadFile(db, arc, kind, dates[i]);
        if !Constraints(next) {
          RefusedEarly(old(db), arc, kind, dates, i);
          return false, count;
        }
        InsertedCount(Of(db, kind), file);
        count := count + |file.Keys - Of(db, kind).Keys|;
        db := next;
      }
      assert dates[..|dates|] == dates;
      ok := true;
    }

    /** Load fills, orders and events of the partitions in range, then resync the sequences, of whose
        statements the first `resyncs` succeed. Nothing in range is no error. */
    method Restore(from: Option<int>, upto: Option<int>, resyncs: nat) returns (ok: bool, dates: seq<Date>)
      modifies this`db, this`sequences
      ensures from.Some? && upto.Some? && from.value > upto.value ==>
                !ok && db == old(db) && sequences == old(sequences)
      ensures !(from.Some? && upto.Some? && from.value > upto.value) ==>
                && SortedDates(dates)
                && (forall d :: d in dates <==>
                      (d in arc.fills || d in arc.orders || d in arc.events) && InRange(d, from, upto))
                && var restored := RestoreDates(old(db), arc, dates);
                   && db == restored.db
                   && ok == (dates == [] || (restored.Done? && resyncs >= 3))
                   && (if dates == [] || restored.Failed? then sequences == old(sequences)
                       else ResyncedUpto(old(sequences), sequences, db, resyncs))
    {
      if from.Some? && upto.Some? && from.value > upto.value {
        return false, [];
      }
      dates := DiscoverDatePartitions(from, upto);
      if |dates| == 0 { return true, dates; }
      var count;
      ok, count := LoadTable(Fills, dates);
      if !ok { return; }
      ok, count := LoadTable(Orders, dates);
      if !ok { return; }
      ok, count := LoadTable(Events, dates);
      if !ok { return; }
      ok := ResynchronizeSequences(resyncs);
    }
  }

  lemma InsertedCount(t: Table, file: Table)
    ensures |InsertAbsent(t, file)| == |t| + |file.Keys - t.Keys|
  {
    assert InsertAbsent(t, file).Keys == t.Keys + (file.Keys - t.Keys);
  }

  lemma FailedStays(db: Db, arc: Arc, kind: Kind, dates: seq<Date>)
    requires dates != [] && Load(db, arc, kind, dates[..|dates| - 1]).Failed?
    ensures Load(db, arc, kind, dates) == Load(db, arc, kind, dates[..|dates| - 1])
  {
  }

  lemma FailsNow(db: Db, arc: Arc, kind: Kind, dates: seq<Date>, so: Db)
    requires dates != [] && Load(db, arc, kind, dates[..|dates| - 1]) == Done(so)
    requires !Constraints(LoadFile(so, arc, kind, dates[|dates| - 1]))
    ensures Load(db, arc, kind, dates) == Failed(so)
  {
  }

  lemma {:induction false} RefusedEarly(db: Db, arc: Arc, kind: Kind, dates: seq<Date>, i: nat)
    requires i < |dates| && Load(db, arc, kind, dates[..i]).Done?
    requires !Constraints(LoadFile(Load(db, arc, kind, dates[..i]).db, arc, kind, dates[i]))
    ensures Load(db, arc, kind, dates) == Failed(Load(db, arc, kind, dates[..i]).db)
  {
    var n := |dates| - 1;
    if i == n {
      FailsNow(db, arc, kind, dates, Load(db, arc, kind, dates[..i]).db);
    } else {
      assert dates[..n][..i] == dates[..i];
      RefusedEarly(db, arc, kind, dates[..n], i);
      FailedStays(db, arc, kind, dates);
    }
  }
}
