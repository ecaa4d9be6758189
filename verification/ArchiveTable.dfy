/** Timestamps as Parquet stores them: whole microseconds since the epoch. Times are nanoseconds
    since the epoch; integer division truncates toward zero. */
module Timestamps {

  datatype Date = Date(day: int)

  const MICROS_PER_DAY: int := 86_400_000_000
  const TRADING_OFFSET_MICROS: int := 19_800_000_000

  function Quo(a: int, b: int): int
    requires b > 0
  {
    if a < 0 then -(-a / b) else a / b
  }

  function Rem(a: int, b: int): int
    requires b > 0
  {
    a - Quo(a, b) * b
  }

  function TimeToMicros(nanos: int): int {
    Quo(nanos, 1_000)
  }

  /** Seconds and leftover nanoseconds, added back together. */
  function MicrosToTime(micros: int): int {
    Quo(micros, 1_000_000) * 1_000_000_000 + Rem(micros, 1_000_000) * 1_000
  }

  /** Day number in the trading time zone (five and a half hours ahead of UTC). */
  function DayOf(micros: int): Date {
    Date((micros + TRADING_OFFSET_MICROS) / MICROS_PER_DAY)
  }

  /** Midnight, in the trading time zone, of an instant's day. */
  function DayStart(micros: int): int {
    micros - (micros + 19_800_000_000) % 86_400_000_000
  }

  /** A day is the twenty-four hours from a midnight five and a half hours before UTC's: an instant is on
      a day no earlier than another's exactly from that day's midnight on, and no later exactly until
      the next midnight. */
  lemma DaysByInstants(a: int, b: int)
    ensures DayOf(a).day <= DayOf(b).day <==> DayStart(a) <= b
    ensures DayOf(b).day <= DayOf(a).day <==> b < DayStart(a) + 86_400_000_000
    ensures DayOf(a) == DayOf(b) <==> DayStart(a) <= b < DayStart(a) + 86_400_000_000
  {
    var x, y := a + 19_800_000_000, b + 19_800_000_000;
    assert x == 86_400_000_000 * (x / 86_400_000_000) + x % 86_400_000_000;
    assert y == 86_400_000_000 * (y / 86_400_000_000) + y % 86_400_000_000;
  }

  /** Micros survive the trip through a time; a time survives the trip through micros exactly when
      it has microsecond precision, and otherwise moves toward the epoch by under a microsecond. */
  lemma MicrosRoundTrip(micros: int, nanos: int)
    ensures TimeToMicros(MicrosToTime(micros)) == micros
    ensures MicrosToTime(TimeToMicros(nanos)) == nanos <==> nanos % 1_000 == 0
    ensures nanos >= 0 ==> 0 <= nanos - MicrosToTime(TimeToMicros(nanos)) < 1_000
    ensures nanos < 0 ==> -1_000 < nanos - MicrosToTime(TimeToMicros(nanos)) <= 0
  {
    assert MicrosToTime(micros) == micros * 1_000;
    assert MicrosToTime(TimeToMicros(nanos)) == Quo(nanos, 1_000) * 1_000;
  }
}

/** One table split between the database and dated Parquet partitions. */
module ArchiveTable {
  import opened Collections
  import opened Timestamps

  /** A serial primary key. */
  datatype RowId = RowId(n: int)

  /** A value no two rows of a table may share, under one of the table's unique constraints. A row whose
      column is null takes no part in the constraint. */
  datatype UniqueKey = UniqueKey(constraint: string, value: string)

  /** A row of any of the three tables. `at` is the column its partition date comes from (creation,
      receipt, occurrence); `keys` are its values under the table's unique constraints; `accounts` are
      the accounts it references; `payload` is every other column. */
  datatype Row =
    | FillRow(id: RowId, at: int, keys: set<UniqueKey>, accounts: set<string>,
        status: string, dispatchState: string, payload: string)
    | OrderRow(id: RowId, at: int, keys: set<UniqueKey>, accounts: set<string>,
        fill: Option<RowId>, terminal: Option<string>, intendedQty: int, payload: string)
    | EventRow(id: RowId, at: int, keys: set<UniqueKey>, accounts: set<string>,
        order: Option<RowId>, fill: Option<RowId>, payload: string)

  type Table = map<RowId, Row>
  type Partitions = map<Date, Table>

  predicate KeyedById(t: Table) {
    forall id :: id in t ==> t[id].id == id
  }

  /** The trading day of each id's partition timestamp, which never changes. */
  type DayMap = RowId -> Date

  predicate Dated(t: Table, day: DayMap) {
    forall id :: id in t ==> DayOf(t[id].at) == day(id)
  }

  /** Archived rows sit under their own id, in the partition of their day. */
  predicate WellPlaced(arc: Partitions, day: DayMap) {
    forall d, id :: d in arc && id in arc[d] ==> arc[d][id].id == id && day(id) == d
  }

  function ArchivedIds(arc: Partitions): set<RowId> {
    set d, id | d in arc && id in arc[d] :: id
  }

  function Get(arc: Partitions, d: Date): Table {
    if d in arc then arc[d] else map[]
  }

  /** All archived rows as one table. */
  ghost function Archived(arc: Partitions, day: DayMap): (t: Table)
    requires WellPlaced(arc, day)
    ensures t.Keys == ArchivedIds(arc)
    ensures forall d, id :: d in arc && id in arc[d] ==> id in t && t[id] == arc[d][id]
  {
    map id | id in ArchivedIds(arc) :: arc[day(id)][id]
  }

  /** The logical table: archived rows, overridden by database rows of the same id. */
  ghost function Logical(db: Table, arc: Partitions, day: DayMap): Table
    requires WellPlaced(arc, day)
  {
    Archived(arc, day) + db
  }

  // ---------------------------------------------------------------- writing partitions

  /** The rows that belong in partition `d`. */
  function Part(rows: Table, d: Date): Table {
    map id | id in rows && DayOf(rows[id].at) == d :: rows[id]
  }

  function Dates(rows: Table): set<Date> {
    set id | id in rows :: DayOf(rows[id].at)
  }

  /** One atomic file write: new rows replace existing rows of the same id. */
  function WritePartition(arc: Partitions, rows: Table, d: Date): Partitions {
    arc[d := Get(arc, d) + Part(rows, d)]
  }

  function AfterWrites(arc: Partitions, rows: Table, dates: seq<Date>): Partitions {
    if dates == [] then arc
    else WritePartition(AfterWrites(arc, rows, dates[..|dates| - 1]), rows, dates[|dates| - 1])
  }

  /** What the archive holds once the partitions in `done` are written, in whatever order. */
  function WrittenOn(arc: Partitions, rows: Table, done: set<Date>): Partitions {
    map d | d in arc.Keys + done :: if d in done then Get(arc, d) + Part(rows, d) else arc[d]
  }

  lemma WriteOneMore(arc: Partitions, rows: Table, done: set<Date>, d: Date)
    ensures WritePartition(WrittenOn(arc, rows, done), rows, d) == WrittenOn(arc, rows, done + {d})
  {
    MergeTwice(Get(arc, d), Part(rows, d));
    var w, w' := WrittenOn(arc, rows, done), WrittenOn(arc, rows, done + {d});
    assert Get(w, d) + Part(rows, d) == w'[d];
  }

  /** Only which partitions were written matters, not the order or repetitions. */
  lemma {:induction false} AfterWritesUnordered(arc: Partitions, rows: Table, dates: seq<Date>)
    ensures AfterWrites(arc, rows, dates) == WrittenOn(arc, rows, set d | d in dates)
  {
    if dates == [] {
      assert WrittenOn(arc, rows, {}) == arc;
    } else {
      var n := |dates| - 1;
      AfterWritesUnordered(arc, rows, dates[..n]);
      WriteOneMore(arc, rows, (set d | d in dates[..n]), dates[n]);
      assert (set d | d in dates) == (set d | d in dates[..n]) + {dates[n]} by {
        assert dates == dates[..n] + [dates[n]];
      }
    }
  }

  /** Writing on top of an interrupted run gives the same archive as writing once. */
  lemma RewriteAfterStop(arc: Partitions, rows: Table, done: set<Date>, all: set<Date>)
    requires done <= all
    ensures WrittenOn(WrittenOn(arc, rows, done), rows, all) == WrittenOn(arc, rows, all)
  {
    forall d | d in all
      ensures Get(WrittenOn(arc, rows, done), d) + Part(rows, d) == Get(arc, d) + Part(rows, d)
    {
      var p := Part(rows, d);
      MergeTwice(Get(arc, d), p);
    }
  }

  lemma MergeTwice(file: Table, part: Table)
    ensures file + part + part == file + part
  {
  }

  /** Membership in the archive after the writes, one id at a time. */
  lemma WrittenLookup(arc: Partitions, rows: Table, done: set<Date>, day: DayMap, id: RowId)
    requires WellPlaced(arc, day) && KeyedById(rows) && Dated(rows, day)
    ensures var d, w := day(id), WrittenOn(arc, rows, done);
            && (id in Get(w, d) <==> id in Get(arc, d) || (d in done && id in rows))
            && (id in Get(w, d) ==> Get(w, d)[id] == if d in done && id in rows then rows[id] else Get(arc, d)[id])
  {
  }

  lemma WritesWellPlaced(arc: Partitions, rows: Table, done: set<Date>, day: DayMap)
    requires WellPlaced(arc, day) && KeyedById(rows) && Dated(rows, day)
    ensures WellPlaced(WrittenOn(arc, rows, done), day)
  {
    var w: Partitions := WrittenOn(arc, rows, done);
    forall d: Date, id: RowId | d in w && id in w[d]
      ensures w[d][id].id == id && day(id) == d
    {
      var p := Part(rows, d);
      if d in done && id in p {
        assert w[d][id] == rows[id];
      } else {
        assert d in arc && id in arc[d] && w[d][id] == arc[d][id];
        assert day(id) == d;
        assert arc[d][id].id == id;
      }
    }
  }

  lemma ArchivedLookup(arc: Partitions, day: DayMap, id: RowId)
    requires WellPlaced(arc, day)
    ensures id in Archived(arc, day) <==> id in Get(arc, day(id))
    ensures id in Archived(arc, day) ==> Archived(arc, day)[id] == Get(arc, day(id))[id]
  {
    if id in Archived(arc, day) {
      var d :| d in arc && id in arc[d];
    }
  }

  lemma SameUnderOverride(before: Table, after: Table, db: Table)
    requires forall id :: id !in db ==> (id in before <==> id in after)
    requires forall id :: id !in db && id in before ==> after[id] == before[id]
    ensures before + db == after + db
  {
    SameMap(before + db, after + db);
  }

  /** Copying live rows into any set of partitions leaves the logical table as it was. */
  lemma WritesKeepLogical(db: Table, arc: Partitions, rows: Table, done: set<Date>, day: DayMap)
    requires WellPlaced(arc, day) && KeyedById(rows) && Dated(rows, day)
    requires rows.Keys <= db.Keys
    ensures WellPlaced(WrittenOn(arc, rows, done), day)
    ensures Logical(db, WrittenOn(arc, rows, done), day) == Logical(db, arc, day)
  {
    var arc' := WrittenOn(arc, rows, done);
    WritesWellPlaced(arc, rows, done, day);
    var before, after := Archived(arc, day), Archived(arc', day);
    forall id | id !in db
      ensures (id in before <==> id in after) && (id in before ==> after[id] == before[id])
    {
      ArchivedLookup(arc, day, id);
      ArchivedLookup(arc', day, id);
      WrittenLookup(arc, rows, done, day, id);
    }
    SameUnderOverride(before, after, db);
  }

  /** Once all partitions are written, every fetched row is archived as fetched. */
  lemma AllRowsArchived(arc: Partitions, rows: Table, day: DayMap)
    requires WellPlaced(WrittenOn(arc, rows, Dates(rows)), day)
    ensures forall id :: id in rows ==>
      id in Archived(WrittenOn(arc, rows, Dates(rows)), day)
      && Archived(WrittenOn(arc, rows, Dates(rows)), day)[id] == rows[id]
  {
    var arc' := WrittenOn(arc, rows, Dates(rows));
    forall id | id in rows
      ensures id in Archived(arc', day) && Archived(arc', day)[id] == rows[id]
    {
      var d := DayOf(rows[id].at);
      assert d in arc' && id in arc'[d] && arc'[d][id] == rows[id];
    }
  }

  lemma OverrideWithoutIff(archived: Table, db: Table, ids: set<RowId>)
    ensures archived + (db - ids) == archived + db <==>
            forall id :: id in ids && id in db ==> id in archived && archived[id] == db[id]
  {
    var old', new' := archived + db, archived + (db - ids);
    if old' == new' {
      forall id | id in ids && id in db
        ensures id in archived && archived[id] == db[id]
      {
        assert id in old' && old'[id] == db[id] && id in new';
      }
    }
    if forall id :: id in ids && id in db ==> id in archived && archived[id] == db[id] {
      SameMap(old', new');
    }
  }

  /** Deleting database rows keeps the logical table exactly when each deleted row is in the
      archive with the content it had at the moment of deletion. */
  lemma PurgeKeepsLogicalIff(db: Table, arc: Partitions, ids: set<RowId>, day: DayMap)
    requires WellPlaced(arc, day)
    ensures Logical(db - ids, arc, day) == Logical(db, arc, day) <==>
            forall id :: id in ids && id in db ==> id in Archived(arc, day) && Archived(arc, day)[id] == db[id]
  {
    OverrideWithoutIff(Archived(arc, day), db, ids);
  }

  // ---------------------------------------------------------------- restoring partitions

  /** Insert a file's rows, skipping ids already present. */
  function InsertAbsent(db: Table, file: Table): Table {
    file + db
  }

  /** The rows of `all` whose day is in `done`. */
  ghost function OnDays(all: Table, done: set<Date>, day: DayMap): Table {
    map id | id in all && day(id) in done :: all[id]
  }

  /** What the database holds once the partitions dated in `done` are loaded. */
  ghost function RestoredOn(db: Table, arc: Partitions, done: set<Date>, day: DayMap): Table
    requires WellPlaced(arc, day)
  {
    OnDays(Archived(arc, day), done, day) + db
  }

  lemma OneMoreDay(all: Table, db: Table, file: Table, done: set<Date>, d: Date, day: DayMap)
    requires forall id :: id in file <==> id in all && day(id) == d
    requires forall id :: id in file ==> file[id] == all[id]
    ensures OnDays(all, done + {d}, day) + db == file + (OnDays(all, done, day) + db)
  {
    var a, b := OnDays(all, done + {d}, day) + db, file + (OnDays(all, done, day) + db);
    SameMap(a, b);
  }

  lemma RestoreOneMore(db: Table, arc: Partitions, done: set<Date>, d: Date, day: DayMap)
    requires WellPlaced(arc, day)
    ensures RestoredOn(db, arc, done + {d}, day) == InsertAbsent(RestoredOn(db, arc, done, day), Get(arc, d))
  {
    var all, file := Archived(arc, day), Get(arc, d);
    forall id
      ensures id in file <==> id in all && day(id) == d
      ensures id in file ==> file[id] == all[id]
    {
      ArchivedLookup(arc, day, id);
    }
    OneMoreDay(all, db, file, done, d, day);
  }

  /** Loading every partition makes the database the logical table; loading again changes nothing. */
  lemma RestoreAllIsLogical(db: Table, arc: Partitions, done: set<Date>, day: DayMap)
    requires WellPlaced(arc, day) && arc.Keys <= done
    ensures RestoredOn(db, arc, done, day) == Logical(db, arc, day)
    ensures RestoredOn(Logical(db, arc, day), arc, done, day) == Logical(db, arc, day)
  {
    var all := Archived(arc, day);
    forall id | id in all
      ensures day(id) in done
    {
      ArchivedLookup(arc, day, id);
    }
    assert OnDays(all, done, day) == all;
  }
}
