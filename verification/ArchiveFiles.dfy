/** Partition files as row lists, and the loops that group, merge and write them. */
module ArchiveFiles {
  import opened Collections
  import opened Timestamps
  import opened ArchiveTable

  type Files = map<Date, seq<Row>>

  /** A row list as a table; a later row replaces an earlier one of the same id. */
  function RowMap(rows: seq<Row>): Table {
    if rows == [] then map[]
    else var last := rows[|rows| - 1]; RowMap(rows[..|rows| - 1])[last.id := last]
  }

  predicate SortedById(rows: seq<Row>) {
    forall i, j :: 0 <= i < j < |rows| ==> rows[i].id.n < rows[j].id.n
  }

  function Contents(files: Files): Partitions {
    map d | d in files :: RowMap(files[d])
  }

  /** The rows of one trading day, in their original order. */
  function OnDay(rows: seq<Row>, d: Date): seq<Row> {
    if rows == [] then []
    else
      var last := rows[|rows| - 1];
      OnDay(rows[..|rows| - 1], d) + (if DayOf(last.at) == d then [last] else [])
  }

  lemma {:induction false} RowMapKeyed(rows: seq<Row>)
    ensures KeyedById(RowMap(rows))
    ensures forall r :: r in rows ==> r.id in RowMap(rows)
    ensures forall id :: id in RowMap(rows) ==> RowMap(rows)[id] in rows
  {
    if rows != [] {
      RowMapKeyed(rows[..|rows| - 1]);
      assert rows == rows[..|rows| - 1] + [rows[|rows| - 1]];
    }
  }

  lemma RowMapAppend(rows: seq<Row>, r: Row)
    ensures RowMap(rows + [r]) == RowMap(rows)[r.id := r]
  {
    assert (rows + [r])[..|rows|] == rows;
  }

  lemma OnDayAppend(rows: seq<Row>, r: Row, d: Date)
    ensures OnDay(rows + [r], d) == OnDay(rows, d) + (if DayOf(r.at) == d then [r] else [])
  {
    assert (rows + [r])[..|rows|] == rows;
  }

  lemma {:induction false} OnDayMembers(rows: seq<Row>, d: Date)
    ensures forall r :: r in OnDay(rows, d) <==> r in rows && DayOf(r.at) == d
  {
    if rows != [] {
      OnDayMembers(rows[..|rows| - 1], d);
      assert rows == rows[..|rows| - 1] + [rows[|rows| - 1]];
    }
  }

  /** In a list sorted by id, the last row comes after all others. */
  lemma LastIsGreatest(rows: seq<Row>, r: Row)
    requires SortedById(rows) && rows != [] && r in rows[..|rows| - 1]
    ensures r.id.n < rows[|rows| - 1].id.n
  {
    var i :| 0 <= i < |rows| - 1 && rows[i] == r;
  }

  lemma SortedAppend(rows: seq<Row>, r: Row)
    requires SortedById(rows) && forall q :: q in rows ==> q.id.n < r.id.n
    ensures SortedById(rows + [r])
  {
  }

  lemma {:induction false} OnDaySorted(rows: seq<Row>, d: Date)
    requires SortedById(rows)
    ensures SortedById(OnDay(rows, d))
  {
    if rows != [] {
      var init, last := rows[..|rows| - 1], rows[|rows| - 1];
      OnDaySorted(init, d);
      OnDayMembers(init, d);
      forall q | q in OnDay(init, d)
        ensures q.id.n < last.id.n
      {
        LastIsGreatest(rows, q);
      }
      SortedAppend(OnDay(init, d), last);
    }
  }

  /** Taking one day's rows of a list with distinct ids is taking that day's part of its table. */
  lemma {:induction false} OnDayIsPart(rows: seq<Row>, d: Date)
    requires SortedById(rows)
    ensures RowMap(OnDay(rows, d)) == Part(RowMap(rows), d)
  {
    if rows != [] {
      var init, last := rows[..|rows| - 1], rows[|rows| - 1];
      OnDayIsPart(init, d);
      RowMapKeyed(init);
      if last.id in RowMap(init) {
        LastIsGreatest(rows, RowMap(init)[last.id]);
      }
      RowMapAppend(OnDay(init, d), last);
      assert OnDay(init, d) + [] == OnDay(init, d);
      PartOfOneMore(RowMap(init), last, d);
    }
  }

  lemma PartOfOneMore(t: Table, r: Row, d: Date)
    requires r.id !in t
    ensures Part(t[r.id := r], d) == if DayOf(r.at) == d then Part(t, d)[r.id := r] else Part(t, d)
  {
    var a := Part(t[r.id := r], d);
    var b := if DayOf(r.at) == d then Part(t, d)[r.id := r] else Part(t, d);
    SameMap(a, b);
  }

  method GroupRowsByDate(rows: seq<Row>) returns (byDate: Files)
    ensures forall d :: d in byDate ==> byDate[d] == OnDay(rows, d) && byDate[d] != []
    ensures forall d :: d !in byDate ==> OnDay(rows, d) == []
  {
    byDate := map[];
    for i := 0 to |rows|
      invariant forall d :: d in byDate ==> byDate[d] == OnDay(rows[..i], d) && byDate[d] != []
      invariant forall d :: d !in byDate ==> OnDay(rows[..i], d) == []
    {
      var r := rows[i];
      assert rows[..i + 1] == rows[..i] + [r];
      forall d' { OnDayAppend(rows[..i], r, d'); }
      var d := DayOf(r.at);
      byDate := byDate[d := (if d in byDate then byDate[d] else []) + [r]];
    }
    assert rows[..|rows|] == rows;
  }

  lemma GreatestExists(ids: set<RowId>) returns (m: RowId)
    requires ids != {}
    ensures m in ids && forall k :: k in ids ==> k.n <= m.n
  {
    m := AnyElement(ids);
    if ids - {m} != {} {
      var y := GreatestExists(ids - {m});
      m := if m.n <= y.n then y else m;
    }
  }

  /** Lay a table out as a list sorted by id. */
  method SortedRows(t: Table) returns (rows: seq<Row>)
    requires KeyedById(t)
    ensures SortedById(rows)
    ensures RowMap(rows) == t
    decreases t.Keys
  {
    if t.Keys == {} {
      return [];
    }
    ghost var greatest := GreatestExists(t.Keys);
    var m :| m in t.Keys && forall k :: k in t.Keys ==> k.n <= m.n;
    rows := SortedRows(t - {m});
    AppendGreatest(t, m, rows);
    rows := rows + [t[m]];
  }

  lemma AppendGreatest(t: Table, m: RowId, rows: seq<Row>)
    requires KeyedById(t) && m in t && forall k :: k in t.Keys ==> k.n <= m.n
    requires SortedById(rows) && RowMap(rows) == t - {m}
    ensures SortedById(rows + [t[m]]) && RowMap(rows + [t[m]]) == t
  {
    RowMapKeyed(rows);
    forall q | q in rows
      ensures q.id.n < t[m].id.n
    {
      assert q.id in t - {m};
    }
    SortedAppend(rows, t[m]);
    RowMapAppend(rows, t[m]);
    PutBack(t, m);
  }

  lemma PutBack(t: Table, m: RowId)
    requires m in t
    ensures (t - {m})[m := t[m]] == t
  {
  }

  /** Put each row into the map under its id, in list order. */
  method Overlay(base: Table, rows: seq<Row>) returns (m: Table)
    ensures m == base + RowMap(rows)
  {
    m := base;
    for i := 0 to |rows|
      invariant m == base + RowMap(rows[..i])
    {
      RowMapAppend(rows[..i], rows[i]);
      assert rows[..i + 1] == rows[..i] + [rows[i]];
      m := m[rows[i].id := rows[i]];
    }
    assert rows[..|rows|] == rows;
  }

  /** Rewrite one partition file: existing rows, then new rows over them, sorted by id. */
  method WriteParquetWithMerge(existing: Option<seq<Row>>, newRows: seq<Row>) returns (merged: seq<Row>)
    requires SortedById(newRows)
    ensures SortedById(merged)
    ensures RowMap(merged) == (if existing.Some? then RowMap(existing.value) else map[]) + RowMap(newRows)
  {
    if existing.None? {
      return newRows;
    }
    var m := Overlay(map[], existing.value);
    m := Overlay(m, newRows);
    RowMapKeyed(existing.value);
    RowMapKeyed(newRows);
    merged := SortedRows(m);
  }

  /** Merge one day's group into its partition file. */
  method WriteOnePartition(files: Files, d: Date, group: seq<Row>, ghost rows: seq<Row>) returns (written: Files)
    requires SortedById(rows) && group == OnDay(rows, d)
    ensures Contents(written) == WritePartition(Contents(files), RowMap(rows), d)
  {
    OnDayIsPart(rows, d);
    OnDaySorted(rows, d);
    var file := WriteParquetWithMerge(if d in files then Some(files[d]) else None, group);
    OneFileWritten(files, d, file, RowMap(rows));
    written := files[d := file];
  }

  /** Group a table's rows by day and merge each group into its partition, in any order. */
  method WriteTablePartitions(files: Files, rows: seq<Row>) returns (written: Files)
    requires SortedById(rows)
    ensures Contents(written) == WrittenOn(Contents(files), RowMap(rows), Dates(RowMap(rows)))
  {
    var byDate := GroupRowsByDate(rows);
    written := files;
    var todo := byDate.Keys;
    ghost var done: set<Date> := {};
    ghost var base, t := Contents(files), RowMap(rows);
    NothingWritten(base, t);
    while todo != {}
      invariant todo <= byDate.Keys && done == byDate.Keys - todo
      invariant Contents(written) == WrittenOn(base, t, done)
      decreases todo
    {
      var d :| d in todo;
      written := WriteOnePartition(written, d, byDate[d], rows);
      WriteOneMore(base, t, done, d);
      todo, done := todo - {d}, done + {d};
    }
    DatesOfRows(rows, byDate);
  }

  lemma NothingWritten(arc: Partitions, rows: Table)
    ensures WrittenOn(arc, rows, {}) == arc
  {
  }

  lemma OneFileWritten(files: Files, d: Date, file: seq<Row>, rows: Table)
    requires RowMap(file) == Get(Contents(files), d) + Part(rows, d)
    ensures Contents(files[d := file]) == WritePartition(Contents(files), rows, d)
  {
  }

  lemma DatesOfRows(rows: seq<Row>, byDate: Files)
    requires forall d :: d in byDate ==> byDate[d] == OnDay(rows, d) && byDate[d] != []
    requires forall d :: d !in byDate ==> OnDay(rows, d) == []
    requires SortedById(rows)
    ensures byDate.Keys == Dates(RowMap(rows))
  {
    var t := RowMap(rows);
    forall d | d in byDate.Keys
      ensures d in Dates(t)
    {
      OnDayIsPart(rows, d);
      RowMapKeyed(byDate[d]);
      var r := byDate[d][0];
      assert r.id in Part(t, d);
    }
    forall d | d in Dates(t)
      ensures d in byDate.Keys
    {
      var id :| id in t && DayOf(t[id].at) == d;
      OnDayIsPart(rows, d);
      assert id in Part(t, d);
    }
  }
}
