/** Inputs on which archive and restore fall short, reached by runs of their own. */
module ArchiveCases {
  import opened Collections
  import opened Timestamps
  import opened ArchiveTable
  import opened ArchiveRun
  import opened ArchiveRestore

  /** A system with these fills in the database and nothing else anywhere. */
  function WithFills(fills: Table, accounts: set<string>): System {
    System(Db(fills, map[], map[], accounts), Arc(map[], map[], map[]))
  }

  /** Fills alone: all eligible ones go, each to the partition of its day. */
  lemma ArchiveFills(fills: Table, accounts: set<string>, cutoff: int)
    requires forall id :: id in fills ==> FillEligible(fills[id], cutoff)
    ensures FullRun(WithFills(fills, accounts), cutoff) ==
            System(Db(map[], map[], map[], accounts), Arc(WrittenOn(map[], fills, Dates(fills)), map[], map[]))
  {
    var sys := WithFills(fills, accounts);
    var batch := Select(sys.db, cutoff);
    assert batch.orders == map[];
    assert batch.fills == fills;
    assert batch.events == map[];
    assert Dates(map[]) == {};
    assert WrittenOn(map[], map[], {}) == map[];
    assert fills - fills.Keys == map[];
  }

  lemma OneLoad(db: Db, arc: Arc, kind: Kind, d: Date)
    requires Constraints(LoadFile(db, arc, kind, d))
    ensures Load(db, arc, kind, [d]) == Done(LoadFile(db, arc, kind, d))
  {
    assert [d][..0] == [];
    assert Load(db, arc, kind, []) == Done(db);
  }

  lemma OneFileLoads(file: Table, accounts: set<string>, arc: Arc, d: Date)
    requires arc.orders == map[] && arc.events == map[] && d in arc.fills && arc.fills[d] == file
    requires FillsOnly(file) && UniqueKeys(file) && AccountsKnown(file, accounts)
    ensures RestoreDates(Db(map[], map[], map[], accounts), arc, [d]) == Done(Db(file, map[], map[], accounts))
  {
    var db := Db(map[], map[], map[], accounts);
    var loaded := Db(file, map[], map[], accounts);
    assert file + map[] == file;
    assert LoadFile(db, arc, Fills, d) == loaded;
    assert LoadFile(loaded, arc, Orders, d) == loaded;
    assert LoadFile(loaded, arc, Events, d) == loaded;
    OneLoad(db, arc, Fills, d);
    OneLoad(loaded, arc, Orders, d);
    OneLoad(loaded, arc, Events, d);
  }

  predicate FillsOnly(t: Table) {
    forall id :: id in t ==> t[id].FillRow?
  }

  /** Two fills of different days with consecutive ids, archived and purged; restored up to the first day
      only. The resynced sequence stands at the first id, and the next is the second's. */
  lemma PartialRestoreReusesId(a: Row, b: Row, cutoff: int, accounts: set<string>, day: DayMap)
    requires FillEligible(a, cutoff) && FillEligible(b, cutoff) && DayOf(a.at) != DayOf(b.at)
    requires a.id.n >= 1 && b.id.n == a.id.n + 1 && a.accounts <= accounts
    requires day(a.id) == DayOf(a.at) && day(b.id) == DayOf(b.at)
    ensures var after := FullRun(WithFills(map[a.id := a, b.id := b], accounts), cutoff);
            var restored := RestoreDates(after.db, after.arc, [DayOf(a.at)]);
            && restored == Done(Db(map[a.id := a], map[], map[], accounts))
            && Resynced(restored.db.fills, a.id.n)
            && WellPlaced(after.arc.fills, day)
            && RowId(a.id.n + 1) in Logical(restored.db.fills, after.arc.fills, day)
  {
    var fills := map[a.id := a, b.id := b];
    ArchiveFills(fills, accounts, cutoff);
    PartialFrom(a, b, accounts, day, FullRun(WithFills(fills, accounts), cutoff));
  }

  lemma PartialFrom(a: Row, b: Row, accounts: set<string>, day: DayMap, after: System)
    requires a.FillRow? && a.id.n >= 1 && b.id.n == a.id.n + 1 && a.accounts <= accounts && DayOf(a.at) != DayOf(b.at)
    requires day(a.id) == DayOf(a.at) && day(b.id) == DayOf(b.at)
    requires var fills := map[a.id := a, b.id := b];
             var arc := Arc(WrittenOn(map[], fills, Dates(fills)), map[], map[]);
             after == System(Db(map[], map[], map[], accounts), arc)
    ensures var restored := RestoreDates(after.db, after.arc, [DayOf(a.at)]);
            && restored == Done(Db(map[a.id := a], map[], map[], accounts))
            && Resynced(restored.db.fills, a.id.n)
            && WellPlaced(after.arc.fills, day)
            && RowId(a.id.n + 1) in Logical(restored.db.fills, after.arc.fills, day)
  {
    TwoDays(a, b, day);
    OneFileLoads(map[a.id := a], accounts, after.arc, DayOf(a.at));
    SecondIsArchived(a, b, after.arc.fills, day);
  }

  lemma SecondIsArchived(a: Row, b: Row, arc: Partitions, day: DayMap)
    requires WellPlaced(arc, day) && a.id.n >= 1 && b.id.n == a.id.n + 1
    requires DayOf(b.at) in arc && arc[DayOf(b.at)] == map[b.id := b] && day(b.id) == DayOf(b.at)
    ensures Resynced(map[a.id := a], a.id.n) && RowId(a.id.n + 1) in Logical(map[a.id := a], arc, day)
  {
    assert RowId(a.id.n) == a.id && RowId(a.id.n + 1) == b.id;
    ArchivedLookup(arc, day, b.id);
  }

  lemma TwoDays(a: Row, b: Row, day: DayMap)
    requires a.id != b.id && DayOf(a.at) != DayOf(b.at)
    requires day(a.id) == DayOf(a.at) && day(b.id) == DayOf(b.at)
    ensures var fills := map[a.id := a, b.id := b];
            var arc := WrittenOn(map[], fills, Dates(fills));
            && DayOf(a.at) in arc && arc[DayOf(a.at)] == map[a.id := a]
            && DayOf(b.at) in arc && arc[DayOf(b.at)] == map[b.id := b]
            && WellPlaced(arc, day)
  {
    var fills: Table := map[a.id := a, b.id := b];
    assert a.id in fills && b.id in fills;
    assert Part(fills, DayOf(a.at)) == map[a.id := a];
    assert Part(fills, DayOf(b.at)) == map[b.id := b];
    WritesWellPlaced(map[], fills, Dates(fills), day);
  }

  /** A full restore is refused when an archived row shares a unique key with a row inserted since. */
  lemma SharedKeyRefuses(sys: System, dates: seq<Date>, days: Days, old': RowId, new': RowId)
    requires Inv(sys, days) && Constraints(sys.db) && Covers(dates, sys.arc)
    requires old' in Archived(sys.arc.fills, days.fills) && old' !in sys.db.fills && new' in sys.db.fills
    requires !(Archived(sys.arc.fills, days.fills)[old'].keys !! sys.db.fills[new'].keys)
    ensures RestoreDates(sys.db, sys.arc, dates).Failed?
  {
    FullRestoreIff(sys, dates, days);
    var logical := Logical(sys.db.fills, sys.arc.fills, days.fills);
    assert old' in logical && new' in logical && !(logical[old'].keys !! logical[new'].keys);
  }

  /** That is reached: the purge frees a fill's key, the fill is delivered again under a new id, and the
      archived one can then never be restored beside it. */
  lemma RedeliveryBlocksRestore(a: Row, again: Row, cutoff: int, accounts: set<string>, days: Days, dates: seq<Date>)
    requires FillEligible(a, cutoff) && again.FillRow? && again.id != a.id && again.keys == a.keys != {}
    requires a.accounts <= accounts && again.accounts <= accounts
    requires days.fills(a.id) == DayOf(a.at) && days.fills(again.id) == DayOf(again.at) && DayOf(a.at) in dates
    ensures var after := FullRun(WithFills(map[a.id := a], accounts), cutoff);
            var redelivered := after.db.(fills := after.db.fills[again.id := again]);
            && after.db.fills == map[] && Constraints(redelivered)
            && RestoreDates(redelivered, after.arc, dates).Failed?
  {
    var fills: Table := map[a.id := a];
    ArchiveFills(fills, accounts, cutoff);
    OneDay(a, days.fills);
    var arc := Arc(WrittenOn(map[], fills, Dates(fills)), map[], map[]);
    RedeliveredFits(again, accounts);
    RedeliveredRefused(a, again, accounts, days, dates, arc);
  }

  lemma OneDay(a: Row, day: DayMap)
    requires day(a.id) == DayOf(a.at)
    ensures var fills := map[a.id := a];
            && WrittenOn(map[], fills, Dates(fills)) == map[DayOf(a.at) := fills]
            && WellPlaced(map[DayOf(a.at) := fills], day)
  {
    var fills: Table := map[a.id := a];
    assert a.id in fills;
    assert Dates(fills) == {DayOf(a.at)};
    assert Part(fills, DayOf(a.at)) == fills;
    assert Get(map[], DayOf(a.at)) + fills == fills;
    SameMap(WrittenOn(map[], fills, Dates(fills)), map[DayOf(a.at) := fills]);
  }

  lemma RedeliveredFits(again: Row, accounts: set<string>)
    requires again.FillRow? && again.accounts <= accounts
    ensures Constraints(Db(map[again.id := again], map[], map[], accounts))
  {
  }

  lemma RedeliveredRefused(a: Row, again: Row, accounts: set<string>, days: Days, dates: seq<Date>, arc: Arc)
    requires a.FillRow? && again.FillRow? && again.id != a.id && again.keys == a.keys != {}
    requires again.accounts <= accounts && DayOf(a.at) in dates
    requires days.fills(a.id) == DayOf(a.at) && days.fills(again.id) == DayOf(again.at)
    requires arc == Arc(map[DayOf(a.at) := map[a.id := a]], map[], map[])
    ensures RestoreDates(Db(map[again.id := again], map[], map[], accounts), arc, dates).Failed?
  {
    var sys := System(Db(map[again.id := again], map[], map[], accounts), arc);
    RedeliveredFits(again, accounts);
    assert Inv(sys, days);
    ArchivedLookup(arc.fills, days.fills, a.id);
    var k :| k in a.keys;
    SharedKeyRefuses(sys, dates, days, a.id, again.id);
  }
}
