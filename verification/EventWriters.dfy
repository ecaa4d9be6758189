/** Who writes the rows an archive run moves: every writer names an event's fill as the event's order
    does, or names none, so on data this program wrote the purge always commits. */
module EventWriters {
  import opened Collections
  import opened Timestamps
  import opened ArchiveTable
  import opened ArchiveRun
  import opened ArchiveRestore

  /** The fill each order was inserted with, for every order there has been. */
  type Told = map<RowId, Option<RowId>>

  datatype State = State(sys: System, told: Told)

  /** Inserts, updates and deletes the program makes. A worker's event carries its job's order and fill; a
      status event, from the listener or the reconciler, carries the order alone. */
  datatype Write =
    | NewFill(row: Row)
    | ChangeFill(row: Row)
    | NewOrder(row: Row)
    | ChangeOrder(row: Row)
    | WorkerEvent(row: Row)
    | StatusEvent(row: Row)
    | ArchiveStep(cutoff: int)
    | RestoreStep(dates: seq<Date>)

  /** Order ids are not reused, an order's fill never changes, and a worker's job names its order's own
      fill. */
  predicate Enabled(s: State, w: Write) {
    var db := s.sys.db;
    match w
    case NewFill(row) => row.FillRow? && row.id !in db.fills
    case ChangeFill(row) => row.FillRow? && row.id in db.fills
    case NewOrder(row) => row.OrderRow? && row.id !in s.told
    case ChangeOrder(row) =>
      row.OrderRow? && row.id in db.orders && db.orders[row.id].OrderRow? && row.fill == db.orders[row.id].fill
    case WorkerEvent(row) =>
      && row.EventRow? && row.id !in db.events && row.order.Some? && row.order.value in db.orders
      && db.orders[row.order.value].OrderRow? && row.fill == db.orders[row.order.value].fill
    case StatusEvent(row) => row.EventRow? && row.id !in db.events && row.order.Some? && row.fill.None?
    case ArchiveStep(_) => true
    case RestoreStep(_) => true
  }

  /** The tables after a write, if the database takes it. */
  function Written(db: Db, w: Write): Db {
    match w
    case NewFill(row) => db.(fills := db.fills[row.id := row])
    case ChangeFill(row) => db.(fills := db.fills[row.id := row])
    case NewOrder(row) => db.(orders := db.orders[row.id := row])
    case ChangeOrder(row) => db.(orders := db.orders[row.id := row])
    case WorkerEvent(row) => db.(events := db.events[row.id := row])
    case StatusEvent(row) => db.(events := db.events[row.id := row])
    case _ => db
  }

  function Apply(s: State, w: Write): State
    requires Enabled(s, w)
  {
    match w
    case ArchiveStep(cutoff) => s.(sys := FullRun(s.sys, cutoff))
    case RestoreStep(dates) => s.(sys := s.sys.(db := RestoreDates(s.sys.db, s.sys.arc, dates).db))
    case _ =>
      var next := Written(s.sys.db, w);
      if !ForeignKeys(next) then s
      else State(s.sys.(db := next), ToldAfter(s.told, w))
  }

  function ToldAfter(told: Told, w: Write): Told {
    if w.NewOrder? && w.row.OrderRow? then told[w.row.id := w.row.fill] else told
  }

  // ---------------------------------------------------------------- what every copy of a row says

  predicate FillsFit(t: Table) {
    forall id :: id in t ==> t[id].FillRow?
  }

  predicate OrdersFit(t: Table, told: Told) {
    forall id :: id in t ==> t[id].OrderRow? && id in told && t[id].fill == told[id]
  }

  predicate EventsFit(t: Table, told: Told) {
    forall id :: id in t ==>
      && t[id].EventRow?
      && (t[id].order.Some? && t[id].fill.Some? ==> t[id].order.value in told && told[t[id].order.value] == t[id].fill)
  }

  predicate DbFits(db: Db, told: Told) {
    FillsFit(db.fills) && OrdersFit(db.orders, told) && EventsFit(db.events, told) && ForeignKeys(db)
  }

  predicate ArcFits(arc: Arc, told: Told) {
    && (forall d :: d in arc.fills ==> FillsFit(arc.fills[d]))
    && (forall d :: d in arc.orders ==> OrdersFit(arc.orders[d], told))
    && (forall d :: d in arc.events ==> EventsFit(arc.events[d], told))
  }

  predicate Fits(s: State) {
    DbFits(s.sys.db, s.told) && ArcFits(s.sys.arc, s.told)
  }

  lemma FitsMatch(db: Db, told: Told)
    requires DbFits(db, told)
    ensures Kinds(db) && EventsMatchOrders(db)
  {
  }

  /** On data these writers wrote, the purge of every archive run commits. */
  lemma PurgeCommits(db: Db, told: Told, cutoff: int)
    requires DbFits(db, told)
    ensures Purge(db, Select(db, cutoff)) == Without(db, Select(db, cutoff))
    ensures DbFits(Purge(db, Select(db, cutoff)), told)
  {
    FitsMatch(db, told);
    PurgeLeavesNoDangling(db, cutoff);
  }

  lemma ArchivedFits(arc: Arc, db: Db, told: Told, cutoff: int)
    requires DbFits(db, told) && ArcFits(arc, told)
    ensures ArcFits(AllWritten(arc, Select(db, cutoff)), told)
  {
    var batch := Select(db, cutoff);
    forall d | d in AllWritten(arc, batch).fills
      ensures FillsFit(AllWritten(arc, batch).fills[d])
    {
      FillsMerge(Get(arc.fills, d), Part(batch.fills, d));
    }
    forall d | d in AllWritten(arc, batch).orders
      ensures OrdersFit(AllWritten(arc, batch).orders[d], told)
    {
      OrdersMerge(Get(arc.orders, d), Part(batch.orders, d), told);
    }
    forall d | d in AllWritten(arc, batch).events
      ensures EventsFit(AllWritten(arc, batch).events[d], told)
    {
      EventsMerge(Get(arc.events, d), Part(batch.events, d), told);
    }
  }

  lemma FillsMerge(a: Table, b: Table)
    requires FillsFit(a) && FillsFit(b)
    ensures FillsFit(a + b)
  {
  }

  lemma OrdersMerge(a: Table, b: Table, told: Told)
    requires OrdersFit(a, told) && OrdersFit(b, told)
    ensures OrdersFit(a + b, told)
  {
  }

  lemma EventsMerge(a: Table, b: Table, told: Told)
    requires EventsFit(a, told) && EventsFit(b, told)
    ensures EventsFit(a + b, told)
  {
  }

  lemma FileFits(db: Db, arc: Arc, kind: Kind, d: Date, told: Told)
    requires DbFits(db, told) && ArcFits(arc, told) && ForeignKeys(LoadFile(db, arc, kind, d))
    ensures DbFits(LoadFile(db, arc, kind, d), told)
  {
    match kind
    case Fills => FillsMerge(Get(arc.fills, d), db.fills);
    case Orders => OrdersMerge(Get(arc.orders, d), db.orders, told);
    case Events => EventsMerge(Get(arc.events, d), db.events, told);
  }

  lemma {:induction false} LoadFits(db: Db, arc: Arc, kind: Kind, dates: seq<Date>, told: Told)
    requires DbFits(db, told) && ArcFits(arc, told)
    ensures DbFits(Load(db, arc, kind, dates).db, told)
  {
    if dates != [] {
      var init, d := dates[..|dates| - 1], dates[|dates| - 1];
      LoadFits(db, arc, kind, init, told);
      var so := Load(db, arc, kind, init).db;
      if Constraints(LoadFile(so, arc, kind, d)) { FileFits(so, arc, kind, d, told); }
    }
  }

  lemma RestoreFits(db: Db, arc: Arc, dates: seq<Date>, told: Told)
    requires DbFits(db, told) && ArcFits(arc, told)
    ensures DbFits(RestoreDates(db, arc, dates).db, told)
  {
    LoadFits(db, arc, Fills, dates, told);
    var a := Load(db, arc, Fills, dates).db;
    LoadFits(a, arc, Orders, dates, told);
    LoadFits(Load(a, arc, Orders, dates).db, arc, Events, dates, told);
  }

  lemma ToldGrows(sys: System, told: Told, id: RowId, fill: Option<RowId>)
    requires Fits(State(sys, told)) && id !in told
    ensures Fits(State(sys, told[id := fill]))
  {
  }

  lemma WriteFits(s: State, w: Write)
    requires Fits(s) && Enabled(s, w) && !w.ArchiveStep? && !w.RestoreStep?
    ensures Fits(Apply(s, w))
  {
    var next := Written(s.sys.db, w);
    if ForeignKeys(next) {
      if w.NewOrder? {
        ToldGrows(s.sys, s.told, w.row.id, w.row.fill);
      }
    }
  }

  lemma StepFits(s: State, w: Write)
    requires Fits(s) && Enabled(s, w)
    ensures Fits(Apply(s, w))
  {
    match w
    case ArchiveStep(cutoff) =>
      PurgeCommits(s.sys.db, s.told, cutoff);
      ArchivedFits(s.sys.arc, s.sys.db, s.told, cutoff);
    case RestoreStep(dates) => RestoreFits(s.sys.db, s.sys.arc, dates, s.told);
    case _ => WriteFits(s, w);
  }

  predicate IsRun(run: seq<State>, writes: seq<Write>, accounts: set<string>) {
    && |run| == |writes| + 1
    && run[0] == State(System(Db(map[], map[], map[], accounts), Arc(map[], map[], map[])), map[])
    && (forall i :: 0 <= i < |writes| ==> Enabled(run[i], writes[i]) && run[i + 1] == Apply(run[i], writes[i]))
  }

  lemma {:induction false} RunFits(run: seq<State>, writes: seq<Write>, accounts: set<string>, k: nat)
    requires IsRun(run, writes, accounts) && k < |run|
    ensures Fits(run[k])
  {
    if k > 0 {
      var i := k - 1;
      RunFits(run, writes, accounts, i);
      assert Enabled(run[i], writes[i]) && run[i + 1] == Apply(run[i], writes[i]);
      StepFits(run[i], writes[i]);
    }
  }

  /** In every run of the program's writers, archive runs and restores, from empty tables on, every purge
      commits: no event it keeps names a fill it deletes. */
  lemma EveryPurgeCommits(run: seq<State>, writes: seq<Write>, accounts: set<string>, k: nat, cutoff: int)
    requires IsRun(run, writes, accounts) && k < |run|
    ensures var db := run[k].sys.db;
            && Purge(db, Select(db, cutoff)) == Without(db, Select(db, cutoff))
            && ForeignKeys(Purge(db, Select(db, cutoff)))
  {
    RunFits(run, writes, accounts, k);
    PurgeCommits(run[k].sys.db, run[k].told, cutoff);
  }
}
