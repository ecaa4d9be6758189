/** Follower order updates: the fallback chain by broker id, by tag, then direct insert, racing the
    worker's own write of the broker id. */
module StatusUpdates {
  import opened Collections
  import opened FanOut

  datatype RowId = RowId(n: int)

  /** A stored follower order, as the status and reconciler statements see it. */
  datatype Row = Row(follower: AccountId, tag: Tag, brokerId: Option<string>, terminal: Option<string>, filled: int,
    qty: int, createdAt: int)

  type Rows = map<RowId, Row>

  /** An update from a postback or the reconciler, handled at time `at`; not every broker echoes the tag. */
  datatype Update = Update(follower: AccountId, brokerId: string, tag: Option<Tag>, status: string, filled: int,
    qty: int, at: int)

  datatype StoreResult = Updated(rows: Rows) | NotFound | Rejected

  // ---------------------------------------------------------------- the store's statements

  predicate Holds(r: Row, brokerId: string) {
    r.brokerId == Some(brokerId)
  }

  /** Empty text is stored as null by the tag update and the direct insert. */
  function Noted(text: string): Option<string> {
    if text == "" then None else Some(text)
  }

  /** Unique index on (follower, broker id). */
  predicate TakenByOther(rows: Rows, id: RowId, follower: AccountId, brokerId: string) {
    exists other :: other in rows && other != id && rows[other].follower == follower && Holds(rows[other], brokerId)
  }

  /** By broker id alone, whoever's order it is, and storing even an empty status. */
  function SetStatus(rows: Rows, brokerId: string, status: string, filled: int): StoreResult {
    if exists id :: id in rows && Holds(rows[id], brokerId) then
      Updated(map id | id in rows ::
                if Holds(rows[id], brokerId) then rows[id].(terminal := Some(status), filled := filled) else rows[id])
    else NotFound
  }

  function UpdateStatus(rows: Rows, u: Update): StoreResult {
    SetStatus(rows, u.brokerId, u.status, u.filled)
  }

  predicate TagMatch(r: Row, u: Update) {
    u.tag.Some? && r.follower == u.follower && r.tag == u.tag.value
  }

  function UpdateByTag(rows: Rows, u: Update): StoreResult {
    if !exists id :: id in rows && TagMatch(rows[id], u) then NotFound
    else if exists id :: id in rows && TagMatch(rows[id], u) && TakenByOther(rows, id, u.follower, u.brokerId)
    then Rejected
    else
      Updated(map id | id in rows ::
                if TagMatch(rows[id], u)
                then rows[id].(brokerId := Noted(u.brokerId), terminal := Noted(u.status), filled := u.filled)
                else rows[id])
  }

  function ExtTag(brokerId: string): Tag {
    OtherTag("ext-" + brokerId)
  }

  function DirectTag(u: Update): Tag {
    if u.tag.Some? then u.tag.value else ExtTag(u.brokerId)
  }

  predicate OwnHolder(r: Row, u: Update) {
    r.follower == u.follower && u.brokerId != "" && Holds(r, u.brokerId)
  }

  /** Insert, or update the row already holding this follower's broker id; a known tag is refused. */
  function InsertDirect(rows: Rows, id: RowId, u: Update): StoreResult {
    if exists r :: r in rows && OwnHolder(rows[r], u) then
      Updated(map r | r in rows ::
                if OwnHolder(rows[r], u) then rows[r].(terminal := Noted(u.status), filled := u.filled) else rows[r])
    else if exists r :: r in rows && rows[r].tag == DirectTag(u) then Rejected
    else Updated(rows[id := DirectRow(u)])
  }

  /** An order placed by hand: its quantity is the update's, or what was filled. */
  function DirectRow(u: Update): Row {
    Row(u.follower, DirectTag(u), Noted(u.brokerId), Noted(u.status), u.filled,
        if u.qty <= 0 then u.filled else u.qty, u.at)
  }

  /** The worker's write after the broker accepted; refused by the index when the id is taken. */
  function UpdatePlaced(rows: Rows, id: RowId, brokerId: string): Rows {
    if id !in rows || TakenByOther(rows, id, rows[id].follower, brokerId) then rows
    else rows[id := rows[id].(brokerId := Some(brokerId))]
  }

  // ---------------------------------------------------------------- one update, start to end

  /** The fallback chain when nothing runs in between: the last statement it comes to. A tag update that
      fails for any reason falls through to the direct insert. */
  function Chain(rows: Rows, u: Update, newId: RowId): StoreResult {
    var byId := UpdateStatus(rows, u);
    var byTag := if u.tag.Some? then UpdateByTag(rows, u) else NotFound;
    if byId.Updated? then byId else if byTag.Updated? then byTag else InsertDirect(rows, newId, u)
  }

  function HandleUpdate(rows: Rows, u: Update, newId: RowId): Rows {
    var result := Chain(rows, u, newId);
    if result.Updated? then result.rows else rows
  }

  class FollowerStatusConsumer {
    var rows: Rows

    constructor (rows: Rows)
      ensures this.rows == rows
    {
      this.rows := rows;
    }

    /** Try by broker id, then by tag, then insert; a duplicate direct insert is ignored. */
    method Handle(u: Update, newId: RowId) returns (applied: bool)
      requires newId !in rows
      modifies this
      ensures applied == Chain(old(rows), u, newId).Updated?
      ensures rows == HandleUpdate(old(rows), u, newId)
    {
      var result := UpdateStatus(rows, u);
      if result.NotFound? {
        if u.tag.Some? {
          result := UpdateByTag(rows, u);
        }
        if !result.Updated? {
          result := InsertDirect(rows, newId, u);
        }
      }
      applied := result.Updated?;
      if applied {
        rows := result.rows;
      }
    }
  }

  // ---------------------------------------------------------------- what one update writes

  predicate HeldSomewhere(rows: Rows, u: Update) {
    exists r :: r in rows && rows[r].brokerId == Some(u.brokerId)
  }

  predicate TaggedSomewhere(rows: Rows, u: Update) {
    exists r :: r in rows && NamedBy(rows[r], u)
  }

  /** This follower's order of the update's tag. */
  predicate NamedBy(r: Row, u: Update) {
    u.tag.Some? && r.follower == u.follower && r.tag == u.tag.value
  }

  predicate TagUsed(rows: Rows, tag: Tag) {
    exists r :: r in rows && rows[r].tag == tag
  }

  /** Which rows an update writes and what they then hold. Rows of the broker id get status and filled
      quantity; if there are none, this follower's order of the tag gets the broker id as well; if there
      is none, a new row holds all of the update, unless its tag is in use. Nothing else changes. */
  lemma HandleWrites(rows: Rows, u: Update, newId: RowId)
    requires newId !in rows
    ensures var after := HandleUpdate(rows, u, newId);
            var brokerId := if u.brokerId == "" then None else Some(u.brokerId);
            var status := if u.status == "" then None else Some(u.status);
            var tag := if u.tag.Some? then u.tag.value else OtherTag("ext-" + u.brokerId);
            if HeldSomewhere(rows, u) then
              after == map r | r in rows ::
                if rows[r].brokerId == Some(u.brokerId)
                then rows[r].(terminal := Some(u.status), filled := u.filled) else rows[r]
            else if TaggedSomewhere(rows, u) then
              after == map r | r in rows ::
                if NamedBy(rows[r], u)
                then rows[r].(brokerId := brokerId, terminal := status, filled := u.filled) else rows[r]
            else if TagUsed(rows, tag) then after == rows
            else
              after == rows[newId := Row(u.follower, tag, brokerId, status, u.filled,
                                         if u.qty <= 0 then u.filled else u.qty, u.at)]
  {
    if HeldSomewhere(rows, u) {
      var r :| r in rows && rows[r].brokerId == Some(u.brokerId);
      assert Holds(rows[r], u.brokerId);
    } else if TaggedSomewhere(rows, u) {
      var r :| r in rows && NamedBy(rows[r], u);
      assert TagMatch(rows[r], u);
    }
  }

  /** The direct insert coming late: rows the follower got meanwhile under that broker id take the status
      and filled quantity, and no row is added. */
  lemma LateInsertWrites(rows: Rows, u: Update, newId: RowId, r: RowId)
    requires r in rows && rows[r].follower == u.follower && rows[r].brokerId == Some(u.brokerId) && u.brokerId != ""
    ensures var result := InsertDirect(rows, newId, u);
            var status := if u.status == "" then None else Some(u.status);
            result == Updated(map k | k in rows ::
              if rows[k].follower == u.follower && rows[k].brokerId == Some(u.brokerId)
              then rows[k].(terminal := status, filled := u.filled) else rows[k])
  {
    assert OwnHolder(rows[r], u);
  }

  // ---------------------------------------------------------------- every interleaving

  /** The copy-trade order the broker accepted once. */
  datatype Order = Order(id: RowId, follower: AccountId, tag: Tag, brokerId: string)

  datatype HandlerId = HandlerId(n: nat)

  /** A handler's next statement. */
  datatype Stage = ById | ByTag | Direct

  datatype Handler = Handler(update: Update, stage: Stage)

  datatype State = State(rows: Rows, handlers: map<HandlerId, Handler>)

  datatype Event =
    | WorkerWrites(id: RowId, brokerId: string)
    | Arrives(h: HandlerId, update: Update)
    | Runs(h: HandlerId, newId: RowId)
    | Fails(id: RowId, status: string)

  /** An update of this very order, with its tag or with none. */
  predicate Own(o: Order, u: Update) {
    u.brokerId == o.brokerId
  }

  /** This order's updates name its follower and carry its tag or none; every other order has another
      broker id and other tags. */
  predicate Honest(o: Order, u: Update) {
    if Own(o, u) then u.follower == o.follower && (u.tag.None? || u.tag == Some(o.tag))
    else u.tag != Some(o.tag) && u.tag != Some(ExtTag(o.brokerId))
  }

  /** Workers write only rows of copied orders, each the id its own broker call returned. */
  predicate Enabled(s: State, o: Order, e: Event) {
    match e
    case WorkerWrites(id, brokerId) =>
      (id == o.id <==> brokerId == o.brokerId) && (id in s.rows ==> s.rows[id].tag.CopyTag?)
    case Arrives(h, u) => h !in s.handlers && Honest(o, u)
    case Runs(h, newId) => h in s.handlers && newId !in s.rows
    case Fails(id, _) => id in s.rows
  }

  /** What the handler's next statement does. */
  function Statement(s: State, h: HandlerId, newId: RowId): StoreResult
    requires h in s.handlers
  {
    var u := s.handlers[h].update;
    match s.handlers[h].stage
    case ById => UpdateStatus(s.rows, u)
    case ByTag => UpdateByTag(s.rows, u)
    case Direct => InsertDirect(s.rows, newId, u)
  }

  /** Where it goes on if that changed nothing. */
  function Next(handler: Handler): Option<Stage> {
    match handler.stage
    case ById => Some(if handler.update.tag.Some? then ByTag else Direct)
    case ByTag => Some(Direct)
    case Direct => None
  }

  function Advance(s: State, h: HandlerId, result: StoreResult): State
    requires h in s.handlers
  {
    var next := Next(s.handlers[h]);
    if result.Updated? then State(result.rows, s.handlers - {h})
    else if next.None? then State(s.rows, s.handlers - {h})
    else State(s.rows, s.handlers[h := s.handlers[h].(stage := next.value)])
  }

  function Apply(s: State, o: Order, e: Event): State
    requires Enabled(s, o, e)
  {
    match e
    case WorkerWrites(id, brokerId) => s.(rows := UpdatePlaced(s.rows, id, brokerId))
    case Arrives(h, u) => s.(handlers := s.handlers[h := Handler(u, ById)])
    case Runs(h, newId) => Advance(s, h, Statement(s, h, newId))
    case Fails(id, status) => s.(rows := s.rows[id := s.rows[id].(terminal := Some(status))])
  }

  /** The order's own row: the only one with its tag. */
  predicate Rooted(rows: Rows, o: Order) {
    && o.tag.CopyTag? && o.brokerId != ""
    && o.id in rows && rows[o.id].follower == o.follower && rows[o.id].tag == o.tag
    && (rows[o.id].brokerId.None? || Holds(rows[o.id], o.brokerId))
    && (forall r :: r in rows && r != o.id ==> rows[r].tag != o.tag)
  }

  /** No other row holds its broker id. */
  predicate OneRow(rows: Rows, o: Order) {
    Rooted(rows, o) && forall r :: r in rows && r != o.id ==> !Holds(rows[r], o.brokerId)
  }

  /** A row inserted for the untagged update holds the broker id, and the order's own row does not. */
  predicate StrayRow(rows: Rows, o: Order, stray: RowId) {
    && Rooted(rows, o) && rows[o.id].brokerId.None?
    && stray in rows && stray != o.id && rows[stray].follower == o.follower
    && rows[stray].tag == ExtTag(o.brokerId) && Holds(rows[stray], o.brokerId)
    && (forall r :: r in rows && r != stray ==> !Holds(rows[r], o.brokerId) && rows[r].tag != ExtTag(o.brokerId))
  }

  /** Handlers are honest, and one of this order's at the direct insert carries no tag. */
  predicate HandlersFit(handlers: map<HandlerId, Handler>, o: Order) {
    && (forall h :: h in handlers ==> Honest(o, handlers[h].update))
    && (forall h :: h in handlers && handlers[h].stage.ByTag? ==> handlers[h].update.tag.Some?)
  }

  predicate NoTaggedDirect(handlers: map<HandlerId, Handler>, o: Order) {
    forall h :: h in handlers && Own(o, handlers[h].update) && handlers[h].stage.Direct? ==>
      handlers[h].update.tag.None?
  }

  /** An untagged update of this order reaches the direct insert before any row holds the broker id. */
  predicate Overtakes(s: State, o: Order, e: Event)
    requires Enabled(s, o, e)
  {
    && e.Runs? && Own(o, s.handlers[e.h].update) && s.handlers[e.h].stage.Direct?
    && (forall r :: r in s.rows ==> !Holds(s.rows[r], o.brokerId) && s.rows[r].tag != DirectTag(s.handlers[e.h].update))
  }

  /** A completed write of this order's broker id: the worker's, or a statement of one of its updates. */
  predicate Settles(s: State, o: Order, e: Event)
    requires Enabled(s, o, e)
  {
    (e.WorkerWrites? && e.brokerId == o.brokerId)
    || (e.Runs? && Own(o, s.handlers[e.h].update) && Statement(s, e.h, e.newId).Updated?)
  }

  lemma ExtTagsDiffer(a: string, b: string)
    ensures ExtTag(a) == ExtTag(b) ==> a == b
  {
    assert ("ext-" + a)[4..] == a && ("ext-" + b)[4..] == b;
  }

  // ---------------------------------------------------------------- one statement

  predicate Foreign(s: State, o: Order, h: HandlerId) {
    && h in s.handlers && Honest(o, s.handlers[h].update) && !Own(o, s.handlers[h].update)
    && (s.handlers[h].stage.ByTag? ==> s.handlers[h].update.tag.Some?)
  }

  /** Another order's statement leaves this order's row exactly as it was, and gives nobody its id. */
  lemma ForeignStatement(s: State, o: Order, h: HandlerId, newId: RowId)
    requires OneRow(s.rows, o) && Foreign(s, o, h) && newId !in s.rows
    ensures var result := Statement(s, h, newId);
            result.Updated? ==> OneRow(result.rows, o) && result.rows[o.id] == s.rows[o.id]
  {
    ExtTagsDiffer(s.handlers[h].update.brokerId, o.brokerId);
  }

  lemma ForeignPastStray(s: State, o: Order, h: HandlerId, newId: RowId, stray: RowId)
    requires StrayRow(s.rows, o, stray) && Foreign(s, o, h) && newId !in s.rows
    ensures var result := Statement(s, h, newId);
            result.Updated? ==> StrayRow(result.rows, o, stray)
  {
    ExtTagsDiffer(s.handlers[h].update.brokerId, o.brokerId);
  }

  predicate OwnHandler(s: State, o: Order, h: HandlerId) {
    && h in s.handlers && Honest(o, s.handlers[h].update) && Own(o, s.handlers[h].update)
    && (s.handlers[h].stage.ByTag? ==> s.handlers[h].update.tag.Some?)
    && (s.handlers[h].stage.Direct? ==> s.handlers[h].update.tag.None?)
  }

  /** A statement of this order's own update, while no row is stray: it writes the order's row, or finds
      nothing, or is the untagged insert that overtakes. */
  lemma OwnStatement(s: State, o: Order, h: HandlerId, newId: RowId)
    requires OneRow(s.rows, o) && OwnHandler(s, o, h) && newId !in s.rows
    ensures var result := Statement(s, h, newId);
            if Overtakes(s, o, Runs(h, newId)) then result.Updated? && StrayRow(result.rows, o, newId)
            else
              && (result.Updated? ==>
                    && OneRow(result.rows, o) && Holds(result.rows[o.id], o.brokerId)
                    && (s.handlers[h].update.status != "" ==> result.rows[o.id].terminal.Some?))
              && (s.handlers[h].stage.ByTag? ==> result.Updated?)
  {
    var u := s.handlers[h].update;
    match s.handlers[h].stage
    case ById =>
    case ByTag => assert TagMatch(s.rows[o.id], u);
    case Direct =>
      if Holds(s.rows[o.id], o.brokerId) { assert OwnHolder(s.rows[o.id], u); }
  }

  /** Once a stray row holds the broker id, this order's own updates only ever reach that row. */
  lemma OwnPastStray(s: State, o: Order, h: HandlerId, newId: RowId, stray: RowId)
    requires StrayRow(s.rows, o, stray) && h in s.handlers && newId !in s.rows
    requires Honest(o, s.handlers[h].update) && Own(o, s.handlers[h].update)
    requires s.handlers[h].stage.ByTag? ==> s.handlers[h].update.tag.Some?
    ensures var result := Statement(s, h, newId);
            && (result.Updated? ==> StrayRow(result.rows, o, stray))
            && (s.handlers[h].stage.ByTag? ==> result == Rejected)
  {
    var u := s.handlers[h].update;
    assert OwnHolder(s.rows[stray], u);
    if s.handlers[h].stage.ByTag? { assert TagMatch(s.rows[o.id], u); }
  }

  // ---------------------------------------------------------------- one step

  lemma HandlersKept(s: State, o: Order, e: Event)
    requires HandlersFit(s.handlers, o) && Enabled(s, o, e)
    ensures HandlersFit(Apply(s, o, e).handlers, o)
  {
  }

  predicate InStep(s: State, o: Order) {
    OneRow(s.rows, o) && HandlersFit(s.handlers, o) && NoTaggedDirect(s.handlers, o)
  }

  /** While nothing overtakes: one row for the order, which no completed write fails to give the broker id
      and nothing takes it from. */
  lemma StepKeeps(s: State, o: Order, e: Event)
    requires InStep(s, o) && Enabled(s, o, e) && !Overtakes(s, o, e)
    ensures var s' := Apply(s, o, e);
            && InStep(s', o)
            && (Holds(s.rows[o.id], o.brokerId) || Settles(s, o, e) ==> Holds(s'.rows[o.id], o.brokerId))
  {
    if e.Runs? {
      if Own(o, s.handlers[e.h].update) {
        OwnStatement(s, o, e.h, e.newId);
      } else {
        ForeignStatement(s, o, e.h, e.newId);
      }
    }
  }

  predicate OwnNonBlank(handlers: map<HandlerId, Handler>, o: Order) {
    forall h :: h in handlers && Own(o, handlers[h].update) ==> handlers[h].update.status != ""
  }

  /** With a status in each of this order's updates, a completed update settles it, and settled it stays. */
  lemma StepSettles(s: State, o: Order, e: Event)
    requires InStep(s, o) && Enabled(s, o, e) && !Overtakes(s, o, e) && OwnNonBlank(s.handlers, o)
    ensures var s' := Apply(s, o, e);
            s.rows[o.id].terminal.Some? || (e.Runs? && Settles(s, o, e)) ==>
              o.id in s'.rows && s'.rows[o.id].terminal.Some?
  {
    StepKeeps(s, o, e);
    if e.Runs? {
      if Own(o, s.handlers[e.h].update) {
        OwnStatement(s, o, e.h, e.newId);
      } else {
        ForeignStatement(s, o, e.h, e.newId);
      }
    }
  }

  lemma OvertakingStrays(s: State, o: Order, e: Event)
    requires InStep(s, o) && Enabled(s, o, e) && Overtakes(s, o, e)
    ensures StrayRow(Apply(s, o, e).rows, o, e.newId)
  {
    OwnStatement(s, o, e.h, e.newId);
  }

  /** A stray row is for good: every later write of the broker id reaches it or is refused. */
  lemma StrayStays(s: State, o: Order, e: Event, stray: RowId)
    requires StrayRow(s.rows, o, stray) && HandlersFit(s.handlers, o) && Enabled(s, o, e)
    ensures StrayRow(Apply(s, o, e).rows, o, stray)
  {
    if e.Runs? {
      if Own(o, s.handlers[e.h].update) {
        OwnPastStray(s, o, e.h, e.newId, stray);
      } else {
        ForeignPastStray(s, o, e.h, e.newId, stray);
      }
    }
  }

  // ---------------------------------------------------------------- every run

  predicate IsRun(run: seq<State>, events: seq<Event>, o: Order) {
    && |run| == |events| + 1
    && OneRow(run[0].rows, o) && run[0].handlers == map[]
    && (forall i :: 0 <= i < |events| ==> Enabled(run[i], o, events[i]) && run[i + 1] == Apply(run[i], o, events[i]))
  }

  /** The rows holding a broker id. */
  function Holders(rows: Rows, brokerId: string): set<RowId> {
    set id | id in rows && Holds(rows[id], brokerId)
  }

  /** No untagged update has overtaken the first write of the broker id. */
  predicate NoneOvertook(run: seq<State>, events: seq<Event>, o: Order, k: nat)
    requires IsRun(run, events, o) && k < |run|
  {
    forall i :: 0 <= i < k ==> !Overtakes(run[i], o, events[i])
  }

  lemma {:induction false} RunKeeps(run: seq<State>, events: seq<Event>, o: Order, k: nat)
    requires IsRun(run, events, o) && k < |run|
    ensures HandlersFit(run[k].handlers, o)
    ensures NoneOvertook(run, events, o, k) ==>
              && InStep(run[k], o)
              && forall i :: 0 <= i < k && Settles(run[i], o, events[i]) ==> Holds(run[k].rows[o.id], o.brokerId)
    ensures !NoneOvertook(run, events, o, k) ==> exists stray :: StrayRow(run[k].rows, o, stray)
  {
    if k > 0 {
      var i := k - 1;
      RunKeeps(run, events, o, i);
      assert Enabled(run[i], o, events[i]) && run[i + 1] == Apply(run[i], o, events[i]);
      HandlersKept(run[i], o, events[i]);
      if !NoneOvertook(run, events, o, i) {
        var stray :| StrayRow(run[i].rows, o, stray);
        StrayStays(run[i], o, events[i], stray);
        assert StrayRow(run[k].rows, o, stray);
      } else if Overtakes(run[i], o, events[i]) {
        OvertakingStrays(run[i], o, events[i]);
        assert StrayRow(run[k].rows, o, events[i].newId);
      } else {
        StepKeeps(run[i], o, events[i]);
      }
    }
  }

  /** Exactly when the order keeps a single row. In every interleaving of the worker's write with any
      number of updates, tagged or not, and of other orders' traffic: the broker id is in no row but the
      order's own if and only if no untagged direct insert ran before a row held it. Otherwise a
      second row has it for good, and the order's own row never gets it. */
  lemma OneRowIff(run: seq<State>, events: seq<Event>, o: Order, k: nat)
    requires IsRun(run, events, o) && k < |run|
    ensures Holders(run[k].rows, o.brokerId) <= {o.id} <==> NoneOvertook(run, events, o, k)
    ensures !NoneOvertook(run, events, o, k) ==>
              exists stray :: stray != o.id && Holders(run[k].rows, o.brokerId) == {stray}
  {
    RunKeeps(run, events, o, k);
    if !NoneOvertook(run, events, o, k) {
      var stray :| StrayRow(run[k].rows, o, stray);
      assert stray in Holders(run[k].rows, o.brokerId);
      assert Holders(run[k].rows, o.brokerId) == {stray};
    }
  }

  /** Each update of this order that arrived carries its tag. */
  predicate Tagged(events: seq<Event>, o: Order, k: nat)
    requires k <= |events|
  {
    forall i :: 0 <= i < k && events[i].Arrives? && Own(o, events[i].update) ==> events[i].update.tag == Some(o.tag)
  }

  predicate OwnTagged(handlers: map<HandlerId, Handler>, o: Order) {
    forall h :: h in handlers && Own(o, handlers[h].update) ==> handlers[h].update.tag.Some?
  }

  lemma {:induction false} TaggedNeverOvertake(run: seq<State>, events: seq<Event>, o: Order, k: nat)
    requires IsRun(run, events, o) && k < |run| && Tagged(events, o, k)
    ensures NoneOvertook(run, events, o, k) && OwnTagged(run[k].handlers, o)
  {
    if k > 0 {
      var i := k - 1;
      TaggedNeverOvertake(run, events, o, i);
      RunKeeps(run, events, o, i);
      assert Enabled(run[i], o, events[i]) && run[i + 1] == Apply(run[i], o, events[i]);
      assert !Overtakes(run[i], o, events[i]);
    }
  }

  /** With the tag on each of this order's updates: never a second row, and from the first completed
      write on exactly one row, the order's own, holds the broker id. */
  lemma ExactlyOneRow(run: seq<State>, events: seq<Event>, o: Order, k: nat)
    requires IsRun(run, events, o) && k < |run| && Tagged(events, o, k)
    ensures Holders(run[k].rows, o.brokerId) <= {o.id}
    ensures (exists i :: 0 <= i < k && Settles(run[i], o, events[i])) ==> Holders(run[k].rows, o.brokerId) == {o.id}
  {
    TaggedNeverOvertake(run, events, o, k);
    RunKeeps(run, events, o, k);
  }

  /** Each update of this order that arrived has a status. */
  predicate NonBlank(events: seq<Event>, o: Order, k: nat)
    requires k <= |events|
  {
    forall i :: 0 <= i < k && events[i].Arrives? && Own(o, events[i].update) ==> events[i].update.status != ""
  }

  /** And from the first completed update on the order is settled, if none of its updates is blank. */
  lemma {:induction false} SettledForGood(run: seq<State>, events: seq<Event>, o: Order, k: nat)
    requires IsRun(run, events, o) && k < |run| && NoneOvertook(run, events, o, k) && NonBlank(events, o, k)
    ensures o.id in run[k].rows && OwnNonBlank(run[k].handlers, o)
    ensures forall i :: 0 <= i < k && events[i].Runs? && Settles(run[i], o, events[i]) ==>
              run[k].rows[o.id].terminal.Some?
  {
    RunKeeps(run, events, o, k);
    if k > 0 {
      var i := k - 1;
      SettledForGood(run, events, o, i);
      RunKeeps(run, events, o, i);
      assert Enabled(run[i], o, events[i]) && run[i + 1] == Apply(run[i], o, events[i]);
      StepSettles(run[i], o, events[i]);
    }
  }

  /** A tag update without a status erases one: the worker's failure mark is gone after it. */
  lemma BlankErases(rows: Rows, o: Order, u: Update)
    requires OneRow(rows, o) && Own(o, u) && Honest(o, u) && u.tag.Some? && u.status == ""
    ensures UpdateByTag(rows, u).Updated? && UpdateByTag(rows, u).rows[o.id].terminal.None?
  {
    assert TagMatch(rows[o.id], u);
  }

  // ---------------------------------------------------------------- broker ids across followers

  /** The status update goes by broker id alone. An update of another follower's order changes this row
      exactly when the two brokers gave out the same id, this row holds it, and a column differs; and
      then the update stops there, so its own follower gets no row for it. */
  lemma ForeignStatusHitsIff(rows: Rows, o: Order, u: Update, newId: RowId)
    requires Rooted(rows, o) && u.follower != o.follower && newId !in rows
    ensures var result := UpdateStatus(rows, u);
            result.Updated? && result.rows[o.id] != rows[o.id] <==>
            Holds(rows[o.id], u.brokerId) && (rows[o.id].terminal != Some(u.status) || rows[o.id].filled != u.filled)
    ensures Holds(rows[o.id], u.brokerId) ==>
              && HandleUpdate(rows, u, newId).Keys == rows.Keys
              && forall r :: r in rows && !Holds(rows[r], u.brokerId) ==> HandleUpdate(rows, u, newId)[r] == rows[r]
  {
  }

  // ---------------------------------------------------------------- an update that overtakes

  /** The untagged update arrives, finds no row by its id, and inserts one. */
  function Overtaking(u: Update, h: HandlerId, newId: RowId): seq<Event> {
    [Arrives(h, u), Runs(h, newId), Runs(h, newId)]
  }

  function OvertakingRun(rows: Rows, u: Update, h: HandlerId, newId: RowId): seq<State> {
    [State(rows, map[]), State(rows, map[h := Handler(u, ById)]), State(rows, map[h := Handler(u, Direct)]),
     State(rows[newId := DirectRow(u)], map[])]
  }

  /** From any rows in which the worker has not written yet: an untagged update of the order runs to its
      end, and the broker id is in its new row and not in the order's own. */
  lemma OvertakingHappens(rows: Rows, o: Order, u: Update, h: HandlerId, newId: RowId)
    requires OneRow(rows, o) && rows[o.id].brokerId.None? && newId !in rows
    requires Own(o, u) && Honest(o, u) && u.tag.None? && forall r :: r in rows ==> rows[r].tag != ExtTag(o.brokerId)
    ensures var run, events := OvertakingRun(rows, u, h, newId), Overtaking(u, h, newId);
            && IsRun(run, events, o) && Overtakes(run[2], o, events[2])
            && Holders(run[3].rows, o.brokerId) == {newId} && newId != o.id
  {
    var run, events := OvertakingRun(rows, u, h, newId), Overtaking(u, h, newId);
    assert Apply(run[0], o, events[0]) == run[1];
    assert UpdateStatus(rows, u).NotFound?;
    assert map[h := Handler(u, ById)][h := Handler(u, Direct)] == map[h := Handler(u, Direct)];
    assert Apply(run[1], o, events[1]) == run[2];
    assert map[h := Handler(u, Direct)] - {h} == map[];
    assert Apply(run[2], o, events[2]) == run[3];
  }
}
