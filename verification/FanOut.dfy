/** Fan-out of one master fill: gates, sizing per link, one atomic batch insert under idempotency
    tags, and a non-blocking hand-off to each follower's queue. */
module FanOut {
  import opened Collections
  import opened Sizing

  type AccountId = string

  /** Tags are a digest of fill and follower, taken as injective; other orders carry other text. */
  datatype Tag = CopyTag(fillId: int, follower: AccountId) | OtherTag(text: string)

  datatype Fill = Fill(
    id: int, master: AccountId, brokerOrderId: string, exchange: string, symbol: string,
    side: string, product: string, orderType: string, qty: int, status: string, tag: string,
    price: real, triggerPrice: real, averagePrice: real, payload: Option<PayloadPrices>)

  /** The prices a fill's raw payload names, if it has one that parses; zero where it names none. */
  datatype PayloadPrices = PayloadPrices(price: real, triggerPrice: real)

  datatype Link = Link(follower: AccountId, ratio: Decimal, maxQty: int, status: string, authStatus: string)

  /** A follower-order row. `terminal` is null until the order settles. */
  datatype OrderRow = OrderRow(
    id: int, fillId: int, follower: AccountId, qty: int, lot: int, reason: Reason,
    brokerId: Option<string>, terminal: Option<string>)

  datatype Job = Job(orderId: int, follower: AccountId, fillId: int, tag: Tag, qty: int,
                     exchange: string, symbol: string, side: string, product: string, orderType: string,
                     price: real, triggerPrice: real)

  /** A bounded queue feeding one follower's worker. */
  datatype Channel = Channel(capacity: nat, jobs: seq<Job>)

  datatype DispatchState = Pending | Dispatched | Dead

  datatype World = World(
    orders: map<Tag, OrderRow>,
    nextId: int,
    pool: map<AccountId, Channel>,
    dispatch: map<int, DispatchState>)

  datatype Candidate = Candidate(follower: AccountId, tag: Tag, qty: int, reason: Reason)

  const COMPLETE := "COMPLETE"
  const SKIPPED := "SKIPPED"
  const DEAD_LETTERED := "DEAD_LETTERED"

  // ---------------------------------------------------------------- sizing one link

  function SizeLink(fill: Fill, link: Link, lot: int): Candidate {
    var sized :=
      if link.status == "error" || link.authStatus == "error" then Sized(0, ReasonFollowerInError)
      else if link.status == "pending" || link.authStatus == "pending" then Sized(0, ReasonFollowerPending)
      else CopyQuantity(fill.qty, link.ratio, lot, link.maxQty);
    Candidate(link.follower, CopyTag(fill.id, link.follower), sized.qty, sized.reason)
  }

  predicate HasScaled(links: seq<Link>) {
    exists i :: 0 <= i < |links| && !IsOne(links[i].ratio)
  }

  function SizeLinks(fill: Fill, links: seq<Link>, lot: int): seq<Candidate> {
    seq(|links|, i requires 0 <= i < |links| => SizeLink(fill, links[i], lot))
  }

  // ---------------------------------------------------------------- batch insert

  function NewRow(fill: Fill, c: Candidate, lot: int, id: int): OrderRow {
    OrderRow(id, fill.id, c.follower, c.qty, lot, c.reason, None, None)
  }

  /** Rows after inserting the first candidates; a known tag is skipped, its serial number spent. */
  function InsertBatch(w: World, fill: Fill, cands: seq<Candidate>, lot: int): World {
    if cands == [] then w
    else
      var n := |cands| - 1;
      var so := InsertBatch(w, fill, cands[..n], lot);
      var c := cands[n];
      so.(nextId := so.nextId + 1,
          orders := if c.tag in so.orders then so.orders else so.orders[c.tag := NewRow(fill, c, lot, so.nextId)])
  }

  /** The ids the insert reports: rows that were not there before. */
  function Inserted(before: World, after: World): map<Tag, int> {
    map t | t in after.orders && t !in before.orders :: after.orders[t].id
  }

  // ---------------------------------------------------------------- dispatch

  /** Prices missing on the fill come from its payload; a limit order still without one goes at the
      price the master got. */
  function ExecutionPrice(fill: Fill): real {
    if fill.price > 0.0 then fill.price
    else if fill.payload.Some? && fill.payload.value.price > 0.0 then fill.payload.value.price
    else if fill.orderType == "LIMIT" then fill.averagePrice
    else fill.price
  }

  function TriggerPrice(fill: Fill): real {
    if fill.triggerPrice > 0.0 then fill.triggerPrice
    else if fill.payload.Some? && fill.payload.value.triggerPrice > 0.0 then fill.payload.value.triggerPrice
    else fill.triggerPrice
  }

  function JobFor(fill: Fill, c: Candidate, orderId: int): Job {
    Job(orderId, c.follower, fill.id, c.tag, c.qty, fill.exchange, fill.symbol, fill.side, fill.product,
        fill.orderType, ExecutionPrice(fill), TriggerPrice(fill))
  }

  predicate HasRoom(pool: map<AccountId, Channel>, f: AccountId) {
    f in pool && |pool[f].jobs| < pool[f].capacity
  }

  function Send(pool: map<AccountId, Channel>, f: AccountId, job: Job): map<AccountId, Channel>
    requires f in pool
  {
    pool[f := pool[f].(jobs := pool[f].jobs + [job])]
  }

  /** The pool after a follower is given a new queue: jobs waiting in a replaced one are gone. */
  function Registered(pool: map<AccountId, Channel>, f: AccountId, capacity: nat): map<AccountId, Channel> {
    pool[f := Channel(capacity, [])]
  }

  function Unregistered(pool: map<AccountId, Channel>, f: AccountId): map<AccountId, Channel> {
    pool - {f}
  }

  function SetTerminal(orders: map<Tag, OrderRow>, t: Tag, status: string): map<Tag, OrderRow> {
    if t in orders then orders[t := orders[t].(terminal := Some(status))] else orders
  }

  /** Settling a row the engine will not dispatch; a failed write leaves the row as it is. */
  function Settle(orders: map<Tag, OrderRow>, t: Tag, status: string, faults: set<Tag>): map<Tag, OrderRow> {
    if t in faults then orders else SetTerminal(orders, t, status)
  }

  /** One turn of the dispatch loop; `faults` are the rows whose settling write fails. */
  function DispatchOne(w: World, fill: Fill, inserted: map<Tag, int>, c: Candidate, faults: set<Tag>): World {
    if c.tag !in inserted then w
    else if c.qty == 0 then w.(orders := Settle(w.orders, c.tag, SKIPPED, faults))
    else if HasRoom(w.pool, c.follower) then
      w.(pool := Send(w.pool, c.follower, JobFor(fill, c, inserted[c.tag])))
    else w.(orders := Settle(w.orders, c.tag, DEAD_LETTERED, faults))
  }

  function DispatchAll(w: World, fill: Fill, inserted: map<Tag, int>, cands: seq<Candidate>, faults: set<Tag>): World {
    if cands == [] then w
    else
      var n := |cands| - 1;
      DispatchOne(DispatchAll(w, fill, inserted, cands[..n], faults), fill, inserted, cands[n], faults)
  }

  /** Sizing, insert and dispatch, once the gates are passed. */
  function FanOutTo(w: World, fill: Fill, links: seq<Link>, lot: int, faults: set<Tag>): World {
    var cands := SizeLinks(fill, links, lot);
    var after := InsertBatch(w, fill, cands, lot);
    DispatchAll(after, fill, Inserted(w, after), cands, faults)
  }

  // ---------------------------------------------------------------- pointwise meaning

  datatype Verdict = Duplicate | Skip | DeadLetter | Enqueue

  /** What a fan-out decides for one follower, from that follower's link, row and queue alone. */
  function VerdictFor(w: World, c: Candidate): Verdict {
    if c.tag in w.orders then Duplicate
    else if c.qty == 0 then Skip
    else if HasRoom(w.pool, c.follower) then Enqueue
    else DeadLetter
  }

  predicate DistinctFollowers(links: seq<Link>) {
    forall i, j :: 0 <= i < j < |links| ==> links[i].follower != links[j].follower
  }

  /** Candidates of one fill for distinct followers. */
  predicate Fanned(fill: Fill, cands: seq<Candidate>) {
    && (forall i :: 0 <= i < |cands| ==> cands[i].tag == CopyTag(fill.id, cands[i].follower))
    && (forall i, j :: 0 <= i < j < |cands| ==> cands[i].follower != cands[j].follower)
  }

  lemma LinksFanned(fill: Fill, links: seq<Link>, lot: int)
    requires DistinctFollowers(links)
    ensures Fanned(fill, SizeLinks(fill, links, lot))
  {
  }

  /** What one follower sees of the world: its queue, and its row for this fill. */
  datatype View = View(queue: Option<Channel>, row: Option<OrderRow>)

  function Look(w: World, f: AccountId, t: Tag): View {
    View(if f in w.pool then Some(w.pool[f]) else None, if t in w.orders then Some(w.orders[t]) else None)
  }

  /** Inserting other tags leaves this row; ids are spent one per candidate. */
  lemma {:induction false} InsertFrame(w: World, fill: Fill, cands: seq<Candidate>, lot: int, f: AccountId, t: Tag)
    requires t in w.orders || forall i :: 0 <= i < |cands| ==> cands[i].tag != t
    ensures var after := InsertBatch(w, fill, cands, lot);
            && Look(after, f, t) == Look(w, f, t)
            && after.pool == w.pool && after.nextId == w.nextId + |cands|
  {
    if cands != [] {
      InsertFrame(w, fill, cands[..|cands| - 1], lot, f, t);
    }
  }

  /** An unknown tag gets exactly the row its candidate describes, under a fresh id. */
  lemma {:induction false} InsertAdds(w: World, fill: Fill, cands: seq<Candidate>, lot: int, i: nat)
    requires Fanned(fill, cands) && i < |cands| && cands[i].tag !in w.orders
    ensures var after := InsertBatch(w, fill, cands, lot);
            Look(after, cands[i].follower, cands[i].tag)
            == Look(w, cands[i].follower, cands[i].tag).(row := Some(NewRow(fill, cands[i], lot, w.nextId + i)))
  {
    var n := |cands| - 1;
    if i == n {
      InsertFrame(w, fill, cands[..n], lot, cands[n].follower, cands[n].tag);
    } else {
      InsertAdds(w, fill, cands[..n], lot, i);
    }
  }

  /** One turn, as its own follower sees it. */
  function TurnView(v: View, fill: Fill, inserted: map<Tag, int>, c: Candidate, faults: set<Tag>): View {
    if c.tag !in inserted then v
    else if c.qty == 0 then v.(row := SettledRow(v.row, c.tag, SKIPPED, faults))
    else if v.queue.Some? && |v.queue.value.jobs| < v.queue.value.capacity then
      v.(queue := Some(v.queue.value.(jobs := v.queue.value.jobs + [JobFor(fill, c, inserted[c.tag])])))
    else v.(row := SettledRow(v.row, c.tag, DEAD_LETTERED, faults))
  }

  function SettledRow(row: Option<OrderRow>, t: Tag, status: string, faults: set<Tag>): Option<OrderRow> {
    if row.Some? && t !in faults then Some(row.value.(terminal := Some(status))) else row
  }

  lemma TurnIsView(w: World, fill: Fill, inserted: map<Tag, int>, c: Candidate, faults: set<Tag>, f: AccountId, t: Tag)
    ensures c.follower == f && c.tag == t ==>
      Look(DispatchOne(w, fill, inserted, c, faults), f, t) == TurnView(Look(w, f, t), fill, inserted, c, faults)
    ensures c.follower != f && c.tag != t ==> Look(DispatchOne(w, fill, inserted, c, faults), f, t) == Look(w, f, t)
  {
  }

  /** Dispatching other followers' candidates leaves this follower's queue and row alone. */
  lemma {:induction false} DispatchFrame(w: World, fill: Fill, inserted: map<Tag, int>, cands: seq<Candidate>,
    faults: set<Tag>, f: AccountId, t: Tag)
    requires forall i :: 0 <= i < |cands| ==> cands[i].follower != f && cands[i].tag != t
    ensures Look(DispatchAll(w, fill, inserted, cands, faults), f, t) == Look(w, f, t)
  {
    if cands != [] {
      var n := |cands| - 1;
      DispatchFrame(w, fill, inserted, cands[..n], faults, f, t);
      TurnIsView(DispatchAll(w, fill, inserted, cands[..n], faults), fill, inserted, cands[n], faults, f, t);
    }
  }

  /** The dispatch loop as seen by one follower: only its own turn matters. */
  lemma {:induction false} DispatchAtOne(w: World, fill: Fill, inserted: map<Tag, int>, cands: seq<Candidate>,
    faults: set<Tag>, i: nat)
    requires Fanned(fill, cands) && i < |cands|
    ensures Look(DispatchAll(w, fill, inserted, cands, faults), cands[i].follower, cands[i].tag)
         == TurnView(Look(w, cands[i].follower, cands[i].tag), fill, inserted, cands[i], faults)
  {
    var n := |cands| - 1;
    var so := DispatchAll(w, fill, inserted, cands[..n], faults);
    TurnIsView(so, fill, inserted, cands[n], faults, cands[i].follower, cands[i].tag);
    if i == n {
      DispatchFrame(w, fill, inserted, cands[..n], faults, cands[n].follower, cands[n].tag);
    } else {
      DispatchAtOne(w, fill, inserted, cands[..n], faults, i);
    }
  }

  /** What one follower sees after a fan-out, given only what it saw before. */
  function ViewAfter(w: World, fill: Fill, c: Candidate, lot: int, id: int, faults: set<Tag>): View {
    var v := Look(w, c.follower, c.tag);
    var row := NewRow(fill, c, lot, id);
    match VerdictFor(w, c)
    case Duplicate => v
    case Skip => v.(row := SettledRow(Some(row), c.tag, SKIPPED, faults))
    case DeadLetter => v.(row := SettledRow(Some(row), c.tag, DEAD_LETTERED, faults))
    case Enqueue =>
      assert v.queue.Some?;
      View(Some(v.queue.value.(jobs := v.queue.value.jobs + [JobFor(fill, c, id)])), Some(row))
  }

  lemma InsertedAt(w: World, fill: Fill, cands: seq<Candidate>, lot: int, i: nat)
    requires Fanned(fill, cands) && i < |cands|
    ensures var inserted := Inserted(w, InsertBatch(w, fill, cands, lot));
            && (cands[i].tag in inserted <==> cands[i].tag !in w.orders)
            && (cands[i].tag in inserted ==> inserted[cands[i].tag] == w.nextId + i)
  {
    if cands[i].tag !in w.orders {
      InsertAdds(w, fill, cands, lot, i);
    }
  }

  /** Settlement: after a fan-out each follower's row and queue are what its own link, row and queue
      determine. A new row is skipped exactly when its quantity is zero, dead-lettered exactly when
      its queue is absent or full, and otherwise its job is at the end of its queue; a settling write
      that fails leaves only its own row unmarked. */
  lemma FanOutPointwise(w: World, fill: Fill, links: seq<Link>, lot: int, faults: set<Tag>, i: nat)
    requires DistinctFollowers(links) && i < |links|
    ensures var c := SizeLink(fill, links[i], lot);
            Look(FanOutTo(w, fill, links, lot, faults), c.follower, c.tag) ==
            ViewAfter(w, fill, c, lot, w.nextId + i, faults)
  {
    var cands := SizeLinks(fill, links, lot);
    LinksFanned(fill, links, lot);
    var mid := InsertBatch(w, fill, cands, lot);
    var inserted := Inserted(w, mid);
    var c := cands[i];
    InsertedAt(w, fill, cands, lot, i);
    DispatchAtOne(mid, fill, inserted, cands, faults, i);
    if c.tag in w.orders {
      InsertFrame(w, fill, cands, lot, c.follower, c.tag);
    } else {
      InsertAdds(w, fill, cands, lot, i);
    }
  }

  /** Rows and queues of everyone outside the fan-out are untouched. */
  lemma FanOutTouchesOnlyLinks(w: World, fill: Fill, links: seq<Link>, lot: int, faults: set<Tag>, f: AccountId, t: Tag)
    requires forall i :: 0 <= i < |links| ==> links[i].follower != f && t != CopyTag(fill.id, links[i].follower)
    ensures Look(FanOutTo(w, fill, links, lot, faults), f, t) == Look(w, f, t)
  {
    var cands := SizeLinks(fill, links, lot);
    InsertFrame(w, fill, cands, lot, f, t);
    var mid := InsertBatch(w, fill, cands, lot);
    DispatchFrame(mid, fill, Inserted(w, mid), cands, faults, f, t);
  }

  /** The lot size a fan-out works with: looked up only when some link is scaled. */
  function LotFor(links: seq<Link>, looked: int): int {
    if HasScaled(links) then looked else 0
  }

  /** A view without the serial numbers, and without the row's lot column, which records the
      fan-out's lookup rather than this follower's. */
  function Anonymous(v: View): View {
    View(if v.queue.Some? then Some(v.queue.value.(jobs := Unnumbered(v.queue.value.jobs))) else None,
         if v.row.Some? then Some(v.row.value.(id := 0, lot := 0)) else None)
  }

  function Unnumbered(jobs: seq<Job>): seq<Job> {
    seq(|jobs|, i requires 0 <= i < |jobs| => jobs[i].(orderId := 0))
  }

  lemma UnnumberedAppend(jobs: seq<Job>, a: Job, b: Job)
    requires a.(orderId := 0) == b.(orderId := 0)
    ensures Unnumbered(jobs + [a]) == Unnumbered(jobs + [b])
  {
  }

  lemma ViewsAgree(w1: World, w2: World, fill: Fill, c: Candidate, lot1: int, lot2: int, id1: int, id2: int,
    faults1: set<Tag>, faults2: set<Tag>)
    requires Look(w1, c.follower, c.tag) == Look(w2, c.follower, c.tag) && (c.tag in faults1 <==> c.tag in faults2)
    ensures VerdictFor(w1, c) == VerdictFor(w2, c)
    ensures Anonymous(ViewAfter(w1, fill, c, lot1, id1, faults1)) ==
            Anonymous(ViewAfter(w2, fill, c, lot2, id2, faults2))
  {
    var v := Look(w1, c.follower, c.tag);
    if v.queue.Some? {
      UnnumberedAppend(v.queue.value.jobs, JobFor(fill, c, id1), JobFor(fill, c, id2));
    }
  }

  /** Two worlds that show a follower what these views say show it alike. */
  lemma SameLook(w1: World, w2: World, after1: World, after2: World, fill: Fill, c: Candidate, lot1: int, lot2: int,
    id1: int, id2: int, faults1: set<Tag>, faults2: set<Tag>)
    requires Look(w1, c.follower, c.tag) == Look(w2, c.follower, c.tag) && (c.tag in faults1 <==> c.tag in faults2)
    requires Look(after1, c.follower, c.tag) == ViewAfter(w1, fill, c, lot1, id1, faults1)
    requires Look(after2, c.follower, c.tag) == ViewAfter(w2, fill, c, lot2, id2, faults2)
    ensures VerdictFor(w1, c) == VerdictFor(w2, c)
    ensures Anonymous(Look(after1, c.follower, c.tag)) == Anonymous(Look(after2, c.follower, c.tag))
  {
    ViewsAgree(w1, w2, fill, c, lot1, lot2, id1, id2, faults1, faults2);
  }

  /** The two runs leave one follower alike, its candidate being the same in both. */
  lemma SameView(w1: World, w2: World, fill: Fill, links1: seq<Link>, links2: seq<Link>, lot1: int, lot2: int,
    faults1: set<Tag>, faults2: set<Tag>, i: nat, j: nat, c: Candidate)
    requires DistinctFollowers(links1) && i < |links1| && c == SizeLink(fill, links1[i], lot1)
    requires DistinctFollowers(links2) && j < |links2| && c == SizeLink(fill, links2[j], lot2)
    requires Look(w1, c.follower, c.tag) == Look(w2, c.follower, c.tag) && (c.tag in faults1 <==> c.tag in faults2)
    ensures VerdictFor(w1, c) == VerdictFor(w2, c)
    ensures Anonymous(Look(FanOutTo(w1, fill, links1, lot1, faults1), c.follower, c.tag))
            == Anonymous(Look(FanOutTo(w2, fill, links2, lot2, faults2), c.follower, c.tag))
  {
    FanOutPointwise(w1, fill, links1, lot1, faults1, i);
    FanOutPointwise(w2, fill, links2, lot2, faults2, j);
    SameLook(w1, w2, FanOutTo(w1, fill, links1, lot1, faults1), FanOutTo(w2, fill, links2, lot2, faults2), fill, c,
             lot1, lot2, w1.nextId + i, w2.nextId + j, faults1, faults2);
  }

  /** Two fan-outs of one fill that agree on a follower's link, row, queue and store faults leave that
      follower alike: same quantity, reason, tag and verdict, same row and same queue but for serial
      numbers, whoever else is linked, in whatever order and whatever the other queues hold. */
  lemma FollowerIsolation(w1: World, w2: World, fill: Fill, links1: seq<Link>, links2: seq<Link>, looked: int,
    faults1: set<Tag>, faults2: set<Tag>, i: nat, j: nat)
    requires DistinctFollowers(links1) && DistinctFollowers(links2)
    requires i < |links1| && j < |links2| && links1[i] == links2[j]
    requires var g := links1[i].follower;
             var t := CopyTag(fill.id, g);
             Look(w1, g, t) == Look(w2, g, t) && (t in faults1 <==> t in faults2)
    ensures var lot1, lot2 := LotFor(links1, looked), LotFor(links2, looked);
            var c := SizeLink(fill, links1[i], lot1);
            && c == SizeLink(fill, links2[j], lot2)
            && VerdictFor(w1, c) == VerdictFor(w2, c)
            && Anonymous(Look(FanOutTo(w1, fill, links1, lot1, faults1), c.follower, c.tag))
               == Anonymous(Look(FanOutTo(w2, fill, links2, lot2, faults2), c.follower, c.tag))
  {
    var lot1, lot2 := LotFor(links1, looked), LotFor(links2, looked);
    SameCandidate(fill, links1, links2, looked, i, j);
    var c := SizeLink(fill, links1[i], lot1);
    SameView(w1, w2, fill, links1, links2, lot1, lot2, faults1, faults2, i, j, c);
  }

  /** A follower's size depends on the lot only if its own ratio is scaled, and then both runs have it. */
  lemma SameCandidate(fill: Fill, links1: seq<Link>, links2: seq<Link>, looked: int, i: nat, j: nat)
    requires i < |links1| && j < |links2| && links1[i] == links2[j]
    ensures SizeLink(fill, links1[i], LotFor(links1, looked)) == SizeLink(fill, links2[j], LotFor(links2, looked))
  {
    if !IsOne(links1[i].ratio) {
      assert HasScaled(links1) && HasScaled(links2);
    }
  }

  // ---------------------------------------------------------------- what is copied, column by column

  /** The job trades what the fill traded. */
  predicate SameTrade(job: Job, fill: Fill) {
    && job.exchange == fill.exchange && job.symbol == fill.symbol && job.side == fill.side
    && job.product == fill.product && job.orderType == fill.orderType
  }

  /** The fill's payload names a positive price, or trigger price. */
  predicate PayloadPriced(fill: Fill) {
    fill.payload.Some? && fill.payload.value.price > 0.0
  }

  predicate PayloadTriggered(fill: Fill) {
    fill.payload.Some? && fill.payload.value.triggerPrice > 0.0
  }

  /** The job's price is the fill's if positive, else the payload's if positive, else the price the master
      got for a limit order, else the fill's as it is; its trigger price is the fill's if positive,
      else the payload's if positive, else the fill's as it is. */
  predicate PricedAs(job: Job, fill: Fill) {
    && (fill.price > 0.0 ==> job.price == fill.price)
    && (fill.price <= 0.0 && PayloadPriced(fill) ==> job.price == fill.payload.value.price)
    && (fill.price <= 0.0 && !PayloadPriced(fill) && fill.orderType == "LIMIT" ==> job.price == fill.averagePrice)
    && (fill.price <= 0.0 && !PayloadPriced(fill) && fill.orderType != "LIMIT" ==> job.price == fill.price)
    && (fill.triggerPrice > 0.0 || !PayloadTriggered(fill) ==> job.triggerPrice == fill.triggerPrice)
    && (fill.triggerPrice <= 0.0 && PayloadTriggered(fill) ==> job.triggerPrice == fill.payload.value.triggerPrice)
  }

  lemma JobCopies(fill: Fill, c: Candidate, orderId: int)
    ensures var job := JobFor(fill, c, orderId);
            && SameTrade(job, fill) && PricedAs(job, fill)
            && job.fillId == fill.id && job.follower == c.follower && job.tag == c.tag
            && job.qty == c.qty && job.orderId == orderId
  {
  }

  /** No more than the fill times the ratio, nor than a positive cap. */
  predicate FitsLink(q: int, fill: Fill, link: Link) {
    q * Pow10(link.ratio.scale) <= fill.qty * link.ratio.unscaled && (link.maxQty > 0 ==> q <= link.maxQty)
  }

  /** What a link's own columns say is copied: nothing from a follower in error or pending, the fill capped
      at ratio one, and otherwise, where the division is exact, the greatest lot multiple within the fill
      times the ratio and a positive cap. */
  lemma LinkQuantity(fill: Fill, link: Link, lot: int, other: int)
    ensures var c := SizeLink(fill, link, lot);
            c.follower == link.follower && c.tag == CopyTag(fill.id, link.follower)
    ensures var inError := link.status == "error" || link.authStatus == "error";
            var pending := link.status == "pending" || link.authStatus == "pending";
            var c := SizeLink(fill, link, lot);
            var one := link.ratio.unscaled == Pow10(link.ratio.scale);
            && (inError ==> c.qty == 0 && c.reason == ReasonFollowerInError)
            && (!inError && pending ==> c.qty == 0 && c.reason == ReasonFollowerPending)
            && (!inError && !pending && one ==>
                  && c.qty == (if 0 < link.maxQty < fill.qty then link.maxQty else fill.qty)
                  && c.reason == (if 0 < link.maxQty < fill.qty then ReasonCapped else ReasonOK))
            && (!inError && !pending && !one && Usable(link.ratio, lot) ==>
                  && c.qty % lot == 0 && FitsLink(c.qty, fill, link)
                  && (other % lot == 0 && FitsLink(other, fill, link) ==> other <= c.qty))
  {
    if Usable(link.ratio, lot) { SizeOrderGreatest(fill.qty, link.ratio, lot, link.maxQty, other); }
  }

  /** What a fan-out leaves of one linked follower, on the columns. A known order keeps its row and queue. A
      new one has a row of this fill and follower under the next serial number, skipped when its quantity
      is zero and dead-lettered when there is no queue or no room, unless that write fails; otherwise it
      is open, and the queue ends with one job that trades what the fill traded. */
  lemma CopiedOrder(w: World, fill: Fill, links: seq<Link>, lot: int, faults: set<Tag>, i: nat)
    requires DistinctFollowers(links) && i < |links|
    ensures var g := links[i].follower;
            var t := CopyTag(fill.id, g);
            var w' := FanOutTo(w, fill, links, lot, faults);
            if t in w.orders then Look(w', g, t) == Look(w, g, t)
            else
              t in w'.orders &&
              var row := w'.orders[t];
              && row.id == w.nextId + i && row.fillId == fill.id && row.follower == g && row.brokerId.None?
              && row.lot == lot && row.qty == SizeLink(fill, links[i], lot).qty
              && row.reason == SizeLink(fill, links[i], lot).reason
              && (row.qty == 0 ==>
                    && row.terminal == (if t in faults then None else Some("SKIPPED"))
                    && Look(w', g, t).queue == Look(w, g, t).queue)
              && (row.qty != 0 && !(g in w.pool && |w.pool[g].jobs| < w.pool[g].capacity) ==>
                    && row.terminal == (if t in faults then None else Some("DEAD_LETTERED"))
                    && Look(w', g, t).queue == Look(w, g, t).queue)
              && (row.qty != 0 && g in w.pool && |w.pool[g].jobs| < w.pool[g].capacity ==>
                    row.terminal.None? && g in w'.pool && w'.pool[g].capacity == w.pool[g].capacity &&
                    |w'.pool[g].jobs| == |w.pool[g].jobs| + 1 && w.pool[g].jobs <= w'.pool[g].jobs &&
                    var job := w'.pool[g].jobs[|w.pool[g].jobs|];
                    && SameTrade(job, fill) && PricedAs(job, fill) && job.orderId == row.id && job.qty == row.qty
                    && job.fillId == fill.id && job.follower == g && job.tag == t)
  {
    var c := SizeLink(fill, links[i], lot);
    FanOutPointwise(w, fill, links, lot, faults, i);
    JobCopies(fill, c, w.nextId + i);
    CopiedView(w, FanOutTo(w, fill, links, lot, faults), fill, c, lot, w.nextId + i, faults);
  }

  lemma CopiedView(w: World, w': World, fill: Fill, c: Candidate, lot: int, id: int, faults: set<Tag>)
    requires Look(w', c.follower, c.tag) == ViewAfter(w, fill, c, lot, id, faults)
    ensures c.tag in w.orders ==> Look(w', c.follower, c.tag) == Look(w, c.follower, c.tag)
    ensures c.tag !in w.orders ==>
              c.tag in w'.orders &&
              var row := w'.orders[c.tag];
              && row.id == id && row.fillId == fill.id && row.follower == c.follower && row.brokerId.None?
              && row.lot == lot && row.qty == c.qty && row.reason == c.reason
              && (row.qty == 0 ==> row.terminal == if c.tag in faults then None else Some("SKIPPED"))
              && (row.qty != 0 && !HasRoom(w.pool, c.follower) ==>
                    row.terminal == if c.tag in faults then None else Some("DEAD_LETTERED"))
              && (row.qty == 0 || !HasRoom(w.pool, c.follower) ==>
                    Look(w', c.follower, c.tag).queue == Look(w, c.follower, c.tag).queue)
              && (row.qty != 0 && HasRoom(w.pool, c.follower) ==>
                    && row.terminal.None? && c.follower in w'.pool
                    && w'.pool[c.follower] == Channel(w.pool[c.follower].capacity,
                                                      w.pool[c.follower].jobs + [JobFor(fill, c, id)]))
  {
    assert c.tag in w'.orders <==> Look(w', c.follower, c.tag).row.Some?;
    assert c.follower in w'.pool <==> Look(w', c.follower, c.tag).queue.Some?;
  }
}
