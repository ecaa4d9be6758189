/** The follower goroutines of a group rebalance over one shared order book: reads, single cancels,
    single placements and merges, interleaved in any order. */
module GroupRun {
  import opened Collections
  import opened OrderBook
  import opened Positions
  import opened Rebalance
  import opened GroupRebalance
  import Sizing
  import Text
  import SquareOff
  import SquareOffFlat
  import RebalanceConverges

  /** What one follower's store and broker calls answer, panics aside. */
  datatype Plan = Plan(accounts: Option<seq<Account>>, masterBroker: bool, followerBroker: bool, masterRead: bool,
    followerRead: bool, followerBrokerAgain: bool, tag: string, faults: Faults)

  datatype Setup = Setup(cfg: Config, master: UserId, lots: map<Listing, int>, plans: map<UserId, Plan>)

  /** Where a follower's goroutine is. */
  datatype Job =
    | Waiting
    | Diffed(ds: seq<Drift>)
    | Cancelling(ds: seq<Drift>, ids: seq<OrderId>, i: nat, n: nat)
    | Placing(ds: seq<Drift>, j: nat, t: Tally)
    | Ended(ds: seq<Drift>, outcome: FollowerEnd)
    | Merged(ds: seq<Drift>, outcome: FollowerEnd)

  datatype State = State(book: Book, jobs: map<UserId, Job>, result: GroupResult, merged: seq<UserId>)

  datatype Event =
    | Diff(u: UserId, ds: seq<Drift>)
    | ListOpen(u: UserId)
    | CancelNext(u: UserId)
    | PlaceNext(u: UserId)
    | Panic(u: UserId)
    | MergeIn(u: UserId)

  function ContextIn(setup: Setup, b: Book, plan: Plan): Context {
    Context(plan.accounts, plan.masterBroker, plan.followerBroker,
            if plan.masterRead then Some(HeldIn(b, setup.master)) else None,
            plan.followerRead, plan.followerBrokerAgain)
  }

  /** Why the account's rebalance places nothing, given its diff. */
  function RefusedIn(c: Context, ds: seq<Drift>): Option<Refusal> {
    if DiffGate(c).Some? then DiffGate(c)
    else if !c.accounts.value[0].enabled then Some(Disabled)
    else if ds != [] && !c.followerBrokerAgain then Some(FollowerBrokerLost)
    else None
  }

  /** A follower's rebalance goes ahead exactly for an enabled account whose diff can be made, with its
      broker still there if the diff is not empty; a disabled one is refused as such whatever its diff. */
  lemma GoesAheadIff(c: Context, ds: seq<Drift>)
    ensures var readable := c.masterBroker && c.followerBroker && c.master.Some? && c.followerRead;
            var linked := c.accounts.Some? && c.accounts.value != [] && c.accounts.value[0].linkedFollower;
            && (RefusedIn(c, ds) == None <==>
                linked && readable && c.accounts.value[0].enabled && (ds == [] || c.followerBrokerAgain))
            && (RefusedIn(c, ds) == Some(Disabled) <==> linked && readable && !c.accounts.value[0].enabled)
  {
  }

  /** The list is the diff of this follower on this book; with no diff made, nothing. */
  ghost predicate IsDiff(setup: Setup, b: Book, u: UserId, ds: seq<Drift>)
    requires u in setup.plans
  {
    var c := ContextIn(setup, b, setup.plans[u]);
    if DiffGate(c).Some? then ds == []
    else IsDrifts(ds, c.accounts.value[0], setup.lots, c.master.value, HeldIn(b, u))
  }

  predicate Running(s: State, setup: Setup, u: UserId) {
    u in s.jobs && u in setup.plans
  }

  ghost predicate Enabled(setup: Setup, s: State, e: Event) {
    && Running(s, setup, e.u)
    && match e
       case Diff(u, ds) => s.jobs[u].Waiting? && IsDiff(setup, s.book, u, ds)
       case ListOpen(u) => s.jobs[u].Diffed?
       case CancelNext(u) => s.jobs[u].Cancelling? && s.jobs[u].i <= |s.jobs[u].ids|
       case PlaceNext(u) => s.jobs[u].Placing? && s.jobs[u].j <= |s.jobs[u].ds|
       case Panic(u) => !s.jobs[u].Ended? && !s.jobs[u].Merged?
       case MergeIn(u) => s.jobs[u].Ended?
  }

  function AfterDiff(setup: Setup, b: Book, u: UserId, ds: seq<Drift>): Job
    requires u in setup.plans
  {
    var refused := RefusedIn(ContextIn(setup, b, setup.plans[u]), ds);
    if refused.Some? then Ended(ds, Erred(AccountFailed(u, refused.value)))
    else if ds == [] then Ended(ds, Finished(0, [], []))
    else Diffed(ds)
  }

  function AfterList(plan: Plan, b: Book, u: UserId, ds: seq<Drift>): Job {
    if plan.faults.openOrders then Placing(ds, 0, Tally(0, [], []))
    else Cancelling(ds, OpenDrifting(b.orders, IdsOf(b.userOrders, u), ds), 0, 0)
  }

  /** One cancel, or on to placing when there are none left. */
  function AfterCancel(plan: Plan, b: Book, job: Job): (Book, Job)
    requires job.Cancelling? && job.i <= |job.ids|
  {
    if job.i == |job.ids| then (b, Placing(job.ds, 0, Tally(job.n, [], [])))
    else if job.ids[job.i] in plan.faults.cancels then (b, job.(i := job.i + 1))
    else
      var (after, outcome) := EndOrder(b, job.ids[job.i], Cancel);
      (after, job.(i := job.i + 1, n := if outcome.Accepted? then job.n + 1 else job.n))
  }

  /** One placement, or the end when there are none left. */
  function AfterPlace(cfg: Config, plan: Plan, b: Book, u: UserId, job: Job): (Book, Job)
    requires job.Placing? && job.j <= |job.ds|
  {
    if job.j == |job.ds| then (b, Ended(job.ds, EndOf(u, job.t)))
    else
      var (after, t) := PlaceDrift(cfg, b, job.t, u, job.ds[job.j], plan.tag, plan.faults.places);
      (after, job.(j := job.j + 1, t := t))
  }

  ghost function Apply(setup: Setup, s: State, e: Event): State
    requires Enabled(setup, s, e)
  {
    var plan := setup.plans[e.u];
    match e
    case Diff(u, ds) => s.(jobs := s.jobs[u := AfterDiff(setup, s.book, u, ds)])
    case ListOpen(u) => s.(jobs := s.jobs[u := AfterList(plan, s.book, u, s.jobs[u].ds)])
    case CancelNext(u) =>
      var (b, job) := AfterCancel(plan, s.book, s.jobs[u]);
      s.(book := b, jobs := s.jobs[u := job])
    case PlaceNext(u) =>
      var (b, job) := AfterPlace(setup.cfg, plan, s.book, u, s.jobs[u]);
      s.(book := b, jobs := s.jobs[u := job])
    case Panic(u) => s.(jobs := s.jobs[u := Ended([], Panicked(AccountPanicked(u)))])
    case MergeIn(u) =>
      s.(jobs := s.jobs[u := Merged(s.jobs[u].ds, s.jobs[u].outcome)],
         result := Merge(s.result, s.jobs[u].outcome),
         merged := s.merged + [u])
  }

  // ---------------------------------------------------------------- what an account gets alone

  function AloneRun(setup: Setup, b0: Book, u: UserId, ds: seq<Drift>): (Book, Tally)
    requires u in setup.plans
  {
    Execute(setup.cfg, b0, u, ds, setup.plans[u].tag, setup.plans[u].faults)
  }

  /** The account service's outcome on the book as it was before anyone moved. */
  function Alone(setup: Setup, b0: Book, u: UserId, ds: seq<Drift>): FollowerEnd
    requires u in setup.plans
  {
    var refused := RefusedIn(ContextIn(setup, b0, setup.plans[u]), ds);
    if refused.Some? then Erred(AccountFailed(u, refused.value)) else EndOf(u, AloneRun(setup, b0, u, ds).1)
  }

  function AloneBook(setup: Setup, b0: Book, u: UserId, ds: seq<Drift>): Book
    requires u in setup.plans
  {
    if RefusedIn(ContextIn(setup, b0, setup.plans[u]), ds).Some? then b0 else AloneRun(setup, b0, u, ds).0
  }

  // ---------------------------------------------------------------- frames

  /** The user's orders are the same in both books, id for id. */
  predicate Mine(b: Book, b': Book, u: UserId) {
    && IdsOf(b'.userOrders, u) == IdsOf(b.userOrders, u)
    && forall id :: id in IdsOf(b.userOrders, u) ==> id in b.orders && id in b'.orders && b'.orders[id] == b.orders[id]
  }

  lemma {:induction false} NamedSame(orders: map<OrderId, Order>, orders': map<OrderId, Order>, ids: seq<OrderId>)
    requires forall id :: id in ids ==> id in orders && id in orders' && orders'[id] == orders[id]
    ensures Named(orders, ids) == Named(orders', ids)
  {
    if ids != [] { NamedSame(orders, orders', ids[..|ids| - 1]); }
  }

  lemma MineOrders(b: Book, b': Book, u: UserId)
    requires Mine(b, b', u)
    ensures OrdersOf(b, u) == OrdersOf(b', u)
  {
    NamedSame(b.orders, b'.orders, IdsOf(b.userOrders, u));
  }

  lemma MineHeld(b: Book, b': Book, u: UserId)
    requires Mine(b, b', u) && b'.instruments == b.instruments
    ensures HeldIn(b, u) == HeldIn(b', u)
  {
    MineOrders(b, b', u);
  }

  lemma MineSelf(b: Book, u: UserId)
    requires Inv(b)
    ensures Mine(b, b, u)
  {
  }

  lemma MineTrans(a: Book, b: Book, c: Book, u: UserId)
    requires Mine(a, b, u) && Mine(b, c, u)
    ensures Mine(a, c, u)
  {
  }

  /** Cancelling someone's order leaves everyone else's orders. */
  lemma CancelMine(b: Book, id: OrderId, u: UserId, v: UserId)
    requires Inv(b) && id in IdsOf(b.userOrders, u) && v != u
    ensures Mine(b, EndOrder(b, id, Cancel).0, v)
  {
    assert id in b.orders && OrderFits(b, id);
  }

  /** So does placing one. */
  lemma PlaceMine(cfg: Config, b: Book, u: UserId, p: Params, v: UserId)
    requires Inv(b) && v != u
    ensures Mine(b, Place(cfg, b, u, p).0, v) && Place(cfg, b, u, p).0.instruments == b.instruments
  {
    if Validate(cfg, b.instruments, p) == None { SquareOffFlat.PlaceShape(cfg, b, u, p); }
  }

  /** A user's next cancel does the same in two books that agree on the user's orders. */
  lemma CancelAgrees(b: Book, b': Book, id: OrderId, u: UserId)
    requires Inv(b) && Inv(b') && Mine(b, b', u) && id in IdsOf(b.userOrders, u)
    ensures var (after, outcome) := EndOrder(b, id, Cancel);
            var (after', outcome') := EndOrder(b', id, Cancel);
            outcome == outcome' && Mine(after, after', u)
  {
    assert OrderFits(b, id) && OrderFits(b', id);
  }

  // ---------------------------------------------------------------- orders without their ids

  function NoIds(os: seq<Order>): seq<Order> {
    seq(|os|, i requires 0 <= i < |os| => os[i].(id := OrderId(0)))
  }

  /** Positions do not depend on order ids. */
  lemma {:induction false} NoIdsSame(os: seq<Order>, os': seq<Order>, k: Key)
    requires NoIds(os) == NoIds(os')
    ensures Net(os, k) == Net(os', k) && TotalsAt(os, k) == TotalsAt(os', k) && Keys(os) == Keys(os')
  {
    assert |NoIds(os)| == |os| && |NoIds(os')| == |os'|;
    if os != [] {
      var n := |os| - 1;
      assert NoIds(os)[n] == NoIds(os')[n];
      assert NoIds(os[..n]) == NoIds(os)[..n] == NoIds(os')[..n] == NoIds(os'[..n]);
      NoIdsSame(os[..n], os'[..n], k);
      SameButId(os[n], os'[n]);
    }
  }

  lemma SameButId(o: Order, o': Order)
    requires o.(id := OrderId(0)) == o'.(id := OrderId(0))
    ensures o == o'.(id := o.id)
    ensures forall t :: Positions.Add(t, o) == Positions.Add(t, o')
  {
  }

  lemma NoIdsHeld(b: Book, b': Book, u: UserId)
    requires NoIds(OrdersOf(b, u)) == NoIds(OrdersOf(b', u)) && b.instruments == b'.instruments
    ensures HeldIn(b, u) == HeldIn(b', u)
  {
    var os, os' := OrdersOf(b, u), OrdersOf(b', u);
    NoIdsSame(os, os', Key("", "", ""));
    forall i | 0 <= i < |Keys(os)| ensures HeldIn(b, u)[i] == HeldIn(b', u)[i] {
      NoIdsSame(os, os', Keys(os)[i]);
    }
  }

  lemma NoIdsAppend(os: seq<Order>, os': seq<Order>, o: Order, o': Order)
    requires NoIds(os) == NoIds(os') && o.(id := OrderId(0)) == o'.(id := OrderId(0))
    ensures NoIds(os + [o]) == NoIds(os' + [o'])
  {
    assert NoIds(os + [o]) == NoIds(os) + [o.(id := OrderId(0))];
    assert NoIds(os' + [o']) == NoIds(os') + [o'.(id := OrderId(0))];
  }

  /** Tallies that agree but for order ids. */
  predicate SameTally(t: Tally, t': Tally) {
    && t.cancelled == t'.cancelled && t.errors == t'.errors && |t.orders| == |t'.orders|
    && forall i :: 0 <= i < |t.orders| ==> t.orders[i].(id := OrderId(0)) == t'.orders[i].(id := OrderId(0))
  }

  lemma SameTallySums(u: UserId, t: Tally, t': Tally)
    requires SameTally(t, t')
    ensures SumOf(EndOf(u, t)) == SumOf(EndOf(u, t'))
  {
    var a, b := PlacedBy(EndOf(u, t)), PlacedBy(EndOf(u, t'));
    forall i | 0 <= i < |a| ensures TradeOf(a[i]) == TradeOf(b[i]) {
      assert t.orders[i].(id := OrderId(0)) == t'.orders[i].(id := OrderId(0));
    }
    assert TradesOf(a) == TradesOf(b);
  }

  /** A user's next placement does the same, ids aside, in two books with the same instruments. */
  lemma PlaceAgrees(cfg: Config, b: Book, b': Book, t: Tally, t': Tally, u: UserId, d: Drift, tag: string,
      faults: set<Listing>)
    requires Inv(b) && Inv(b') && b.instruments == b'.instruments && d.driftQty != 0
    requires SameTally(t, t') && NoIds(OrdersOf(b, u)) == NoIds(OrdersOf(b', u))
    ensures var (after, s) := PlaceDrift(cfg, b, t, u, d, tag, faults);
            var (after', s') := PlaceDrift(cfg, b', t', u, d, tag, faults);
            SameTally(s, s') && NoIds(OrdersOf(after, u)) == NoIds(OrdersOf(after', u))
  {
    TalliesAgree(cfg, b, b', t, t', u, d, tag, faults);
    RebalanceConverges.DriftStep(cfg, b, t, u, d, tag, faults);
    RebalanceConverges.DriftStep(cfg, b', t', u, d, tag, faults);
    if RebalanceConverges.Succeeds(cfg, b.instruments, d, tag, faults) {
      PlacedAlike(cfg, b, b', u, DriftOrder(d, tag));
    }
  }

  lemma TalliesAgree(cfg: Config, b: Book, b': Book, t: Tally, t': Tally, u: UserId, d: Drift, tag: string,
    faults: set<Listing>)
    requires b.instruments == b'.instruments && d.driftQty != 0 && SameTally(t, t')
    ensures SameTally(PlaceDrift(cfg, b, t, u, d, tag, faults).1, PlaceDrift(cfg, b', t', u, d, tag, faults).1)
  {
    DriftTally(cfg, b, t, u, d, tag, faults);
    DriftTally(cfg, b', t', u, d, tag, faults);
  }

  lemma PlacedAlike(cfg: Config, b: Book, b': Book, u: UserId, p: Params)
    requires Inv(b) && Inv(b') && b.instruments == b'.instruments && Validate(cfg, b.instruments, p) == None
    requires NoIds(OrdersOf(b, u)) == NoIds(OrdersOf(b', u))
    ensures NoIds(OrdersOf(Place(cfg, b, u, p).0, u)) == NoIds(OrdersOf(Place(cfg, b', u, p).0, u))
  {
    SquareOffFlat.PlaceOrders(cfg, b, u, p, u);
    SquareOffFlat.PlaceOrders(cfg, b', u, p, u);
    NoIdsAppend(OrdersOf(b, u), OrdersOf(b', u),
                SquareOffFlat.NewOrder(cfg, b, u, p), SquareOffFlat.NewOrder(cfg, b', u, p));
  }

  lemma DriftTally(cfg: Config, b: Book, t: Tally, u: UserId, d: Drift, tag: string, faults: set<Listing>)
    requires d.driftQty != 0
    ensures var t' := PlaceDrift(cfg, b, t, u, d, tag, faults).1;
            var o := Placed(OrderId(b.lastId + 1), RebalanceConverges.KeyFor(d), d.action, Sizing.Abs(d.driftQty));
            t' == if RebalanceConverges.Succeeds(cfg, b.instruments, d, tag, faults) then t.(orders := t.orders + [o])
                  else t.(errors := t.errors + [d.listing])
  {
  }

  // ---------------------------------------------------------------- one job, against the account alone

  /** The follower acts on this diff of the starting book. */
  ghost predicate Goes(setup: Setup, b0: Book, u: UserId, ds: seq<Drift>)
    requires u in setup.plans
  {
    IsDiff(setup, b0, u, ds) && ds != [] && RefusedIn(ContextIn(setup, b0, setup.plans[u]), ds) == None
  }

  lemma GoesProper(setup: Setup, b0: Book, u: UserId, ds: seq<Drift>)
    requires u in setup.plans && Goes(setup, b0, u, ds)
    ensures RebalanceConverges.Proper(ds)
  {
    var c := ContextIn(setup, b0, setup.plans[u]);
    RebalanceConverges.DriftsProper(ds, c.accounts.value[0], setup.lots, c.master.value, HeldIn(b0, u));
  }

  function Started(setup: Setup, b0: Book, u: UserId, ds: seq<Drift>): (Book, Tally)
    requires u in setup.plans
  {
    var (b1, n) := AfterDriftCancels(b0, u, ds, setup.plans[u].faults);
    (b1, Tally(n, [], []))
  }

  /** The account alone, after its cancels and its first placements. */
  function AloneUpto(setup: Setup, b0: Book, u: UserId, ds: seq<Drift>, j: nat): (Book, Tally)
    requires u in setup.plans && j <= |ds|
  {
    var plan := setup.plans[u];
    var (b1, t) := Started(setup, b0, u, ds);
    PlaceDrifts(setup.cfg, b1, t, u, ds[..j], plan.tag, plan.faults.places)
  }

  ghost predicate CancellingOk(setup: Setup, b0: Book, b: Book, u: UserId, ids: seq<OrderId>, i: nat, n: nat)
    requires u in setup.plans
  {
    i <= |ids| &&
    var (alone, m) := SquareOff.CancelAll(b0, ids[..i], setup.plans[u].faults.cancels);
    n == m && Mine(alone, b, u)
  }

  ghost predicate PlacingOk(setup: Setup, b0: Book, b: Book, u: UserId, ds: seq<Drift>, j: nat, t: Tally)
    requires u in setup.plans
  {
    j <= |ds| &&
    var (alone, s) := AloneUpto(setup, b0, u, ds, j);
    SameTally(t, s) && NoIds(OrdersOf(b, u)) == NoIds(OrdersOf(alone, u))
  }

  /** Ended as it would alone, or by a panic. */
  ghost predicate EndedOk(setup: Setup, b0: Book, b: Book, u: UserId, ds: seq<Drift>, o: FollowerEnd)
    requires u in setup.plans
  {
    if o.Panicked? then o == Panicked(AccountPanicked(u))
    else
      && IsDiff(setup, b0, u, ds)
      && SumOf(o) == SumOf(Alone(setup, b0, u, ds))
      && NoIds(OrdersOf(b, u)) == NoIds(OrdersOf(AloneBook(setup, b0, u, ds), u))
  }

  ghost predicate JobOk(setup: Setup, b0: Book, b: Book, u: UserId, job: Job)
    requires u in setup.plans
  {
    match job
    case Waiting => Mine(b0, b, u)
    case Diffed(ds) => Goes(setup, b0, u, ds) && Mine(b0, b, u)
    case Cancelling(ds, ids, i, n) =>
      && Goes(setup, b0, u, ds) && !setup.plans[u].faults.openOrders
      && ids == OpenDrifting(b0.orders, IdsOf(b0.userOrders, u), ds)
      && CancellingOk(setup, b0, b, u, ids, i, n)
    case Placing(ds, j, t) => Goes(setup, b0, u, ds) && PlacingOk(setup, b0, b, u, ds, j, t)
    case Ended(ds, o) => EndedOk(setup, b0, b, u, ds, o)
    case Merged(ds, o) => EndedOk(setup, b0, b, u, ds, o)
  }

  /** Other followers' steps do not disturb a job. */
  lemma JobFramed(setup: Setup, b0: Book, b: Book, b': Book, u: UserId, job: Job)
    requires u in setup.plans && JobOk(setup, b0, b, u, job) && Mine(b, b', u)
    ensures JobOk(setup, b0, b', u, job)
  {
    MineOrders(b, b', u);
    match job
    case Cancelling(ds, ids, i, n) =>
      MineTrans(SquareOff.CancelAll(b0, ids[..i], setup.plans[u].faults.cancels).0, b, b', u);
    case Waiting => MineTrans(b0, b, b', u);
    case Diffed(_) => MineTrans(b0, b, b', u);
    case _ =>
  }

  lemma DiffOk(setup: Setup, b0: Book, b: Book, u: UserId, ds: seq<Drift>)
    requires u in setup.plans && Mine(b0, b, u) && Mine(b0, b, setup.master) && b.instruments == b0.instruments
    requires IsDiff(setup, b, u, ds)
    ensures JobOk(setup, b0, b, u, AfterDiff(setup, b, u, ds))
  {
    MineHeld(b0, b, u);
    MineHeld(b0, b, setup.master);
    MineOrders(b0, b, u);
    assert ContextIn(setup, b, setup.plans[u]) == ContextIn(setup, b0, setup.plans[u]);
  }

  lemma {:induction false} OpenDriftingSame(orders: map<OrderId, Order>, orders': map<OrderId, Order>,
      ids: seq<OrderId>, ds: seq<Drift>)
    requires forall id :: id in ids ==> id in orders && id in orders' && orders'[id] == orders[id]
    ensures OpenDrifting(orders, ids, ds) == OpenDrifting(orders', ids, ds)
  {
    if ids != [] { OpenDriftingSame(orders, orders', ids[..|ids| - 1], ds); }
  }

  lemma ListOk(setup: Setup, b0: Book, b: Book, u: UserId, ds: seq<Drift>)
    requires u in setup.plans && Inv(b0) && Goes(setup, b0, u, ds) && Mine(b0, b, u)
    ensures JobOk(setup, b0, b, u, AfterList(setup.plans[u], b, u, ds))
  {
    OpenDriftingSame(b0.orders, b.orders, IdsOf(b0.userOrders, u), ds);
    MineOrders(b0, b, u);
    assert ds[..0] == [];
  }

  /** The book of the account alone, part-way through its cancels. */
  lemma CancelsInv(setup: Setup, b0: Book, u: UserId, ids: seq<OrderId>, i: nat, ds: seq<Drift>)
    requires u in setup.plans && Inv(b0) && i <= |ids|
    requires ids == OpenDrifting(b0.orders, IdsOf(b0.userOrders, u), ds)
    ensures var alone := SquareOff.CancelAll(b0, ids[..i], setup.plans[u].faults.cancels).0;
            Inv(alone) && alone.userOrders == b0.userOrders && alone.instruments == b0.instruments
    ensures forall id :: id in ids ==> id in IdsOf(b0.userOrders, u)
  {
    RebalanceConverges.DriftingOwn(b0.orders, IdsOf(b0.userOrders, u), ds);
    SquareOffFlat.CancelAllOrders(b0, ids[..i], setup.plans[u].faults.cancels, u, u);
  }

  lemma CancelStepOk(setup: Setup, b0: Book, b: Book, u: UserId, ids: seq<OrderId>, i: nat, n: nat)
    requires u in setup.plans && Inv(b) && i < |ids| && ids[i] in IdsOf(b0.userOrders, u)
    requires var alone := SquareOff.CancelAll(b0, ids[..i], setup.plans[u].faults.cancels).0;
             Inv(alone) && alone.userOrders == b0.userOrders
    requires CancellingOk(setup, b0, b, u, ids, i, n)
    ensures Cancelled(setup, b0, b, u, ids, i, n)
  {
    var cancels := setup.plans[u].faults.cancels;
    var alone := SquareOff.CancelAll(b0, ids[..i], cancels).0;
    OneMoreCancel(b0, ids, i, cancels);
    if ids[i] !in cancels { CancelAgrees(alone, b, ids[i], u); }
  }

  lemma OneMoreCancel(b0: Book, ids: seq<OrderId>, i: nat, cancels: set<OrderId>)
    requires i < |ids|
    ensures var (alone, m) := SquareOff.CancelAll(b0, ids[..i], cancels);
            var (after, outcome) := EndOrder(alone, ids[i], Cancel);
            SquareOff.CancelAll(b0, ids[..i + 1], cancels) ==
            if ids[i] in cancels then (alone, m) else (after, if outcome.Accepted? then m + 1 else m)
  {
    assert ids[..i + 1][..i] == ids[..i];
  }

  ghost predicate Cancelled(setup: Setup, b0: Book, b: Book, u: UserId, ids: seq<OrderId>, i: nat, n: nat)
    requires u in setup.plans && i < |ids|
  {
    if ids[i] in setup.plans[u].faults.cancels then CancellingOk(setup, b0, b, u, ids, i + 1, n)
    else
      var (after, outcome) := EndOrder(b, ids[i], Cancel);
      CancellingOk(setup, b0, after, u, ids, i + 1, if outcome.Accepted? then n + 1 else n)
  }

  lemma CancelNextOk(setup: Setup, b0: Book, b: Book, u: UserId, ds: seq<Drift>, ids: seq<OrderId>, i: nat, n: nat)
    requires u in setup.plans && Inv(b0) && Inv(b) && i < |ids|
    requires ids == OpenDrifting(b0.orders, IdsOf(b0.userOrders, u), ds) && CancellingOk(setup, b0, b, u, ids, i, n)
    ensures Cancelled(setup, b0, b, u, ids, i, n)
  {
    CancelsInv(setup, b0, u, ids, i, ds);
    CancelStepOk(setup, b0, b, u, ids, i, n);
  }

  lemma CancelsDoneOk(setup: Setup, b0: Book, b: Book, u: UserId, ds: seq<Drift>, ids: seq<OrderId>, n: nat)
    requires u in setup.plans && !setup.plans[u].faults.openOrders
    requires ids == OpenDrifting(b0.orders, IdsOf(b0.userOrders, u), ds)
    requires CancellingOk(setup, b0, b, u, ids, |ids|, n)
    ensures PlacingOk(setup, b0, b, u, ds, 0, Tally(n, [], []))
  {
    assert ids[..|ids|] == ids;
    MineOrders(SquareOff.CancelAll(b0, ids, setup.plans[u].faults.cancels).0, b, u);
    assert ds[..0] == [];
  }

  /** A job part-way through its cancels, with the follower's own facts left out of sight. */
  lemma CancelJobOk(setup: Setup, b0: Book, b: Book, u: UserId, job: Job)
    requires u in setup.plans && job.Cancelling? && job.i <= |job.ids| && JobOk(setup, b0, b, u, job)
    requires job.i < |job.ids| ==> Cancelled(setup, b0, b, u, job.ids, job.i, job.n)
    ensures var (b', job') := AfterCancel(setup.plans[u], b, job); JobOk(setup, b0, b', u, job')
  {
    if job.i == |job.ids| { CancelsDoneOk(setup, b0, b, u, job.ds, job.ids, job.n); }
  }

  lemma CancelOk(setup: Setup, b0: Book, b: Book, u: UserId, job: Job)
    requires u in setup.plans && Inv(b0) && Inv(b) && job.Cancelling? && job.i <= |job.ids|
    requires JobOk(setup, b0, b, u, job)
    ensures var (b', job') := AfterCancel(setup.plans[u], b, job); JobOk(setup, b0, b', u, job')
  {
    if job.i < |job.ids| { CancelNextOk(setup, b0, b, u, job.ds, job.ids, job.i, job.n); }
    CancelJobOk(setup, b0, b, u, job);
  }

  lemma StartedInv(setup: Setup, b0: Book, u: UserId, ds: seq<Drift>, j: nat)
    requires u in setup.plans && Inv(b0) && Goes(setup, b0, u, ds) && j <= |ds|
    ensures var alone := AloneUpto(setup, b0, u, ds, j).0; Inv(alone) && alone.instruments == b0.instruments
  {
    GoesProper(setup, b0, u, ds);
    RebalanceConverges.DriftCancelsKeep(b0, u, ds, setup.plans[u].faults, u);
    var (b1, t) := Started(setup, b0, u, ds);
    RebalanceConverges.DriftsKeepInv(setup.cfg, b1, t, u, ds[..j], setup.plans[u].tag, setup.plans[u].faults.places);
  }

  lemma PlaceStepOk(setup: Setup, b0: Book, b: Book, u: UserId, ds: seq<Drift>, j: nat, t: Tally)
    requires u in setup.plans && j < |ds| && ds[j].driftQty != 0
    requires var alone := AloneUpto(setup, b0, u, ds, j).0; Inv(alone) && alone.instruments == b.instruments
    requires Inv(b) && PlacingOk(setup, b0, b, u, ds, j, t)
    ensures var plan := setup.plans[u];
            var (after, t') := PlaceDrift(setup.cfg, b, t, u, ds[j], plan.tag, plan.faults.places);
            PlacingOk(setup, b0, after, u, ds, j + 1, t')
  {
    assert ds[..j + 1][..j] == ds[..j];
    var plan := setup.plans[u];
    var (alone, s) := AloneUpto(setup, b0, u, ds, j);
    PlaceAgrees(setup.cfg, b, alone, t, s, u, ds[j], plan.tag, plan.faults.places);
  }

  lemma PlacesDoneOk(setup: Setup, b0: Book, b: Book, u: UserId, ds: seq<Drift>, t: Tally)
    requires u in setup.plans && Goes(setup, b0, u, ds) && PlacingOk(setup, b0, b, u, ds, |ds|, t)
    ensures EndedOk(setup, b0, b, u, ds, EndOf(u, t))
  {
    assert ds[..|ds|] == ds;
    assert AloneUpto(setup, b0, u, ds, |ds|) == AloneRun(setup, b0, u, ds);
    SameTallySums(u, t, AloneRun(setup, b0, u, ds).1);
  }

  lemma PlaceOk(setup: Setup, b0: Book, b: Book, u: UserId, job: Job)
    requires u in setup.plans && Inv(b0) && Inv(b) && b.instruments == b0.instruments
    requires job.Placing? && job.j <= |job.ds|
    requires JobOk(setup, b0, b, u, job)
    ensures var (b', job') := AfterPlace(setup.cfg, setup.plans[u], b, u, job); JobOk(setup, b0, b', u, job')
  {
    var Placing(ds, j, t) := job;
    if j == |ds| {
      PlacesDoneOk(setup, b0, b, u, ds, t);
    } else {
      StartedInv(setup, b0, u, ds, j);
      GoesProper(setup, b0, u, ds);
      PlaceStepOk(setup, b0, b, u, ds, j, t);
    }
  }

  // ---------------------------------------------------------------- one step

  /** What the whole group keeps: the book's invariant, its instruments, the master's orders, and every
      follower on the way it would go alone. */
  ghost predicate GroupOk(setup: Setup, b0: Book, s: State) {
    && Inv(s.book) && s.book.instruments == b0.instruments
    && Mine(b0, s.book, setup.master) && setup.master !in s.jobs
    && (forall u :: u in s.jobs ==> u in setup.plans && JobOk(setup, b0, s.book, u, s.jobs[u]))
  }

  /** The book stays sound and `v`'s orders stay. */
  ghost predicate Framed(b: Book, b': Book, v: UserId) {
    Inv(b') && b'.instruments == b.instruments && Mine(b, b', v)
  }

  lemma EndFramed(b: Book, id: OrderId, u: UserId, v: UserId)
    requires Inv(b) && id in IdsOf(b.userOrders, u) && v != u
    ensures Framed(b, EndOrder(b, id, Cancel).0, v)
  {
    EndOrderKeepsInv(b, id, Cancel);
    CancelMine(b, id, u, v);
  }

  lemma CancelFramed(plan: Plan, b: Book, u: UserId, job: Job, v: UserId)
    requires Inv(b) && job.Cancelling? && job.i <= |job.ids| && v != u
    requires job.i < |job.ids| ==> job.ids[job.i] in IdsOf(b.userOrders, u)
    ensures Framed(b, AfterCancel(plan, b, job).0, v)
  {
    MineSelf(b, v);
    CancelBook(plan, b, job);
    if job.i < |job.ids| { EndFramed(b, job.ids[job.i], u, v); }
  }

  lemma CancelBook(plan: Plan, b: Book, job: Job)
    requires job.Cancelling? && job.i <= |job.ids|
    ensures var b' := AfterCancel(plan, b, job).0;
            b' == b || (job.i < |job.ids| && b' == EndOrder(b, job.ids[job.i], Cancel).0)
  {
  }

  lemma DriftFramed(cfg: Config, b: Book, t: Tally, u: UserId, d: Drift, tag: string, faults: set<Listing>, v: UserId)
    requires Inv(b) && v != u
    ensures Framed(b, PlaceDrift(cfg, b, t, u, d, tag, faults).0, v)
  {
    MineSelf(b, v);
    PlaceKeepsInv(cfg, b, u, DriftOrder(d, tag));
    PlaceMine(cfg, b, u, DriftOrder(d, tag), v);
    DriftBook(cfg, b, t, u, d, tag, faults);
  }

  lemma DriftBook(cfg: Config, b: Book, t: Tally, u: UserId, d: Drift, tag: string, faults: set<Listing>)
    ensures var b' := PlaceDrift(cfg, b, t, u, d, tag, faults).0;
            b' == b || b' == Place(cfg, b, u, DriftOrder(d, tag)).0
  {
  }

  /** A follower's step leaves the book sound and everyone else's orders alone. */
  lemma BookFramed(setup: Setup, b0: Book, s: State, e: Event, v: UserId)
    requires Inv(b0) && GroupOk(setup, b0, s) && Enabled(setup, s, e) && v != e.u
    ensures Framed(s.book, Apply(setup, s, e).book, v)
  {
    MineSelf(s.book, v);
    var u := e.u;
    var job, plan := s.jobs[u], setup.plans[u];
    if e.CancelNext? {
      assert JobOk(setup, b0, s.book, u, job);
      if job.i < |job.ids| { CancelOwn(setup, b0, s.book, u, job); }
      CancelFramed(plan, s.book, u, job, v);
    } else if e.PlaceNext? && job.j < |job.ds| {
      DriftFramed(setup.cfg, s.book, job.t, u, job.ds[job.j], plan.tag, plan.faults.places, v);
    }
  }

  /** A follower cancels its own orders only. */
  lemma CancelOwn(setup: Setup, b0: Book, b: Book, u: UserId, job: Job)
    requires u in setup.plans && Inv(b0) && job.Cancelling? && job.i < |job.ids| && JobOk(setup, b0, b, u, job)
    ensures job.ids[job.i] in IdsOf(b.userOrders, u)
  {
    CancelsInv(setup, b0, u, job.ids, job.i, job.ds);
  }

  lemma OwnJobOk(setup: Setup, b0: Book, s: State, e: Event)
    requires Inv(b0) && GroupOk(setup, b0, s) && Enabled(setup, s, e)
    ensures var s' := Apply(setup, s, e); JobOk(setup, b0, s'.book, e.u, s'.jobs[e.u])
  {
    var u := e.u;
    assert JobOk(setup, b0, s.book, u, s.jobs[u]);
    match e
    case Diff(_, ds) => DiffOk(setup, b0, s.book, u, ds);
    case ListOpen(_) => ListOk(setup, b0, s.book, u, s.jobs[u].ds);
    case CancelNext(_) => CancelOk(setup, b0, s.book, u, s.jobs[u]);
    case PlaceNext(_) => PlaceOk(setup, b0, s.book, u, s.jobs[u]);
    case Panic(_) =>
    case MergeIn(_) =>
  }

  lemma StepOk(setup: Setup, b0: Book, s: State, e: Event)
    requires Inv(b0) && GroupOk(setup, b0, s) && Enabled(setup, s, e)
    ensures GroupOk(setup, b0, Apply(setup, s, e))
  {
    var s' := Apply(setup, s, e);
    OwnJobOk(setup, b0, s, e);
    BookFramed(setup, b0, s, e, setup.master);
    MineTrans(b0, s.book, s'.book, setup.master);
    forall u | u in s'.jobs
      ensures u in setup.plans && JobOk(setup, b0, s'.book, u, s'.jobs[u])
    {
      if u != e.u {
        assert s'.jobs[u] == s.jobs[u];
        BookFramed(setup, b0, s, e, u);
        JobFramed(setup, b0, s.book, s'.book, u, s.jobs[u]);
      }
    }
  }

  // ---------------------------------------------------------------- the merged result

  /** Each merged follower's share of the result. */
  function Shares(jobs: map<UserId, Job>): UserId -> Sums {
    (u: UserId) => if u in jobs && jobs[u].Merged? then SumOf(jobs[u].outcome) else NoSums
  }

  /** Merged lists the followers that have merged, once each. */
  ghost predicate MergedOk(merged: seq<UserId>, jobs: map<UserId, Job>) {
    AllDifferent(merged) && forall u :: u in merged <==> u in jobs && jobs[u].Merged?
  }

  ghost predicate ResultOk(s: State, affected: nat) {
    MergedOk(s.merged, s.jobs) && Tallies(s.result, affected, SumAll(s.merged, Shares(s.jobs)))
  }

  lemma MergedGrows(merged: seq<UserId>, jobs: map<UserId, Job>, u: UserId, ds: seq<Drift>, o: FollowerEnd)
    requires MergedOk(merged, jobs) && u in jobs && jobs[u].Ended?
    ensures MergedOk(merged + [u], jobs[u := Merged(ds, o)])
  {
    assert u !in merged;
  }

  lemma SumGrows(merged: seq<UserId>, jobs: map<UserId, Job>, u: UserId, ds: seq<Drift>, o: FollowerEnd)
    requires MergedOk(merged, jobs) && u in jobs && jobs[u].Ended?
    ensures SumAll(merged + [u], Shares(jobs[u := Merged(ds, o)])) == Plus(SumAll(merged, Shares(jobs)), SumOf(o))
  {
    var jobs' := jobs[u := Merged(ds, o)];
    assert u !in merged;
    SharesStay(merged, jobs, jobs');
    AddLast(merged, u, Shares(jobs'));
    assert Shares(jobs')(u) == SumOf(o);
  }

  lemma SharesStay(merged: seq<UserId>, jobs: map<UserId, Job>, jobs': map<UserId, Job>)
    requires forall v :: v in merged ==> v in jobs && v in jobs' && jobs'[v] == jobs[v]
    ensures SumAll(merged, Shares(jobs)) == SumAll(merged, Shares(jobs'))
  {
    forall i | 0 <= i < |merged| ensures Shares(jobs)(merged[i]) == Shares(jobs')(merged[i]) {
      assert merged[i] in merged;
    }
    AddSame(merged, Shares(jobs), Shares(jobs'));
  }

  /** A step that is not a merge leaves the result and the merged followers alone. */
  lemma NoMerge(setup: Setup, s: State, e: Event)
    requires Enabled(setup, s, e) && !e.MergeIn?
    ensures var s' := Apply(setup, s, e);
            && s'.merged == s.merged && s'.result == s.result && s'.jobs.Keys == s.jobs.Keys
            && (forall u :: u in s.jobs && u != e.u ==> s'.jobs[u] == s.jobs[u])
            && !s.jobs[e.u].Merged? && !s'.jobs[e.u].Merged?
  {
  }

  lemma StepResultOk(setup: Setup, s: State, e: Event, affected: nat)
    requires ResultOk(s, affected) && Enabled(setup, s, e)
    ensures ResultOk(Apply(setup, s, e), affected) && Apply(setup, s, e).jobs.Keys == s.jobs.Keys
  {
    var s' := Apply(setup, s, e);
    if e.MergeIn? {
      var job := s.jobs[e.u];
      MergedGrows(s.merged, s.jobs, e.u, job.ds, job.outcome);
      SumGrows(s.merged, s.jobs, e.u, job.ds, job.outcome);
      MergeAdds(s.result, affected, SumAll(s.merged, Shares(s.jobs)), job.outcome);
    } else {
      NoMerge(setup, s, e);
      SharesStay(s.merged, s.jobs, s'.jobs);
    }
  }

  // ---------------------------------------------------------------- every interleaving

  function Start(b0: Book, targets: seq<UserId>): State {
    State(b0, map u | u in targets :: Waiting, NoResult(|targets|), [])
  }

  ghost predicate IsRun(setup: Setup, run: seq<State>, events: seq<Event>, b0: Book, targets: seq<UserId>) {
    && |run| == |events| + 1 && run[0] == Start(b0, targets)
    && (forall i :: 0 <= i < |events| ==>
          Enabled(setup, run[i], events[i]) && run[i + 1] == Apply(setup, run[i], events[i]))
  }

  /** The group's followers: distinct, none of them the master, each with its store and broker answers. */
  predicate Grouped(setup: Setup, b0: Book, targets: seq<UserId>) {
    AllDifferent(targets) && setup.master !in targets && forall u :: u in targets ==> u in setup.plans
  }

  lemma StartOk(setup: Setup, b0: Book, targets: seq<UserId>)
    requires Inv(b0) && Grouped(setup, b0, targets)
    ensures GroupOk(setup, b0, Start(b0, targets)) && ResultOk(Start(b0, targets), |targets|)
  {
    MineSelf(b0, setup.master);
    forall u | u in targets ensures JobOk(setup, b0, b0, u, Waiting) { MineSelf(b0, u); }
  }

  /** At every state of every interleaving each follower is where it would be alone. */
  lemma {:induction false} RunOk(setup: Setup, run: seq<State>, events: seq<Event>, b0: Book, targets: seq<UserId>,
      k: nat)
    requires IsRun(setup, run, events, b0, targets) && Inv(b0) && Grouped(setup, b0, targets) && k < |run|
    ensures GroupOk(setup, b0, run[k]) && ResultOk(run[k], |targets|)
    ensures run[k].jobs.Keys == set u | u in targets
  {
    if k == 0 {
      StartOk(setup, b0, targets);
    } else {
      var i := k - 1;
      RunOk(setup, run, events, b0, targets, i);
      assert Enabled(setup, run[i], events[i]) && run[i + 1] == Apply(setup, run[i], events[i]);
      StepOk(setup, b0, run[i], events[i]);
      StepResultOk(setup, run[i], events[i], |targets|);
    }
  }

  ghost predicate CanRun(setup: Setup, s: State, events: seq<Event>)
    decreases |events|, 1
  {
    events != [] ==>
      && CanRun(setup, s, events[..|events| - 1])
      && Enabled(setup, AfterSchedule(setup, s, events[..|events| - 1]), events[|events| - 1])
  }

  /** The state after a schedule of steps. */
  ghost function AfterSchedule(setup: Setup, s: State, events: seq<Event>): State
    requires CanRun(setup, s, events)
    decreases |events|, 2
  {
    if events == [] then s else Apply(setup, AfterSchedule(setup, s, events[..|events| - 1]), events[|events| - 1])
  }

  lemma {:induction false} ScheduleOk(setup: Setup, events: seq<Event>, b0: Book, targets: seq<UserId>)
    requires Inv(b0) && Grouped(setup, b0, targets) && CanRun(setup, Start(b0, targets), events)
    ensures var s := AfterSchedule(setup, Start(b0, targets), events);
            GroupOk(setup, b0, s) && ResultOk(s, |targets|) && s.jobs.Keys == set u | u in targets
  {
    if events == [] {
      StartOk(setup, b0, targets);
    } else {
      var init := events[..|events| - 1];
      ScheduleOk(setup, init, b0, targets);
      var s := AfterSchedule(setup, Start(b0, targets), init);
      StepOk(setup, b0, s, events[|events| - 1]);
      StepResultOk(setup, s, events[|events| - 1], |targets|);
    }
  }

  /** All goroutines have merged. */
  predicate AllMerged(s: State) {
    forall u :: u in s.jobs ==> s.jobs[u].Merged?
  }

  lemma CompleteSums(s: State, targets: seq<UserId>)
    requires ResultOk(s, |targets|) && AllMerged(s) && AllDifferent(targets)
    requires s.jobs.Keys == set u | u in targets
    ensures Tallies(s.result, |targets|, SumAll(targets, Shares(s.jobs)))
  {
    forall u: UserId ensures u in s.merged <==> u in targets {
      assert u in s.jobs <==> u in targets;
    }
    SameThings(s.merged, targets);
    AddAnyOrder(s.merged, targets, Shares(s.jobs));
  }

  /** The report is the sum over the targeted followers, and each that did not panic has the cancelled
      count, the orders but for their ids, the errors and the positions it gets alone on `b0`. */
  ghost predicate ReportOk(setup: Setup, b0: Book, s: State, targets: seq<UserId>) {
    && Tallies(s.result, |targets|, SumAll(targets, Shares(s.jobs)))
    && forall u :: u in targets ==>
         && u in setup.plans && u in s.jobs && s.jobs[u].Merged?
         && EndedOk(setup, b0, s.book, u, s.jobs[u].ds, s.jobs[u].outcome)
  }

  lemma MergedReport(setup: Setup, b0: Book, s: State, targets: seq<UserId>)
    requires GroupOk(setup, b0, s) && ResultOk(s, |targets|) && AllMerged(s)
    requires AllDifferent(targets) && s.jobs.Keys == set u | u in targets
    ensures ReportOk(setup, b0, s, targets)
  {
    CompleteSums(s, targets);
    forall u | u in targets
      ensures u in setup.plans && u in s.jobs && s.jobs[u].Merged?
      ensures EndedOk(setup, b0, s.book, u, s.jobs[u].ds, s.jobs[u].outcome)
    {
      assert u in s.jobs && JobOk(setup, b0, s.book, u, s.jobs[u]);
    }
  }

  /** So it is whatever the interleaving of the followers' reads, cancels, placements and merges. */
  lemma GroupReport(setup: Setup, run: seq<State>, events: seq<Event>, b0: Book, targets: seq<UserId>, k: nat)
    requires IsRun(setup, run, events, b0, targets) && Inv(b0) && Grouped(setup, b0, targets)
    requires k < |run| && AllMerged(run[k])
    ensures ReportOk(setup, b0, run[k], targets)
  {
    RunOk(setup, run, events, b0, targets, k);
    MergedReport(setup, b0, run[k], targets);
  }

  /** And every follower that did not panic holds, at the end, the positions its rebalance alone leaves:
      what one account's pass achieves, each achieves in the group. */
  lemma GroupPositions(setup: Setup, run: seq<State>, events: seq<Event>, b0: Book, targets: seq<UserId>, k: nat,
      u: UserId)
    requires IsRun(setup, run, events, b0, targets) && Inv(b0) && Grouped(setup, b0, targets)
    requires k < |run| && AllMerged(run[k]) && u in targets
    ensures u in setup.plans && u in run[k].jobs && run[k].jobs[u].Merged?
    ensures !run[k].jobs[u].outcome.Panicked? ==>
              HeldIn(run[k].book, u) == HeldIn(AloneBook(setup, b0, u, run[k].jobs[u].ds), u)
  {
    GroupReport(setup, run, events, b0, targets, k);
    RunOk(setup, run, events, b0, targets, k);
    var ds := run[k].jobs[u].ds;
    if !run[k].jobs[u].outcome.Panicked? {
      AloneInstruments(setup, b0, u, ds);
      NoIdsHeld(run[k].book, AloneBook(setup, b0, u, ds), u);
    }
  }

  lemma AloneInstruments(setup: Setup, b0: Book, u: UserId, ds: seq<Drift>)
    requires u in setup.plans && Inv(b0) && IsDiff(setup, b0, u, ds)
    ensures AloneBook(setup, b0, u, ds).instruments == b0.instruments
  {
    if RefusedIn(ContextIn(setup, b0, setup.plans[u]), ds) == None && ds != [] {
      assert ds[..|ds|] == ds;
      StartedInv(setup, b0, u, ds, |ds|);
    }
  }

  // ---------------------------------------------------------------- the order of a diff

  /** Two lists of the same diff are permutations of each other. */
  lemma SameDiff(setup: Setup, b0: Book, u: UserId, ds: seq<Drift>, ds': seq<Drift>)
    requires u in setup.plans && IsDiff(setup, b0, u, ds) && IsDiff(setup, b0, u, ds')
    ensures multiset(ds) == multiset(ds')
  {
    var c := ContextIn(setup, b0, setup.plans[u]);
    if DiffGate(c) == None {
      DiffIncluded(ds, ds', c.accounts.value[0], setup.lots, c.master.value, HeldIn(b0, u));
      DiffIncluded(ds', ds, c.accounts.value[0], setup.lots, c.master.value, HeldIn(b0, u));
      assert AllDifferent(ds) && AllDifferent(ds');
      SameThings(ds, ds');
    }
  }

  lemma DiffIncluded(ds: seq<Drift>, ds': seq<Drift>, acc: Account, lots: map<Listing, int>, master: seq<Held>,
      follower: seq<Held>)
    requires IsDrifts(ds, acc, lots, master, follower) && IsDrifts(ds', acc, lots, master, follower)
    ensures forall d :: d in ds ==> d in ds'
  {
    forall d | d in ds ensures d in ds' {
      assert Drifts(ds', d.listing);
      var j :| 0 <= j < |ds'| && ds'[j].listing == d.listing;
      assert ds'[j] == d;
    }
  }

  /** One drift's share of its account's report. */
  function DriftShare(u: UserId, ok: Drift -> bool): Drift -> Sums {
    (d: Drift) =>
      if ok(d)
      then Sums(0, 1, multiset{Trade(u, RebalanceConverges.KeyFor(d), d.action, Sizing.Abs(d.driftQty))}, multiset{})
      else Sums(0, 0, multiset{}, multiset{OrderFailed(u, d.listing)})
  }

  lemma OneOrderSums(u: UserId, t: Tally, o: Placed)
    ensures SumOf(EndOf(u, t.(orders := t.orders + [o]))) ==
            Plus(SumOf(EndOf(u, t)), Sums(0, 1, multiset{Trade(u, o.key, o.side, o.quantity)}, multiset{}))
  {
    var e, e' := EndOf(u, t), EndOf(u, t.(orders := t.orders + [o]));
    assert PlacedBy(e') == PlacedBy(e) + [PlacedFor(u, o)];
    TradesAppend(PlacedBy(e), [PlacedFor(u, o)]);
    assert TradesOf([PlacedFor(u, o)]) == [Trade(u, o.key, o.side, o.quantity)];
  }

  lemma OneErrorSums(u: UserId, t: Tally, l: Listing)
    ensures SumOf(EndOf(u, t.(errors := t.errors + [l]))) ==
            Plus(SumOf(EndOf(u, t)), Sums(0, 0, multiset{}, multiset{OrderFailed(u, l)}))
  {
    assert ErrorsOf(EndOf(u, t.(errors := t.errors + [l]))) == ErrorsOf(EndOf(u, t)) + [OrderFailed(u, l)];
  }

  lemma DriftAdds(cfg: Config, b: Book, t: Tally, u: UserId, d: Drift, tag: string, faults: set<Listing>)
    requires d.driftQty != 0
    ensures var (b', t') := PlaceDrift(cfg, b, t, u, d, tag, faults);
            var ok := RebalanceConverges.Ok(cfg, b.instruments, tag, faults);
            b'.instruments == b.instruments && SumOf(EndOf(u, t')) == Plus(SumOf(EndOf(u, t)), DriftShare(u, ok)(d))
  {
    RebalanceConverges.DriftStep(cfg, b, t, u, d, tag, faults);
    var key := RebalanceConverges.KeyFor(d);
    OneOrderSums(u, t, Placed(OrderId(b.lastId + 1), key, d.action, Sizing.Abs(d.driftQty)));
    OneErrorSums(u, t, d.listing);
    DriftTally(cfg, b, t, u, d, tag, faults);
  }

  lemma {:induction false} DriftsAdd(cfg: Config, b: Book, t: Tally, u: UserId, ds: seq<Drift>, tag: string,
      faults: set<Listing>)
    requires RebalanceConverges.Proper(ds)
    ensures var (b', t') := PlaceDrifts(cfg, b, t, u, ds, tag, faults);
            var share := DriftShare(u, RebalanceConverges.Ok(cfg, b.instruments, tag, faults));
            b'.instruments == b.instruments && SumOf(EndOf(u, t')) == Plus(SumOf(EndOf(u, t)), SumAll(ds, share))
  {
    if ds == [] {
      PlusNone(SumOf(EndOf(u, t)));
    } else {
      var init, d := ds[..|ds| - 1], ds[|ds| - 1];
      DriftsAdd(cfg, b, t, u, init, tag, faults);
      var (mid, t1) := PlaceDrifts(cfg, b, t, u, init, tag, faults);
      DriftAdds(cfg, mid, t1, u, d, tag, faults);
      var share := DriftShare(u, RebalanceConverges.Ok(cfg, b.instruments, tag, faults));
      PlusAssociates(SumOf(EndOf(u, t)), SumAll(init, share), share(d));
    }
  }

  lemma PlusNone(a: Sums)
    ensures Plus(a, NoSums) == a
  {
  }

  lemma PlusAssociates(a: Sums, b: Sums, c: Sums)
    ensures Plus(Plus(a, b), c) == Plus(a, Plus(b, c))
  {
  }

  lemma SameSymbols(ds: seq<Drift>, ds': seq<Drift>, symbol: string)
    requires multiset(ds) == multiset(ds')
    ensures InDrift(symbol, ds) <==> InDrift(symbol, ds')
  {
    SymbolsIncluded(ds, ds', symbol);
    SymbolsIncluded(ds', ds, symbol);
  }

  lemma SymbolsIncluded(ds: seq<Drift>, ds': seq<Drift>, symbol: string)
    requires multiset(ds) == multiset(ds')
    ensures InDrift(symbol, ds) ==> InDrift(symbol, ds')
  {
    if InDrift(symbol, ds) {
      var i :| 0 <= i < |ds| && Text.Fold(ds[i].listing.symbol) == Text.Fold(symbol);
      assert ds[i] in multiset(ds');
      var j :| 0 <= j < |ds'| && ds'[j] == ds[i];
    }
  }

  lemma {:induction false} SameOpen(orders: map<OrderId, Order>, ids: seq<OrderId>, ds: seq<Drift>, ds': seq<Drift>)
    requires multiset(ds) == multiset(ds')
    ensures OpenDrifting(orders, ids, ds) == OpenDrifting(orders, ids, ds')
  {
    if ids != [] {
      SameOpen(orders, ids[..|ids| - 1], ds, ds');
      var id := ids[|ids| - 1];
      if id in orders { SameSymbols(ds, ds', orders[id].params.symbol); }
    }
  }

  /** What an account gets alone does not depend on the order its diff is listed in. */
  lemma AloneAnyOrder(setup: Setup, b0: Book, u: UserId, ds: seq<Drift>, ds': seq<Drift>)
    requires u in setup.plans && Inv(b0) && IsDiff(setup, b0, u, ds) && IsDiff(setup, b0, u, ds')
    ensures SumOf(Alone(setup, b0, u, ds)) == SumOf(Alone(setup, b0, u, ds'))
  {
    SameDiff(setup, b0, u, ds, ds');
    assert |multiset(ds)| == |ds| && |multiset(ds')| == |ds'|;
    if RefusedIn(ContextIn(setup, b0, setup.plans[u]), ds) == None && ds != [] {
      GoesProper(setup, b0, u, ds);
      GoesProper(setup, b0, u, ds');
      ExecuteAnyOrder(setup, b0, u, ds, ds');
    }
  }

  lemma ExecuteAnyOrder(setup: Setup, b0: Book, u: UserId, ds: seq<Drift>, ds': seq<Drift>)
    requires u in setup.plans && Inv(b0) && multiset(ds) == multiset(ds') && ds != [] && ds' != []
    requires RebalanceConverges.Proper(ds) && RebalanceConverges.Proper(ds')
    ensures SumOf(EndOf(u, AloneRun(setup, b0, u, ds).1)) == SumOf(EndOf(u, AloneRun(setup, b0, u, ds').1))
  {
    var plan := setup.plans[u];
    SameOpen(b0.orders, IdsOf(b0.userOrders, u), ds, ds');
    RebalanceConverges.DriftCancelsKeep(b0, u, ds, plan.faults, u);
    var (b1, t) := Started(setup, b0, u, ds);
    assert Started(setup, b0, u, ds') == (b1, t);
    DriftsAdd(setup.cfg, b1, t, u, ds, plan.tag, plan.faults.places);
    DriftsAdd(setup.cfg, b1, t, u, ds', plan.tag, plan.faults.places);
    AddAnyOrder(ds, ds', DriftShare(u, RebalanceConverges.Ok(setup.cfg, b1.instruments, plan.tag, plan.faults.places)));
  }

  /** Any two interleavings in which the same followers panic, whatever order each diff was listed in,
      report the same counts and status, and the same orders (ids aside) and errors as multisets. */
  lemma SchedulesAgree(setup: Setup, b0: Book, targets: seq<UserId>, run: seq<State>, events: seq<Event>, k: nat,
                       run': seq<State>, events': seq<Event>, k': nat)
    requires Inv(b0) && Grouped(setup, b0, targets)
    requires IsRun(setup, run, events, b0, targets) && k < |run| && AllMerged(run[k])
    requires IsRun(setup, run', events', b0, targets) && k' < |run'| && AllMerged(run'[k'])
    requires forall u :: u in targets && u in run[k].jobs && u in run'[k'].jobs ==>
               (run[k].jobs[u].outcome.Panicked? <==> run'[k'].jobs[u].outcome.Panicked?)
    ensures var r, r' := run[k].result, run'[k'].result;
            && r.status == r'.status && r.cancelled == r'.cancelled && r.placed == r'.placed
            && multiset(TradesOf(r.orders)) == multiset(TradesOf(r'.orders))
            && multiset(r.errors) == multiset(r'.errors)
  {
    GroupReport(setup, run, events, b0, targets, k);
    GroupReport(setup, run', events', b0, targets, k');
    var jobs, jobs' := run[k].jobs, run'[k'].jobs;
    forall i | 0 <= i < |targets|
      ensures Shares(jobs)(targets[i]) == Shares(jobs')(targets[i])
    {
      var u := targets[i];
      assert u in targets;
      if !jobs[u].outcome.Panicked? { AloneAnyOrder(setup, b0, u, jobs[u].ds, jobs'[u].ds); }
    }
    AddSame(targets, Shares(jobs), Shares(jobs'));
    EmptyIffNone(run[k].result.errors);
    EmptyIffNone(run'[k'].result.errors);
  }
}
