/** Rebalancing one follower against its master: what drifts, and the orders that undo it. */
module Rebalance {
  import opened Collections
  import opened OrderBook
  import opened Positions
  import SquareOff
  import Text
  import Sizing

  /** One broker position, as the service reads it. */
  datatype Held = Held(key: Key, quantity: int)

  /** What a drift map holds for an (exchange, symbol); nothing there reads as no product, no units. */
  datatype Side = Side(product: string, quantity: int)

  datatype Account = Account(linkedFollower: bool, enabled: bool, cloneFactor: Option<Sizing.Decimal>,
    maxQty: Option<int>)

  datatype Drift = Drift(listing: Listing, product: string, lotSize: int, masterQty: int, targetQty: int,
    followerQty: int, driftQty: int, action: string)

  function At(k: Key): Listing {
    Listing(k.exchange, k.symbol)
  }

  const Nothing := Side("", 0)

  /** The last non-zero position of an (exchange, symbol), whatever its product. */
  function LastHeld(ps: seq<Held>, l: Listing): Side {
    if ps == [] then Nothing
    else
      var p := ps[|ps| - 1];
      if p.quantity != 0 && At(p.key) == l then Side(p.key.product, p.quantity)
      else LastHeld(ps[..|ps| - 1], l)
  }

  function Ratio(acc: Account): Sizing.Decimal {
    if acc.cloneFactor.Some? && acc.cloneFactor.value.unscaled > 0 then acc.cloneFactor.value else Sizing.Decimal(1, 0)
  }

  function Cap(acc: Account): int {
    if acc.maxQty.Some? then acc.maxQty.value else 0
  }

  /** A lot size the store cannot give, or gives as zero or less, counts as one. */
  function LotAt(lots: map<Listing, int>, l: Listing): (lot: int)
    ensures lot > 0
  {
    if l in lots && lots[l] > 0 then lots[l] else 1
  }

  function ProductOf(master: Side, follower: Side): string {
    if master.product != "" then master.product
    else if follower.product != "" then follower.product
    else "CNC"
  }

  function TargetAt(acc: Account, lots: map<Listing, int>, master: seq<Held>, l: Listing): int {
    Sizing.RebalanceTarget(LastHeld(master, l).quantity, Ratio(acc), LotAt(lots, l), Cap(acc))
  }

  function DriftAt(acc: Account, lots: map<Listing, int>, master: seq<Held>, follower: seq<Held>, l: Listing): Drift {
    DriftOf(TargetAt(acc, lots, master, l), lots, l, LastHeld(master, l), LastHeld(follower, l))
  }

  function DriftOf(target: int, lots: map<Listing, int>, l: Listing, m: Side, f: Side): Drift {
    Drift(l, ProductOf(m, f), LotAt(lots, l), m.quantity, target, f.quantity, target - f.quantity,
          if target < f.quantity then "SELL" else "BUY")
  }

  /** The drifts of a follower: one for every (exchange, symbol) off its target, in any order. */
  ghost predicate IsDrifts(ds: seq<Drift>, acc: Account, lots: map<Listing, int>, master: seq<Held>,
      follower: seq<Held>) {
    && (forall i :: 0 <= i < |ds| ==>
          ds[i] == DriftAt(acc, lots, master, follower, ds[i].listing) && ds[i].driftQty != 0)
    && (forall i, j :: 0 <= i < j < |ds| ==> ds[i].listing != ds[j].listing)
    && (forall l :: DriftAt(acc, lots, master, follower, l).driftQty != 0 ==> Drifts(ds, l))
  }

  predicate Drifts(ds: seq<Drift>, l: Listing) {
    exists i :: 0 <= i < |ds| && ds[i].listing == l
  }

  // ---------------------------------------------------------------- the diff, as it is computed

  method IndexPositions(ps: seq<Held>) returns (m: map<Listing, Side>)
    ensures forall l :: LastHeld(ps, l) == if l in m then m[l] else Nothing
  {
    m := map[];
    for i := 0 to |ps|
      invariant forall l :: LastHeld(ps[..i], l) == if l in m then m[l] else Nothing
    {
      assert ps[..i + 1][..i] == ps[..i];
      if ps[i].quantity != 0 { m := m[At(ps[i].key) := Side(ps[i].key.product, ps[i].quantity)]; }
    }
    assert ps[..|ps|] == ps;
  }

  function Entry(m: map<Listing, Side>, l: Listing): Side {
    if l in m then m[l] else Nothing
  }

  method CalculateFollowerDrift(acc: Account, lots: map<Listing, int>, master: seq<Held>, follower: seq<Held>)
    returns (ds: seq<Drift>)
    ensures IsDrifts(ds, acc, lots, master, follower)
  {
    var masterMap := IndexPositions(master);
    var followerMap := IndexPositions(follower);
    var drift := (l: Listing) =>
      var m, f := Entry(masterMap, l), Entry(followerMap, l);
      DriftOf(Sizing.RebalanceTarget(m.quantity, Ratio(acc), LotAt(lots, l), Cap(acc)), lots, l, m, f);
    assert forall l :: drift(l) == DriftAt(acc, lots, master, follower, l);
    var allKeys := masterMap.Keys + followerMap.Keys;
    ds := CollectDrifts(allKeys, drift);
    forall l | drift(l).driftQty != 0
      ensures Drifts(ds, l)
    {
      if l !in allKeys { UnheldNoDrift(acc, lots, master, follower, l); }
    }
  }

  /** The loop over the keys, in whatever order they come. */
  method CollectDrifts(allKeys: set<Listing>, drift: Listing -> Drift) returns (ds: seq<Drift>)
    requires forall l :: drift(l).listing == l
    ensures forall i :: 0 <= i < |ds| ==> ds[i] == drift(ds[i].listing) && ds[i].driftQty != 0
    ensures forall i, j :: 0 <= i < j < |ds| ==> ds[i].listing != ds[j].listing
    ensures forall l :: l in allKeys && drift(l).driftQty != 0 ==> Drifts(ds, l)
  {
    var todo := allKeys;
    ds := [];
    while todo != {}
      invariant forall i :: 0 <= i < |ds| ==> ds[i] == drift(ds[i].listing) && ds[i].driftQty != 0
      invariant forall i :: 0 <= i < |ds| ==> ds[i].listing !in todo
      invariant forall i, j :: 0 <= i < j < |ds| ==> ds[i].listing != ds[j].listing
      invariant forall l :: l in allKeys && l !in todo && drift(l).driftQty != 0 ==> Drifts(ds, l)
      decreases todo
    {
      var l :| l in todo;
      todo := todo - {l};
      var d := drift(l);
      if d.driftQty != 0 {
        DriftsGrow(ds, d);
        ds := ds + [d];
      }
    }
  }

  lemma UnheldNoDrift(acc: Account, lots: map<Listing, int>, master: seq<Held>, follower: seq<Held>, l: Listing)
    requires LastHeld(master, l) == Nothing && LastHeld(follower, l) == Nothing
    ensures DriftAt(acc, lots, master, follower, l).driftQty == 0
  {
  }

  lemma DriftsGrow(ds: seq<Drift>, d: Drift)
    ensures forall l :: Drifts(ds + [d], l) <==> Drifts(ds, l) || d.listing == l
  {
    var ds' := ds + [d];
    forall l: Listing ensures Drifts(ds', l) <==> Drifts(ds, l) || d.listing == l {
      if Drifts(ds, l) {
        var i :| 0 <= i < |ds| && ds[i].listing == l;
        assert ds'[i].listing == l;
      }
      assert ds'[|ds|] == d;
    }
  }

  // ---------------------------------------------------------------- what a drift says

  /** What the maps hold of a listing: its last non-zero position, or nothing. */
  lemma {:induction false} LastHeldIs(ps: seq<Held>, l: Listing)
    ensures var s := LastHeld(ps, l);
            || (&& s == Side("", 0)
                && (forall i :: 0 <= i < |ps| && ps[i].quantity != 0 ==>
                      Listing(ps[i].key.exchange, ps[i].key.symbol) != l))
            || exists i :: HeldLast(ps, l, s, i)
  {
    if ps != [] {
      var n := |ps| - 1;
      var s := LastHeld(ps, l);
      LastHeldIs(ps[..n], l);
      if ps[n].quantity != 0 && At(ps[n].key) == l {
        assert HeldLast(ps, l, s, n);
      } else if i :| HeldLast(ps[..n], l, s, i) {
        assert HeldLast(ps, l, s, i);
      }
      assert forall i :: 0 <= i < n ==> ps[..n][i] == ps[i];
    }
  }

  /** The position at `i` is this side of the listing, and no later one of the listing is open. */
  predicate HeldLast(ps: seq<Held>, l: Listing, s: Side, i: int) {
    && 0 <= i < |ps| && ps[i].quantity != 0 && Listing(ps[i].key.exchange, ps[i].key.symbol) == l
    && s == Side(ps[i].key.product, ps[i].quantity)
    && forall j :: i < j < |ps| && ps[j].quantity != 0 ==> Listing(ps[j].key.exchange, ps[j].key.symbol) != l
  }

  /** The account's ratio is its clone factor if that is there and positive, and one otherwise. */
  predicate IsRatio(acc: Account, ratio: Sizing.Decimal) {
    && (acc.cloneFactor.Some? && acc.cloneFactor.value.unscaled > 0 ==> ratio == acc.cloneFactor.value)
    && (acc.cloneFactor.None? || acc.cloneFactor.value.unscaled <= 0 ==> ratio == Sizing.Decimal(1, 0))
  }

  /** The lot is the store's if that is there and positive, and one otherwise. */
  predicate IsLot(lots: map<Listing, int>, l: Listing, lot: int) {
    (l in lots && lots[l] > 0 ==> lot == lots[l]) && (l !in lots || lots[l] <= 0 ==> lot == 1)
  }

  /** Units within the master's times the ratio, and within a maximum if that is there and positive. */
  predicate Allowed(acc: Account, ratio: Sizing.Decimal, masterQty: int, q: int) {
    && q * Sizing.Pow10(ratio.scale) <= Sizing.Abs(masterQty) * ratio.unscaled
    && (acc.maxQty.Some? && acc.maxQty.value > 0 ==> q <= acc.maxQty.value)
  }

  /** The target: of the master's sign, and where the division is exact the greatest lot multiple allowed. */
  predicate IsTarget(acc: Account, ratio: Sizing.Decimal, lot: int, masterQty: int, target: int) {
    && (masterQty == 0 ==> target == 0) && (masterQty > 0 ==> target >= 0) && (masterQty < 0 ==> target <= 0)
    && (Sizing.Usable(ratio, lot) && masterQty != 0 ==>
          Sizing.Abs(target) % lot == 0 && Allowed(acc, ratio, masterQty, Sizing.Abs(target)))
  }

  /** Some quantity in whole lots that is allowed, where the division is exact. */
  predicate Fits(acc: Account, ratio: Sizing.Decimal, lot: int, masterQty: int, q: int) {
    Sizing.Usable(ratio, lot) && masterQty != 0 && q % lot == 0 && Allowed(acc, ratio, masterQty, q)
  }

  lemma TargetMeans(acc: Account, lots: map<Listing, int>, master: seq<Held>, l: Listing, ratio: Sizing.Decimal,
    lot: int, other: int)
    requires IsRatio(acc, ratio) && IsLot(lots, l, lot)
    ensures var m, target := LastHeld(master, l).quantity, TargetAt(acc, lots, master, l);
            && IsTarget(acc, ratio, lot, m, target)
            && (Fits(acc, ratio, lot, m, other) ==> other <= Sizing.Abs(target))
  {
    assert ratio == Ratio(acc) && lot == LotAt(lots, l);
    SizedTarget(LastHeld(master, l).quantity, ratio, lot, acc, other);
  }

  lemma SizedTarget(m: int, ratio: Sizing.Decimal, lot: int, acc: Account, other: int)
    requires lot > 0
    ensures var target := Sizing.RebalanceTarget(m, ratio, lot, Cap(acc));
            && IsTarget(acc, ratio, lot, m, target)
            && (Fits(acc, ratio, lot, m, other) ==> other <= Sizing.Abs(target))
  {
    Sizing.SizeOrderNonNegative(Sizing.Abs(m), ratio, lot, Cap(acc));
    Sizing.SizeOrderReasons(Sizing.Abs(m), ratio, lot, Cap(acc));
    var sized := Sizing.SizeOrder(Sizing.Abs(m), ratio, lot, Cap(acc));
    SignedTarget(m, ratio, lot, Cap(acc));
    if Sizing.Usable(ratio, lot) { Sizing.SizeOrderGreatest(Sizing.Abs(m), ratio, lot, Cap(acc), other); }
  }

  lemma SignedTarget(m: int, ratio: Sizing.Decimal, lot: int, cap: int)
    requires lot > 0
    ensures var q := Sizing.SizeOrder(Sizing.Abs(m), ratio, lot, cap).qty;
            var target := Sizing.RebalanceTarget(m, ratio, lot, cap);
            q >= 0 && target == if m == 0 then 0 else if m > 0 then q else -q
  {
    Sizing.SizeOrderNonNegative(Sizing.Abs(m), ratio, lot, cap);
  }

  /** Every drift of a diff, on its columns: what master and follower hold, the target, the difference and
      its side, and the product: the master's, else the follower's, else CNC. */
  lemma DriftMeans(ds: seq<Drift>, acc: Account, lots: map<Listing, int>, master: seq<Held>, follower: seq<Held>,
    i: nat, ratio: Sizing.Decimal, other: int)
    requires IsDrifts(ds, acc, lots, master, follower) && i < |ds| && IsRatio(acc, ratio)
    ensures var d := ds[i];
            var m, f := LastHeld(master, d.listing), LastHeld(follower, d.listing);
            && d.masterQty == m.quantity && d.followerQty == f.quantity
            && IsLot(lots, d.listing, d.lotSize) && IsTarget(acc, ratio, d.lotSize, d.masterQty, d.targetQty)
            && (Fits(acc, ratio, d.lotSize, d.masterQty, other) ==> other <= Sizing.Abs(d.targetQty))
            && d.driftQty == d.targetQty - d.followerQty != 0
            && d.action == (if d.targetQty > d.followerQty then "BUY" else "SELL")
            && (m.product != "" ==> d.product == m.product)
            && (m.product == "" && f.product != "" ==> d.product == f.product)
            && (m.product == "" && f.product == "" ==> d.product == "CNC")
  {
    var d := ds[i];
    assert d == DriftAt(acc, lots, master, follower, d.listing);
    TargetMeans(acc, lots, master, d.listing, ratio, d.lotSize, other);
  }

  // ---------------------------------------------------------------- the orders

  datatype Placed = Placed(id: OrderId, key: Key, side: string, quantity: int)

  /** What the rebalance of an account reports; errors name the (exchange, symbol) whose order failed. */
  datatype Tally = Tally(cancelled: nat, orders: seq<Placed>, errors: seq<Listing>)

  /** Broker calls that fail before reaching the book. */
  datatype Faults = Faults(openOrders: bool, cancels: set<OrderId>, places: set<Listing>)

  /** The user's open orders in a drifting symbol, compared without case. */
  function OpenDrifting(orders: map<OrderId, Order>, ids: seq<OrderId>, ds: seq<Drift>): seq<OrderId> {
    if ids == [] then []
    else
      var before := OpenDrifting(orders, ids[..|ids| - 1], ds);
      var id := ids[|ids| - 1];
      if id in orders && orders[id].status == Open && InDrift(orders[id].params.symbol, ds)
      then before + [id] else before
  }

  predicate InDrift(symbol: string, ds: seq<Drift>) {
    exists i :: 0 <= i < |ds| && Text.Fold(ds[i].listing.symbol) == Text.Fold(symbol)
  }

  function DriftOrder(d: Drift, tag: string): Params {
    Params(d.listing.exchange, d.listing.symbol, d.action, d.product, "MARKET", Sizing.Abs(d.driftQty), 0.0, tag)
  }

  function PlaceDrift(cfg: Config, b: Book, t: Tally, user: UserId, d: Drift, tag: string,
      faults: set<Listing>): (Book, Tally) {
    if d.driftQty == 0 then (b, t)
    else if d.listing in faults then (b, t.(errors := t.errors + [d.listing]))
    else
      var (after, outcome) := Place(cfg, b, user, DriftOrder(d, tag));
      match outcome
      case Failed(_) => (after, t.(errors := t.errors + [d.listing]))
      case Accepted(id) =>
        var key := Key(d.listing.exchange, d.listing.symbol, d.product);
        (after, t.(orders := t.orders + [Placed(id, key, d.action, Sizing.Abs(d.driftQty))]))
  }

  function PlaceDrifts(cfg: Config, b: Book, t: Tally, user: UserId, ds: seq<Drift>, tag: string,
      faults: set<Listing>): (Book, Tally) {
    if ds == [] then (b, t)
    else
      var (b', t') := PlaceDrifts(cfg, b, t, user, ds[..|ds| - 1], tag, faults);
      PlaceDrift(cfg, b', t', user, ds[|ds| - 1], tag, faults)
  }

  function AfterDriftCancels(b: Book, user: UserId, ds: seq<Drift>, faults: Faults): (Book, nat) {
    if faults.openOrders then (b, 0)
    else SquareOff.CancelAll(b, OpenDrifting(b.orders, IdsOf(b.userOrders, user), ds), faults.cancels)
  }

  function Execute(cfg: Config, b: Book, user: UserId, ds: seq<Drift>, tag: string, faults: Faults): (Book, Tally) {
    if ds == [] then (b, Tally(0, [], []))
    else
      var (b1, n) := AfterDriftCancels(b, user, ds, faults);
      PlaceDrifts(cfg, b1, Tally(n, [], []), user, ds, tag, faults.places)
  }

  // ---------------------------------------------------------------- the service

  function HeldIn(b: Book, user: UserId): seq<Held> {
    var ps := PositionsOf(b, user);
    seq(|ps|, i requires 0 <= i < |ps| => Held(ps[i].key, ps[i].quantity))
  }

  datatype Refusal =
    | AccountsUnreadable | AccountMissing | NotLinked | MasterBroker | FollowerBroker
    | MasterPositions | FollowerPositions | Disabled | FollowerBrokerLost

  /** Store and broker answers a rebalance depends on; `None` and `false` are failed calls. */
  datatype Context = Context(accounts: Option<seq<Account>>, masterBroker: bool, followerBroker: bool,
    master: Option<seq<Held>>, followerRead: bool, followerBrokerAgain: bool)

  function DiffGate(c: Context): Option<Refusal> {
    if c.accounts == None then Some(AccountsUnreadable)
    else if c.accounts.value == [] then Some(AccountMissing)
    else if !c.accounts.value[0].linkedFollower then Some(NotLinked)
    else if !c.masterBroker then Some(MasterBroker)
    else if !c.followerBroker then Some(FollowerBroker)
    else if c.master == None then Some(MasterPositions)
    else if !c.followerRead then Some(FollowerPositions)
    else None
  }

  datatype Result = Refused(why: Refusal) | Report(status: string, tally: Tally)

  /** A diff is made exactly for an account found first, linked to a master, with both brokers and both
      position lists readable; an unlinked one is told so whatever the brokers say. */
  lemma DiffOpensIff(c: Context)
    ensures var linked := c.accounts.Some? && c.accounts.value != [] && c.accounts.value[0].linkedFollower;
            && (DiffGate(c) == None <==>
                linked && c.masterBroker && c.followerBroker && c.master.Some? && c.followerRead)
            && (DiffGate(c) == Some(NotLinked) <==>
                c.accounts.Some? && c.accounts.value != [] && !c.accounts.value[0].linkedFollower)
            && (DiffGate(c) == Some(AccountMissing) <==> c.accounts == Some([]))
            && (DiffGate(c) == Some(AccountsUnreadable) <==> c.accounts == None)
            && (DiffGate(c) == Some(FollowerPositions) <==>
                linked && c.masterBroker && c.followerBroker && c.master.Some? && !c.followerRead)
  {
  }

  method CancelDrifting(engine: OrderEngine, user: UserId, ds: seq<Drift>,
      faults: set<OrderId>) returns (cancelled: nat)
    modifies engine
    ensures var b := old(engine.Contents());
            (engine.Contents(), cancelled) ==
            SquareOff.CancelAll(b, OpenDrifting(b.orders, IdsOf(b.userOrders, user), ds), faults)
  {
    var open := FindOpen(engine.orders, IdsOf(engine.userOrders, user), ds);
    cancelled := SquareOff.CancelEach(engine, open, faults);
  }

  method FindOpen(orders: map<OrderId, Order>, ids: seq<OrderId>, ds: seq<Drift>) returns (open: seq<OrderId>)
    ensures open == OpenDrifting(orders, ids, ds)
  {
    open := [];
    for i := 0 to |ids|
      invariant open == OpenDrifting(orders, ids[..i], ds)
    {
      assert ids[..i + 1][..i] == ids[..i];
      if ids[i] in orders && orders[ids[i]].status == Open {
        var hit := FindSymbol(orders[ids[i]].params.symbol, ds);
        if hit { open := open + [ids[i]]; }
      }
    }
    assert ids[..|ids|] == ids;
  }

  method FindSymbol(symbol: string, ds: seq<Drift>) returns (hit: bool)
    ensures hit == InDrift(symbol, ds)
  {
    for i := 0 to |ds|
      invariant forall j :: 0 <= j < i ==> Text.Fold(ds[j].listing.symbol) != Text.Fold(symbol)
    {
      if Text.Fold(ds[i].listing.symbol) == Text.Fold(symbol) { return true; }
    }
    return false;
  }

  method PlaceDriftOrders(engine: OrderEngine, user: UserId, ds: seq<Drift>, tag: string, faults: set<Listing>,
      start: Tally) returns (t: Tally)
    modifies engine
    ensures (engine.Contents(), t) == PlaceDrifts(engine.config, old(engine.Contents()), start, user, ds, tag, faults)
  {
    ghost var b := engine.Contents();
    t := start;
    for i := 0 to |ds|
      invariant (engine.Contents(), t) == PlaceDrifts(engine.config, b, start, user, ds[..i], tag, faults)
    {
      assert ds[..i + 1][..i] == ds[..i];
      var d := ds[i];
      var quantity := Sizing.Abs(d.driftQty);
      if quantity == 0 { continue; }
      if d.listing in faults {
        t := t.(errors := t.errors + [d.listing]);
        continue;
      }
      var params := Params(d.listing.exchange, d.listing.symbol, d.action, d.product, "MARKET", quantity, 0.0, tag);
      var outcome := engine.PlaceOrder(user, params);
      if outcome.Failed? {
        t := t.(errors := t.errors + [d.listing]);
        continue;
      }
      var key := Key(d.listing.exchange, d.listing.symbol, d.product);
      t := t.(orders := t.orders + [Placed(outcome.id, key, d.action, quantity)]);
    }
    assert ds[..|ds|] == ds;
  }

  /** One follower's rebalance on its broker. `ds` is the diff it acted on. */
  method RebalanceAccount(engine: OrderEngine, user: UserId, c: Context, lots: map<Listing, int>, tag: string,
      faults: Faults)
    returns (r: Result, ds: seq<Drift>)
    modifies engine
    ensures DiffGate(c).Some? ==> r == Refused(DiffGate(c).value) && engine.Contents() == old(engine.Contents())
    ensures DiffGate(c) == None ==>
              IsDrifts(ds, c.accounts.value[0], lots, c.master.value, HeldIn(old(engine.Contents()), user))
    ensures DiffGate(c) == None && !c.accounts.value[0].enabled ==>
              r == Refused(Disabled) && engine.Contents() == old(engine.Contents())
    ensures DiffGate(c) == None && c.accounts.value[0].enabled && ds != [] && !c.followerBrokerAgain ==>
              r == Refused(FollowerBrokerLost) && engine.Contents() == old(engine.Contents())
    ensures DiffGate(c) == None && c.accounts.value[0].enabled && (ds == [] || c.followerBrokerAgain) ==>
              && r.Report?
              && (engine.Contents(), r.tally) == Execute(engine.config, old(engine.Contents()), user, ds, tag, faults)
              && r.status == (if r.tally.errors == [] then "completed" else "partial")
  {
    ds := [];
    var refusal := DiffGate(c);
    if refusal.Some? { return Refused(refusal.value), ds; }
    var acc := c.accounts.value[0];
    ds := CalculateFollowerDrift(acc, lots, c.master.value, HeldIn(engine.Contents(), user));
    if !acc.enabled { return Refused(Disabled), ds; }
    if |ds| == 0 { return Report("completed", Tally(0, [], [])), ds; }
    if !c.followerBrokerAgain { return Refused(FollowerBrokerLost), ds; }
    var cancelled := 0;
    if !faults.openOrders { cancelled := CancelDrifting(engine, user, ds, faults.cancels); }
    var tally := PlaceDriftOrders(engine, user, ds, tag, faults.places, Tally(cancelled, [], []));
    r := Report(if tally.errors == [] then "completed" else "partial", tally);
  }
}
