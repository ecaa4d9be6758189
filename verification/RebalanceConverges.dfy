/** What one rebalance pass achieves on an instant-fill broker, listing by listing. */
module RebalanceConverges {
  import opened Collections
  import opened OrderBook
  import opened Positions
  import opened Rebalance
  import SquareOff
  import SquareOffFlat
  import Sizing

  function KeyAt(l: Listing, product: string): Key {
    Key(l.exchange, l.symbol, product)
  }

  function KeyFor(d: Drift): Key {
    KeyAt(d.listing, d.product)
  }

  // ---------------------------------------------------------------- what the orders add

  predicate Succeeds(cfg: Config, instruments: map<Listing, Instrument>, d: Drift, tag: string, faults: set<Listing>) {
    d.listing !in faults && Validate(cfg, instruments, DriftOrder(d, tag)) == None
  }

  function Ok(cfg: Config, instruments: map<Listing, Instrument>, tag: string, faults: set<Listing>): Drift -> bool {
    (d: Drift) => Succeeds(cfg, instruments, d, tag, faults)
  }

  /** Signed units the orders that succeed put on the key. */
  function Added(ds: seq<Drift>, ok: Drift -> bool, k: Key): int {
    if ds == [] then 0
    else
      var d := ds[|ds| - 1];
      Added(ds[..|ds| - 1], ok, k) + (if KeyFor(d) == k && ok(d) then d.driftQty else 0)
  }

  /** The same, per listing. */
  function AddedAcross(ds: seq<Drift>, ok: Drift -> bool, l: Listing): int {
    if ds == [] then 0
    else
      var d := ds[|ds| - 1];
      AddedAcross(ds[..|ds| - 1], ok, l) + (if d.listing == l && ok(d) then d.driftQty else 0)
  }

  function FailedIn(ds: seq<Drift>, ok: Drift -> bool): seq<Listing> {
    if ds == [] then []
    else
      var before := FailedIn(ds[..|ds| - 1], ok);
      var d := ds[|ds| - 1];
      if ok(d) then before else before + [d.listing]
  }

  predicate Signs(d: Drift) {
    d.action == if d.driftQty < 0 then "SELL" else "BUY"
  }

  /** The net quantity summed over products. */
  function Across(os: seq<Order>, l: Listing): int {
    if os == [] then 0
    else
      var o := os[|os| - 1];
      Across(os[..|os| - 1], l) + (if ListingOf(o.params) == l then Signed(o, KeyOf(o)) else 0)
  }

  lemma AcrossAppended(os: seq<Order>, o: Order, l: Listing)
    ensures Across(os + [o], l) == Across(os, l) + (if ListingOf(o.params) == l then Signed(o, KeyOf(o)) else 0)
  {
    assert (os + [o])[..|os|] == os;
  }

  lemma {:induction false} AcrossSame(os: seq<Order>, os': seq<Order>, l: Listing)
    requires SquareOffFlat.SameCounted(os, os')
    ensures Across(os, l) == Across(os', l)
  {
    if os != [] { AcrossSame(os[..|os| - 1], os'[..|os'| - 1], l); }
  }

  /** Between two books the user's key and listing moved by so much, and `v` kept every order. */
  predicate Shifted(b: Book, b': Book, user: UserId, k: Key, byKey: int, l: Listing, byListing: int, v: UserId) {
    && Net(OrdersOf(b', user), k) == Net(OrdersOf(b, user), k) + byKey
    && Across(OrdersOf(b', user), l) == Across(OrdersOf(b, user), l) + byListing
    && (v != user ==> OrdersOf(b', v) == OrdersOf(b, v))
  }

  /** One accepted drift order, filled at once: its own key moves by the drift and nothing else does. */
  lemma DriftPlaced(cfg: Config, b: Book, user: UserId, d: Drift, tag: string, k: Key, l: Listing, v: UserId)
    requires Inv(b) && cfg.instant && d.driftQty != 0 && Signs(d)
    requires Validate(cfg, b.instruments, DriftOrder(d, tag)) == None
    ensures Shifted(b, Place(cfg, b, user, DriftOrder(d, tag)).0, user, k, if KeyFor(d) == k then d.driftQty else 0,
                    l, if d.listing == l then d.driftQty else 0, v)
  {
    var params := DriftOrder(d, tag);
    SquareOffFlat.PlaceOrders(cfg, b, user, params, user);
    SquareOffFlat.PlaceOrders(cfg, b, user, params, v);
    NewDriftOrder(cfg, b, user, d, tag, k);
    OrderShifts(OrdersOf(b, user), SquareOffFlat.NewOrder(cfg, b, user, params), k, l);
  }

  lemma OrderShifts(os: seq<Order>, o: Order, k: Key, l: Listing)
    ensures Net(os + [o], k) == Net(os, k) + Signed(o, k)
    ensures Across(os + [o], l) == Across(os, l) + (if ListingOf(o.params) == l then Signed(o, KeyOf(o)) else 0)
  {
    SquareOffFlat.NetAppended(os, o, k);
    AcrossAppended(os, o, l);
  }

  lemma NewDriftOrder(cfg: Config, b: Book, user: UserId, d: Drift, tag: string, k: Key)
    requires cfg.instant && d.driftQty != 0 && Signs(d) && d.listing in b.instruments
    ensures var o := SquareOffFlat.NewOrder(cfg, b, user, DriftOrder(d, tag));
            && ListingOf(o.params) == d.listing && KeyOf(o) == KeyFor(d)
            && Signed(o, k) == (if KeyFor(d) == k then d.driftQty else 0)
            && Signed(o, KeyOf(o)) == d.driftQty
  {
  }

  ghost predicate Proper(ds: seq<Drift>) {
    && (forall i :: 0 <= i < |ds| ==> ds[i].driftQty != 0 && Signs(ds[i]))
    && (forall i, j :: 0 <= i < j < |ds| ==> ds[i].listing != ds[j].listing)
  }

  /** A drift order either reaches the book or is noted as failed. */
  lemma DriftStep(cfg: Config, b: Book, t: Tally, user: UserId, d: Drift, tag: string, faults: set<Listing>)
    requires d.driftQty != 0
    ensures var (b', t') := PlaceDrift(cfg, b, t, user, d, tag, faults);
            && b'.instruments == b.instruments
            && if Succeeds(cfg, b.instruments, d, tag, faults) then
                 b' == Place(cfg, b, user, DriftOrder(d, tag)).0 && t'.errors == t.errors
               else b' == b && t'.errors == t.errors + [d.listing]
  {
  }

  lemma {:induction false} DriftsKeepInv(cfg: Config, b: Book, t: Tally, user: UserId, ds: seq<Drift>, tag: string,
      faults: set<Listing>)
    requires Inv(b) && Proper(ds)
    ensures var (b', t') := PlaceDrifts(cfg, b, t, user, ds, tag, faults);
            && Inv(b') && b'.instruments == b.instruments
            && t'.errors == t.errors + FailedIn(ds, Ok(cfg, b.instruments, tag, faults))
  {
    if ds != [] {
      var init, d := ds[..|ds| - 1], ds[|ds| - 1];
      DriftsKeepInv(cfg, b, t, user, init, tag, faults);
      var (mid, t1) := PlaceDrifts(cfg, b, t, user, init, tag, faults);
      DriftStep(cfg, mid, t1, user, d, tag, faults);
      if Succeeds(cfg, b.instruments, d, tag, faults) { PlaceKeepsInv(cfg, mid, user, DriftOrder(d, tag)); }
    }
  }

  lemma {:induction false} DriftsPlaced(cfg: Config, b: Book, t: Tally, user: UserId, ds: seq<Drift>, tag: string,
      faults: set<Listing>, k: Key, l: Listing, v: UserId)
    requires Inv(b) && cfg.instant && Proper(ds)
    ensures var ok := Ok(cfg, b.instruments, tag, faults);
            Shifted(b, PlaceDrifts(cfg, b, t, user, ds, tag, faults).0, user,
                    k, Added(ds, ok, k), l, AddedAcross(ds, ok, l), v)
  {
    if ds != [] {
      var init, d := ds[..|ds| - 1], ds[|ds| - 1];
      DriftsPlaced(cfg, b, t, user, init, tag, faults, k, l, v);
      DriftsKeepInv(cfg, b, t, user, init, tag, faults);
      var (mid, t1) := PlaceDrifts(cfg, b, t, user, init, tag, faults);
      DriftStep(cfg, mid, t1, user, d, tag, faults);
      if Succeeds(cfg, b.instruments, d, tag, faults) { DriftPlaced(cfg, mid, user, d, tag, k, l, v); }
    }
  }

  // ---------------------------------------------------------------- the whole pass

  lemma {:induction false} DriftingOwn(orders: map<OrderId, Order>, ids: seq<OrderId>, ds: seq<Drift>)
    ensures forall id :: id in OpenDrifting(orders, ids, ds) ==> id in ids
  {
    if ids != [] { DriftingOwn(orders, ids[..|ids| - 1], ds); }
  }

  lemma DriftCancelsKeep(b: Book, user: UserId, ds: seq<Drift>, faults: Faults, v: UserId)
    requires Inv(b)
    ensures var b' := AfterDriftCancels(b, user, ds, faults).0;
            && Inv(b') && b'.instruments == b.instruments
            && SquareOffFlat.SameCounted(OrdersOf(b, v), OrdersOf(b', v))
            && (v != user ==> OrdersOf(b', v) == OrdersOf(b, v))
  {
    DriftingOwn(b.orders, IdsOf(b.userOrders, user), ds);
    SquareOffFlat.CancelAllOrders(b, OpenDrifting(b.orders, IdsOf(b.userOrders, user), ds), faults.cancels, user, v);
  }

  lemma ExecutePointwise(cfg: Config, b: Book, user: UserId, ds: seq<Drift>, tag: string, faults: Faults, k: Key,
      l: Listing, v: UserId)
    requires Inv(b) && cfg.instant && Proper(ds)
    ensures var (b', t) := Execute(cfg, b, user, ds, tag, faults);
            var ok := Ok(cfg, b.instruments, tag, faults.places);
            && Inv(b') && t.errors == FailedIn(ds, ok)
            && Shifted(b, b', user, k, Added(ds, ok, k), l, AddedAcross(ds, ok, l), v)
  {
    if ds != [] {
      var (b1, n) := AfterDriftCancels(b, user, ds, faults);
      DriftCancelsKeep(b, user, ds, faults, user);
      DriftCancelsKeep(b, user, ds, faults, v);
      SquareOffFlat.SameCountedSame(OrdersOf(b, user), OrdersOf(b1, user), k);
      AcrossSame(OrdersOf(b, user), OrdersOf(b1, user), l);
      DriftsKeepInv(cfg, b1, Tally(n, [], []), user, ds, tag, faults.places);
      DriftsPlaced(cfg, b1, Tally(n, [], []), user, ds, tag, faults.places, k, l, v);
    }
  }

  lemma {:induction false} AllOk(ds: seq<Drift>, ok: Drift -> bool)
    requires FailedIn(ds, ok) == []
    ensures forall i :: 0 <= i < |ds| ==> ok(ds[i])
  {
    if ds != [] {
      var init := ds[..|ds| - 1];
      AllOk(init, ok);
      forall i | 0 <= i < |ds| ensures ok(ds[i]) { if i < |init| { assert init[i] == ds[i]; } }
    }
  }

  /** When every order goes in, each drifting listing gets its drift, under its product. */
  lemma {:induction false} AddedExactly(ds: seq<Drift>, ok: Drift -> bool, l: Listing, product: string)
    requires Proper(ds) && forall i :: 0 <= i < |ds| ==> ok(ds[i])
    ensures !Drifts(ds, l) ==> Added(ds, ok, KeyAt(l, product)) == 0 && AddedAcross(ds, ok, l) == 0
    ensures forall i :: 0 <= i < |ds| && ds[i].listing == l ==>
              && Added(ds, ok, KeyAt(l, product)) == (if product == ds[i].product then ds[i].driftQty else 0)
              && AddedAcross(ds, ok, l) == ds[i].driftQty
  {
    if ds != [] {
      var n := |ds| - 1;
      var init := ds[..n];
      assert forall i :: 0 <= i < n ==> init[i] == ds[i];
      AddedExactly(init, ok, l, product);
      if Drifts(init, l) {
        var i :| 0 <= i < n && init[i].listing == l;
        assert ds[i].listing == l;
      }
    }
  }

  lemma DriftsProper(ds: seq<Drift>, acc: Account, lots: map<Listing, int>, master: seq<Held>, follower: seq<Held>)
    requires IsDrifts(ds, acc, lots, master, follower)
    ensures Proper(ds)
  {
  }

  /** After a pass without errors, each key of a listing has moved by the drift if its product is the
      drift's, and the listing's total by the drift in any case. */
  lemma PassMoves(cfg: Config, b: Book, user: UserId, acc: Account, lots: map<Listing, int>, master: seq<Held>,
      ds: seq<Drift>, tag: string, faults: Faults, l: Listing, product: string)
    requires Inv(b) && cfg.instant && IsDrifts(ds, acc, lots, master, HeldIn(b, user))
    requires Execute(cfg, b, user, ds, tag, faults).1.errors == []
    ensures var b' := Execute(cfg, b, user, ds, tag, faults).0;
            var d := DriftAt(acc, lots, master, HeldIn(b, user), l);
            && Net(OrdersOf(b', user), KeyAt(l, product)) ==
               Net(OrdersOf(b, user), KeyAt(l, product)) + (if product == d.product then d.driftQty else 0)
            && Across(OrdersOf(b', user), l) == Across(OrdersOf(b, user), l) + d.driftQty
  {
    var follower := HeldIn(b, user);
    DriftsProper(ds, acc, lots, master, follower);
    ExecutePointwise(cfg, b, user, ds, tag, faults, KeyAt(l, product), l, user);
    var ok := Ok(cfg, b.instruments, tag, faults.places);
    AllOk(ds, ok);
    AddedExactly(ds, ok, l, product);
    var d := DriftAt(acc, lots, master, follower, l);
    if Drifts(ds, l) {
      var i :| 0 <= i < |ds| && ds[i].listing == l;
      assert ds[i] == d;
    }
  }

  /** Whatever the products: the follower's total in a listing ends at the target, off only by what
      the drift map did not see of it before. */
  lemma TotalReachesTarget(cfg: Config, b: Book, user: UserId, acc: Account, lots: map<Listing, int>,
      master: seq<Held>, ds: seq<Drift>, tag: string, faults: Faults, l: Listing)
    requires Inv(b) && cfg.instant && IsDrifts(ds, acc, lots, master, HeldIn(b, user))
    requires Execute(cfg, b, user, ds, tag, faults).1.errors == []
    ensures var b' := Execute(cfg, b, user, ds, tag, faults).0;
            Across(OrdersOf(b', user), l) - TargetAt(acc, lots, master, l) ==
            Across(OrdersOf(b, user), l) - LastHeld(HeldIn(b, user), l).quantity
  {
    PassMoves(cfg, b, user, acc, lots, master, ds, tag, faults, l, "");
  }

  // ---------------------------------------------------------------- reading positions back

  /** A listing's products, in the order their positions are listed. */
  function Products(keys: seq<Key>, l: Listing): seq<string> {
    if keys == [] then []
    else
      var before, k := Products(keys[..|keys| - 1], l), keys[|keys| - 1];
      if At(k) == l then before + [k.product] else before
  }

  lemma {:induction false} ProductsListed(keys: seq<Key>, l: Listing, p: string)
    ensures p in Products(keys, l) <==> KeyAt(l, p) in keys
  {
    if keys != [] {
      var init := keys[..|keys| - 1];
      ProductsListed(init, l, p);
      assert keys == init + [keys[|keys| - 1]];
    }
  }

  lemma {:induction false} ProductsDistinct(keys: seq<Key>, l: Listing)
    requires forall i, j :: 0 <= i < j < |keys| ==> keys[i] != keys[j]
    ensures Distinct(Products(keys, l))
  {
    if keys != [] {
      var n := |keys| - 1;
      ProductsDistinct(keys[..n], l);
      ProductsListed(keys[..n], l, keys[n].product);
      assert keys[n] !in keys[..n];
    }
  }

  lemma {:induction false} ProductsGrow(keys: seq<Key>, more: seq<Key>, l: Listing)
    requires keys <= more
    ensures Products(keys, l) <= Products(more, l)
  {
    if |more| > |keys| {
      ProductsGrow(keys, more[..|more| - 1], l);
    } else {
      assert keys == more;
    }
  }

  predicate Distinct(ps: seq<string>) {
    forall i, j :: 0 <= i < j < |ps| ==> ps[i] != ps[j]
  }

  /** A listing's net quantity by product. */
  function NetsOf(os: seq<Order>, l: Listing): string -> int {
    (p: string) => Net(os, KeyAt(l, p))
  }

  /** The side is the last open product of the list. */
  predicate LastOpen(ps: seq<string>, nets: string -> int, i: nat, s: Side) {
    i < |ps| && s == Side(ps[i], nets(ps[i])) && nets(ps[i]) != 0 && forall j :: i < j < |ps| ==> nets(ps[j]) == 0
  }

  ghost predicate SomeLastOpen(ps: seq<string>, nets: string -> int, s: Side) {
    exists i: nat :: LastOpen(ps, nets, i, s)
  }

  /** What the drift map reads of these quantities: the last open product, or nothing if all are flat. */
  ghost predicate ReadsAs(ps: seq<string>, nets: string -> int, s: Side) {
    && (forall p :: nets(p) != 0 ==> p in ps)
    && (if s.quantity != 0 then SomeLastOpen(ps, nets, s) else forall p :: nets(p) == 0)
  }

  lemma {:induction false} LastHeldOpen(held: seq<Held>, keys: seq<Key>, l: Listing, nets: string -> int)
    requires |held| == |keys|
    requires forall i :: 0 <= i < |keys| ==> held[i].key == keys[i]
    requires forall i :: 0 <= i < |keys| && At(keys[i]) == l ==> held[i].quantity == nets(keys[i].product)
    ensures var s, ps := LastHeld(held, l), Products(keys, l);
            if s.quantity != 0 then SomeLastOpen(ps, nets, s)
            else s == Nothing && forall j :: 0 <= j < |ps| ==> nets(ps[j]) == 0
  {
    if keys != [] {
      var n := |keys| - 1;
      var s, ps := LastHeld(held, l), Products(keys, l);
      LastHeldOpen(held[..n], keys[..n], l, nets);
      if At(keys[n]) == l && held[n].quantity != 0 {
        assert LastOpen(ps, nets, |ps| - 1, s);
      } else if s.quantity != 0 {
        var before := Products(keys[..n], l);
        var i: nat :| LastOpen(before, nets, i, s);
        assert before <= ps;
        assert forall j :: |before| <= j < |ps| ==> nets(ps[j]) == 0;
        assert LastOpen(ps, nets, i, s);
      }
    }
  }

  lemma HeldIsNet(b: Book, user: UserId)
    ensures var os := OrdersOf(b, user);
            HeldIn(b, user) ==
            seq(|Keys(os)|, i requires 0 <= i < |Keys(os)| => Held(Keys(os)[i], Net(os, Keys(os)[i])))
  {
    var os, held := OrdersOf(b, user), HeldIn(b, user);
    SquareOffFlat.PositionsRead(b, user);
    forall i | 0 <= i < |held| ensures held[i] == Held(Keys(os)[i], Net(os, Keys(os)[i])) {
      assert PositionsOf(b, user)[i].quantity == Net(os, PositionsOf(b, user)[i].key);
    }
  }

  lemma HeldReads(b: Book, user: UserId, l: Listing)
    ensures var os := OrdersOf(b, user);
            ReadsAs(Products(Keys(os), l), NetsOf(os, l), LastHeld(HeldIn(b, user), l))
  {
    var os, held := OrdersOf(b, user), HeldIn(b, user);
    var nets, ps := NetsOf(os, l), Products(Keys(os), l);
    HeldIsNet(b, user);
    forall i | 0 <= i < |held| && At(Keys(os)[i]) == l ensures held[i].quantity == nets(Keys(os)[i].product) {
      assert Keys(os)[i] == KeyAt(l, Keys(os)[i].product);
    }
    LastHeldOpen(held, Keys(os), l, nets);
    forall p: string ensures nets(p) != 0 ==> p in ps { OpenIsListed(os, l, p); }
  }

  lemma OpenIsListed(os: seq<Order>, l: Listing, p: string)
    ensures Net(os, KeyAt(l, p)) != 0 ==> p in Products(Keys(os), l)
  {
    KeysAreSeen(os, KeyAt(l, p));
    ProductsListed(Keys(os), l, p);
    if KeyAt(l, p) !in Keys(os) { UnseenNet(os, KeyAt(l, p), 0.0); }
  }

  /** One product's quantity changed. */
  ghost predicate MovesBy(before: string -> int, after: string -> int, product: string, delta: int) {
    forall p :: after(p) == before(p) + (if p == product then delta else 0)
  }

  lemma PassMovesOne(cfg: Config, b: Book, user: UserId, acc: Account, lots: map<Listing, int>, master: seq<Held>,
      ds: seq<Drift>, tag: string, faults: Faults, l: Listing)
    requires Inv(b) && cfg.instant && IsDrifts(ds, acc, lots, master, HeldIn(b, user))
    requires Execute(cfg, b, user, ds, tag, faults).1.errors == []
    ensures var b' := Execute(cfg, b, user, ds, tag, faults).0;
            var d := DriftAt(acc, lots, master, HeldIn(b, user), l);
            MovesBy(NetsOf(OrdersOf(b, user), l), NetsOf(OrdersOf(b', user), l), d.product, d.driftQty)
  {
    var b' := Execute(cfg, b, user, ds, tag, faults).0;
    var d := DriftAt(acc, lots, master, HeldIn(b, user), l);
    var before, after := NetsOf(OrdersOf(b, user), l), NetsOf(OrdersOf(b', user), l);
    forall p: string
      ensures after(p) == before(p) + (if p == d.product then d.driftQty else 0)
    {
      PassMoves(cfg, b, user, acc, lots, master, ds, tag, faults, l, p);
    }
  }

  // ---------------------------------------------------------------- keys only grow

  lemma {:induction false} DriftsKeepKeys(cfg: Config, b: Book, t: Tally, user: UserId, ds: seq<Drift>, tag: string,
      faults: set<Listing>)
    requires Inv(b) && Proper(ds)
    ensures Keys(OrdersOf(b, user)) <= Keys(OrdersOf(PlaceDrifts(cfg, b, t, user, ds, tag, faults).0, user))
  {
    if ds != [] {
      var init, d := ds[..|ds| - 1], ds[|ds| - 1];
      DriftsKeepKeys(cfg, b, t, user, init, tag, faults);
      DriftsKeepInv(cfg, b, t, user, init, tag, faults);
      var (mid, t1) := PlaceDrifts(cfg, b, t, user, init, tag, faults);
      DriftStep(cfg, mid, t1, user, d, tag, faults);
      if Succeeds(cfg, mid.instruments, d, tag, faults) {
        SquareOffFlat.PlaceOrders(cfg, mid, user, DriftOrder(d, tag), user);
        OneMoreOrder(OrdersOf(mid, user), SquareOffFlat.NewOrder(cfg, mid, user, DriftOrder(d, tag)));
      }
    }
  }

  lemma ExecuteKeepsKeys(cfg: Config, b: Book, user: UserId, ds: seq<Drift>, tag: string, faults: Faults)
    requires Inv(b) && Proper(ds)
    ensures Keys(OrdersOf(b, user)) <= Keys(OrdersOf(Execute(cfg, b, user, ds, tag, faults).0, user))
  {
    if ds != [] {
      var (b1, n) := AfterDriftCancels(b, user, ds, faults);
      DriftCancelsKeep(b, user, ds, faults, user);
      SquareOffFlat.SameCountedSame(OrdersOf(b, user), OrdersOf(b1, user), Key("", "", ""));
      DriftsKeepKeys(cfg, b1, Tally(n, [], []), user, ds, tag, faults.places);
    }
  }

  // ---------------------------------------------------------------- when one pass is enough

  /** The drift order trades the product the follower holds, if it holds any. */
  predicate ProductsMatch(master: seq<Held>, follower: seq<Held>, l: Listing) {
    var m, f := LastHeld(master, l), LastHeld(follower, l);
    f.quantity == 0 || ProductOf(m, f) == f.product
  }

  /** No other product of the listing is open beside the one the drift map reads. */
  ghost predicate NoneBeside(nets: string -> int, f: Side) {
    forall p :: p != f.product ==> nets(p) == 0
  }

  /** The order at this listing brings it to its target in one pass: the listing is flat, or the order
      trades the product the map reads, and if that goes to zero no other product is left to be read. */
  ghost predicate OneOrderEnough(nets: string -> int, product: string, f: Side, target: int) {
    f.quantity == 0 || (product == f.product && (target != 0 || NoneBeside(nets, f)))
  }

  /** After the pass the map reads what it read, or the product traded if that comes later. */
  lemma ReadAfter(ps: seq<string>, ps': seq<string>, before: string -> int, after: string -> int, product: string,
      f: Side, s: Side, delta: int)
    requires MovesBy(before, after, product, delta) && ps <= ps' && Distinct(ps')
    requires ReadsAs(ps, before, f) && ReadsAs(ps', after, s)
    requires f.quantity != 0 && after(f.product) != 0 && s.quantity != 0
    ensures s == Side(f.product, after(f.product)) || (s == Side(product, delta) && product != f.product)
  {
    var i: nat :| LastOpen(ps, before, i, f);
    var j: nat :| LastOpen(ps', after, j, s);
    assert ps'[i] == ps[i] == f.product;
    assert i <= j;
    if i < j {
      assert ps'[j] != f.product;
      if j < |ps| {
        assert ps'[j] == ps[j] && before(ps[j]) == 0;
      } else {
        assert forall k :: 0 <= k < |ps| ==> ps[k] == ps'[k] && ps'[k] != ps'[j];
      }
    }
  }

  /** One listing before and after a pass: the map reads the target afterwards exactly when it did
      before, or one order was enough. */
  lemma ListingSettles(ps: seq<string>, ps': seq<string>, before: string -> int, after: string -> int,
      product: string, f: Side, s: Side, target: int)
    requires MovesBy(before, after, product, target - f.quantity) && ps <= ps' && Distinct(ps')
    requires ReadsAs(ps, before, f) && ReadsAs(ps', after, s)
    ensures s.quantity == target <==> target == f.quantity || OneOrderEnough(before, product, f, target)
  {
    if f.quantity == 0 {
      FlatListing(ps', before, after, product, s, target);
    } else {
      var i: nat :| LastOpen(ps, before, i, f);
      if after(f.product) == 0 {
        assert product == f.product && target == 0;
        ClosedListing(ps', before, after, f, s);
      } else {
        assert s.quantity != 0;
        ReadAfter(ps, ps', before, after, product, f, s, target - f.quantity);
      }
    }
  }

  /** A flat listing holds the target afterwards. */
  lemma FlatListing(ps': seq<string>, before: string -> int, after: string -> int, product: string, s: Side,
      target: int)
    requires MovesBy(before, after, product, target) && ReadsAs(ps', after, s) && forall p :: before(p) == 0
    ensures s.quantity == target
  {
    assert after(product) == target;
    if s.quantity != 0 {
      var j: nat :| LastOpen(ps', after, j, s);
      assert after(s.product) == before(s.product) + (if s.product == product then target else 0);
    }
  }

  /** A product brought to zero leaves nothing to read exactly when no other was open. */
  lemma ClosedListing(ps': seq<string>, before: string -> int, after: string -> int, f: Side, s: Side)
    requires MovesBy(before, after, f.product, -f.quantity) && ReadsAs(ps', after, s) && after(f.product) == 0
    ensures s.quantity == 0 <==> NoneBeside(before, f)
  {
    assert forall p :: p != f.product ==> after(p) == before(p);
    if s.quantity != 0 {
      var j: nat :| LastOpen(ps', after, j, s);
      assert after(s.product) != 0 && s.product != f.product;
    }
  }

  /** One pass converges at a listing, exactly when. Without order errors, however many products the
      follower has open there, the diff recomputed against the same master is empty at a listing if and
      only if it was on target or one order was enough; the product traded then moved by the drift, to
      the target itself if it is the product read, and every other product stayed. */
  lemma PassConvergesIff(cfg: Config, b: Book, user: UserId, acc: Account, lots: map<Listing, int>,
      master: seq<Held>, ds: seq<Drift>, tag: string, faults: Faults, l: Listing)
    requires Inv(b) && cfg.instant && IsDrifts(ds, acc, lots, master, HeldIn(b, user))
    requires Execute(cfg, b, user, ds, tag, faults).1.errors == []
    ensures var b' := Execute(cfg, b, user, ds, tag, faults).0;
            var d := DriftAt(acc, lots, master, HeldIn(b, user), l);
            var before, after := NetsOf(OrdersOf(b, user), l), NetsOf(OrdersOf(b', user), l);
            && (DriftAt(acc, lots, master, HeldIn(b', user), l).driftQty == 0 <==>
                d.driftQty == 0 || OneOrderEnough(before, d.product, LastHeld(HeldIn(b, user), l), d.targetQty))
            && MovesBy(before, after, d.product, d.driftQty)
            && (ProductsMatch(master, HeldIn(b, user), l) ==> after(d.product) == d.targetQty)
  {
    var b' := Execute(cfg, b, user, ds, tag, faults).0;
    var os, os' := OrdersOf(b, user), OrdersOf(b', user);
    PassMovesOne(cfg, b, user, acc, lots, master, ds, tag, faults, l);
    HeldReads(b, user, l);
    HeldReads(b', user, l);
    DriftsProper(ds, acc, lots, master, HeldIn(b, user));
    ExecuteKeepsKeys(cfg, b, user, ds, tag, faults);
    ProductsGrow(Keys(os), Keys(os'), l);
    KeysAreSeen(os', Key("", "", ""));
    ProductsDistinct(Keys(os'), l);
    SettledDiff(acc, lots, master, HeldIn(b, user), HeldIn(b', user), l,
                Products(Keys(os), l), Products(Keys(os'), l), NetsOf(os, l), NetsOf(os', l));
  }

  lemma SettledDiff(acc: Account, lots: map<Listing, int>, master: seq<Held>, held: seq<Held>, held': seq<Held>,
      l: Listing,
                    ps: seq<string>, ps': seq<string>, before: string -> int, after: string -> int)
    requires var d := DriftAt(acc, lots, master, held, l); MovesBy(before, after, d.product, d.driftQty)
    requires ps <= ps' && Distinct(ps')
    requires ReadsAs(ps, before, LastHeld(held, l)) && ReadsAs(ps', after, LastHeld(held', l))
    ensures var d := DriftAt(acc, lots, master, held, l);
            && (DriftAt(acc, lots, master, held', l).driftQty == 0 <==>
                d.driftQty == 0 || OneOrderEnough(before, d.product, LastHeld(held, l), d.targetQty))
            && (ProductsMatch(master, held, l) ==> after(d.product) == d.targetQty)
  {
    var d := DriftAt(acc, lots, master, held, l);
    var f := LastHeld(held, l);
    ListingSettles(ps, ps', before, after, d.product, f, LastHeld(held', l), d.targetQty);
    if f.quantity != 0 {
      var i: nat :| LastOpen(ps, before, i, f);
    }
  }

  /** Over all listings: the next diff is empty exactly when one order was enough at every drifting
      listing, which matching products and one open product per listing give. */
  lemma PassConverges(cfg: Config, b: Book, user: UserId, acc: Account, lots: map<Listing, int>, master: seq<Held>,
      ds: seq<Drift>, tag: string, faults: Faults, ds': seq<Drift>)
    requires Inv(b) && cfg.instant && IsDrifts(ds, acc, lots, master, HeldIn(b, user))
    requires Execute(cfg, b, user, ds, tag, faults).1.errors == []
    requires IsDrifts(ds', acc, lots, master, HeldIn(Execute(cfg, b, user, ds, tag, faults).0, user))
    ensures ds' == [] <==> forall i :: 0 <= i < |ds| ==> Enough(b, user, ds[i])
  {
    if ds' == [] {
      forall i | 0 <= i < |ds|
        ensures Enough(b, user, ds[i])
      {
        PassConvergesIff(cfg, b, user, acc, lots, master, ds, tag, faults, ds[i].listing);
        assert !Drifts(ds', ds[i].listing);
      }
    } else {
      var l := ds'[0].listing;
      PassConvergesIff(cfg, b, user, acc, lots, master, ds, tag, faults, l);
      assert Drifts(ds, l);
      var i :| 0 <= i < |ds| && ds[i].listing == l;
      assert !Enough(b, user, ds[i]);
    }
  }

  /** One order is enough for this drift. */
  ghost predicate Enough(b: Book, user: UserId, d: Drift) {
    OneOrderEnough(NetsOf(OrdersOf(b, user), d.listing), d.product, LastHeld(HeldIn(b, user), d.listing), d.targetQty)
  }

  /** With at most one product open, matching products are enough. */
  lemma MatchIsEnough(b: Book, user: UserId, master: seq<Held>, d: Drift)
    requires forall p, q ::
      Net(OrdersOf(b, user), KeyAt(d.listing, p)) != 0 && Net(OrdersOf(b, user), KeyAt(d.listing, q)) != 0 ==> p == q
    requires d.product == ProductOf(LastHeld(master, d.listing), LastHeld(HeldIn(b, user), d.listing))
    requires ProductsMatch(master, HeldIn(b, user), d.listing)
    ensures Enough(b, user, d)
  {
    HeldReads(b, user, d.listing);
    var nets, f := NetsOf(OrdersOf(b, user), d.listing), LastHeld(HeldIn(b, user), d.listing);
    if f.quantity != 0 {
      var i: nat :| LastOpen(Products(Keys(OrdersOf(b, user)), d.listing), nets, i, f);
      forall p | p != f.product ensures nets(p) == 0 {
        assert Net(OrdersOf(b, user), KeyAt(d.listing, f.product)) != 0;
      }
    }
  }

  /** Orders come in whole lots wherever the follower's holding does. */
  lemma DriftInLots(acc: Account, lots: map<Listing, int>, master: seq<Held>, follower: seq<Held>, l: Listing)
    requires LastHeld(follower, l).quantity % LotAt(lots, l) == 0
    ensures DriftAt(acc, lots, master, follower, l).driftQty % LotAt(lots, l) == 0
    ensures Sizing.Abs(DriftAt(acc, lots, master, follower, l).driftQty) % LotAt(lots, l) == 0
  {
    var lot := LotAt(lots, l);
    var m, f := LastHeld(master, l).quantity, LastHeld(follower, l).quantity;
    var target := Sizing.RebalanceTarget(m, Ratio(acc), lot, Cap(acc));
    Sizing.TargetInLots(m, Ratio(acc), lot, Cap(acc));
    Sizing.SubMultiples(target, f, lot);
    Sizing.SubMultiples(f, target, lot);
  }
}
