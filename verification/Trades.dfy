/** The orders a square-off or a rebalance cancels and sends, read off the broker's book. */
module Trades {
  import opened Collections
  import opened OrderBook
  import opened Positions
  import SquareOff
  import SquareOffFlat
  import Rebalance
  import Sizing
  import Text

  // ---------------------------------------------------------------- cancels

  function AsCancelled(o: Order): Order {
    o.(status := Cancelled, cancelled := o.params.quantity, pending := 0)
  }

  /** The orders in `hit` are cancelled and all others as they were. */
  predicate OnlyCancelled(b: Book, b': Book, hit: set<OrderId>) {
    && b'.instruments == b.instruments && b'.lastId == b.lastId && b'.userOrders == b.userOrders
    && b'.orders.Keys == b.orders.Keys
    && (forall x :: x in b.orders ==> b'.orders[x] == if x in hit then AsCancelled(b.orders[x]) else b.orders[x])
  }

  lemma CancelOneWrites(b: Book, before: Book, hit: set<OrderId>, id: OrderId)
    requires OnlyCancelled(b, before, hit) && id !in hit
    requires id in b.orders && b.orders[id].id == id && b.orders[id].status == Open
    ensures EndOrder(before, id, Cancel).1 == Accepted(id)
    ensures OnlyCancelled(b, EndOrder(before, id, Cancel).0, hit + {id})
  {
  }

  /** Of these ids, the ones whose cancel does not fail. */
  function Reached(ids: seq<OrderId>, faults: set<OrderId>): set<OrderId> {
    set id | id in ids && id !in faults
  }

  lemma ReachedGrows(ids: seq<OrderId>, faults: set<OrderId>)
    requires ids != [] && NoRepeats(ids)
    ensures var init, id := ids[..|ids| - 1], ids[|ids| - 1];
            id !in Reached(init, faults) &&
            Reached(ids, faults) == if id in faults then Reached(init, faults) else Reached(init, faults) + {id}
  {
    assert ids == ids[..|ids| - 1] + [ids[|ids| - 1]];
  }

  lemma {:induction false} CancelAllWrites(b: Book, ids: seq<OrderId>, faults: set<OrderId>)
    requires NoRepeats(ids)
    requires forall id :: id in ids ==> id in b.orders && b.orders[id].id == id && b.orders[id].status == Open
    ensures var (b', n) := SquareOff.CancelAll(b, ids, faults);
            OnlyCancelled(b, b', Reached(ids, faults)) && n == |Reached(ids, faults)|
  {
    if ids != [] {
      var init, id := ids[..|ids| - 1], ids[|ids| - 1];
      CancelAllWrites(b, init, faults);
      ReachedGrows(ids, faults);
      assert id in ids;
      if id !in faults {
        CancelOneWrites(b, SquareOff.CancelAll(b, init, faults).0, Reached(init, faults), id);
      }
    }
  }

  predicate OpenOf(o: Order, user: UserId) {
    o.user == user && o.status == Open
  }

  /** Square-off cancels exactly the user's open orders of a selected symbol, but for the calls that
      fail, and reports how many. */
  lemma SquareOffCancels(b: Book, user: UserId, symbols: seq<string>, faults: SquareOff.Faults)
    requires Inv(b)
    ensures var (b', n) := SquareOff.AfterCancels(b, user, symbols, faults);
            var hit := set x | x in b.orders && OpenOf(b.orders[x], user) && x !in faults.cancels
              && SquareOff.Selected(b.orders[x].params.symbol, symbols) && !faults.openOrders;
            OnlyCancelled(b, b', hit) && n == |hit|
  {
    var hit := set x | x in b.orders && OpenOf(b.orders[x], user) && x !in faults.cancels
      && SquareOff.Selected(b.orders[x].params.symbol, symbols) && !faults.openOrders;
    if faults.openOrders {
      assert hit == {};
    } else {
      var ids := SquareOff.OpenMatching(OrdersOf(b, user), symbols);
      forall x: OrderId
        ensures x in ids ==> x in b.orders && b.orders[x].id == x && OpenOf(b.orders[x], user)
        ensures x in ids ==> SquareOff.Selected(b.orders[x].params.symbol, symbols)
      {
        if x in ids { SquareOffFlat.OpenSelectedOwn(b, user, symbols, x); assert OrderFits(b, x); }
      }
      forall x | x in hit ensures x in ids { SquareOffFlat.OpenIsMatched(b, user, symbols, x); }
      OrdersOfUser(b, user);
      MatchingDistinct(OrdersOf(b, user), symbols);
      CancelAllWrites(b, ids, faults.cancels);
      assert hit == Reached(ids, faults.cancels);
    }
  }

  lemma {:induction false} MatchingDistinct(os: seq<Order>, symbols: seq<string>)
    requires forall i, j :: 0 <= i < j < |os| ==> os[i].id != os[j].id
    ensures NoRepeats(SquareOff.OpenMatching(os, symbols))
  {
    if os != [] {
      var n := |os| - 1;
      MatchingDistinct(os[..n], symbols);
      SquareOffFlat.OpenMatchingOwn(os[..n], symbols, os[n].id);
    }
  }

  /** The symbol of some drift, in whatever case. */
  predicate DriftSymbol(symbol: string, ds: seq<Rebalance.Drift>) {
    exists i :: 0 <= i < |ds| && Text.SameLetters(ds[i].listing.symbol, symbol)
  }

  /** Rebalance cancels exactly the user's open orders of a drifting symbol, in the same way. */
  lemma RebalanceCancels(b: Book, user: UserId, ds: seq<Rebalance.Drift>, faults: Rebalance.Faults)
    requires Inv(b)
    ensures var (b', n) := Rebalance.AfterDriftCancels(b, user, ds, faults);
            var hit := set x | x in b.orders && OpenOf(b.orders[x], user) && x !in faults.cancels
              && DriftSymbol(b.orders[x].params.symbol, ds) && !faults.openOrders;
            OnlyCancelled(b, b', hit) && n == |hit|
  {
    var hit := set x | x in b.orders && OpenOf(b.orders[x], user) && x !in faults.cancels
      && DriftSymbol(b.orders[x].params.symbol, ds) && !faults.openOrders;
    if faults.openOrders {
      assert hit == {};
    } else {
      var all := IdsOf(b.userOrders, user);
      var ids := Rebalance.OpenDrifting(b.orders, all, ds);
      DriftingIs(b.orders, all, ds);
      forall x | x in b.orders ensures b.orders[x].id == x { assert OrderFits(b, x); }
      CancelAllWrites(b, ids, faults.cancels);
      assert hit == Reached(ids, faults.cancels);
    }
  }

  predicate OpenDrift(o: Order, ds: seq<Rebalance.Drift>) {
    o.status == Open && DriftSymbol(o.params.symbol, ds)
  }

  lemma {:induction false} DriftingIs(orders: map<OrderId, Order>, ids: seq<OrderId>, ds: seq<Rebalance.Drift>)
    requires NoRepeats(ids)
    ensures var open := Rebalance.OpenDrifting(orders, ids, ds);
            && NoRepeats(open)
            && forall x :: x in open <==> x in ids && x in orders && OpenDrift(orders[x], ds)
  {
    if ids != [] {
      var n := |ids| - 1;
      DriftingIs(orders, ids[..n], ds);
      assert ids == ids[..n] + [ids[n]];
      if ids[n] in orders { InDriftIff(orders[ids[n]].params.symbol, ds); }
    }
  }

  lemma InDriftIff(symbol: string, ds: seq<Rebalance.Drift>)
    ensures Rebalance.InDrift(symbol, ds) <==> DriftSymbol(symbol, ds)
  {
    forall i | 0 <= i < |ds| { Text.FoldForgetsCase(ds[i].listing.symbol, symbol); }
  }

  // ---------------------------------------------------------------- selection

  /** Equal but for blanks around them and for case. */
  ghost predicate SameSymbol(a: string, b: string) {
    exists c, d :: Text.CoreOf(a, c) && Text.CoreOf(b, d) && Text.SameLetters(c, d)
  }

  /** A symbol is selected if nothing is asked for, or one of the names asked for is its own. */
  lemma SelectedIff(symbol: string, symbols: seq<string>)
    ensures SquareOff.Selected(symbol, symbols) <==>
            symbols == [] || exists i :: 0 <= i < |symbols| && SameSymbol(symbols[i], symbol)
  {
    forall i | 0 <= i < |symbols|
      ensures SquareOff.SameName(symbols[i], symbol) <==> SameSymbol(symbols[i], symbol)
    {
      SameNameIff(symbols[i], symbol);
    }
  }

  lemma SameNameIff(a: string, b: string)
    ensures SquareOff.SameName(a, b) <==> SameSymbol(a, b)
  {
    Text.FoldForgetsCase(Text.Trim(a), Text.Trim(b));
    Text.TrimIsCore(a, Text.Trim(a));
    Text.TrimIsCore(b, Text.Trim(b));
    if SameSymbol(a, b) {
      var c, d :| Text.CoreOf(a, c) && Text.CoreOf(b, d) && Text.SameLetters(c, d);
      Text.TrimIsCore(a, c);
      Text.TrimIsCore(b, d);
    }
  }

  // ---------------------------------------------------------------- orders sent

  /** An order to be sent at the market. */
  datatype Request = Request(key: Key, side: string, quantity: int)

  function MarketOrder(r: Request, tag: string): Params {
    Params(r.key.exchange, r.key.symbol, r.side, r.key.product, "MARKET", r.quantity, 0.0, tag)
  }

  /** The id of the j-th order placed on a book. */
  function IdAfter(b: Book, j: nat): OrderId {
    OrderId(b.lastId + 1 + j)
  }

  /** The book has taken these orders for the user, in turn, and is otherwise as it was. */
  predicate Sent(b: Book, b': Book, user: UserId, rs: seq<Request>, tag: string) {
    && b'.instruments == b.instruments && b'.lastId == b.lastId + |rs|
    && (forall x :: x in b.orders ==> x in b'.orders && b'.orders[x] == b.orders[x])
    && (forall x :: x in b'.orders ==> x in b.orders || b.lastId < x.n <= b'.lastId)
    && (forall j :: 0 <= j < |rs| ==> Booked(b, b', user, rs[j], tag, j))
  }

  predicate Booked(b: Book, b': Book, user: UserId, r: Request, tag: string, j: nat) {
    && IdAfter(b, j) in b'.orders
    && b'.orders[IdAfter(b, j)].user == user && b'.orders[IdAfter(b, j)].params == MarketOrder(r, tag)
  }

  /** Ids are no greater than the last one given. */
  predicate IdsBelow(b: Book) {
    forall x :: x in b.orders ==> x.n <= b.lastId
  }

  lemma SendOne(cfg: Config, b: Book, mid: Book, user: UserId, rs: seq<Request>, r: Request, tag: string)
    requires IdsBelow(b) && Sent(b, mid, user, rs, tag)
    ensures var (after, outcome) := Place(cfg, mid, user, MarketOrder(r, tag));
            if Acceptable(cfg, b.instruments, MarketOrder(r, tag)) then
              outcome == Accepted(IdAfter(b, |rs|)) && Sent(b, after, user, rs + [r], tag)
            else outcome.Failed? && after == mid
  {
    PlaceAcceptedIff(cfg, mid, user, MarketOrder(r, tag));
    if Acceptable(cfg, b.instruments, MarketOrder(r, tag)) {
      PlacedOrder(cfg, mid, user, MarketOrder(r, tag));
      SentGrows(b, mid, Place(cfg, mid, user, MarketOrder(r, tag)).0, user, rs, r, tag);
    }
  }

  lemma SentGrows(b: Book, mid: Book, after: Book, user: UserId, rs: seq<Request>, r: Request, tag: string)
    requires IdsBelow(b) && Sent(b, mid, user, rs, tag)
    requires after.instruments == mid.instruments && after.lastId == mid.lastId + 1
    requires forall x :: x in after.orders <==> x in mid.orders || x == IdAfter(b, |rs|)
    requires forall x :: x in mid.orders && x != IdAfter(b, |rs|) ==> after.orders[x] == mid.orders[x]
    requires Booked(b, after, user, r, tag, |rs|)
    ensures Sent(b, after, user, rs + [r], tag)
  {
    forall j | 0 <= j < |rs + [r]| ensures Booked(b, after, user, (rs + [r])[j], tag, j) {
      if j < |rs| { assert Booked(b, mid, user, rs[j], tag, j); }
    }
  }

  /** The requests that go through, in order. */
  function Kept(rs: seq<Request>, ok: Request -> bool): seq<Request> {
    if rs == [] then []
    else
      var before, r := Kept(rs[..|rs| - 1], ok), rs[|rs| - 1];
      if ok(r) then before + [r] else before
  }

  predicate DistinctRequests(rs: seq<Request>) {
    forall i, j :: 0 <= i < j < |rs| ==> rs[i].key != rs[j].key
  }

  lemma {:induction false} KeptIs(rs: seq<Request>, ok: Request -> bool)
    ensures forall r :: r in Kept(rs, ok) <==> r in rs && ok(r)
    ensures DistinctRequests(rs) ==> DistinctRequests(Kept(rs, ok))
  {
    if rs != [] {
      var n := |rs| - 1;
      KeptIs(rs[..n], ok);
      assert rs == rs[..n] + [rs[n]];
      if DistinctRequests(rs) {
        forall j | 0 <= j < |Kept(rs[..n], ok)| ensures Kept(rs[..n], ok)[j].key != rs[n].key {
          assert Kept(rs[..n], ok)[j] in rs[..n];
        }
      }
    }
  }

  // ---------------------------------------------------------------- square-off

  /** The order that closes a position: as many units, the other way. */
  function Closing(p: Position): Request {
    Request(p.key, if p.quantity < 0 then "BUY" else "SELL", if p.quantity < 0 then -p.quantity else p.quantity)
  }

  function ClosingAll(ps: seq<Position>): seq<Request> {
    seq(|ps|, i requires 0 <= i < |ps| => Closing(ps[i]))
  }

  /** There is something to close, it is selected, and the order goes through. */
  function Closable(cfg: Config, instruments: map<Listing, Instrument>, symbols: seq<string>, tag: string,
      faults: set<Key>): Request -> bool {
    (r: Request) => r.quantity != 0 && SquareOff.Selected(r.key.symbol, symbols) && r.key !in faults
      && Acceptable(cfg, instruments, MarketOrder(r, tag))
  }

  /** The report lists the requests under the ids the broker gave. */
  predicate Lists(orders: seq<SquareOff.Closed>, b: Book, rs: seq<Request>) {
    && |orders| == |rs|
    && forall j :: 0 <= j < |rs| ==>
         orders[j] == SquareOff.Closed(IdAfter(b, j), rs[j].key, rs[j].side, rs[j].quantity)
  }

  lemma {:induction false} CounterAllSends(cfg: Config, b: Book, t: SquareOff.Tally, user: UserId, ps: seq<Position>,
      symbols: seq<string>, tag: string, faults: set<Key>)
    requires IdsBelow(b) && t.orders == []
    ensures var (after, t') := SquareOff.CounterAll(cfg, b, t, user, ps, symbols, tag, faults);
            var rs := Kept(ClosingAll(ps), Closable(cfg, b.instruments, symbols, tag, faults));
            Sent(b, after, user, rs, tag) && Lists(t'.orders, b, rs) && t'.cancelled == t.cancelled
  {
    if ps != [] {
      var init, p := ps[..|ps| - 1], ps[|ps| - 1];
      CounterAllSends(cfg, b, t, user, init, symbols, tag, faults);
      var (mid, t1) := SquareOff.CounterAll(cfg, b, t, user, init, symbols, tag, faults);
      assert ClosingAll(ps)[..|ps| - 1] == ClosingAll(init);
      var rs := Kept(ClosingAll(init), Closable(cfg, b.instruments, symbols, tag, faults));
      CounterOneSends(cfg, b, mid, t1, user, p, symbols, tag, faults, rs);
    }
  }

  lemma CounterOneSends(cfg: Config, b: Book, mid: Book, t: SquareOff.Tally, user: UserId, p: Position,
      symbols: seq<string>, tag: string, faults: set<Key>, rs: seq<Request>)
    requires IdsBelow(b) && Sent(b, mid, user, rs, tag) && Lists(t.orders, b, rs)
    ensures var (after, t') := SquareOff.CounterOne(cfg, mid, t, user, p, symbols, tag, faults);
            var rs' := if Closable(cfg, b.instruments, symbols, tag, faults)(Closing(p)) then rs + [Closing(p)] else rs;
            Sent(b, after, user, rs', tag) && Lists(t'.orders, b, rs') && t'.cancelled == t.cancelled
  {
    assert SquareOff.Counter(p.key, p.quantity, tag) == MarketOrder(Closing(p), tag);
    SendOne(cfg, b, mid, user, rs, Closing(p), tag);
  }

  /** What square-off asks for at a key: the other way and as many units as the user's net quantity. */
  function CloseOf(os: seq<Order>, k: Key): Request {
    var q := Net(os, k);
    Request(k, if q < 0 then "BUY" else "SELL", if q < 0 then -q else q)
  }

  /** Positions read off these orders ask for what the orders' keys ask for, one request to a key. */
  lemma ClosingReads(ps: seq<Position>, os: seq<Order>)
    requires SquareOffFlat.DistinctKeys(ps) && SquareOffFlat.Reads(ps, os)
    requires forall k :: !SquareOffFlat.KeysIn(ps, k) ==> Net(os, k) == 0
    ensures DistinctRequests(ClosingAll(ps)) && forall r :: r in ClosingAll(ps) ==> r == CloseOf(os, r.key)
    ensures forall k :: Net(os, k) != 0 ==> CloseOf(os, k) in ClosingAll(ps)
  {
    forall i | 0 <= i < |ps| ensures ClosingAll(ps)[i] == CloseOf(os, ps[i].key) {
      assert ps[i].quantity == Net(os, ps[i].key);
    }
    forall k | Net(os, k) != 0 ensures CloseOf(os, k) in ClosingAll(ps) {
      assert SquareOffFlat.KeysIn(ps, k);
      var i :| 0 <= i < |ps| && ps[i].key == k;
      assert ClosingAll(ps)[i] == CloseOf(os, k);
    }
  }

  /** Those that go through are the ones of the keys that do. */
  lemma RequestsRead(ps: seq<Position>, os: seq<Order>, ok: Request -> bool)
    requires SquareOffFlat.DistinctKeys(ps) && SquareOffFlat.Reads(ps, os)
    requires forall k :: !SquareOffFlat.KeysIn(ps, k) ==> Net(os, k) == 0
    requires forall r :: ok(r) ==> r.quantity != 0
    ensures var rs := Kept(ClosingAll(ps), ok);
            DistinctRequests(rs) && forall r: Request :: r in rs <==> r == CloseOf(os, r.key) && ok(r)
  {
    ClosingReads(ps, os);
    KeptIs(ClosingAll(ps), ok);
  }

  /** Square-off on the book. It cancels the user's open selected orders, then sends one market order for
      each open, selected position whose order goes through: the position's own key, as many units, the
      other way, with the given tag. The report lists exactly these under their ids, the count is that of
      the cancels, and no other order changes or appears. */
  lemma SquareOffTrades(cfg: Config, b: Book, user: UserId, symbols: seq<string>, tag: string, faults: SquareOff.Faults)
      returns (cancelled: Book, rs: seq<Request>)
    requires Inv(b)
    ensures var (after, t) := SquareOff.Flatten(cfg, b, user, symbols, tag, faults);
            && (cancelled, t.cancelled) == SquareOff.AfterCancels(b, user, symbols, faults)
            && Sent(cancelled, after, user, rs, tag) && Lists(t.orders, b, rs) && DistinctRequests(rs)
            && forall r: Request :: r in rs <==>
                 r == CloseOf(OrdersOf(b, user), r.key) && Closable(cfg, b.instruments, symbols, tag, faults.places)(r)
  {
    var (b1, n) := SquareOff.AfterCancels(b, user, symbols, faults);
    cancelled := b1;
    SquareOffCancels(b, user, symbols, faults);
    var ok := Closable(cfg, b.instruments, symbols, tag, faults.places);
    var ps := PositionsOf(b1, user);
    rs := Kept(ClosingAll(ps), ok);
    CancelsKeepCloses(b, user, symbols, faults);
    CounterAllSends(cfg, b1, SquareOff.Tally(n, [], []), user, ps, symbols, tag, faults.places);
    SquareOffFlat.PositionsRead(b1, user);
    RequestsRead(ps, OrdersOf(b1, user), ok);
  }

  lemma CancelsKeepCloses(b: Book, user: UserId, symbols: seq<string>, faults: SquareOff.Faults)
    requires Inv(b)
    ensures var b1 := SquareOff.AfterCancels(b, user, symbols, faults).0;
            && IdsBelow(b1) && b1.instruments == b.instruments
            && forall k :: CloseOf(OrdersOf(b1, user), k) == CloseOf(OrdersOf(b, user), k)
  {
    var b1 := SquareOff.AfterCancels(b, user, symbols, faults).0;
    SquareOffFlat.CancelsKeepPositions(b, user, symbols, faults, user);
    forall x | x in b1.orders ensures x.n <= b1.lastId { assert OrderFits(b1, x); }
    forall k: Key ensures CloseOf(OrdersOf(b1, user), k) == CloseOf(OrdersOf(b, user), k) {
      SquareOffFlat.SameCountedSame(OrdersOf(b, user), OrdersOf(b1, user), k);
    }
  }

  // ---------------------------------------------------------------- rebalance

  /** The order that undoes a drift: its own side and product, as many units as it is off. */
  function Undoing(d: Rebalance.Drift): Request {
    Request(Key(d.listing.exchange, d.listing.symbol, d.product), d.action,
            if d.driftQty < 0 then -d.driftQty else d.driftQty)
  }

  function UndoingAll(ds: seq<Rebalance.Drift>): seq<Request> {
    seq(|ds|, i requires 0 <= i < |ds| => Undoing(ds[i]))
  }

  function Undoable(cfg: Config, instruments: map<Listing, Instrument>, tag: string,
      faults: set<Listing>): Request -> bool {
    (r: Request) => r.quantity != 0 && Listing(r.key.exchange, r.key.symbol) !in faults
      && Acceptable(cfg, instruments, MarketOrder(r, tag))
  }

  predicate ListsDrifts(orders: seq<Rebalance.Placed>, b: Book, rs: seq<Request>) {
    && |orders| == |rs|
    && forall j :: 0 <= j < |rs| ==>
         orders[j] == Rebalance.Placed(IdAfter(b, j), rs[j].key, rs[j].side, rs[j].quantity)
  }

  lemma {:induction false} PlaceDriftsSends(cfg: Config, b: Book, t: Rebalance.Tally, user: UserId,
      ds: seq<Rebalance.Drift>, tag: string, faults: set<Listing>)
    requires IdsBelow(b) && t.orders == []
    ensures var (after, t') := Rebalance.PlaceDrifts(cfg, b, t, user, ds, tag, faults);
            var rs := Kept(UndoingAll(ds), Undoable(cfg, b.instruments, tag, faults));
            Sent(b, after, user, rs, tag) && ListsDrifts(t'.orders, b, rs) && t'.cancelled == t.cancelled
  {
    if ds != [] {
      var init, d := ds[..|ds| - 1], ds[|ds| - 1];
      PlaceDriftsSends(cfg, b, t, user, init, tag, faults);
      var (mid, t1) := Rebalance.PlaceDrifts(cfg, b, t, user, init, tag, faults);
      assert UndoingAll(ds)[..|ds| - 1] == UndoingAll(init);
      var rs := Kept(UndoingAll(init), Undoable(cfg, b.instruments, tag, faults));
      PlaceDriftSends(cfg, b, mid, t1, user, d, tag, faults, rs);
    }
  }

  lemma PlaceDriftSends(cfg: Config, b: Book, mid: Book, t: Rebalance.Tally, user: UserId, d: Rebalance.Drift,
      tag: string, faults: set<Listing>, rs: seq<Request>)
    requires IdsBelow(b) && Sent(b, mid, user, rs, tag) && ListsDrifts(t.orders, b, rs)
    ensures var (after, t') := Rebalance.PlaceDrift(cfg, mid, t, user, d, tag, faults);
            var rs' := if Undoable(cfg, b.instruments, tag, faults)(Undoing(d)) then rs + [Undoing(d)] else rs;
            Sent(b, after, user, rs', tag) && ListsDrifts(t'.orders, b, rs') && t'.cancelled == t.cancelled
  {
    assert Rebalance.DriftOrder(d, tag) == MarketOrder(Undoing(d), tag);
    SendOne(cfg, b, mid, user, rs, Undoing(d), tag);
  }

  /** Rebalance on the book, for whatever diff it acts on: cancels in drifting symbols, then one market
      order for each drift whose order goes through, with the drift's side, product and size. The report
      lists exactly these, and no other order changes or appears. */
  lemma RebalanceTrades(cfg: Config, b: Book, user: UserId, ds: seq<Rebalance.Drift>, tag: string,
      faults: Rebalance.Faults) returns (cancelled: Book, rs: seq<Request>)
    requires Inv(b) && ds != []
    ensures var (after, t) := Rebalance.Execute(cfg, b, user, ds, tag, faults);
            && (cancelled, t.cancelled) == Rebalance.AfterDriftCancels(b, user, ds, faults)
            && Sent(cancelled, after, user, rs, tag) && ListsDrifts(t.orders, b, rs)
            && (forall r :: r in rs <==>
                  (exists i :: 0 <= i < |ds| && r == Undoing(ds[i]))
                  && Undoable(cfg, b.instruments, tag, faults.places)(r))
  {
    var (b1, n) := Rebalance.AfterDriftCancels(b, user, ds, faults);
    cancelled := b1;
    RebalanceCancels(b, user, ds, faults);
    forall x | x in b1.orders ensures x.n <= b1.lastId { assert OrderFits(b, x); }
    var ok := Undoable(cfg, b.instruments, tag, faults.places);
    rs := Kept(UndoingAll(ds), ok);
    PlaceDriftsSends(cfg, b1, Rebalance.Tally(n, [], []), user, ds, tag, faults.places);
    UndoingKept(ds, ok);
  }

  lemma UndoingKept(ds: seq<Rebalance.Drift>, ok: Request -> bool)
    ensures forall r :: r in Kept(UndoingAll(ds), ok) <==> (exists i :: 0 <= i < |ds| && r == Undoing(ds[i])) && ok(r)
  {
    KeptIs(UndoingAll(ds), ok);
    forall i | 0 <= i < |ds| ensures Undoing(ds[i]) in UndoingAll(ds) { assert UndoingAll(ds)[i] == Undoing(ds[i]); }
  }
}
