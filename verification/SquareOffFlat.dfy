/** What a square-off leaves behind: selected positions flat, everything else as it was. */
module SquareOffFlat {
  import opened Collections
  import opened OrderBook
  import opened Positions
  import opened SquareOff

  // ---------------------------------------------------------------- orders of a user, step by step

  /** Orders differ at most where neither counts towards a position. */
  predicate SameCounted(os: seq<Order>, os': seq<Order>) {
    |os| == |os'| && forall i :: 0 <= i < |os| ==> os[i] == os'[i] || (!Counted(os[i]) && !Counted(os'[i]))
  }

  lemma {:induction false} SameCountedSame(os: seq<Order>, os': seq<Order>, k: Key)
    requires SameCounted(os, os')
    ensures Net(os, k) == Net(os', k) && TotalsAt(os, k) == TotalsAt(os', k) && Keys(os) == Keys(os')
  {
    if os != [] {
      var n := |os| - 1;
      assert SameCounted(os[..n], os'[..n]);
      SameCountedSame(os[..n], os'[..n], k);
    }
  }

  lemma {:induction false} NamedUntouched(orders: map<OrderId, Order>, ids: seq<OrderId>, o: Order)
    requires o.id !in ids
    ensures Named(orders[o.id := o], ids) == Named(orders, ids)
  {
    if ids != [] { NamedUntouched(orders, ids[..|ids| - 1], o); }
  }

  lemma {:induction false} NamedReplaced(orders: map<OrderId, Order>, ids: seq<OrderId>, o: Order)
    requires o.id in orders && !Counted(orders[o.id]) && !Counted(o)
    ensures SameCounted(Named(orders, ids), Named(orders[o.id := o], ids))
  {
    if ids != [] { NamedReplaced(orders, ids[..|ids| - 1], o); }
  }

  lemma NamedAppended(orders: map<OrderId, Order>, ids: seq<OrderId>, o: Order)
    requires o.id !in ids
    ensures Named(orders[o.id := o], ids + [o.id]) == Named(orders, ids) + [o]
  {
    NamedUntouched(orders, ids, o);
    assert (ids + [o.id])[..|ids|] == ids;
  }

  /** Listed orders are the user's own, under their own ids. */
  lemma {:induction false} NamedOwn(orders: map<OrderId, Order>, ids: seq<OrderId>, i: nat)
    requires i < |Named(orders, ids)|
    ensures exists id :: id in ids && id in orders && Named(orders, ids)[i] == orders[id]
  {
    var init := ids[..|ids| - 1];
    var last := ids[|ids| - 1];
    if i < |Named(orders, init)| {
      NamedOwn(orders, init, i);
      var id :| id in init && id in orders && Named(orders, init)[i] == orders[id];
      assert id in ids;
    } else {
      assert last in ids;
    }
  }

  // ---------------------------------------------------------------- cancelling

  /** A cancel changes no position of anyone, and no order of another user. */
  lemma CancelOrders(b: Book, id: OrderId, user: UserId, v: UserId)
    requires Inv(b) && id in IdsOf(b.userOrders, user)
    ensures var b' := EndOrder(b, id, Cancel).0;
            && Inv(b') && b'.userOrders == b.userOrders && b'.instruments == b.instruments
            && SameCounted(OrdersOf(b, v), OrdersOf(b', v))
            && (v != user ==> OrdersOf(b', v) == OrdersOf(b, v))
  {
    EndOrderKeepsInv(b, id, Cancel);
    assert OrderFits(b, id);
    if NotEndable(b, id) == None {
      var o := CancelledOrder(b.orders[id]);
      NamedReplaced(b.orders, IdsOf(b.userOrders, v), o);
      if v != user { NamedUntouched(b.orders, IdsOf(b.userOrders, v), o); }
    }
  }

  lemma SameCountedTrans(a: seq<Order>, b: seq<Order>, c: seq<Order>)
    requires SameCounted(a, b) && SameCounted(b, c)
    ensures SameCounted(a, c)
  {
  }

  lemma {:induction false} CancelAllOrders(b: Book, ids: seq<OrderId>, faults: set<OrderId>, user: UserId, v: UserId)
    requires Inv(b) && forall id :: id in ids ==> id in IdsOf(b.userOrders, user)
    ensures var b' := CancelAll(b, ids, faults).0;
            && Inv(b') && b'.userOrders == b.userOrders && b'.instruments == b.instruments
            && SameCounted(OrdersOf(b, v), OrdersOf(b', v))
            && (v != user ==> OrdersOf(b', v) == OrdersOf(b, v))
  {
    if ids != [] {
      var init, id := ids[..|ids| - 1], ids[|ids| - 1];
      CancelAllOrders(b, init, faults, user, v);
      var before := CancelAll(b, init, faults).0;
      if id !in faults {
        CancelOrders(before, id, user, v);
        SameCountedTrans(OrdersOf(b, v), OrdersOf(before, v), OrdersOf(EndOrder(before, id, Cancel).0, v));
      }
    }
  }

  predicate OpenAs(o: Order, id: OrderId, symbols: seq<string>) {
    o.id == id && o.status == Open && Selected(o.params.symbol, symbols)
  }

  lemma {:induction false} OpenMatchingOwn(os: seq<Order>, symbols: seq<string>, id: OrderId)
    ensures id in OpenMatching(os, symbols) <==>
            exists i :: 0 <= i < |os| && OpenAs(os[i], id, symbols)
  {
    if os != [] {
      var init := os[..|os| - 1];
      OpenMatchingOwn(init, symbols, id);
      forall i | 0 <= i < |os| ensures os[i] == if i < |init| then init[i] else os[|os| - 1] {}
      if id in OpenMatching(init, symbols) {
        var i :| 0 <= i < |init| && OpenAs(init[i], id, symbols);
        assert os[i] == init[i];
      }
    }
  }

  lemma OpenMatchingIsUsers(b: Book, user: UserId, symbols: seq<string>, id: OrderId)
    requires Inv(b) && id in OpenMatching(OrdersOf(b, user), symbols)
    ensures id in IdsOf(b.userOrders, user)
  {
    OpenSelectedOwn(b, user, symbols, id);
  }

  /** The whole first phase: no position moves, and other users keep every order. */
  lemma CancelsKeepPositions(b: Book, user: UserId, symbols: seq<string>, faults: Faults, v: UserId)
    requires Inv(b)
    ensures var b' := AfterCancels(b, user, symbols, faults).0;
            && Inv(b') && b'.instruments == b.instruments
            && SameCounted(OrdersOf(b, v), OrdersOf(b', v))
            && (v != user ==> OrdersOf(b', v) == OrdersOf(b, v))
  {
    var ids := OpenMatching(OrdersOf(b, user), symbols);
    forall id | id in ids ensures id in IdsOf(b.userOrders, user) { OpenMatchingIsUsers(b, user, symbols, id); }
    CancelAllOrders(b, ids, faults.cancels, user, v);
  }

  // ---------------------------------------------------------------- placing

  /** The order a placement adds. */
  function NewOrder(cfg: Config, b: Book, user: UserId, p: Params): Order
    requires ListingOf(p) in b.instruments
  {
    var inst := b.instruments[ListingOf(p)];
    var o := Opened(OrderId(b.lastId + 1), user, p, inst.token);
    if cfg.instant then Filled(o, inst.ltp) else o
  }

  /** A placement adds one order under a new id, to the book and to its user's list. */
  lemma PlaceShape(cfg: Config, b: Book, user: UserId, p: Params)
    requires Inv(b) && Validate(cfg, b.instruments, p) == None
    ensures var b' := Place(cfg, b, user, p).0;
            var o := NewOrder(cfg, b, user, p);
            && o.id !in b.orders
            && b'.orders == b.orders[o.id := o] && b'.instruments == b.instruments
            && b'.userOrders == b.userOrders[user := IdsOf(b.userOrders, user) + [o.id]]
  {
    var o := NewOrder(cfg, b, user, p);
    var first := Opened(o.id, user, p, o.token);
    assert b.orders[o.id := first][o.id := o] == b.orders[o.id := o];
    assert o.id in b.orders ==> OrderFits(b, o.id);
  }

  lemma PlaceOrders(cfg: Config, b: Book, user: UserId, p: Params, v: UserId)
    requires Inv(b) && Validate(cfg, b.instruments, p) == None
    ensures var b' := Place(cfg, b, user, p).0;
            OrdersOf(b', v) == if v == user then OrdersOf(b, v) + [NewOrder(cfg, b, user, p)] else OrdersOf(b, v)
  {
    PlaceShape(cfg, b, user, p);
    var o := NewOrder(cfg, b, user, p);
    AppendedTo(b.orders, b.userOrders, o, user, v);
  }

  lemma AppendedTo(orders: map<OrderId, Order>, index: map<UserId, seq<OrderId>>, o: Order, user: UserId, v: UserId)
    requires IndexFits(orders, index) && o.id !in orders
    ensures var ids := IdsOf(index[user := IdsOf(index, user) + [o.id]], v);
            Named(orders[o.id := o], ids) ==
            if v == user then Named(orders, IdsOf(index, v)) + [o] else Named(orders, IdsOf(index, v))
  {
    assert o.id !in IdsOf(index, v);
    NamedAppended(orders, IdsOf(index, v), o);
    NamedUntouched(orders, IdsOf(index, v), o);
  }

  lemma NetAppended(os: seq<Order>, o: Order, k: Key)
    ensures Net(os + [o], k) == Net(os, k) + Signed(o, k)
    ensures !Touches(o, k) ==> TotalsAt(os + [o], k) == TotalsAt(os, k)
  {
    assert (os + [o])[..|os|] == os;
  }

  /** A counter order that completes takes exactly its own position to zero. */
  lemma CounterCloses(cfg: Config, b: Book, user: UserId, p: Position, tag: string, k: Key)
    requires p.quantity != 0 && ListingOf(Counter(p.key, p.quantity, tag)) in b.instruments
    ensures var o := NewOrder(cfg, b, user, Counter(p.key, p.quantity, tag));
            && KeyOf(o) == p.key
            && Signed(o, k) == if cfg.instant && k == p.key then -p.quantity else 0
  {
  }

  /** The position at `k` after the first phase is closed: instant fills, selected, and no error. */
  predicate Closes(cfg: Config, k: Key, symbols: seq<string>, t: Tally) {
    cfg.instant && Selected(k.symbol, symbols) && k !in t.errors
  }

  ghost predicate KeysIn(ps: seq<Position>, k: Key) {
    exists i :: 0 <= i < |ps| && ps[i].key == k
  }

  predicate DistinctKeys(ps: seq<Position>) {
    forall i, j :: 0 <= i < j < |ps| ==> ps[i].key != ps[j].key
  }

  ghost predicate Reads(ps: seq<Position>, os: seq<Order>) {
    forall i :: 0 <= i < |ps| ==> ps[i].quantity == Net(os, ps[i].key)
  }

  /** Key by key, whatever failed: closed positions are flat, all others as before; errors name
      positions of the list only. */
  ghost predicate Flattened(cfg: Config, before: Book, after: Book, t: Tally, user: UserId, ps: seq<Position>,
      symbols: seq<string>) {
    && (forall k :: k in t.errors ==> KeysIn(ps, k))
    && (forall k :: Net(OrdersOf(after, user), k) ==
         if KeysIn(ps, k) && Closes(cfg, k, symbols, t) then 0 else Net(OrdersOf(before, user), k))
    && (forall k: Key :: !Selected(k.symbol, symbols) ==>
          TotalsAt(OrdersOf(after, user), k) == TotalsAt(OrdersOf(before, user), k))
    && (forall v :: v != user ==> OrdersOf(after, v) == OrdersOf(before, v))
  }

  lemma {:induction false} CounterAllFlattens(cfg: Config, b: Book, t: Tally, user: UserId, ps: seq<Position>,
      symbols: seq<string>, tag: string, faults: set<Key>)
    requires Inv(b) && t.errors == [] && DistinctKeys(ps) && Reads(ps, OrdersOf(b, user))
    ensures var (after, t') := CounterAll(cfg, b, t, user, ps, symbols, tag, faults);
            Inv(after) && Flattened(cfg, b, after, t', user, ps, symbols)
  {
    if ps != [] {
      var n := |ps| - 1;
      var (mid, t1) := CounterAll(cfg, b, t, user, ps[..n], symbols, tag, faults);
      CounterAllFlattens(cfg, b, t, user, ps[..n], symbols, tag, faults);
      CounterOneFlattens(cfg, b, mid, t1, user, ps, symbols, tag, faults);
    }
  }

  lemma KeysInSnoc(ps: seq<Position>, k: Key)
    requires ps != []
    ensures KeysIn(ps, k) <==> KeysIn(ps[..|ps| - 1], k) || ps[|ps| - 1].key == k
  {
    var init := ps[..|ps| - 1];
    if KeysIn(init, k) {
      var i :| 0 <= i < |init| && init[i].key == k;
      assert ps[i].key == k;
    }
    if KeysIn(ps, k) {
      var i :| 0 <= i < |ps| && ps[i].key == k;
      assert i < |init| ==> init[i].key == k;
    }
  }

  lemma CounterOneFlattens(cfg: Config, b: Book, mid: Book, t: Tally, user: UserId, ps: seq<Position>,
      symbols: seq<string>, tag: string, faults: set<Key>)
    requires ps != [] && DistinctKeys(ps) && Reads(ps, OrdersOf(b, user))
    requires Inv(mid) && Flattened(cfg, b, mid, t, user, ps[..|ps| - 1], symbols)
    ensures var (after, t') := CounterOne(cfg, mid, t, user, ps[|ps| - 1], symbols, tag, faults);
            Inv(after) && Flattened(cfg, b, after, t', user, ps, symbols)
  {
    var p := ps[|ps| - 1];
    var (after, t') := CounterOne(cfg, mid, t, user, p, symbols, tag, faults);
    var skipped := p.quantity == 0 || !Selected(p.key.symbol, symbols);
    if !skipped && p.key !in faults && Validate(cfg, mid.instruments, Counter(p.key, p.quantity, tag)) == None {
      PlaceKeepsInv(cfg, mid, user, Counter(p.key, p.quantity, tag));
      PlacedFlattens(cfg, b, mid, t, user, ps, symbols, tag);
      FlattenedSameErrors(cfg, b, after, t, t', user, ps, symbols);
    } else {
      UnplacedFlattens(cfg, b, mid, t, t', user, ps, symbols);
    }
  }

  /** A position that is passed over, or whose order failed and is noted, stays as it was. */
  lemma UnplacedFlattens(cfg: Config, b: Book, mid: Book, t: Tally, t': Tally, user: UserId, ps: seq<Position>,
      symbols: seq<string>)
    requires ps != [] && DistinctKeys(ps) && Reads(ps, OrdersOf(b, user))
    requires Flattened(cfg, b, mid, t, user, ps[..|ps| - 1], symbols)
    requires var p := ps[|ps| - 1];
             || t'.errors == t.errors + [p.key]
             || (t'.errors == t.errors && (p.quantity == 0 || !Selected(p.key.symbol, symbols)))
    ensures Flattened(cfg, b, mid, t', user, ps, symbols)
  {
    var p, init := ps[|ps| - 1], ps[..|ps| - 1];
    assert !KeysIn(init, p.key);
    forall k: Key
      ensures k in t'.errors ==> KeysIn(ps, k)
      ensures Net(OrdersOf(mid, user), k) ==
              if KeysIn(ps, k) && Closes(cfg, k, symbols, t') then 0 else Net(OrdersOf(b, user), k)
    {
      KeysInSnoc(ps, k);
    }
  }

  lemma FlattenedSameErrors(cfg: Config, b: Book, after: Book, t: Tally, t': Tally, user: UserId, ps: seq<Position>,
      symbols: seq<string>)
    requires Flattened(cfg, b, after, t, user, ps, symbols) && t.errors == t'.errors
    ensures Flattened(cfg, b, after, t', user, ps, symbols)
  {
  }

  /** One position was closed, if fills are instant, and nothing else moved. */
  predicate Moved(cfg: Config, mid: Book, after: Book, user: UserId, p: Position, k: Key, v: UserId) {
    && Net(OrdersOf(after, user), k) ==
       Net(OrdersOf(mid, user), k) + (if cfg.instant && k == p.key then -p.quantity else 0)
    && (k != p.key ==> TotalsAt(OrdersOf(after, user), k) == TotalsAt(OrdersOf(mid, user), k))
    && (v != user ==> OrdersOf(after, v) == OrdersOf(mid, v))
  }

  /** An accepted counter order, seen from one key and one other user. */
  lemma PlacedPointwise(cfg: Config, mid: Book, user: UserId, p: Position, tag: string, k: Key, v: UserId)
    requires Inv(mid) && p.quantity != 0 && Validate(cfg, mid.instruments, Counter(p.key, p.quantity, tag)) == None
    ensures Moved(cfg, mid, Place(cfg, mid, user, Counter(p.key, p.quantity, tag)).0, user, p, k, v)
  {
    PlaceOrders(cfg, mid, user, Counter(p.key, p.quantity, tag), user);
    PlaceOrders(cfg, mid, user, Counter(p.key, p.quantity, tag), v);
    CounterCloses(cfg, mid, user, p, tag, k);
    NetAppended(OrdersOf(mid, user), NewOrder(cfg, mid, user, Counter(p.key, p.quantity, tag)), k);
  }

  lemma PlacedFlattens(cfg: Config, b: Book, mid: Book, t: Tally, user: UserId, ps: seq<Position>,
      symbols: seq<string>, tag: string)
    requires ps != [] && Reads(ps, OrdersOf(b, user)) && DistinctKeys(ps)
    requires var p := ps[|ps| - 1];
             && p.quantity != 0 && Selected(p.key.symbol, symbols)
             && Validate(cfg, mid.instruments, Counter(p.key, p.quantity, tag)) == None
    requires Inv(mid) && Flattened(cfg, b, mid, t, user, ps[..|ps| - 1], symbols)
    ensures var p := ps[|ps| - 1];
            Flattened(cfg, b, Place(cfg, mid, user, Counter(p.key, p.quantity, tag)).0, t, user, ps, symbols)
  {
    var p := ps[|ps| - 1];
    var after := Place(cfg, mid, user, Counter(p.key, p.quantity, tag)).0;
    forall k: Key, v: UserId
      ensures Moved(cfg, mid, after, user, p, k, v)
    {
      PlacedPointwise(cfg, mid, user, p, tag, k, v);
    }
    MovedFlattens(cfg, b, mid, after, t, user, ps, p, symbols);
  }

  lemma MovedFlattens(cfg: Config, b: Book, mid: Book, after: Book, t: Tally, user: UserId, ps: seq<Position>,
      p: Position, symbols: seq<string>)
    requires ps != [] && p == ps[|ps| - 1] && Reads(ps, OrdersOf(b, user)) && DistinctKeys(ps)
    requires Selected(p.key.symbol, symbols)
    requires Flattened(cfg, b, mid, t, user, ps[..|ps| - 1], symbols)
    requires forall k, v :: Moved(cfg, mid, after, user, p, k, v)
    ensures Flattened(cfg, b, after, t, user, ps, symbols)
  {
    var init := ps[..|ps| - 1];
    forall k: Key
      ensures k in t.errors ==> KeysIn(ps, k)
      ensures Net(OrdersOf(after, user), k) ==
              if KeysIn(ps, k) && Closes(cfg, k, symbols, t) then 0 else Net(OrdersOf(b, user), k)
      ensures !Selected(k.symbol, symbols) ==> TotalsAt(OrdersOf(after, user), k) == TotalsAt(OrdersOf(b, user), k)
    {
      KeysInSnoc(ps, k);
      assert Moved(cfg, mid, after, user, p, k, user);
      assert !KeysIn(init, p.key);
    }
    forall v: UserId | v != user
      ensures OrdersOf(after, v) == OrdersOf(b, v)
    {
      assert Moved(cfg, mid, after, user, p, p.key, v);
    }
  }

  // ---------------------------------------------------------------- the account's square-off

  lemma PositionsRead(b: Book, user: UserId)
    ensures var ps := PositionsOf(b, user);
            var os := OrdersOf(b, user);
            && DistinctKeys(ps) && Reads(ps, os)
            && (forall k :: !KeysIn(ps, k) ==> Net(os, k) == 0)
  {
    var ps, os := PositionsOf(b, user), OrdersOf(b, user);
    forall i | 0 <= i < |ps|
      ensures ps[i].quantity == Net(os, ps[i].key)
    {
      KeysAreSeen(os, Keys(os)[i]);
      TotalsNet(os, Keys(os)[i]);
    }
    forall k: Key
      ensures KeysIn(ps, k) || Net(os, k) == 0
    {
      KeysAreSeen(os, k);
      if k in Keys(os) {
        var i :| 0 <= i < |Keys(os)| && Keys(os)[i] == k;
        assert ps[i].key == k;
      } else {
        UnseenNet(os, k, 0.0);
      }
    }
    forall i, j | 0 <= i < j < |ps| ensures ps[i].key != ps[j].key { KeysAreSeen(os, Keys(os)[i]); }
  }

  /** On every book and whatever fails: a position is flat afterwards if it is selected and no error
      names it, and keeps its quantity otherwise; unselected positions keep their whole totals and
      other users every order. */
  lemma SquareOffPointwise(cfg: Config, b: Book, user: UserId, symbols: seq<string>, tag: string, faults: Faults,
      k: Key, v: UserId)
    requires Inv(b) && cfg.instant
    ensures var (after, t) := Flatten(cfg, b, user, symbols, tag, faults);
            && Inv(after)
            && Net(OrdersOf(after, user), k) ==
               (if Selected(k.symbol, symbols) && k !in t.errors then 0 else Net(OrdersOf(b, user), k))
            && (!Selected(k.symbol, symbols) ==> TotalsAt(OrdersOf(after, user), k) == TotalsAt(OrdersOf(b, user), k))
            && (v != user ==> OrdersOf(after, v) == OrdersOf(b, v))
  {
    var (b1, n) := AfterCancels(b, user, symbols, faults);
    CancelsKeepPositions(b, user, symbols, faults, user);
    CancelsKeepPositions(b, user, symbols, faults, v);
    SameCountedSame(OrdersOf(b, user), OrdersOf(b1, user), k);
    PositionsRead(b1, user);
    CounterAllFlattens(cfg, b1, Tally(n, [], []), user, PositionsOf(b1, user), symbols, tag, faults.places);
  }

  /** Why the order against a position of this size would fail. */
  predicate OrderFails(cfg: Config, instruments: map<Listing, Instrument>, k: Key, quantity: int, tag: string,
      faults: set<Key>) {
    k in faults || Validate(cfg, instruments, Counter(k, quantity, tag)) != None
  }

  predicate Errs(cfg: Config, instruments: map<Listing, Instrument>, p: Position, symbols: seq<string>, tag: string,
      faults: set<Key>) {
    p.quantity != 0 && Selected(p.key.symbol, symbols) && OrderFails(cfg, instruments, p.key, p.quantity, tag, faults)
  }

  lemma CounterOneErrors(cfg: Config, b: Book, t: Tally, user: UserId, p: Position, symbols: seq<string>,
      tag: string, faults: set<Key>)
    ensures var (b', t') := CounterOne(cfg, b, t, user, p, symbols, tag, faults);
            && b'.instruments == b.instruments
            && t'.errors == if Errs(cfg, b.instruments, p, symbols, tag, faults) then t.errors + [p.key] else t.errors
  {
  }

  lemma {:induction false} CounterAllErrors(cfg: Config, b: Book, t: Tally, user: UserId, ps: seq<Position>,
      symbols: seq<string>, tag: string, faults: set<Key>, k: Key)
    requires t.errors == []
    ensures var (b', t') := CounterAll(cfg, b, t, user, ps, symbols, tag, faults);
            && b'.instruments == b.instruments
            && (k in t'.errors <==>
                exists i :: 0 <= i < |ps| && ps[i].key == k && Errs(cfg, b.instruments, ps[i], symbols, tag, faults))
  {
    if ps != [] {
      var init, p := ps[..|ps| - 1], ps[|ps| - 1];
      CounterAllErrors(cfg, b, t, user, init, symbols, tag, faults, k);
      var (mid, t1) := CounterAll(cfg, b, t, user, init, symbols, tag, faults);
      CounterOneErrors(cfg, mid, t1, user, p, symbols, tag, faults);
      assert forall i :: 0 <= i < |init| ==> init[i] == ps[i];
      if k in t1.errors {
        var i :| 0 <= i < |init| && init[i].key == k && Errs(cfg, b.instruments, init[i], symbols, tag, faults);
        assert ps[i] == init[i];
      }
    }
  }

  /** Errors are exact: a position is named if and only if it is open, selected, and its order fails. */
  lemma SquareOffErrors(cfg: Config, b: Book, user: UserId, symbols: seq<string>, tag: string, faults: Faults, k: Key)
    requires Inv(b)
    ensures var net := Net(OrdersOf(b, user), k);
            k in Flatten(cfg, b, user, symbols, tag, faults).1.errors <==>
            net != 0 && Selected(k.symbol, symbols) && OrderFails(cfg, b.instruments, k, net, tag, faults.places)
  {
    var (b1, n) := AfterCancels(b, user, symbols, faults);
    var ps := PositionsOf(b1, user);
    CancelsKeepPositions(b, user, symbols, faults, user);
    SameCountedSame(OrdersOf(b, user), OrdersOf(b1, user), k);
    PositionsRead(b1, user);
    CounterAllErrors(cfg, b1, Tally(n, [], []), user, ps, symbols, tag, faults.places, k);
    if KeysIn(ps, k) {
      var i :| 0 <= i < |ps| && ps[i].key == k;
      assert forall j :: 0 <= j < |ps| && ps[j].key == k ==> j == i;
    }
  }

  /** With nothing to close, the second phase does nothing. */
  lemma {:induction false} CounterAllIdle(cfg: Config, b: Book, t: Tally, user: UserId, ps: seq<Position>,
      symbols: seq<string>, tag: string, faults: set<Key>)
    requires forall i :: 0 <= i < |ps| ==> ps[i].quantity == 0 || !Selected(ps[i].key.symbol, symbols)
    ensures CounterAll(cfg, b, t, user, ps, symbols, tag, faults) == (b, t)
  {
    if ps != [] { CounterAllIdle(cfg, b, t, user, ps[..|ps| - 1], symbols, tag, faults); }
  }

  /** After a square-off without errors, the next one places nothing, whatever fails in it. */
  lemma SecondSquareOffIdle(cfg: Config, b: Book, user: UserId, symbols: seq<string>, tag: string, faults: Faults,
      tag': string, faults': Faults)
    requires Inv(b) && cfg.instant && Flatten(cfg, b, user, symbols, tag, faults).1.errors == []
    ensures var after := Flatten(cfg, b, user, symbols, tag, faults).0;
            var (again, t') := Flatten(cfg, after, user, symbols, tag', faults');
            && t'.orders == [] && t'.errors == []
            && again == AfterCancels(after, user, symbols, faults').0
  {
    var after := Flatten(cfg, b, user, symbols, tag, faults).0;
    SquareOffPointwise(cfg, b, user, symbols, tag, faults, Key("", "", ""), user);
    var (b2, n) := AfterCancels(after, user, symbols, faults');
    CancelsKeepPositions(after, user, symbols, faults', user);
    PositionsRead(b2, user);
    var ps := PositionsOf(b2, user);
    forall i | 0 <= i < |ps|
      ensures ps[i].quantity == 0 || !Selected(ps[i].key.symbol, symbols)
    {
      var k := ps[i].key;
      SquareOffPointwise(cfg, b, user, symbols, tag, faults, k, user);
      SameCountedSame(OrdersOf(after, user), OrdersOf(b2, user), k);
    }
    CounterAllIdle(cfg, b2, Tally(n, [], []), user, ps, symbols, tag', faults'.places);
  }

  // ---------------------------------------------------------------- no open order left

  /** Cancelling ends what it is asked to end and adds no open order. */
  lemma {:induction false} CancelAllOpen(b: Book, ids: seq<OrderId>, faults: set<OrderId>, user: UserId, x: OrderId)
    requires Inv(b) && forall id :: id in ids ==> id in IdsOf(b.userOrders, user)
    ensures var b' := CancelAll(b, ids, faults).0;
            x in b'.orders && b'.orders[x].status == Open ==>
              x in b.orders && b'.orders[x] == b.orders[x] && (x in ids ==> x in faults)
  {
    if ids != [] {
      var init, id := ids[..|ids| - 1], ids[|ids| - 1];
      CancelAllOpen(b, init, faults, user, x);
      CancelAllOrders(b, init, faults, user, user);
      if id !in faults { CancelOpen(CancelAll(b, init, faults).0, id, user, x); }
    }
  }

  lemma CancelOpen(b: Book, id: OrderId, user: UserId, x: OrderId)
    requires Inv(b) && id in IdsOf(b.userOrders, user)
    ensures var b' := EndOrder(b, id, Cancel).0;
            x in b'.orders && b'.orders[x].status == Open ==> x in b.orders && b'.orders[x] == b.orders[x] && x != id
  {
    assert id in b.orders && OrderFits(b, id);
  }

  lemma {:induction false} CounterAllOpen(cfg: Config, b: Book, t: Tally, user: UserId, ps: seq<Position>,
      symbols: seq<string>, tag: string, faults: set<Key>, x: OrderId)
    requires Inv(b) && cfg.instant
    ensures var b' := CounterAll(cfg, b, t, user, ps, symbols, tag, faults).0;
            Inv(b') && (x in b'.orders && b'.orders[x].status == Open ==> x in b.orders && b'.orders[x] == b.orders[x])
  {
    if ps != [] {
      CounterAllOpen(cfg, b, t, user, ps[..|ps| - 1], symbols, tag, faults, x);
      var (mid, t1) := CounterAll(cfg, b, t, user, ps[..|ps| - 1], symbols, tag, faults);
      CounterOneOpen(cfg, mid, t1, user, ps[|ps| - 1], symbols, tag, faults, x);
    }
  }

  lemma CounterOneOpen(cfg: Config, b: Book, t: Tally, user: UserId, p: Position, symbols: seq<string>, tag: string,
      faults: set<Key>, x: OrderId)
    requires Inv(b) && cfg.instant
    ensures var b' := CounterOne(cfg, b, t, user, p, symbols, tag, faults).0;
            Inv(b') && (x in b'.orders && b'.orders[x].status == Open ==> x in b.orders && b'.orders[x] == b.orders[x])
  {
    PlaceOpen(cfg, b, user, Counter(p.key, p.quantity, tag), x);
    CounterOneBook(cfg, b, t, user, p, symbols, tag, faults);
  }

  lemma CounterOneBook(cfg: Config, b: Book, t: Tally, user: UserId, p: Position, symbols: seq<string>, tag: string,
      faults: set<Key>)
    ensures var b' := CounterOne(cfg, b, t, user, p, symbols, tag, faults).0;
            b' == b || b' == Place(cfg, b, user, Counter(p.key, p.quantity, tag)).0
  {
  }

  lemma PlaceOpen(cfg: Config, b: Book, user: UserId, p: Params, x: OrderId)
    requires Inv(b) && cfg.instant
    ensures var b' := Place(cfg, b, user, p).0;
            Inv(b') && (x in b'.orders && b'.orders[x].status == Open ==> x in b.orders && b'.orders[x] == b.orders[x])
  {
    PlaceKeepsInv(cfg, b, user, p);
    if Validate(cfg, b.instruments, p) == None { PlaceShape(cfg, b, user, p); }
  }

  lemma {:induction false} NamedHas(orders: map<OrderId, Order>, ids: seq<OrderId>, id: OrderId) returns (i: nat)
    requires id in ids && id in orders
    ensures i < |Named(orders, ids)| && Named(orders, ids)[i] == orders[id]
  {
    if id == ids[|ids| - 1] {
      i := |Named(orders, ids)| - 1;
    } else {
      i := NamedHas(orders, ids[..|ids| - 1], id);
    }
  }

  /** An open, selected order of this user is one the cancels are asked to end. */
  lemma OpenIsMatched(b: Book, user: UserId, symbols: seq<string>, x: OrderId)
    requires Inv(b) && x in b.orders && b.orders[x].user == user
    requires b.orders[x].status == Open && Selected(b.orders[x].params.symbol, symbols)
    ensures x in OpenMatching(OrdersOf(b, user), symbols)
  {
    assert OrderFits(b, x) && x in IdsOf(b.userOrders, user);
    var i := NamedHas(b.orders, IdsOf(b.userOrders, user), x);
    OpenMatchingOwn(OrdersOf(b, user), symbols, x);
  }

  /** When every cancel went through, no selected order of the user is left open. */
  lemma NoneLeftOpen(cfg: Config, b: Book, user: UserId, symbols: seq<string>, tag: string, faults: Faults, x: OrderId)
    requires Inv(b) && cfg.instant && !faults.openOrders && faults.cancels == {}
    ensures x !in OpenMatching(OrdersOf(Flatten(cfg, b, user, symbols, tag, faults).0, user), symbols)
  {
    var (b1, n) := AfterCancels(b, user, symbols, faults);
    var ps := PositionsOf(b1, user);
    var after := Flatten(cfg, b, user, symbols, tag, faults).0;
    CancelsKeepPositions(b, user, symbols, faults, user);
    CounterAllOpen(cfg, b1, Tally(n, [], []), user, ps, symbols, tag, faults.places, x);
    if x in OpenMatching(OrdersOf(after, user), symbols) {
      OpenSelectedOwn(after, user, symbols, x);
      var ids := OpenMatching(OrdersOf(b, user), symbols);
      forall id | id in ids ensures id in IdsOf(b.userOrders, user) { OpenMatchingIsUsers(b, user, symbols, id); }
      CancelAllOpen(b, ids, faults.cancels, user, x);
      OpenIsMatched(b, user, symbols, x);
      assert false;
    }
  }

  lemma OpenSelectedOwn(b: Book, user: UserId, symbols: seq<string>, x: OrderId)
    requires Inv(b) && x in OpenMatching(OrdersOf(b, user), symbols)
    ensures x in b.orders && b.orders[x].user == user && b.orders[x].status == Open
    ensures Selected(b.orders[x].params.symbol, symbols)
  {
    var os := OrdersOf(b, user);
    OpenMatchingOwn(os, symbols, x);
    var i :| 0 <= i < |os| && OpenAs(os[i], x, symbols);
    NamedOwn(b.orders, IdsOf(b.userOrders, user), i);
    var own :| own in IdsOf(b.userOrders, user) && own in b.orders && os[i] == b.orders[own];
    assert OrderFits(b, own);
  }

  /** After a square-off in which nothing failed, another one changes nothing at all. */
  lemma SecondSquareOffChangesNothing(cfg: Config, b: Book, user: UserId, symbols: seq<string>, tag: string,
      faults: Faults, tag': string, faults': Faults)
    requires Inv(b) && cfg.instant && !faults.openOrders && faults.cancels == {}
    requires Flatten(cfg, b, user, symbols, tag, faults).1.errors == []
    ensures var after := Flatten(cfg, b, user, symbols, tag, faults).0;
            Flatten(cfg, after, user, symbols, tag', faults') == (after, Tally(0, [], []))
  {
    var after := Flatten(cfg, b, user, symbols, tag, faults).0;
    var os := OrdersOf(after, user);
    forall i | 0 <= i < |os|
      ensures !(os[i].status == Open && Selected(os[i].params.symbol, symbols))
    {
      NoneLeftOpen(cfg, b, user, symbols, tag, faults, os[i].id);
      OpenMatchingOwn(os, symbols, os[i].id);
    }
    NothingToCancel(os, symbols);
    SecondSquareOffIdle(cfg, b, user, symbols, tag, faults, tag', faults');
    CounterTallies(cfg, after, Tally(0, [], []), user, PositionsOf(after, user), symbols, tag', faults'.places);
  }

  lemma {:induction false} CounterTallies(cfg: Config, b: Book, t: Tally, user: UserId, ps: seq<Position>,
      symbols: seq<string>, tag: string, faults: set<Key>)
    ensures CounterAll(cfg, b, t, user, ps, symbols, tag, faults).1.cancelled == t.cancelled
  {
    if ps != [] { CounterTallies(cfg, b, t, user, ps[..|ps| - 1], symbols, tag, faults); }
  }

  lemma {:induction false} NothingToCancel(os: seq<Order>, symbols: seq<string>)
    requires forall i :: 0 <= i < |os| ==> !(os[i].status == Open && Selected(os[i].params.symbol, symbols))
    ensures OpenMatching(os, symbols) == []
  {
    if os != [] { NothingToCancel(os[..|os| - 1], symbols); }
  }
}
