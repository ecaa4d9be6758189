/** A book on which one rebalance pass is not enough, reached from an empty one. */
module RebalanceCases {
  import opened Collections
  import opened OrderBook
  import opened Positions
  import opened Rebalance
  import opened RebalanceConverges
  import Unbooked

  function Under(p: Params, product: string): Params {
    p.(product := product)
  }

  /** Bought twice, under two products. */
  function TwoBuys(cfg: Config, instruments: map<Listing, Instrument>, user: UserId, p: Params, other: string): Book {
    RunAll(cfg, EmptyBook(instruments), [PlaceOp(user, p), PlaceOp(user, Under(p, other))])
  }

  predicate BothAccepted(cfg: Config, instruments: map<Listing, Instrument>, p: Params, other: string) {
    && cfg.instant && p.side == "BUY" && p.quantity > 0 && p.product != other && other != ""
    && Validate(cfg, instruments, p) == None && Validate(cfg, instruments, Under(p, other)) == None
  }

  lemma RunTwo(cfg: Config, b: Book, x: Operation, y: Operation)
    ensures RunAll(cfg, b, [x, y]) == Apply(cfg, Apply(cfg, b, x), y)
  {
    assert [x][..0] == [];
    assert RunAll(cfg, b, []) == b;
    assert [x, y][..1] == [x];
    assert RunAll(cfg, b, [x]) == Apply(cfg, b, x);
  }

  lemma FirstBuy(cfg: Config, instruments: map<Listing, Instrument>, user: UserId, p: Params)
    requires cfg.instant && Validate(cfg, instruments, p) == None
    ensures var b1 := Place(cfg, EmptyBook(instruments), user, p).0;
            var inst := instruments[ListingOf(p)];
            && Inv(b1) && b1.instruments == instruments && b1.lastId == 1
            && OrdersOf(b1, user) == [Filled(Opened(OrderId(1), user, p, inst.token), inst.ltp)]
  {
    var b0 := EmptyBook(instruments);
    EmptyInv(instruments);
    Unbooked.OneOrder(cfg, b0, user, p);
    PlaceKeepsInv(cfg, b0, user, p);
    assert OrdersOf(b0, user) == [];
  }

  lemma TwoBuysOrders(cfg: Config, instruments: map<Listing, Instrument>, user: UserId, p: Params, other: string)
    requires BothAccepted(cfg, instruments, p, other)
    ensures var b := TwoBuys(cfg, instruments, user, p, other);
            var inst := instruments[ListingOf(p)];
            OrdersOf(b, user) == [Filled(Opened(OrderId(1), user, p, inst.token), inst.ltp),
                                  Filled(Opened(OrderId(2), user, Under(p, other), inst.token), inst.ltp)]
  {
    FirstBuy(cfg, instruments, user, p);
    var b1 := Place(cfg, EmptyBook(instruments), user, p).0;
    Unbooked.OneOrder(cfg, b1, user, Under(p, other));
    RunTwo(cfg, EmptyBook(instruments), PlaceOp(user, p), PlaceOp(user, Under(p, other)));
  }

  lemma {:induction false} TwoKeys(a: Order, b: Order, ka: Key, kb: Key)
    requires Touches(a, ka) && Touches(b, kb) && ka != kb && IsBuy(a) && IsBuy(b)
    ensures Keys([a, b]) == [ka, kb] && Net([a, b], ka) == a.filled && Net([a, b], kb) == b.filled
  {
    OneMoreOrder([], a);
    OneMoreOrder([a], b);
    assert [] + [a] == [a] && [a] + [b] == [a, b];
    assert [a, b][..1] == [a] && [a][..0] == [];
    assert Net([a], ka) == Net([], ka) + Signed(a, ka);
    assert Net([a], kb) == Net([], kb) + Signed(a, kb);
  }

  lemma TwoBuysKeys(cfg: Config, instruments: map<Listing, Instrument>, user: UserId, p: Params, other: string)
    requires BothAccepted(cfg, instruments, p, other)
    ensures var os := OrdersOf(TwoBuys(cfg, instruments, user, p, other), user);
            var l := ListingOf(p);
            && Keys(os) == [KeyAt(l, p.product), KeyAt(l, other)]
            && Net(os, KeyAt(l, p.product)) == p.quantity && Net(os, KeyAt(l, other)) == p.quantity
  {
    var l := ListingOf(p);
    TwoBuysOrders(cfg, instruments, user, p, other);
    var os := OrdersOf(TwoBuys(cfg, instruments, user, p, other), user);
    TwoKeys(os[0], os[1], KeyAt(l, p.product), KeyAt(l, other));
  }

  lemma TwoHeld(b: Book, user: UserId, l: Listing, product: string, other: string, quantity: int)
    requires var os := OrdersOf(b, user);
             && Keys(os) == [KeyAt(l, product), KeyAt(l, other)]
             && Net(os, KeyAt(l, product)) == quantity && Net(os, KeyAt(l, other)) == quantity
    requires quantity != 0
    ensures LastHeld(HeldIn(b, user), l) == Side(other, quantity)
  {
    HeldIsNet(b, user);
    LastIsRead(HeldIn(b, user), l, other, quantity);
  }

  lemma LastIsRead(held: seq<Held>, l: Listing, product: string, quantity: int)
    requires held != [] && held[|held| - 1] == Held(KeyAt(l, product), quantity) && quantity != 0
    ensures LastHeld(held, l) == Side(product, quantity)
  {
  }

  /** What the drift map reads: the product bought last. */
  lemma TwoBuysRead(cfg: Config, instruments: map<Listing, Instrument>, user: UserId, p: Params, other: string)
    requires BothAccepted(cfg, instruments, p, other)
    ensures var b := TwoBuys(cfg, instruments, user, p, other);
            var l := ListingOf(p);
            && LastHeld(HeldIn(b, user), l) == Side(other, p.quantity)
            && NetsOf(OrdersOf(b, user), l)(p.product) == p.quantity
  {
    TwoBuysKeys(cfg, instruments, user, p, other);
    TwoHeld(TwoBuys(cfg, instruments, user, p, other), user, ListingOf(p), p.product, other, p.quantity);
  }

  /** A follower with two products of a listing open, and a master with none: the first pass closes the
      product bought last, and the next diff still has the other. */
  lemma TwoProductsRemain(cfg: Config, instruments: map<Listing, Instrument>, user: UserId, p: Params, other: string,
    acc: Account, lots: map<Listing, int>, ds: seq<Drift>, tag: string, faults: Faults, ds': seq<Drift>)
    requires BothAccepted(cfg, instruments, p, other)
    requires var b := TwoBuys(cfg, instruments, user, p, other);
             && IsDrifts(ds, acc, lots, [], HeldIn(b, user))
             && Execute(cfg, b, user, ds, tag, faults).1.errors == []
             && IsDrifts(ds', acc, lots, [], HeldIn(Execute(cfg, b, user, ds, tag, faults).0, user))
    ensures ds != [] && ds' != []
  {
    var b := TwoBuys(cfg, instruments, user, p, other);
    var l := ListingOf(p);
    RunFromEmpty(cfg, instruments, [PlaceOp(user, p), PlaceOp(user, Under(p, other))]);
    TwoBuysRead(cfg, instruments, user, p, other);
    var d := DriftAt(acc, lots, [], HeldIn(b, user), l);
    assert d.product == other && d.targetQty == 0 && d.driftQty == -p.quantity;
    assert Drifts(ds, l);
    var i :| 0 <= i < |ds| && ds[i].listing == l;
    assert ds[i] == d;
    assert !NoneBeside(NetsOf(OrdersOf(b, user), l), LastHeld(HeldIn(b, user), l));
    assert !Enough(b, user, ds[i]);
    PassConverges(cfg, b, user, acc, lots, [], ds, tag, faults, ds');
  }
}
