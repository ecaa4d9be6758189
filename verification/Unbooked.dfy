/** Profit the mock broker never books: a position opened while the last price was zero. */
module Unbooked {
  import opened Collections
  import opened OrderBook
  import opened Positions
  import SquareOffFlat

  function Sold(p: Params): Params {
    p.(side := "SELL")
  }

  function Repriced(instruments: map<Listing, Instrument>, l: Listing, ltp: real): map<Listing, Instrument> {
    if l in instruments then instruments[l := instruments[l].(ltp := ltp)] else instruments
  }

  /** Buy at once, see the price move, sell at once. */
  function BuyThenSell(user: UserId, p: Params, price: real): seq<Operation> {
    [PlaceOp(user, p), UpdateLtp(ListingOf(p), price), PlaceOp(user, Sold(p))]
  }

  lemma RunThree(cfg: Config, b: Book, x: Operation, y: Operation, z: Operation)
    ensures RunAll(cfg, b, [x, y, z]) == Apply(cfg, Apply(cfg, Apply(cfg, b, x), y), z)
  {
    assert [x][..0] == [];
    assert RunAll(cfg, b, []) == b;
    assert [x, y][..1] == [x];
    assert [x, y, z][..2] == [x, y];
    assert RunAll(cfg, b, [x]) == Apply(cfg, b, x);
  }

  /** The two orders the run leaves. */
  lemma TwoOrders(cfg: Config, instruments: map<Listing, Instrument>, user: UserId, p: Params, price: real)
    requires cfg.instant && Validate(cfg, instruments, p) == None
    requires Validate(cfg, Repriced(instruments, ListingOf(p), price), Sold(p)) == None
    ensures var b := RunAll(cfg, EmptyBook(instruments), BuyThenSell(user, p, price));
            var inst := instruments[ListingOf(p)];
            && b.instruments == Repriced(instruments, ListingOf(p), price)
            && OrdersOf(b, user) == [Filled(Opened(OrderId(1), user, p, inst.token), inst.ltp),
                                     Filled(Opened(OrderId(2), user, Sold(p), inst.token), price)]
  {
    var b0 := EmptyBook(instruments);
    Bought(cfg, instruments, user, p, price);
    var b2 := Apply(cfg, Place(cfg, b0, user, p).0, UpdateLtp(ListingOf(p), price));
    OneOrder(cfg, b2, user, Sold(p));
    RunThree(cfg, b0, PlaceOp(user, p), UpdateLtp(ListingOf(p), price), PlaceOp(user, Sold(p)));
  }

  /** After the buy and the price move. */
  lemma Bought(cfg: Config, instruments: map<Listing, Instrument>, user: UserId, p: Params, price: real)
    requires cfg.instant && Validate(cfg, instruments, p) == None
    ensures var b2 := Apply(cfg, Place(cfg, EmptyBook(instruments), user, p).0, UpdateLtp(ListingOf(p), price));
            var inst := instruments[ListingOf(p)];
            && Inv(b2) && b2.instruments == Repriced(instruments, ListingOf(p), price) && b2.lastId == 1
            && OrdersOf(b2, user) == [Filled(Opened(OrderId(1), user, p, inst.token), inst.ltp)]
  {
    var b0 := EmptyBook(instruments);
    EmptyInv(instruments);
    OneOrder(cfg, b0, user, p);
    var b1 := Place(cfg, b0, user, p).0;
    PlaceKeepsInv(cfg, b0, user, p);
    ApplyKeepsInv(cfg, b1, UpdateLtp(ListingOf(p), price));
    RepriceKeepsOrders(cfg, b1, user, ListingOf(p), price);
    assert OrdersOf(b0, user) == [];
  }

  lemma RepriceKeepsOrders(cfg: Config, b: Book, user: UserId, l: Listing, price: real)
    ensures var b' := Apply(cfg, b, UpdateLtp(l, price));
            OrdersOf(b', user) == OrdersOf(b, user) && b'.instruments == Repriced(b.instruments, l, price)
            && b'.lastId == b.lastId
  {
  }

  /** An accepted instant order is appended to its user's, filled at the last price. */
  lemma OneOrder(cfg: Config, b: Book, user: UserId, p: Params)
    requires Inv(b) && cfg.instant && Validate(cfg, b.instruments, p) == None
    ensures var b' := Place(cfg, b, user, p).0;
            var inst := b.instruments[ListingOf(p)];
            && b'.instruments == b.instruments && b'.lastId == b.lastId + 1
            && OrdersOf(b', user) ==
               OrdersOf(b, user) + [Filled(Opened(OrderId(b.lastId + 1), user, p, inst.token), inst.ltp)]
  {
    PlacedShape(cfg, b, user, p);
    SquareOffFlat.PlaceOrders(cfg, b, user, p, user);
  }

  lemma PlacedShape(cfg: Config, b: Book, user: UserId, p: Params)
    requires cfg.instant && Validate(cfg, b.instruments, p) == None
    ensures var b' := Place(cfg, b, user, p).0;
            var inst := b.instruments[ListingOf(p)];
            && b'.instruments == b.instruments && b'.lastId == b.lastId + 1
            && SquareOffFlat.NewOrder(cfg, b, user, p) ==
               Filled(Opened(OrderId(b.lastId + 1), user, p, inst.token), inst.ltp)
  {
  }

  lemma {:induction false} TwoOrderTotals(a: Order, b: Order, k: Key)
    requires Touches(a, k) && Touches(b, k) && IsBuy(a) && !IsBuy(b) && IsSell(b)
    ensures Keys([a, b]) == [k]
    ensures TotalsAt([a, b], k) ==
            Some(Totals(a.token, a.filled, a.filled as real * a.averagePrice,
                        b.filled, b.filled as real * b.averagePrice))
  {
    OneMoreOrder([], a);
    OneMoreOrder([a], b);
    assert [] + [a] == [a] && [a] + [b] == [a, b];
  }

  /** Any quantity bought while the last price is zero and sold at a positive one: the broker reports
      the position flat with no profit, though the sale brought in quantity times price. */
  lemma ZeroPriceUnbooked(cfg: Config, instruments: map<Listing, Instrument>, user: UserId, p: Params, price: real)
    requires cfg.instant && p.side == "BUY" && p.quantity > 0 && price > 0.0
    requires Validate(cfg, instruments, p) == None && instruments[ListingOf(p)].ltp == 0.0
    requires Validate(cfg, Repriced(instruments, ListingOf(p), price), Sold(p)) == None
    ensures var ps := PositionsOf(RunAll(cfg, EmptyBook(instruments), BuyThenSell(user, p, price)), user);
            && |ps| == 1 && ps[0].quantity == 0 && ps[0].pnl == 0.0
            && ps[0].sellVal - ps[0].buyVal == p.quantity as real * price > 0.0
  {
    var b := RunAll(cfg, EmptyBook(instruments), BuyThenSell(user, p, price));
    TwoOrders(cfg, instruments, user, p, price);
    var os := OrdersOf(b, user);
    var k := KeyOf(os[0]);
    TwoOrderTotals(os[0], os[1], k);
    PositiveValue(p.quantity as real, price);
    var t := TotalsAt(os, k).value;
    ZeroCost(t, LastPrice(b.instruments, k, t));
  }

  lemma ZeroCost(t: Totals, ltp: real)
    requires t.buyQty == t.sellQty > 0 && t.buyVal == 0.0
    ensures Realised(t) == 0.0 && Unrealised(t, ltp) == 0.0
  {
    assert 0.0 / t.buyQty as real == 0.0;
  }
}
