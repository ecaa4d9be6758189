/** Positions and profit on the mock broker: completed orders folded per (exchange, symbol, product),
    and the identity between realised plus unrealised profit and the cash that changed hands. */
module Positions {
  import opened Collections
  import opened OrderBook

  datatype Key = Key(exchange: string, symbol: string, product: string)

  datatype Totals = Totals(token: int, buyQty: int, buyVal: real, sellQty: int, sellVal: real)

  datatype Position = Position(key: Key, token: int, quantity: int, averagePrice: real, lastPrice: real, value: real,
    pnl: real, unrealised: real, realised: real, buyQty: int, buyPrice: real, buyVal: real,
    sellQty: int, sellPrice: real, sellVal: real)

  function KeyOf(o: Order): Key {
    Key(o.params.exchange, o.params.symbol, o.params.product)
  }

  predicate Counted(o: Order) {
    o.status == Complete && o.filled > 0
  }

  predicate IsBuy(o: Order) {
    o.params.side == "BUY" || o.params.side == "B"
  }

  predicate IsSell(o: Order) {
    o.params.side == "SELL" || o.params.side == "S"
  }

  /** The orders an index names, in its order; ids without an order are passed over. */
  function Named(orders: map<OrderId, Order>, ids: seq<OrderId>): seq<Order> {
    if ids == [] then []
    else
      var rest := Named(orders, ids[..|ids| - 1]);
      var id := ids[|ids| - 1];
      if id in orders then rest + [orders[id]] else rest
  }

  function OrdersOf(b: Book, user: UserId): seq<Order> {
    Named(b.orders, IdsOf(b.userOrders, user))
  }

  // ---------------------------------------------------------------- one key at a time

  /** Signed quantity an order adds to the position at `k`. */
  function Signed(o: Order, k: Key): int {
    if !Counted(o) || KeyOf(o) != k then 0
    else if IsBuy(o) then o.filled
    else if IsSell(o) then -o.filled
    else 0
  }

  /** Net quantity at `k`, summed over the orders. */
  function Net(os: seq<Order>, k: Key): int {
    if os == [] then 0 else Net(os[..|os| - 1], k) + Signed(os[|os| - 1], k)
  }

  /** Profit against `ltp`, order by order: signed quantity times the move since the fill. */
  function MarkToMarket(os: seq<Order>, k: Key, ltp: real): real {
    if os == [] then 0.0
    else
      var o := os[|os| - 1];
      MarkToMarket(os[..|os| - 1], k, ltp) + Moved(o, k, ltp)
  }

  /** What the order's quantity at `k` gained since its fill. */
  function Moved(o: Order, k: Key, ltp: real): real {
    Signed(o, k) as real * (ltp - o.averagePrice)
  }

  lemma UntouchedUnmoved(o: Order, k: Key, ltp: real)
    requires !Touches(o, k)
    ensures Moved(o, k, ltp) == 0.0
  {
  }

  function NoTotals(token: int): Totals {
    Totals(token, 0, 0.0, 0, 0.0)
  }

  function Add(t: Totals, o: Order): Totals {
    var val := o.filled as real * o.averagePrice;
    if IsBuy(o) then t.(buyQty := t.buyQty + o.filled, buyVal := t.buyVal + val)
    else if IsSell(o) then t.(sellQty := t.sellQty + o.filled, sellVal := t.sellVal + val)
    else t
  }

  predicate Touches(o: Order, k: Key) {
    Counted(o) && KeyOf(o) == k
  }

  predicate Seen(os: seq<Order>, k: Key) {
    exists i :: 0 <= i < |os| && Touches(os[i], k)
  }

  /** Buys and sells at `k`, the token being the first counted order's. */
  function TotalsAt(os: seq<Order>, k: Key): Option<Totals> {
    if os == [] then None
    else
      var before := TotalsAt(os[..|os| - 1], k);
      var o := os[|os| - 1];
      if !Touches(o, k) then before
      else Some(Add(if before.Some? then before.value else NoTotals(o.token), o))
  }

  /** Keys in the order first seen. */
  function Keys(os: seq<Order>): seq<Key> {
    if os == [] then []
    else
      var before := Keys(os[..|os| - 1]);
      var o := os[|os| - 1];
      if Counted(o) && KeyOf(o) !in before then before + [KeyOf(o)] else before
  }

  // ---------------------------------------------------------------- price and profit of one position

  function Average(val: real, qty: int): real {
    if qty > 0 then val / qty as real else 0.0
  }

  function Min(a: int, b: int): int {
    if b < a then b else a
  }

  function Realised(t: Totals): real {
    var buyPrice, sellPrice := Average(t.buyVal, t.buyQty), Average(t.sellVal, t.sellQty);
    var closed := Min(t.buyQty, t.sellQty);
    if closed > 0 && buyPrice > 0.0 && sellPrice > 0.0 then closed as real * (sellPrice - buyPrice) else 0.0
  }

  function Unrealised(t: Totals, ltp: real): real {
    var net := t.buyQty - t.sellQty;
    if net > 0 then net as real * (ltp - Average(t.buyVal, t.buyQty))
    else if net < 0 then (-net) as real * (Average(t.sellVal, t.sellQty) - ltp)
    else 0.0
  }

  function Profit(t: Totals, ltp: real): real {
    Realised(t) + Unrealised(t, ltp)
  }

  function AveragePrice(t: Totals): real {
    if t.buyQty > t.sellQty then Average(t.buyVal, t.buyQty)
    else if t.buyQty < t.sellQty then Average(t.sellVal, t.sellQty)
    else 0.0
  }

  function LastPrice(instruments: map<Listing, Instrument>, k: Key, t: Totals): real {
    var l := Listing(k.exchange, k.symbol);
    if l in instruments && instruments[l].ltp > 0.0 then instruments[l].ltp else AveragePrice(t)
  }

  function PositionAt(instruments: map<Listing, Instrument>, k: Key, t: Totals): Position {
    var net, ltp := t.buyQty - t.sellQty, LastPrice(instruments, k, t);
    Position(k, t.token, net, AveragePrice(t), ltp, net as real * ltp,
             Profit(t, ltp), Unrealised(t, ltp), Realised(t),
             t.buyQty, Average(t.buyVal, t.buyQty), t.buyVal, t.sellQty, Average(t.sellVal, t.sellQty), t.sellVal)
  }

  // ---------------------------------------------------------------- the loops

  function TotalsOr(os: seq<Order>, k: Key): Totals {
    var t := TotalsAt(os, k);
    if t.Some? then t.value else NoTotals(0)
  }

  /** Key by key: the position each key's own totals give. */
  function PositionsOf(b: Book, user: UserId): seq<Position> {
    var os := OrdersOf(b, user);
    seq(|Keys(os)|, i requires 0 <= i < |Keys(os)| => PositionAt(b.instruments, Keys(os)[i], TotalsOr(os, Keys(os)[i])))
  }

  /** How the keys and every key's totals change with one more order. */
  lemma OneMoreOrder(os: seq<Order>, o: Order)
    ensures Keys(os + [o]) == if Counted(o) && KeyOf(o) !in Keys(os) then Keys(os) + [KeyOf(o)] else Keys(os)
    ensures forall k :: TotalsAt(os + [o], k) ==
              if !Touches(o, k) then TotalsAt(os, k)
              else Some(Add(if TotalsAt(os, k).Some? then TotalsAt(os, k).value else NoTotals(o.token), o))
  {
    assert (os + [o])[..|os|] == os;
  }

  /** One pass over the orders, with an accumulator per key and the keys as first seen. */
  method Accumulate(orders: map<OrderId, Order>, ids: seq<OrderId>) returns (keys: seq<Key>, accums: map<Key, Totals>)
    ensures var os := Named(orders, ids);
            && keys == Keys(os)
            && (forall k :: k in accums <==> k in keys)
            && (forall k :: TotalsAt(os, k) == if k in accums then Some(accums[k]) else None)
  {
    accums := map[];
    keys := [];
    ghost var seen: seq<Order> := [];
    for n := 0 to |ids|
      invariant seen == Named(orders, ids[..n])
      invariant keys == Keys(seen)
      invariant forall k :: k in accums <==> k in keys
      invariant forall k :: TotalsAt(seen, k) == if k in accums then Some(accums[k]) else None
    {
      assert ids[..n + 1][..n] == ids[..n];
      if ids[n] in orders {
        var o := orders[ids[n]];
        OneMoreOrder(seen, o);
        seen := seen + [o];
        if Counted(o) {
          var k := KeyOf(o);
          if k !in accums {
            accums := accums[k := NoTotals(o.token)];
            keys := keys + [k];
          }
          accums := accums[k := Add(accums[k], o)];
        }
      }
    }
    assert ids[..|ids|] == ids;
  }

  /** One position from each accumulator, in the order of the keys. */
  method FromAccums(instruments: map<Listing, Instrument>, keys: seq<Key>, accums: map<Key, Totals>)
    returns (net: seq<Position>)
    requires forall k :: k in keys ==> k in accums
    ensures |net| == |keys|
    ensures forall j :: 0 <= j < |keys| ==> net[j] == PositionAt(instruments, keys[j], accums[keys[j]])
  {
    net := [];
    for i := 0 to |keys|
      invariant |net| == i
      invariant forall j :: 0 <= j < i ==> net[j] == PositionAt(instruments, keys[j], accums[keys[j]])
    {
      net := net + [PositionAt(instruments, keys[i], accums[keys[i]])];
    }
  }

  /** All positions of one user, from the accumulators. */
  method GetPositions(b: Book, user: UserId) returns (net: seq<Position>)
    ensures net == PositionsOf(b, user)
  {
    var keys, accums := Accumulate(b.orders, IdsOf(b.userOrders, user));
    assert forall k :: k in keys ==> accums[k] == TotalsOr(OrdersOf(b, user), k);
    net := FromAccums(b.instruments, keys, accums);
  }

  // ---------------------------------------------------------------- what a fold over one key means

  lemma {:induction false} KeysAreSeen(os: seq<Order>, k: Key)
    ensures k in Keys(os) <==> Seen(os, k)
    ensures TotalsAt(os, k).Some? <==> Seen(os, k)
    ensures forall i, j :: 0 <= i < j < |Keys(os)| ==> Keys(os)[i] != Keys(os)[j]
  {
    if os != [] {
      var init := os[..|os| - 1];
      KeysAreSeen(init, k);
      forall i | 0 <= i < |os| ensures os[i] == if i < |init| then init[i] else os[|os| - 1] {}
      if Seen(init, k) {
        var i :| 0 <= i < |init| && Touches(init[i], k);
        assert Touches(os[i], k);
      }
    }
  }

  /** A quantity of none is worth nothing, and buys less sells are the net quantity. */
  lemma {:induction false} TotalsNet(os: seq<Order>, k: Key)
    requires TotalsAt(os, k).Some?
    ensures var t := TotalsAt(os, k).value;
            && t.buyQty >= 0 && t.sellQty >= 0 && t.buyQty - t.sellQty == Net(os, k)
            && (t.buyQty == 0 ==> t.buyVal == 0.0) && (t.sellQty == 0 ==> t.sellVal == 0.0)
  {
    var init := os[..|os| - 1];
    if TotalsAt(init, k).Some? { TotalsNet(init, k); } else { UnseenNet(init, k, 0.0); }
  }

  lemma {:induction false} UnseenNet(os: seq<Order>, k: Key, ltp: real)
    requires TotalsAt(os, k) == None
    ensures Net(os, k) == 0 && MarkToMarket(os, k, ltp) == 0.0
  {
    if os != [] {
      UnseenNet(os[..|os| - 1], k, ltp);
      UntouchedUnmoved(os[|os| - 1], k, ltp);
    }
  }

  /** Cash received less cash paid, plus the open quantity at the last price. */
  function CashPlusOpen(t: Totals, ltp: real): real {
    t.sellVal - t.buyVal + (t.buyQty - t.sellQty) as real * ltp
  }

  lemma {:induction false} CashIsMarkToMarket(os: seq<Order>, k: Key, ltp: real)
    requires TotalsAt(os, k).Some?
    ensures CashPlusOpen(TotalsAt(os, k).value, ltp) == MarkToMarket(os, k, ltp)
  {
    var init, o := os[..|os| - 1], os[|os| - 1];
    if TotalsAt(init, k).Some? { CashIsMarkToMarket(init, k, ltp); } else { UnseenNet(init, k, ltp); }
    if Touches(o, k) {
      var before := if TotalsAt(init, k).Some? then TotalsAt(init, k).value else NoTotals(o.token);
      NoCash(o.token, ltp);
      AddMoves(before, o, k, ltp);
    } else {
      UntouchedUnmoved(o, k, ltp);
    }
  }

  lemma NoCash(token: int, ltp: real)
    ensures CashPlusOpen(NoTotals(token), ltp) == 0.0
  {
  }

  lemma AddMoves(t: Totals, o: Order, k: Key, ltp: real)
    requires Touches(o, k)
    ensures CashPlusOpen(Add(t, o), ltp) == CashPlusOpen(t, ltp) + Moved(o, k, ltp)
  {
    Distribute(o.filled as real, ltp, o.averagePrice);
    var net := t.buyQty - t.sellQty;
    assert (net + o.filled) as real * ltp == net as real * ltp + o.filled as real * ltp;
    assert (net - o.filled) as real * ltp == net as real * ltp - o.filled as real * ltp;
  }

  lemma Distribute(q: real, a: real, b: real)
    ensures q * (a - b) == q * a - q * b
    ensures (-q) * (a - b) == q * b - q * a
  {
  }

  // ---------------------------------------------------------------- the profit identity

  /** Totals some list of orders can produce. */
  predicate Possible(t: Totals) {
    && t.buyQty >= 0 && t.sellQty >= 0
    && (t.buyQty == 0 ==> t.buyVal == 0.0) && (t.sellQty == 0 ==> t.sellVal == 0.0)
  }

  /** Closed quantity is booked: there is none, or both averages are positive, or it moved nothing. */
  predicate ClosedIsBooked(t: Totals) {
    var buyPrice, sellPrice := Average(t.buyVal, t.buyQty), Average(t.sellVal, t.sellQty);
    Min(t.buyQty, t.sellQty) == 0 || (buyPrice > 0.0 && sellPrice > 0.0) || sellPrice == buyPrice
  }

  lemma AverageTimes(val: real, qty: int)
    requires qty >= 0 && (qty == 0 ==> val == 0.0)
    ensures qty as real * Average(val, qty) == val
  {
  }

  /** Realised plus unrealised against cash: they differ by the closed quantity the guard leaves out. */
  lemma ProfitGap(t: Totals, ltp: real)
    requires Possible(t)
    ensures var gain := Average(t.sellVal, t.sellQty) - Average(t.buyVal, t.buyQty);
            var closed := Min(t.buyQty, t.sellQty) as real;
            CashPlusOpen(t, ltp) - Profit(t, ltp) == closed * gain - Realised(t)
  {
    AverageTimes(t.buyVal, t.buyQty);
    AverageTimes(t.sellVal, t.sellQty);
    OpenAndClosed(t.buyQty as real, Average(t.buyVal, t.buyQty), t.sellQty as real, Average(t.sellVal, t.sellQty), ltp);
  }

  /** Cash splits into what the closed quantity earned and what the open quantity would. */
  lemma OpenAndClosed(b: real, bp: real, s: real, sp: real, ltp: real)
    ensures s * sp - b * bp + (b - s) * ltp == s * (sp - bp) + (b - s) * (ltp - bp)
    ensures s * sp - b * bp + (b - s) * ltp == b * (sp - bp) + (s - b) * (sp - ltp)
  {
    Distribute(s, sp, bp);
    Distribute(b, sp, bp);
    assert (b - s) * (ltp - bp) == b * ltp - b * bp - s * ltp + s * bp;
    assert (s - b) * (sp - ltp) == s * sp - s * ltp - b * sp + b * ltp;
    assert (b - s) * ltp == b * ltp - s * ltp;
  }

  /** Exactly when realised plus unrealised is the cash identity, for every last price. */
  lemma ProfitIdentityIff(t: Totals, ltp: real)
    requires Possible(t)
    ensures Profit(t, ltp) == CashPlusOpen(t, ltp) <==> ClosedIsBooked(t)
  {
    ProfitGap(t, ltp);
    var gain := Average(t.sellVal, t.sellQty) - Average(t.buyVal, t.buyQty);
    var closed := Min(t.buyQty, t.sellQty) as real;
    NonZeroProduct(closed, gain);
  }

  lemma NonZeroProduct(x: real, y: real)
    ensures x * y == 0.0 <==> x == 0.0 || y == 0.0
  {
  }

  /** Positive prices are enough: both averages are then positive wherever there is quantity. */
  lemma {:induction false} PositivePrices(os: seq<Order>, k: Key)
    requires TotalsAt(os, k).Some?
    requires forall i :: 0 <= i < |os| && Touches(os[i], k) ==> os[i].averagePrice > 0.0
    ensures var t := TotalsAt(os, k).value;
            (t.buyQty > 0 ==> t.buyVal > 0.0) && (t.sellQty > 0 ==> t.sellVal > 0.0)
            && t.buyVal >= 0.0 && t.sellVal >= 0.0
  {
    var init, o := os[..|os| - 1], os[|os| - 1];
    forall i | 0 <= i < |init| ensures init[i] == os[i] {}
    if TotalsAt(init, k).Some? { PositivePrices(init, k); }
    if Touches(o, k) { PositiveValue(o.filled as real, o.averagePrice); TotalsNetOrNone(init, k); }
  }

  lemma {:induction false} TotalsNetOrNone(os: seq<Order>, k: Key)
    ensures TotalsAt(os, k).Some? ==> Possible(TotalsAt(os, k).value)
  {
    if TotalsAt(os, k).Some? { TotalsNet(os, k); }
  }

  lemma PositiveValue(q: real, price: real)
    requires q > 0.0 && price > 0.0
    ensures q * price > 0.0
  {
  }

  /** For completed orders at positive prices, a position's profit is the sum over its orders of
      signed quantity times the move from fill price to last price. */
  lemma {:induction false} PositionProfit(os: seq<Order>, k: Key, t: Totals, ltp: real)
    requires TotalsAt(os, k) == Some(t)
    requires forall i :: 0 <= i < |os| && Touches(os[i], k) ==> os[i].averagePrice > 0.0
    ensures Profit(t, ltp) == MarkToMarket(os, k, ltp)
    ensures Profit(t, ltp) == CashPlusOpen(t, ltp) && t.buyQty - t.sellQty == Net(os, k)
  {
    var net, mtm := Net(os, k), MarkToMarket(os, k, ltp);
    PositionTotals(os, k, t, ltp, net, mtm);
    BookedProfit(t, net, mtm, ltp);
  }

  lemma {:induction false} PositionTotals(os: seq<Order>, k: Key, t: Totals, ltp: real, net: int, mtm: real)
    requires TotalsAt(os, k) == Some(t) && net == Net(os, k) && mtm == MarkToMarket(os, k, ltp)
    requires forall i :: 0 <= i < |os| && Touches(os[i], k) ==> os[i].averagePrice > 0.0
    ensures net == t.buyQty - t.sellQty && mtm == CashPlusOpen(t, ltp) && Possible(t)
    ensures (t.buyQty > 0 ==> t.buyVal > 0.0) && (t.sellQty > 0 ==> t.sellVal > 0.0)
  {
    TotalsNet(os, k);
    PositivePrices(os, k);
    CashIsMarkToMarket(os, k, ltp);
  }

  lemma BookedProfit(t: Totals, net: int, mtm: real, ltp: real)
    requires net == t.buyQty - t.sellQty && mtm == CashPlusOpen(t, ltp)
    requires Possible(t) && (t.buyQty > 0 ==> t.buyVal > 0.0) && (t.sellQty > 0 ==> t.sellVal > 0.0)
    ensures Profit(t, ltp) == mtm
  {
    ProfitIdentityIff(t, ltp);
    PositiveAverage(t.buyVal, t.buyQty);
    PositiveAverage(t.sellVal, t.sellQty);
  }

  lemma PositiveAverage(val: real, qty: int)
    requires qty > 0 ==> val > 0.0
    ensures qty > 0 ==> Average(val, qty) > 0.0
  {
    if qty > 0 { assert val / qty as real > 0.0; }
  }

  /** A flat position's profit does not move with the last price. */
  lemma {:induction false} FlatProfit(os: seq<Order>, k: Key, ltp: real, other: real)
    requires TotalsAt(os, k).Some? && Net(os, k) == 0
    ensures var t := TotalsAt(os, k).value;
            Profit(t, ltp) == Profit(t, other)
  {
    TotalsNet(os, k);
  }

  /** All totals the identity speaks of come from orders: a buy and a sell at the average prices, or one
      order of neither side. */
  lemma {:induction false} PossibleIsReached(t: Totals, k: Key) returns (os: seq<Order>)
    requires Possible(t)
    ensures TotalsAt(os, k) == Some(t)
  {
    var neither := Made(t, k, "", 1, 0.0);
    OneMoreOrder([], neither);
    assert [] + [neither] == [neither];
    AverageTimes(t.buyVal, t.buyQty);
    AverageTimes(t.sellVal, t.sellQty);
    os := WithBuy([neither], t, k, Average(t.buyVal, t.buyQty));
    os := WithSell(os, t, k, Average(t.sellVal, t.sellQty));
  }

  lemma {:induction false} WithBuy(os: seq<Order>, t: Totals, k: Key, price: real) returns (os': seq<Order>)
    requires Possible(t) && TotalsAt(os, k) == Some(NoTotals(t.token)) && t.buyQty as real * price == t.buyVal
    ensures TotalsAt(os', k) == Some(Totals(t.token, t.buyQty, t.buyVal, 0, 0.0))
  {
    os' := os;
    if t.buyQty > 0 {
      var buy := Made(t, k, "BUY", t.buyQty, price);
      assert Touches(buy, k) && IsBuy(buy);
      assert Add(NoTotals(t.token), buy) == Totals(t.token, t.buyQty, t.buyVal, 0, 0.0);
      OneMoreOrder(os, buy);
      os' := os + [buy];
    }
  }

  lemma {:induction false} WithSell(os: seq<Order>, t: Totals, k: Key, price: real) returns (os': seq<Order>)
    requires Possible(t) && TotalsAt(os, k) == Some(t.(sellQty := 0, sellVal := 0.0))
    requires t.sellQty as real * price == t.sellVal
    ensures TotalsAt(os', k) == Some(t)
  {
    os' := os;
    if t.sellQty > 0 {
      var sell := Made(t, k, "SELL", t.sellQty, price);
      assert Touches(sell, k) && !IsBuy(sell) && IsSell(sell);
      assert Add(t.(sellQty := 0, sellVal := 0.0), sell) == t;
      OneMoreOrder(os, sell);
      os' := os + [sell];
    }
  }

  function Made(t: Totals, k: Key, side: string, quantity: int, price: real): Order {
    Order(OrderId(0), "", Complete, "", Params(k.exchange, k.symbol, side, k.product, "", quantity, 0.0, ""),
          t.token, price, quantity, 0, 0)
  }

  // ---------------------------------------------------------------- what a reported position says

  /** A completed order at `k` on the buying or the selling side. */
  predicate Traded(o: Order, k: Key, buying: bool) {
    && o.status == Complete && o.filled > 0
    && o.params.exchange == k.exchange && o.params.symbol == k.symbol && o.params.product == k.product
    && o.params.side in if buying then {"BUY", "B"} else {"SELL", "S"}
  }

  /** Quantity bought or sold at `k`. */
  function TradedQty(os: seq<Order>, k: Key, buying: bool): int {
    if os == [] then 0
    else
      var o := os[|os| - 1];
      TradedQty(os[..|os| - 1], k, buying) + if Traded(o, k, buying) then o.filled else 0
  }

  /** Money paid or received for it. */
  function TradedVal(os: seq<Order>, k: Key, buying: bool): real {
    if os == [] then 0.0
    else
      var o := os[|os| - 1];
      TradedVal(os[..|os| - 1], k, buying) + if Traded(o, k, buying) then o.filled as real * o.averagePrice else 0.0
  }

  lemma {:induction false} TotalsTraded(os: seq<Order>, k: Key)
    ensures var t := TotalsOr(os, k);
            && t.buyQty == TradedQty(os, k, true) && t.buyVal == TradedVal(os, k, true)
            && t.sellQty == TradedQty(os, k, false) && t.sellVal == TradedVal(os, k, false)
  {
    if os != [] { TotalsTraded(os[..|os| - 1], k); }
  }

  /** A price that times the quantity is the value; nothing traded has no price. */
  predicate IsPrice(price: real, val: real, qty: int) {
    if qty > 0 then price * qty as real == val else price == 0.0
  }

  /** Profit is what is realised and what is not. Only quantity both bought and sold at positive prices
      is realised, and only quantity still open is not. */
  predicate ProfitSplit(p: Position) {
    && p.pnl == p.realised + p.unrealised
    && (p.quantity > 0 ==> p.unrealised == p.quantity as real * (p.lastPrice - p.buyPrice))
    && (p.quantity < 0 ==> p.unrealised == p.quantity as real * (p.lastPrice - p.sellPrice))
    && (p.quantity == 0 ==> p.unrealised == 0.0)
    && (p.buyQty == 0 || p.sellQty == 0 || p.buyPrice <= 0.0 || p.sellPrice <= 0.0 ==> p.realised == 0.0)
    && (p.buyPrice > 0.0 && p.sellPrice > 0.0 ==>
          p.realised == (if p.buyQty < p.sellQty then p.buyQty else p.sellQty) as real * (p.sellPrice - p.buyPrice))
  }

  /** The last price is the instrument's if it has one, and else what the open side paid on average. */
  predicate PricedBy(instruments: map<Listing, Instrument>, p: Position) {
    && p.value == p.quantity as real * p.lastPrice
    && p.averagePrice == (if p.quantity > 0 then p.buyPrice else if p.quantity < 0 then p.sellPrice else 0.0)
    && var l := Listing(p.key.exchange, p.key.symbol);
       && (l in instruments && instruments[l].ltp > 0.0 ==> p.lastPrice == instruments[l].ltp)
       && (l !in instruments || instruments[l].ltp <= 0.0 ==> p.lastPrice == p.averagePrice)
  }

  lemma AverageIsPrice(val: real, qty: int)
    ensures IsPrice(Average(val, qty), val, qty)
  {
  }

  lemma PositionSplit(instruments: map<Listing, Instrument>, k: Key, t: Totals)
    requires Possible(t)
    ensures ProfitSplit(PositionAt(instruments, k, t)) && PricedBy(instruments, PositionAt(instruments, k, t))
  {
    var p := PositionAt(instruments, k, t);
    var net := p.quantity as real;
    assert (-net) * (p.sellPrice - p.lastPrice) == net * (p.lastPrice - p.sellPrice);
  }

  /** A position is these orders' at its key: the sums over them, the net quantity, the prices
      they come to and its token. */
  ghost predicate Sums(p: Position, os: seq<Order>) {
    && p.buyQty == TradedQty(os, p.key, true) && p.buyVal == TradedVal(os, p.key, true)
    && p.sellQty == TradedQty(os, p.key, false) && p.sellVal == TradedVal(os, p.key, false)
    && IsPrice(p.buyPrice, p.buyVal, p.buyQty) && IsPrice(p.sellPrice, p.sellVal, p.sellQty)
    && p.quantity == p.buyQty - p.sellQty == Net(os, p.key)
    && exists j :: FirstAt(os, p.key, j) && p.token == os[j].token
  }

  predicate FirstAt(os: seq<Order>, k: Key, j: int) {
    0 <= j < |os| && Touches(os[j], k) && forall h :: 0 <= h < j ==> !Touches(os[h], k)
  }

  lemma {:induction false} TokenIsFirst(os: seq<Order>, k: Key)
    requires TotalsAt(os, k).Some?
    ensures exists j :: FirstAt(os, k, j) && TotalsAt(os, k).value.token == os[j].token
  {
    var init := os[..|os| - 1];
    KeysAreSeen(init, k);
    if TotalsAt(init, k).Some? {
      TokenIsFirst(init, k);
      var j :| FirstAt(init, k, j) && TotalsAt(init, k).value.token == init[j].token;
      assert FirstAt(os, k, j);
    } else {
      assert forall h :: 0 <= h < |init| ==> os[h] == init[h];
      assert FirstAt(os, k, |init|);
    }
  }

  lemma {:induction false} PositionSums(instruments: map<Listing, Instrument>, os: seq<Order>, k: Key, t: Totals)
    requires TotalsAt(os, k) == Some(t)
    ensures Sums(PositionAt(instruments, k, t), os)
  {
    TotalsNet(os, k);
    TotalsTraded(os, k);
    TokenIsFirst(os, k);
    AverageIsPrice(t.buyVal, t.buyQty);
    AverageIsPrice(t.sellVal, t.sellQty);
  }

  /** All of it. */
  ghost predicate Reports(p: Position, os: seq<Order>, instruments: map<Listing, Instrument>) {
    Sums(p, os) && PricedBy(instruments, p) && ProfitSplit(p)
  }

  /** Every position reported for a user says this of the user's completed orders at its key. */
  lemma {:induction false} ReportedPosition(b: Book, user: UserId, i: nat)
    requires i < |PositionsOf(b, user)|
    ensures Reports(PositionsOf(b, user)[i], OrdersOf(b, user), b.instruments)
  {
    var os := OrdersOf(b, user);
    KeysAreSeen(os, Keys(os)[i]);
    var t := TotalsAt(os, Keys(os)[i]).value;
    TotalsNetOrNone(os, Keys(os)[i]);
    PositionSums(b.instruments, os, Keys(os)[i], t);
    PositionSplit(b.instruments, Keys(os)[i], t);
  }

  /** At positive fill prices the reported profit is the sum, over the user's orders at the key, of signed
      quantity times the move from fill price to reported last price. */
  lemma {:induction false} ReportedProfit(b: Book, user: UserId, i: nat)
    requires i < |PositionsOf(b, user)|
    requires var os := OrdersOf(b, user);
             forall j :: 0 <= j < |os| && Touches(os[j], PositionsOf(b, user)[i].key) ==> os[j].averagePrice > 0.0
    ensures var os, p := OrdersOf(b, user), PositionsOf(b, user)[i];
            p.pnl == MarkToMarket(os, p.key, p.lastPrice)
  {
    var os := OrdersOf(b, user);
    var k := Keys(os)[i];
    KeysAreSeen(os, k);
    PositionProfit(os, k, TotalsAt(os, k).value, PositionsOf(b, user)[i].lastPrice);
  }

  /** The orders folded for a user are exactly that user's orders in the book, once each. */
  lemma OrdersOfUser(b: Book, user: UserId)
    requires Inv(b)
    ensures var os := OrdersOf(b, user);
            && (forall id :: id in b.orders && b.orders[id].user == user ==> b.orders[id] in os)
            && (forall i :: 0 <= i < |os| ==> os[i].user == user && os[i].id in b.orders && b.orders[os[i].id] == os[i])
            && (forall i, j :: 0 <= i < j < |os| ==> os[i].id != os[j].id)
  {
    var ids := IdsOf(b.userOrders, user);
    forall id | id in ids ensures id in b.orders && b.orders[id].id == id && b.orders[id].user == user {
      assert OrderFits(b, id);
    }
    NamedAll(b.orders, ids);
    var os := OrdersOf(b, user);
    forall id | id in b.orders && b.orders[id].user == user ensures b.orders[id] in os {
      var i :| 0 <= i < |ids| && ids[i] == id;
      assert os[i] == b.orders[id];
    }
  }

  lemma {:induction false} NamedAll(orders: map<OrderId, Order>, ids: seq<OrderId>)
    requires forall id :: id in ids ==> id in orders
    ensures |Named(orders, ids)| == |ids|
    ensures forall i :: 0 <= i < |ids| ==> ids[i] in orders && Named(orders, ids)[i] == orders[ids[i]]
  {
    if ids != [] { NamedAll(orders, ids[..|ids| - 1]); }
  }
}
