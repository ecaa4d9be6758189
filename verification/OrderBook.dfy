/** The mock broker's order book: placing, filling, rejecting and cancelling orders, with each
    order's history, a per-user index and the notifications sent when an order ends. Prices are reals. */
module OrderBook {
  import opened Collections

  type UserId = string

  /** Generated ids carry the engine's counter. */
  datatype OrderId = OrderId(n: nat)
  datatype Listing = Listing(exchange: string, symbol: string)
  datatype Instrument = Instrument(token: int, lotSize: int, ltp: real)

  datatype Status = Open | Complete | Rejected | Cancelled

  datatype Params = Params(exchange: string, symbol: string, side: string, product: string, orderType: string,
    quantity: int, price: real, tag: string)

  datatype Order = Order(id: OrderId, user: UserId, status: Status, message: string, params: Params, token: int,
    averagePrice: real, filled: int, pending: int, cancelled: int)

  datatype Config = Config(exchanges: seq<string>, products: seq<string>, orderTypes: seq<string>,
    lotSizeCheck: bool, maxQuantity: int, circuitPct: real, instant: bool)

  datatype Error =
    | ExchangeNotAllowed | ProductNotAllowed | OrderTypeNotAllowed | UnknownInstrument
    | NotLotMultiple | AboveFreezeLimit | OutsideCircuitBand
    | OrderNotFound | OrderNotOpen(status: Status)

  datatype Outcome = Accepted(id: OrderId) | Failed(error: Error)

  datatype Book = Book(
    instruments: map<Listing, Instrument>,
    lastId: nat,
    orders: map<OrderId, Order>,
    userOrders: map<UserId, seq<OrderId>>,
    history: map<OrderId, seq<Order>>,
    notified: seq<Order>)

  function ListingOf(p: Params): Listing {
    Listing(p.exchange, p.symbol)
  }

  /** The first check an order fails, in the order the engine makes them. */
  function Validate(cfg: Config, instruments: map<Listing, Instrument>, p: Params): Option<Error> {
    if p.exchange !in cfg.exchanges then Some(ExchangeNotAllowed)
    else if p.product !in cfg.products then Some(ProductNotAllowed)
    else if p.orderType !in cfg.orderTypes then Some(OrderTypeNotAllowed)
    else if ListingOf(p) !in instruments then Some(UnknownInstrument)
    else
      var inst := instruments[ListingOf(p)];
      var band := inst.ltp * cfg.circuitPct / 100.0;
      if cfg.lotSizeCheck && inst.lotSize > 0 && p.quantity % inst.lotSize != 0 then Some(NotLotMultiple)
      else if cfg.maxQuantity > 0 && p.quantity > cfg.maxQuantity then Some(AboveFreezeLimit)
      else if && p.orderType == "LIMIT" && cfg.circuitPct > 0.0 && inst.ltp > 0.0
              && (p.price < inst.ltp - band || p.price > inst.ltp + band) then Some(OutsideCircuitBand)
      else None
  }

  function Opened(id: OrderId, user: UserId, p: Params, token: int): Order {
    Order(id, user, Open, "", p, token, 0.0, 0, p.quantity, 0)
  }

  function Filled(o: Order, price: real): Order {
    o.(status := Complete, averagePrice := price, filled := o.params.quantity, pending := 0)
  }

  function RejectedWith(o: Order, reason: string): Order {
    o.(status := Rejected, message := reason)
  }

  function CancelledOrder(o: Order): Order {
    o.(status := Cancelled, cancelled := o.params.quantity, pending := 0)
  }

  function IdsOf(userOrders: map<UserId, seq<OrderId>>, user: UserId): seq<OrderId> {
    if user in userOrders then userOrders[user] else []
  }

  function HistoryOf(history: map<OrderId, seq<Order>>, id: OrderId): seq<Order> {
    if id in history then history[id] else []
  }

  /** A new order enters the book, its index entry and its first snapshot. */
  function Insert(b: Book, o: Order): Book {
    b.(lastId := o.id.n,
       orders := b.orders[o.id := o],
       userOrders := b.userOrders[o.user := IdsOf(b.userOrders, o.user) + [o.id]],
       history := b.history[o.id := [o]])
  }

  /** An order ends: stored, snapshot appended, hooks told. */
  function End(b: Book, o: Order): Book {
    b.(orders := b.orders[o.id := o],
       history := b.history[o.id := HistoryOf(b.history, o.id) + [o]],
       notified := b.notified + [o])
  }

  function Place(cfg: Config, b: Book, user: UserId, p: Params): (Book, Outcome) {
    var invalid := Validate(cfg, b.instruments, p);
    if invalid.Some? then (b, Failed(invalid.value))
    else
      var inst := b.instruments[ListingOf(p)];
      var o := Opened(OrderId(b.lastId + 1), user, p, inst.token);
      var placed := Insert(b, o);
      (if cfg.instant then End(placed, Filled(o, inst.ltp)) else placed, Accepted(o.id))
  }

  /** Why an order cannot be ended, if it cannot. */
  function NotEndable(b: Book, id: OrderId): Option<Error> {
    if id !in b.orders then Some(OrderNotFound)
    else if b.orders[id].status != Open then Some(OrderNotOpen(b.orders[id].status))
    else None
  }

  datatype Ending = Fill(price: real) | Reject(reason: string) | Cancel

  function Ended(o: Order, how: Ending): Order {
    match how
    case Fill(price) => Filled(o, price)
    case Reject(reason) => RejectedWith(o, reason)
    case Cancel => CancelledOrder(o)
  }

  function EndOrder(b: Book, id: OrderId, how: Ending): (Book, Outcome) {
    var error := NotEndable(b, id);
    if error.Some? then (b, Failed(error.value)) else (End(b, Ended(b.orders[id], how)), Accepted(id))
  }

  // ---------------------------------------------------------------- the engine

  class OrderEngine {
    const config: Config
    var instruments: map<Listing, Instrument>
    var lastId: nat
    var orders: map<OrderId, Order>
    var userOrders: map<UserId, seq<OrderId>>
    var history: map<OrderId, seq<Order>>
    var notified: seq<Order>

    function Contents(): Book
      reads this
    {
      Book(instruments, lastId, orders, userOrders, history, notified)
    }

    constructor (config: Config, instruments: map<Listing, Instrument>)
      ensures this.config == config
      ensures Contents() == EmptyBook(instruments)
    {
      this.config, this.instruments := config, instruments;
      lastId, orders, userOrders, history, notified := 0, map[], map[], map[], [];
    }

    method Finish(o: Order)
      modifies this
      ensures Contents() == End(old(Contents()), o)
    {
      orders := orders[o.id := o];
      history := history[o.id := HistoryOf(history, o.id) + [o]];
      notified := notified + [o];
    }

    method PlaceOrder(user: UserId, p: Params) returns (r: Outcome)
      modifies this
      ensures (Contents(), r) == Place(config, old(Contents()), user, p)
    {
      var invalid := Validate(config, instruments, p);
      if invalid.Some? { return Failed(invalid.value); }
      var inst := instruments[ListingOf(p)];
      lastId := lastId + 1;
      var o := Opened(OrderId(lastId), user, p, inst.token);
      orders := orders[o.id := o];
      userOrders := userOrders[user := IdsOf(userOrders, user) + [o.id]];
      history := history[o.id := [o]];
      if config.instant { Finish(Filled(o, inst.ltp)); }
      r := Accepted(o.id);
    }

    method FillOrder(id: OrderId, price: real) returns (r: Outcome)
      modifies this
      ensures (Contents(), r) == EndOrder(old(Contents()), id, Fill(price))
    {
      if id !in orders { return Failed(OrderNotFound); }
      if orders[id].status != Open { return Failed(OrderNotOpen(orders[id].status)); }
      Finish(Filled(orders[id], price));
      r := Accepted(id);
    }

    method RejectOrder(id: OrderId, reason: string) returns (r: Outcome)
      modifies this
      ensures (Contents(), r) == EndOrder(old(Contents()), id, Reject(reason))
    {
      if id !in orders { return Failed(OrderNotFound); }
      if orders[id].status != Open { return Failed(OrderNotOpen(orders[id].status)); }
      Finish(RejectedWith(orders[id], reason));
      r := Accepted(id);
    }

    method CancelOrder(id: OrderId) returns (r: Outcome)
      modifies this
      ensures (Contents(), r) == EndOrder(old(Contents()), id, Cancel)
    {
      if id !in orders { return Failed(OrderNotFound); }
      if orders[id].status != Open { return Failed(OrderNotOpen(orders[id].status)); }
      Finish(CancelledOrder(orders[id]));
      r := Accepted(id);
    }
  }

  // ---------------------------------------------------------------- what one call does, on the columns

  /** The limit price is no further from the last price than the band's percentage of it. */
  predicate InBand(pct: real, ltp: real, price: real) {
    (price - ltp) * 100.0 <= ltp * pct && (ltp - price) * 100.0 <= ltp * pct
  }

  /** What each check asks: an allowed name, a known listing, whole lots where lots are checked, no more
      than the freeze limit if there is one, and a limit price within the band if there is one. */
  predicate Passes(cfg: Config, instruments: map<Listing, Instrument>, p: Params, check: Error) {
    var l := Listing(p.exchange, p.symbol);
    match check
    case ExchangeNotAllowed => p.exchange in cfg.exchanges
    case ProductNotAllowed => p.product in cfg.products
    case OrderTypeNotAllowed => p.orderType in cfg.orderTypes
    case UnknownInstrument => l in instruments
    case NotLotMultiple =>
      l in instruments && cfg.lotSizeCheck && instruments[l].lotSize > 0 ==> p.quantity % instruments[l].lotSize == 0
    case AboveFreezeLimit => cfg.maxQuantity > 0 ==> p.quantity <= cfg.maxQuantity
    case OutsideCircuitBand =>
      l in instruments && p.orderType == "LIMIT" && cfg.circuitPct > 0.0 && instruments[l].ltp > 0.0 ==>
        InBand(cfg.circuitPct, instruments[l].ltp, p.price)
    case _ => true
  }

  const CHECKS: seq<Error> := [ExchangeNotAllowed, ProductNotAllowed, OrderTypeNotAllowed, UnknownInstrument,
                               NotLotMultiple, AboveFreezeLimit, OutsideCircuitBand]

  predicate Acceptable(cfg: Config, instruments: map<Listing, Instrument>, p: Params) {
    forall i :: 0 <= i < |CHECKS| ==> Passes(cfg, instruments, p, CHECKS[i])
  }

  /** An order is accepted exactly when it passes every check, and else refused for the first it fails. */
  lemma PlaceAcceptedIff(cfg: Config, b: Book, user: UserId, p: Params)
    ensures var r := Place(cfg, b, user, p).1;
            && (r.Accepted? <==> Acceptable(cfg, b.instruments, p))
            && (forall i :: 0 <= i < |CHECKS| ==>
                  (r == Failed(CHECKS[i]) <==>
                   && !Passes(cfg, b.instruments, p, CHECKS[i])
                   && forall j :: 0 <= j < i ==> Passes(cfg, b.instruments, p, CHECKS[j])))
  {
    var passed := seq(|CHECKS|, i requires 0 <= i < |CHECKS| => Passes(cfg, b.instruments, p, CHECKS[i]));
    ValidateChecks(cfg, b.instruments, p, passed);
    FirstRefuses(passed, Validate(cfg, b.instruments, p));
  }

  lemma ValidateChecks(cfg: Config, instruments: map<Listing, Instrument>, p: Params, passed: seq<bool>)
    requires |passed| == |CHECKS|
    requires forall i :: 0 <= i < |CHECKS| ==> passed[i] == Passes(cfg, instruments, p, CHECKS[i])
    ensures Validate(cfg, instruments, p) == FirstOf(passed)
  {
    var l := Listing(p.exchange, p.symbol);
    if l in instruments { BandPerCent(cfg.circuitPct, instruments[l].ltp, p.price); }
  }

  function FirstOf(passed: seq<bool>): Option<Error>
    requires |passed| == |CHECKS|
  {
    if !passed[0] then Some(CHECKS[0])
    else if !passed[1] then Some(CHECKS[1])
    else if !passed[2] then Some(CHECKS[2])
    else if !passed[3] then Some(CHECKS[3])
    else if !passed[4] then Some(CHECKS[4])
    else if !passed[5] then Some(CHECKS[5])
    else if !passed[6] then Some(CHECKS[6])
    else None
  }

  lemma FirstRefuses(passed: seq<bool>, refused: Option<Error>)
    requires |passed| == |CHECKS| && refused == FirstOf(passed)
    ensures refused == None <==> forall i :: 0 <= i < |CHECKS| ==> passed[i]
    ensures forall i :: 0 <= i < |CHECKS| ==>
              (refused == Some(CHECKS[i]) <==> !passed[i] && forall j :: 0 <= j < i ==> passed[j])
  {
  }

  lemma BandPerCent(pct: real, ltp: real, price: real)
    ensures var band := ltp * pct / 100.0;
            price < ltp - band || price > ltp + band <==> !InBand(pct, ltp, price)
  {
  }

  /** What an accepted order leaves: the next id, a new order with its parameters, open or filled at the
      last price, at the end of the user's list, and every other order and list as it was. */
  lemma PlacedOrder(cfg: Config, b: Book, user: UserId, p: Params)
    requires Place(cfg, b, user, p).1.Accepted?
    ensures Listing(p.exchange, p.symbol) in b.instruments
    ensures var inst, id := b.instruments[Listing(p.exchange, p.symbol)], OrderId(b.lastId + 1);
            var entered := Order(id, user, Open, "", p, inst.token, 0.0, 0, p.quantity, 0);
            var filled := Order(id, user, Complete, "", p, inst.token, inst.ltp, p.quantity, 0, 0);
            var ids := if user in b.userOrders then b.userOrders[user] else [];
            && Place(cfg, b, user, p).1 == Accepted(id)
            && Place(cfg, b, user, p).0 == Book(b.instruments, b.lastId + 1,
                 b.orders[id := if cfg.instant then filled else entered], b.userOrders[user := ids + [id]],
                 b.history[id := if cfg.instant then [entered, filled] else [entered]],
                 if cfg.instant then b.notified + [filled] else b.notified)
  {
    var id := OrderId(b.lastId + 1);
    var entered := Opened(id, user, p, b.instruments[ListingOf(p)].token);
    var placed := Insert(b, entered);
    if cfg.instant {
      var filled := Filled(entered, b.instruments[ListingOf(p)].ltp);
      assert HistoryOf(placed.history, id) + [filled] == [entered, filled];
      assert placed.orders[id := filled] == b.orders[id := filled];
      assert placed.history[id := [entered, filled]] == b.history[id := [entered, filled]];
    }
  }

  /** A fill, rejection or cancel is refused exactly for an order not in the book or not open; else it
      writes that order, its snapshot and one notice, and nothing more. */
  lemma EndOutcome(b: Book, id: OrderId, how: Ending)
    ensures var (after, r) := EndOrder(b, id, how);
            && (r == Failed(OrderNotFound) <==> id !in b.orders)
            && (forall s :: r == Failed(OrderNotOpen(s)) <==> id in b.orders && b.orders[id].status == s != Open)
            && (r.Failed? ==> after == b)
            && (id in b.orders && b.orders[id].status == Open ==>
                  && r == Accepted(id)
                  && var o, q := b.orders[id], b.orders[id].params.quantity;
                     var o' := match how
                       case Fill(price) => o.(status := Complete, averagePrice := price, filled := q, pending := 0)
                       case Reject(reason) => o.(status := Rejected, message := reason)
                       case Cancel => o.(status := Cancelled, cancelled := q, pending := 0);
                     && after.orders == b.orders[o.id := o'] && after.notified == b.notified + [o']
                     && var h := if o.id in b.history then b.history[o.id] else [];
                     && after.history == b.history[o.id := h + [o']]
                     && after.userOrders == b.userOrders && after.lastId == b.lastId
                     && after.instruments == b.instruments)
  {
  }

  // ---------------------------------------------------------------- the book's invariant

  /** Quantities add up, and say what the status says. */
  predicate Conserved(o: Order) {
    && o.filled + o.pending + o.cancelled == o.params.quantity
    && o.filled == (if o.status == Complete then o.params.quantity else 0)
    && o.cancelled == (if o.status == Cancelled then o.params.quantity else 0)
  }

  /** History starts open, ends with the order as it is, and has one more entry once it ended. */
  predicate HistoryFits(h: seq<Order>, o: Order) {
    && |h| == (if o.status == Open then 1 else 2)
    && h[0] == Opened(o.id, o.user, o.params, o.token)
    && h[|h| - 1] == o
  }

  function Notices(notified: seq<Order>, id: OrderId): nat {
    if notified == [] then 0
    else Notices(notified[..|notified| - 1], id) + (if notified[|notified| - 1].id == id then 1 else 0)
  }

  predicate OrderFits(b: Book, id: OrderId)
    requires id in b.orders
  {
    var o := b.orders[id];
    && o.id == id && id.n <= b.lastId
    && Conserved(o)
    && id in b.history && HistoryFits(b.history[id], o)
    && Notices(b.notified, id) == (if o.status == Open then 0 else 1)
  }

  predicate NoRepeats(ids: seq<OrderId>) {
    forall i, j :: 0 <= i < j < |ids| ==> ids[i] != ids[j]
  }

  /** The index lists, for each user, exactly that user's orders, once each. */
  ghost predicate IndexFits(orders: map<OrderId, Order>, userOrders: map<UserId, seq<OrderId>>) {
    forall u: UserId ::
      && NoRepeats(IdsOf(userOrders, u))
      && forall id :: id in IdsOf(userOrders, u) <==> id in orders && orders[id].user == u
  }

  ghost predicate Inv(b: Book) {
    && (forall id :: id in b.orders ==> OrderFits(b, id))
    && (forall id :: id in b.orders <==> id in b.history)
    && (forall id :: id !in b.orders ==> Notices(b.notified, id) == 0)
    && IndexFits(b.orders, b.userOrders)
  }

  function EmptyBook(instruments: map<Listing, Instrument>): Book {
    Book(instruments, 0, map[], map[], map[], [])
  }

  lemma EmptyInv(instruments: map<Listing, Instrument>)
    ensures Inv(EmptyBook(instruments))
  {
  }

  lemma NoticesGrow(notified: seq<Order>, o: Order, id: OrderId)
    ensures Notices(notified + [o], id) == Notices(notified, id) + (if o.id == id then 1 else 0)
  {
    assert (notified + [o])[..|notified|] == notified;
  }

  lemma EndKeepsInv(b: Book, id: OrderId, how: Ending)
    requires Inv(b) && NotEndable(b, id) == None
    ensures Inv(End(b, Ended(b.orders[id], how)))
  {
    assert OrderFits(b, id);
    var o' := Ended(b.orders[id], how);
    var b' := End(b, o');
    forall k: OrderId
      ensures k in b'.orders ==> OrderFits(b', k)
      ensures k !in b'.orders ==> Notices(b'.notified, k) == 0
    {
      NoticesGrow(b.notified, o', k);
      if k == id {
        EndedFits(b, id, how);
      } else if k in b.orders {
        assert OrderFits(b, k);
      }
    }
    EndKeepsIndex(b, o');
  }

  lemma EndedFits(b: Book, id: OrderId, how: Ending)
    requires id in b.orders && OrderFits(b, id) && b.orders[id].status == Open
    ensures OrderFits(End(b, Ended(b.orders[id], how)), id)
  {
    NoticesGrow(b.notified, Ended(b.orders[id], how), id);
  }

  lemma EndKeepsIndex(b: Book, o: Order)
    requires IndexFits(b.orders, b.userOrders) && o.id in b.orders && b.orders[o.id].user == o.user
    ensures IndexFits(b.orders[o.id := o], b.userOrders)
  {
  }

  lemma InsertKeepsInv(b: Book, user: UserId, p: Params, token: int)
    requires Inv(b)
    ensures OrderId(b.lastId + 1) !in b.orders
    ensures Inv(Insert(b, Opened(OrderId(b.lastId + 1), user, p, token)))
  {
    var o := Opened(OrderId(b.lastId + 1), user, p, token);
    var b' := Insert(b, o);
    assert o.id in b.orders ==> OrderFits(b, o.id);
    forall k: OrderId
      ensures k in b'.orders ==> OrderFits(b', k)
    {
      if k in b.orders { assert OrderFits(b, k); }
    }
    InsertKeepsIndex(b.orders, b.userOrders, o);
  }

  lemma InsertKeepsIndex(orders: map<OrderId, Order>, userOrders: map<UserId, seq<OrderId>>, o: Order)
    requires IndexFits(orders, userOrders) && o.id !in orders
    ensures IndexFits(orders[o.id := o], userOrders[o.user := IdsOf(userOrders, o.user) + [o.id]])
  {
    var index := userOrders[o.user := IdsOf(userOrders, o.user) + [o.id]];
    forall u: UserId
      ensures NoRepeats(IdsOf(index, u))
      ensures forall id :: id in IdsOf(index, u) <==> id in orders[o.id := o] && orders[o.id := o][id].user == u
    {
      assert o.id !in IdsOf(userOrders, u);
    }
  }

  // ---------------------------------------------------------------- serial runs

  datatype Operation =
    | PlaceOp(user: UserId, params: Params)
    | EndOp(id: OrderId, how: Ending)
    | UpdateLtp(listing: Listing, ltp: real)

  /** One call, run to its end before the next begins. */
  function Apply(cfg: Config, b: Book, op: Operation): Book {
    match op
    case PlaceOp(user, p) => Place(cfg, b, user, p).0
    case EndOp(id, how) => EndOrder(b, id, how).0
    case UpdateLtp(l, ltp) =>
      if l in b.instruments then b.(instruments := b.instruments[l := b.instruments[l].(ltp := ltp)]) else b
  }

  lemma PlaceKeepsInv(cfg: Config, b: Book, user: UserId, p: Params)
    requires Inv(b)
    ensures Inv(Place(cfg, b, user, p).0)
  {
    var token, price := PlaceLeaves(cfg, b, user, p);
    PlacedThenFilled(b, user, p, token, price);
  }

  /** The book as it was, or with the new order, open or filled. */
  lemma PlaceLeaves(cfg: Config, b: Book, user: UserId, p: Params) returns (token: int, price: real)
    ensures var o := Opened(OrderId(b.lastId + 1), user, p, token);
            var after := Place(cfg, b, user, p).0;
            after == b || after == Insert(b, o) || after == End(Insert(b, o), Filled(o, price))
  {
    token, price := 0, 0.0;
    if Validate(cfg, b.instruments, p) == None {
      token, price := b.instruments[ListingOf(p)].token, b.instruments[ListingOf(p)].ltp;
    }
  }

  lemma PlacedThenFilled(b: Book, user: UserId, p: Params, token: int, price: real)
    requires Inv(b)
    ensures var o := Opened(OrderId(b.lastId + 1), user, p, token);
            Inv(Insert(b, o)) && Inv(End(Insert(b, o), Filled(o, price)))
  {
    InsertKeepsInv(b, user, p, token);
    var o := Opened(OrderId(b.lastId + 1), user, p, token);
    EndKeepsInv(Insert(b, o), o.id, Fill(price));
  }

  lemma EndOrderKeepsInv(b: Book, id: OrderId, how: Ending)
    requires Inv(b)
    ensures Inv(EndOrder(b, id, how).0)
  {
    if NotEndable(b, id) == None { EndKeepsInv(b, id, how); }
  }

  lemma ApplyKeepsInv(cfg: Config, b: Book, op: Operation)
    requires Inv(b)
    ensures Inv(Apply(cfg, b, op))
  {
    match op
    case PlaceOp(user, p) => PlaceKeepsInv(cfg, b, user, p);
    case EndOp(id, how) => EndOrderKeepsInv(b, id, how);
    case UpdateLtp(l, ltp) => {
      var b' := Apply(cfg, b, op);
      forall id | id in b'.orders ensures OrderFits(b', id) { assert OrderFits(b, id); }
    }
  }

  function RunAll(cfg: Config, b: Book, ops: seq<Operation>): Book {
    if ops == [] then b else Apply(cfg, RunAll(cfg, b, ops[..|ops| - 1]), ops[|ops| - 1])
  }

  /** Every serial run, from any book that meets the invariant, ends in one that does. */
  lemma {:induction false} RunKeepsInv(cfg: Config, b: Book, ops: seq<Operation>)
    requires Inv(b)
    ensures Inv(RunAll(cfg, b, ops))
  {
    if ops != [] {
      RunKeepsInv(cfg, b, ops[..|ops| - 1]);
      ApplyKeepsInv(cfg, RunAll(cfg, b, ops[..|ops| - 1]), ops[|ops| - 1]);
    }
  }

  /** So does every serial run of a new engine. */
  lemma RunFromEmpty(cfg: Config, instruments: map<Listing, Instrument>, ops: seq<Operation>)
    ensures Inv(RunAll(cfg, EmptyBook(instruments), ops))
  {
    EmptyInv(instruments);
    RunKeepsInv(cfg, EmptyBook(instruments), ops);
  }

  /** A placement leaves every order already in the book, and its history, as they were. */
  lemma PlaceKeepsOrder(cfg: Config, b: Book, user: UserId, p: Params, id: OrderId)
    requires id in b.orders && OrderFits(b, id)
    ensures var b' := Place(cfg, b, user, p).0;
            && id in b'.orders && b'.orders[id] == b.orders[id]
            && id in b'.history && b'.history[id] == b.history[id]
  {
  }

  /** What one call may do to an order already in the book: nothing, or end it if it was open. */
  lemma ApplyOrder(cfg: Config, b: Book, op: Operation, id: OrderId)
    requires Inv(b) && id in b.orders
    ensures id in b.history
    ensures var b' := Apply(cfg, b, op);
            && id in b'.orders && id in b'.history
            && (b'.orders[id] == b.orders[id] || (b.orders[id].status == Open && b'.orders[id].status != Open))
            && b.history[id] <= b'.history[id]
            && (b.orders[id].status != Open ==> b'.history[id] == b.history[id])
  {
    assert OrderFits(b, id);
    if op.PlaceOp? { PlaceKeepsOrder(cfg, b, op.user, op.params, id); }
    if op.EndOp? && op.id in b.orders { assert OrderFits(b, op.id); }
  }

  /** Terminal states absorb: an ended order, its history and its one notification never change. */
  lemma {:induction false} TerminalAbsorbing(cfg: Config, b: Book, ops: seq<Operation>, id: OrderId)
    requires Inv(b) && id in b.orders && b.orders[id].status != Open
    ensures var b' := RunAll(cfg, b, ops);
            && id in b'.orders && b'.orders[id] == b.orders[id]
            && id in b'.history && id in b.history && b'.history[id] == b.history[id]
            && Notices(b'.notified, id) == 1
  {
    RunKeepsInv(cfg, b, ops);
    assert OrderFits(b, id);
    if ops != [] {
      var init := RunAll(cfg, b, ops[..|ops| - 1]);
      TerminalAbsorbing(cfg, b, ops[..|ops| - 1], id);
      RunKeepsInv(cfg, b, ops[..|ops| - 1]);
      assert OrderFits(init, id);
      ApplyOrder(cfg, init, ops[|ops| - 1], id);
    }
    assert OrderFits(RunAll(cfg, b, ops), id);
  }

  /** Serial calls are needed. A fill tests the status and writes the order in two critical
      sections; a cancel in between is overwritten, the order counts twice and both hooks fire. */
  lemma FillRacesCancel(b: Book, id: OrderId, price: real)
    requires Inv(b) && NotEndable(b, id) == None
    ensures var cancelled := EndOrder(b, id, Cancel).0;
            id in cancelled.orders &&
            var raced := End(cancelled, Filled(cancelled.orders[id], price));
            && NotEndable(cancelled, id) == Some(OrderNotOpen(Cancelled))
            && id in raced.orders && raced.orders[id].status == Complete
            && raced.orders[id].filled + raced.orders[id].cancelled == 2 * raced.orders[id].params.quantity
            && Notices(raced.notified, id) == 2
            && !Inv(raced)
  {
    assert OrderFits(b, id);
    var cancelled := EndOrder(b, id, Cancel).0;
    NoticesGrow(b.notified, CancelledOrder(b.orders[id]), id);
    var raced := End(cancelled, Filled(cancelled.orders[id], price));
    NoticesGrow(cancelled.notified, Filled(cancelled.orders[id], price), id);
    assert id in raced.orders && !OrderFits(raced, id);
  }
}
