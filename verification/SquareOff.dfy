/** Square-off of one account on the mock broker: cancel its open orders, then place a market order
    against every selected position. */
module SquareOff {
  import opened Collections
  import opened OrderBook
  import opened Positions
  import opened Text
  import Sizing

  // ---------------------------------------------------------------- symbol selection

  predicate SameName(a: string, b: string) {
    Fold(Trim(a)) == Fold(Trim(b))
  }

  /** No selection selects everything. */
  predicate Selected(symbol: string, symbols: seq<string>) {
    symbols == [] || exists i :: 0 <= i < |symbols| && SameName(symbols[i], symbol)
  }

  method MatchSymbol(symbol: string, symbols: seq<string>) returns (found: bool)
    ensures found == Selected(symbol, symbols)
  {
    if |symbols| == 0 { return true; }
    for i := 0 to |symbols|
      invariant forall j :: 0 <= j < i ==> !SameName(symbols[j], symbol)
    {
      if SameName(symbols[i], symbol) { return true; }
    }
    return false;
  }

  // ---------------------------------------------------------------- the two phases as functions

  /** Broker calls that fail before reaching the book. */
  datatype Faults = Faults(openOrders: bool, cancels: set<OrderId>, places: set<Key>)

  datatype Closed = Closed(id: OrderId, key: Key, side: string, quantity: int)

  /** What the account's square-off reports; errors name the positions whose order failed. */
  datatype Tally = Tally(cancelled: nat, orders: seq<Closed>, errors: seq<Key>)

  function OpenMatching(os: seq<Order>, symbols: seq<string>): seq<OrderId> {
    if os == [] then []
    else
      var before := OpenMatching(os[..|os| - 1], symbols);
      var o := os[|os| - 1];
      if o.status == Open && Selected(o.params.symbol, symbols) then before + [o.id] else before
  }

  function CancelAll(b: Book, ids: seq<OrderId>, faults: set<OrderId>): (Book, nat) {
    if ids == [] then (b, 0)
    else
      var (before, n) := CancelAll(b, ids[..|ids| - 1], faults);
      var id := ids[|ids| - 1];
      if id in faults then (before, n)
      else
        var (after, outcome) := EndOrder(before, id, Cancel);
        (after, if outcome.Accepted? then n + 1 else n)
  }

  /** The market order that closes a position. */
  function Counter(k: Key, quantity: int, tag: string): Params {
    Params(k.exchange, k.symbol, if quantity < 0 then "BUY" else "SELL", k.product, "MARKET",
           Sizing.Abs(quantity), 0.0, tag)
  }

  function CounterOne(cfg: Config, b: Book, t: Tally, user: UserId, p: Position, symbols: seq<string>, tag: string,
      faults: set<Key>): (Book, Tally) {
    if p.quantity == 0 || !Selected(p.key.symbol, symbols) then (b, t)
    else if p.key in faults then (b, t.(errors := t.errors + [p.key]))
    else
      var (after, outcome) := Place(cfg, b, user, Counter(p.key, p.quantity, tag));
      match outcome
      case Failed(_) => (after, t.(errors := t.errors + [p.key]))
      case Accepted(id) =>
        var closed := Closed(id, p.key, Counter(p.key, p.quantity, tag).side, Sizing.Abs(p.quantity));
        (after, t.(orders := t.orders + [closed]))
  }

  function CounterAll(cfg: Config, b: Book, t: Tally, user: UserId, ps: seq<Position>, symbols: seq<string>,
      tag: string, faults: set<Key>): (Book, Tally) {
    if ps == [] then (b, t)
    else
      var (b', t') := CounterAll(cfg, b, t, user, ps[..|ps| - 1], symbols, tag, faults);
      CounterOne(cfg, b', t', user, ps[|ps| - 1], symbols, tag, faults)
  }

  function AfterCancels(b: Book, user: UserId, symbols: seq<string>, faults: Faults): (Book, nat) {
    if faults.openOrders then (b, 0) else CancelAll(b, OpenMatching(OrdersOf(b, user), symbols), faults.cancels)
  }

  function Flatten(cfg: Config, b: Book, user: UserId, symbols: seq<string>, tag: string, faults: Faults): (Book,
      Tally) {
    var (b1, n) := AfterCancels(b, user, symbols, faults);
    CounterAll(cfg, b1, Tally(n, [], []), user, PositionsOf(b1, user), symbols, tag, faults.places)
  }

  // ---------------------------------------------------------------- the service

  datatype Refusal = RoleUnknown | AccountUnreadable | AccountMissing | AccountDisabled | NoBroker | PositionsUnreadable

  datatype Result = Refused(why: Refusal) | Report(role: string, status: string, tally: Tally)

  /** Store and broker answers the account's square-off depends on; `None` is a failed read. */
  datatype Context = Context(role: Option<string>, enabled: Option<seq<bool>>, brokerFound: bool, positionsRead: bool)

  /** Why the square-off never reaches the broker's book, if it does not. */
  function Gate(c: Context): Option<Refusal> {
    if c.role == None then Some(RoleUnknown)
    else if c.role.value == "follower" && c.enabled == None then Some(AccountUnreadable)
    else if c.role.value == "follower" && c.enabled.value == [] then Some(AccountMissing)
    else if c.role.value == "follower" && !c.enabled.value[0] then Some(AccountDisabled)
    else if !c.brokerFound then Some(NoBroker)
    else None
  }

  /** Square-off goes ahead exactly for a known role and a broker, and a follower only if its account is
      there and enabled; a disabled follower is told so whatever its broker. */
  lemma GateOpensIff(c: Context)
    ensures var enabled := c.enabled.Some? && c.enabled.value != [] && c.enabled.value[0];
            && (Gate(c) == None <==> c.role.Some? && c.brokerFound && (c.role.value == "follower" ==> enabled))
            && (Gate(c) == Some(NoBroker) <==>
                c.role.Some? && !c.brokerFound && (c.role.value == "follower" ==> enabled))
            && (Gate(c) == Some(RoleUnknown) <==> c.role == None)
            && (Gate(c) == Some(AccountDisabled) <==>
                c.role == Some("follower") && c.enabled.Some? && c.enabled.value != [] && !c.enabled.value[0])
  {
  }

  /** The user's open orders whose symbol is selected. */
  method FindOpenOrders(os: seq<Order>, symbols: seq<string>) returns (open: seq<OrderId>)
    ensures open == OpenMatching(os, symbols)
  {
    open := [];
    for i := 0 to |os|
      invariant open == OpenMatching(os[..i], symbols)
    {
      assert os[..i + 1][..i] == os[..i];
      if os[i].status == Open {
        var matches := MatchSymbol(os[i].params.symbol, symbols);
        if matches { open := open + [os[i].id]; }
      }
    }
    assert os[..|os|] == os;
  }

  /** Cancel these one by one, counting the cancels that went through. */
  method CancelEach(engine: OrderEngine, open: seq<OrderId>, faults: set<OrderId>) returns (cancelled: nat)
    modifies engine
    ensures (engine.Contents(), cancelled) == CancelAll(old(engine.Contents()), open, faults)
  {
    ghost var b := engine.Contents();
    cancelled := 0;
    for i := 0 to |open|
      invariant (engine.Contents(), cancelled) == CancelAll(b, open[..i], faults)
    {
      assert open[..i + 1][..i] == open[..i];
      if open[i] !in faults {
        var outcome := engine.CancelOrder(open[i]);
        if outcome.Accepted? { cancelled := cancelled + 1; }
      }
    }
    assert open[..|open|] == open;
  }

  method CancelOpenOrders(engine: OrderEngine, user: UserId, symbols: seq<string>, faults: set<OrderId>)
    returns (cancelled: nat)
    modifies engine
    ensures var b := old(engine.Contents());
            (engine.Contents(), cancelled) == CancelAll(b, OpenMatching(OrdersOf(b, user), symbols), faults)
  {
    var open := FindOpenOrders(OrdersOf(engine.Contents(), user), symbols);
    cancelled := CancelEach(engine, open, faults);
  }

  method PlaceCounterOrders(engine: OrderEngine, user: UserId, ps: seq<Position>, symbols: seq<string>, tag: string,
      faults: set<Key>, start: Tally)
    returns (t: Tally)
    modifies engine
    ensures (engine.Contents(), t) ==
            CounterAll(engine.config, old(engine.Contents()), start, user, ps, symbols, tag, faults)
  {
    ghost var b := engine.Contents();
    t := start;
    for i := 0 to |ps|
      invariant (engine.Contents(), t) == CounterAll(engine.config, b, start, user, ps[..i], symbols, tag, faults)
    {
      assert ps[..i + 1][..i] == ps[..i];
      var p := ps[i];
      var matches := MatchSymbol(p.key.symbol, symbols);
      if p.quantity == 0 || !matches { continue; }
      if p.key in faults {
        t := t.(errors := t.errors + [p.key]);
        continue;
      }
      var side := if p.quantity < 0 then "BUY" else "SELL";
      var quantity := Sizing.Abs(p.quantity);
      var params := Params(p.key.exchange, p.key.symbol, side, p.key.product, "MARKET", quantity, 0.0, tag);
      var outcome := engine.PlaceOrder(user, params);
      if outcome.Failed? {
        t := t.(errors := t.errors + [p.key]);
        continue;
      }
      t := t.(orders := t.orders + [Closed(outcome.id, p.key, side, Sizing.Abs(p.quantity))]);
    }
    assert ps[..|ps|] == ps;
  }

  /** A refusal at the gate leaves the book alone; unreadable positions leave only the cancels. */
  method SquareOffAccount(engine: OrderEngine, user: UserId, c: Context, symbols: seq<string>, tag: string,
      faults: Faults)
    returns (r: Result)
    modifies engine
    ensures Gate(c).Some? ==> r == Refused(Gate(c).value) && engine.Contents() == old(engine.Contents())
    ensures Gate(c) == None && !c.positionsRead ==>
              && r == Refused(PositionsUnreadable)
              && engine.Contents() == AfterCancels(old(engine.Contents()), user, symbols, faults).0
    ensures Gate(c) == None && c.positionsRead ==>
              && r.Report? && r.role == c.role.value
              && (engine.Contents(), r.tally) ==
                 Flatten(engine.config, old(engine.Contents()), user, symbols, tag, faults)
              && r.status == (if r.tally.errors == [] then "completed" else "partial")
  {
    var refusal := Gate(c);
    if refusal.Some? { return Refused(refusal.value); }
    var cancelled := 0;
    if !faults.openOrders { cancelled := CancelOpenOrders(engine, user, symbols, faults.cancels); }
    if !c.positionsRead { return Refused(PositionsUnreadable); }
    var ps := GetPositions(engine.Contents(), user);
    var tally := PlaceCounterOrders(engine, user, ps, symbols, tag, faults.places, Tally(cancelled, [], []));
    r := Report(c.role.value, if tally.errors == [] then "completed" else "partial", tally);
  }
}
