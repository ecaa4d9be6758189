/** The order book under overlapping calls: validation, insertion, price read, status test and write
    are separate steps, as the source's critical sections are, interleaved in any order. */
module OrderOverlap {
  import opened Collections
  import opened OrderBook

  datatype CallId = CallId(n: nat)

  /** Where a call in flight is. */
  datatype Stage =
    | Validated(user: UserId, params: Params, inst: Listing)
    | Inserted(id: OrderId, inst: Listing)
    | Writing(id: OrderId, price: real)

  datatype State = State(book: Book, calls: map<CallId, Stage>)

  datatype Event =
    | Check(c: CallId, user: UserId, params: Params)
    | Enter(c: CallId)
    | ReadPrice(c: CallId)
    | Test(c: CallId, id: OrderId, price: real)
    | Write(c: CallId)
    | Reject(id: OrderId, reason: string)
    | Cancel(id: OrderId)
    | Reprice(listing: Listing, ltp: real)

  predicate Enabled(s: State, e: Event) {
    match e
    case Check(c, _, _) => c !in s.calls
    case Enter(c) => c in s.calls && s.calls[c].Validated? && s.calls[c].inst in s.book.instruments
    case ReadPrice(c) => c in s.calls && s.calls[c].Inserted? && s.calls[c].inst in s.book.instruments
    case Test(c, _, _) => c !in s.calls
    case Write(c) => c in s.calls && s.calls[c].Writing? && s.calls[c].id in s.book.orders
    case Reject(_, _) => true
    case Cancel(_) => true
    case Reprice(_, _) => true
  }

  /** One critical section. A placement is checked, entered, and in instant mode filled by a later
      write that does not look at the status; a fill tests the status and writes later. */
  function Apply(cfg: Config, s: State, e: Event): State
    requires Enabled(s, e)
  {
    match e
    case Check(c, user, p) =>
      if Validate(cfg, s.book.instruments, p).Some? then s
      else s.(calls := s.calls[c := Validated(user, p, ListingOf(p))])
    case Enter(c) =>
      var Validated(user, p, l) := s.calls[c];
      var o := Opened(OrderId(s.book.lastId + 1), user, p, s.book.instruments[l].token);
      State(Insert(s.book, o), if cfg.instant then s.calls[c := Inserted(o.id, l)] else s.calls - {c})
    case ReadPrice(c) => s.(calls := s.calls[c := Writing(s.calls[c].id, s.book.instruments[s.calls[c].inst].ltp)])
    case Test(c, id, price) =>
      if NotEndable(s.book, id).Some? then s else s.(calls := s.calls[c := Writing(id, price)])
    case Write(c) => State(Written(s.book, s.calls[c].id, s.calls[c].price), s.calls - {c})
    case Reject(id, reason) => s.(book := EndOrder(s.book, id, OrderBook.Reject(reason)).0)
    case Cancel(id) => s.(book := EndOrder(s.book, id, OrderBook.Cancel).0)
    case Reprice(l, ltp) => s.(book := OrderBook.Apply(cfg, s.book, UpdateLtp(l, ltp)))
  }

  /** The second critical section of a fill: whatever the order has become meanwhile. */
  function Written(b: Book, id: OrderId, price: real): Book
    requires id in b.orders
  {
    End(b, Filled(b.orders[id], price))
  }

  /** A fill whose two sections nothing comes between is the one-step fill. */
  lemma LoneFill(cfg: Config, b: Book, c: CallId, id: OrderId, price: real)
    ensures var tested := Apply(cfg, State(b, map[]), Test(c, id, price));
            if NotEndable(b, id).Some? then tested == State(b, map[])
            else Enabled(tested, Write(c)) && Apply(cfg, tested, Write(c)) ==
                 State(EndOrder(b, id, Fill(price)).0, map[])
  {
    assert map[c := Writing(id, price)] - {c} == map[];
  }

  /** A placement whose sections nothing comes between is the one-step placement. */
  lemma LonePlacement(cfg: Config, b: Book, c: CallId, user: UserId, p: Params)
    requires cfg.instant && Validate(cfg, b.instruments, p) == None
    ensures var checked := Apply(cfg, State(b, map[]), Check(c, user, p));
            Enabled(checked, Enter(c)) &&
            var entered := Apply(cfg, checked, Enter(c));
            Enabled(entered, ReadPrice(c)) &&
            var priced := Apply(cfg, entered, ReadPrice(c));
            Enabled(priced, Write(c)) && Apply(cfg, priced, Write(c)).book == Place(cfg, b, user, p).0
  {
  }

  // ---------------------------------------------------------------- what any overlap keeps

  /** Kept even by colliding writes: orders under their own ids, calls in flight on known orders. */
  ghost predicate Basic(s: State) {
    && (forall id :: id in s.book.orders ==> s.book.orders[id].id == id)
    && (forall c :: c in s.calls && !s.calls[c].Validated? ==> s.calls[c].id in s.book.orders)
  }

  lemma StepBasic(cfg: Config, s: State, e: Event)
    requires Basic(s) && Enabled(s, e)
    ensures Basic(Apply(cfg, s, e))
  {
  }

  /** Notifications are never taken back, and orders never leave the book. */
  lemma StepMonotone(cfg: Config, s: State, e: Event, id: OrderId)
    requires Enabled(s, e)
    ensures Notices(Apply(cfg, s, e).book.notified, id) >= Notices(s.book.notified, id)
  {
    match e
    case Write(c) => NoticesGrow(s.book.notified, Filled(s.book.orders[s.calls[c].id], s.calls[c].price), id);
    case Reject(k, reason) => EndNotices(s.book, k, OrderBook.Reject(reason), id);
    case Cancel(k) => EndNotices(s.book, k, OrderBook.Cancel, id);
    case _ =>
  }

  lemma EndNotices(b: Book, k: OrderId, how: Ending, id: OrderId)
    ensures Notices(EndOrder(b, k, how).0.notified, id) >= Notices(b.notified, id)
  {
    if NotEndable(b, k) == None { NoticesGrow(b.notified, Ended(b.orders[k], how), id); }
  }

  // ---------------------------------------------------------------- writes that collide

  /** A write that finds its order already ended. */
  predicate Collides(s: State, e: Event)
    requires Enabled(s, e)
  {
    e.Write? && s.book.orders[s.calls[e.c].id].status != Open
  }

  /** What each step does to the book. */
  function BookAfter(cfg: Config, s: State, e: Event): Book
    requires Enabled(s, e)
  {
    match e
    case Enter(c) =>
      var token := s.book.instruments[s.calls[c].inst].token;
      Insert(s.book, Opened(OrderId(s.book.lastId + 1), s.calls[c].user, s.calls[c].params, token))
    case Write(c) => Written(s.book, s.calls[c].id, s.calls[c].price)
    case Reject(id, reason) => EndOrder(s.book, id, OrderBook.Reject(reason)).0
    case Cancel(id) => EndOrder(s.book, id, OrderBook.Cancel).0
    case Reprice(l, ltp) => OrderBook.Apply(cfg, s.book, UpdateLtp(l, ltp))
    case _ => s.book
  }

  lemma BookStep(cfg: Config, s: State, e: Event)
    requires Enabled(s, e)
    ensures Apply(cfg, s, e).book == BookAfter(cfg, s, e)
  {
  }

  lemma CleanStepKeepsInv(cfg: Config, s: State, e: Event)
    requires Inv(s.book) && Enabled(s, e) && !Collides(s, e)
    ensures Inv(Apply(cfg, s, e).book)
  {
    BookStep(cfg, s, e);
    CleanBook(cfg, s, e);
  }

  lemma EnterClean(cfg: Config, s: State, c: CallId)
    requires Inv(s.book) && Enabled(s, Enter(c))
    ensures Inv(BookAfter(cfg, s, Enter(c)))
  {
    var user, p := s.calls[c].user, s.calls[c].params;
    EnteredClean(s.book, user, p, s.book.instruments[s.calls[c].inst].token, BookAfter(cfg, s, Enter(c)));
  }

  lemma EnteredClean(b: Book, user: UserId, p: Params, token: int, b': Book)
    requires Inv(b) && b' == Insert(b, Opened(OrderId(b.lastId + 1), user, p, token))
    ensures Inv(b')
  {
    InsertKeepsInv(b, user, p, token);
  }

  lemma WriteClean(cfg: Config, s: State, c: CallId)
    requires Inv(s.book) && Enabled(s, Write(c)) && !Collides(s, Write(c))
    ensures Inv(BookAfter(cfg, s, Write(c)))
  {
    EndKeepsInv(s.book, s.calls[c].id, Fill(s.calls[c].price));
  }

  lemma CleanBook(cfg: Config, s: State, e: Event)
    requires Inv(s.book) && Enabled(s, e) && !Collides(s, e)
    ensures Inv(BookAfter(cfg, s, e))
  {
    match e
    case Enter(c) => EnterClean(cfg, s, c);
    case Write(c) => WriteClean(cfg, s, c);
    case Reject(id, reason) => EndOrderKeepsInv(s.book, id, OrderBook.Reject(reason));
    case Cancel(id) => EndOrderKeepsInv(s.book, id, OrderBook.Cancel);
    case Reprice(l, ltp) => ApplyKeepsInv(cfg, s.book, UpdateLtp(l, ltp));
    case _ =>
  }

  /** A collision notifies the same order a second time. */
  lemma CollisionNotifiesTwice(cfg: Config, s: State, e: Event)
    requires Inv(s.book) && Basic(s) && Enabled(s, e) && Collides(s, e)
    ensures Notices(Apply(cfg, s, e).book.notified, s.calls[e.c].id) == 2
  {
    var id := s.calls[e.c].id;
    assert OrderFits(s.book, id);
    NoticesGrow(s.book.notified, Filled(s.book.orders[id], s.calls[e.c].price), id);
  }

  lemma NotifiedOnce(b: Book, id: OrderId)
    requires Inv(b)
    ensures Notices(b.notified, id) <= 1
  {
    if id in b.orders { assert OrderFits(b, id); }
  }

  // ---------------------------------------------------------------- every run

  predicate IsRun(cfg: Config, run: seq<State>, events: seq<Event>) {
    && |run| == |events| + 1
    && (forall i :: 0 <= i < |events| ==> Enabled(run[i], events[i]) && run[i + 1] == Apply(cfg, run[i], events[i]))
  }

  /** No write so far found its order ended. */
  predicate Clean(cfg: Config, run: seq<State>, events: seq<Event>, k: nat)
    requires IsRun(cfg, run, events) && k < |run|
  {
    forall i :: 0 <= i < k ==> !Collides(run[i], events[i])
  }

  lemma {:induction false} RunKeeps(cfg: Config, run: seq<State>, events: seq<Event>, k: nat)
    requires IsRun(cfg, run, events) && k < |run| && Inv(run[0].book) && run[0].calls == map[]
    ensures Basic(run[k])
    ensures Clean(cfg, run, events, k) ==> Inv(run[k].book)
    ensures !Clean(cfg, run, events, k) ==> exists id :: Notices(run[k].book.notified, id) >= 2
  {
    if k == 0 {
      forall id | id in run[0].book.orders ensures run[0].book.orders[id].id == id {
        assert OrderFits(run[0].book, id);
      }
    } else {
      var i := k - 1;
      RunKeeps(cfg, run, events, i);
      var s, e := run[i], events[i];
      assert Enabled(s, e) && run[i + 1] == Apply(cfg, s, e);
      StepBasic(cfg, s, e);
      if !Clean(cfg, run, events, i) {
        var id :| Notices(s.book.notified, id) >= 2;
        StepMonotone(cfg, s, e, id);
        assert Notices(run[k].book.notified, id) >= 2;
      } else if Collides(s, e) {
        CollisionNotifiesTwice(cfg, s, e);
        assert Notices(run[k].book.notified, s.calls[e.c].id) >= 2;
      } else {
        CleanStepKeepsInv(cfg, s, e);
      }
    }
  }

  /** At every state of every run with any overlap of calls, the book's invariant holds if and only if
      every write so far, a fill's or an instant placement's, found its order still open. */
  lemma OverlapKeepsInvIff(cfg: Config, run: seq<State>, events: seq<Event>, k: nat)
    requires IsRun(cfg, run, events) && k < |run| && Inv(run[0].book) && run[0].calls == map[]
    ensures Inv(run[k].book) <==> Clean(cfg, run, events, k)
  {
    RunKeeps(cfg, run, events, k);
    var b := run[k].book;
    forall id: OrderId ensures Inv(b) ==> Notices(b.notified, id) <= 1 {
      if Inv(b) { NotifiedOnce(b, id); }
    }
  }

  // ---------------------------------------------------------------- calls that stay apart

  /** The order a call tests or ends in one step. */
  predicate Touches(e: Event, id: OrderId) {
    (e.Test? || e.Reject? || e.Cancel?) && e.id == id
  }

  /** Nobody tests, rejects or cancels an order that another call is about to write. */
  predicate Apart(s: State, e: Event) {
    forall c :: c in s.calls && !s.calls[c].Validated? ==> !Touches(e, s.calls[c].id)
  }

  /** Every write in flight is the only one on its order, which is open. */
  ghost predicate Exclusive(s: State) {
    && (forall c :: c in s.calls && !s.calls[c].Validated? ==>
          s.calls[c].id in s.book.orders && s.book.orders[s.calls[c].id].status == Open)
    && (forall c, d | c in s.calls && d in s.calls && !s.calls[c].Validated? && !s.calls[d].Validated? ::
          s.calls[c].id == s.calls[d].id ==> c == d)
  }

  lemma ApartStep(cfg: Config, s: State, e: Event)
    requires Basic(s) && OrderId(s.book.lastId + 1) !in s.book.orders
    requires Exclusive(s) && Enabled(s, e) && Apart(s, e)
    ensures !Collides(s, e) && Exclusive(Apply(cfg, s, e))
  {
    if e.Reject? { EndsOnly(s.book, e.id, OrderBook.Reject(e.reason)); }
    if e.Cancel? { EndsOnly(s.book, e.id, OrderBook.Cancel); }
  }

  lemma EndsOnly(b: Book, id: OrderId, how: Ending)
    requires forall k :: k in b.orders ==> b.orders[k].id == k
    ensures var b' := EndOrder(b, id, how).0;
            b'.orders.Keys == b.orders.Keys && forall k :: k in b.orders && k != id ==> b'.orders[k] == b.orders[k]
  {
  }

  lemma NextIsNew(b: Book)
    requires Inv(b)
    ensures OrderId(b.lastId + 1) !in b.orders
  {
    var id := OrderId(b.lastId + 1);
    assert id in b.orders ==> OrderFits(b, id);
  }

  /** Overlap on different orders is harmless: calls that stay apart order by order keep everything. */
  lemma {:induction false} ApartRunsKeepInv(cfg: Config, run: seq<State>, events: seq<Event>, k: nat)
    requires IsRun(cfg, run, events) && k < |run| && Inv(run[0].book) && run[0].calls == map[]
    requires forall i :: 0 <= i < k ==> Apart(run[i], events[i])
    ensures Inv(run[k].book) && Exclusive(run[k])
  {
    if k > 0 {
      var i := k - 1;
      ApartRunsKeepInv(cfg, run, events, i);
      assert Enabled(run[i], events[i]) && run[i + 1] == Apply(cfg, run[i], events[i]);
      RunKeeps(cfg, run, events, i);
      NextIsNew(run[i].book);
      ApartStep(cfg, run[i], events[i]);
      CleanStepKeepsInv(cfg, run[i], events[i]);
    }
  }
}
