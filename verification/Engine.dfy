/** The engine and the worker pool as they run: mutable maps, loops and one order at a time. */
module Engine {
  import opened Collections
  import opened Sizing
  import opened FanOut

  /** A store read, or the error that came instead. */
  datatype Fetch<T> = Got(value: T) | Fault

  // ---------------------------------------------------------------- worker pool

  class WorkerPool {
    var workers: map<AccountId, Channel>

    constructor ()
      ensures workers == map[]
    {
      workers := map[];
    }

    /** A fresh empty queue; jobs waiting in a replaced one are gone. */
    method Register(follower: AccountId, capacity: nat)
      modifies this
      ensures workers == Registered(old(workers), follower, capacity)
      ensures HasRoom(workers, follower) <==> capacity > 0
    {
      workers := workers[follower := Channel(capacity, [])];
    }

    method Unregister(follower: AccountId)
      modifies this
      ensures workers == Unregistered(old(workers), follower)
      ensures !HasRoom(workers, follower)
    {
      workers := workers - {follower};
    }

    /** Hand a job over without waiting: refused when there is no worker or no room. */
    method Dispatch(follower: AccountId, job: Job) returns (sent: bool)
      modifies this
      ensures sent == HasRoom(old(workers), follower)
      ensures workers == if sent then Send(old(workers), follower, job) else old(workers)
    {
      if follower !in workers {
        return false;
      }
      var ch := workers[follower];
      if |ch.jobs| >= ch.capacity {
        return false;
      }
      workers := workers[follower := ch.(jobs := ch.jobs + [job])];
      sent := true;
    }
  }

  // ---------------------------------------------------------------- one fill, specified

  predicate SquareOffTag(tag: string) {
    |tag| >= 5 && tag[..5] == "sqoff"
  }

  /** The dispatch-state write, if it succeeds. */
  function Mark(w: World, fill: Fill, state: DispatchState, markOk: bool): World {
    if markOk then w.(dispatch := w.dispatch[fill.id := state]) else w
  }

  function MarkKnown(w: World, fill: Fill, state: DispatchState, markOk: bool): World {
    if fill.id > 0 then Mark(w, fill, state, markOk) else w
  }

  /** The gates in order, then the fan-out. The second component is false when an error is returned: a
      failed read or insert, or a failed final write of the dispatch state, which undoes nothing. */
  function HandleFill(w: World, killed: bool, fill: Fill, active: Fetch<bool>, links: Fetch<seq<Link>>,
                      looked: Fetch<int>, insertOk: bool, faults: set<Tag>, markOk: bool): (World, bool)
  {
    if killed then (MarkKnown(w, fill, Dispatched, markOk), true)
    else if fill.status != "" && fill.status != COMPLETE then (MarkKnown(w, fill, Dead, markOk), true)
    else if SquareOffTag(fill.tag) then (MarkKnown(w, fill, Dispatched, markOk), true)
    else if active.Fault? then (w, false)
    else if !active.value then (w, true)
    else if links.Fault? then (w, false)
    else if links.value == [] then (Mark(w, fill, Dispatched, markOk), markOk)
    else if HasScaled(links.value) && looked.Fault? then (w, false)
    else if !insertOk then (w, false)
    else
      var lot := if HasScaled(links.value) then looked.value else 0;
      (Mark(FanOutTo(w, fill, links.value, lot, faults), fill, Dispatched, markOk), markOk)
  }

  /** No order row or job comes from a fill that is gated off, or when any read or the insert fails;
      a failed lot lookup for one scaled link therefore stops every follower. */
  lemma GatedFillsPlaceNothing(w: World, killed: bool, fill: Fill, active: Fetch<bool>, links: Fetch<seq<Link>>,
                               looked: Fetch<int>, insertOk: bool, faults: set<Tag>, markOk: bool)
    requires killed || (fill.status != "" && fill.status != COMPLETE) || SquareOffTag(fill.tag)
          || active != Got(true) || links.Fault? || !insertOk || (HasScaled(links.value) && looked.Fault?)
    ensures var after := HandleFill(w, killed, fill, active, links, looked, insertOk, faults, markOk).0;
            after.orders == w.orders && after.pool == w.pool
  {
  }

  /** The fill is let through: the kill switch is off, the fill is complete and not a square-off's, its
      master is active and has links, the lot size is there if a link needs it, and the insert works. */
  predicate LetThrough(killed: bool, fill: Fill, active: Fetch<bool>, links: Fetch<seq<Link>>, looked: Fetch<int>,
                       insertOk: bool) {
    && !killed && (fill.status == "" || fill.status == "COMPLETE") && !("sqoff" <= fill.tag)
    && active == Got(true) && links.Got? && |links.value| > 0
    && ((exists i :: 0 <= i < |links.value| && links.value[i].ratio.unscaled != Pow10(links.value[i].ratio.scale)) ==>
          looked.Got?)
    && insertOk
  }

  /** Stopped before the master is even looked up, with the state such a fill is marked with. */
  function StoppedAs(killed: bool, fill: Fill): Option<DispatchState> {
    if killed then Some(Dispatched)
    else if fill.status != "" && fill.status != "COMPLETE" then Some(Dead)
    else if "sqoff" <= fill.tag then Some(Dispatched)
    else None
  }

  /** What becomes of a fill. Rows and queues are the fan-out's if it is let through and untouched if not;
      and when an error is returned. */
  lemma FillOutcome(w: World, killed: bool, fill: Fill, active: Fetch<bool>, links: Fetch<seq<Link>>,
                    looked: Fetch<int>, insertOk: bool, faults: set<Tag>, markOk: bool)
    ensures var (after, ok) := HandleFill(w, killed, fill, active, links, looked, insertOk, faults, markOk);
            var through := LetThrough(killed, fill, active, links, looked, insertOk);
            var nobody := active == Got(true) && links == Got([]);
            && (!through ==> after.orders == w.orders && after.pool == w.pool && after.nextId == w.nextId)
            && (through ==>
                  var lot := if HasScaled(links.value) then looked.value else 0;
                  var fanned := FanOutTo(w, fill, links.value, lot, faults);
                  after.orders == fanned.orders && after.pool == fanned.pool && after.nextId == fanned.nextId)
            && (!ok <==> StoppedAs(killed, fill).None? && active != Got(false) && (through || nobody ==> !markOk))
  {
    assert SquareOffTag(fill.tag) <==> "sqoff" <= fill.tag;
  }

  /** The state a fill is marked with, if that write succeeds: dispatched once let through or with nobody to
      copy to, and a stopped one with a serial number as it was stopped; nothing else is marked. */
  lemma FillMarked(w: World, killed: bool, fill: Fill, active: Fetch<bool>, links: Fetch<seq<Link>>,
                   looked: Fetch<int>, insertOk: bool, faults: set<Tag>, markOk: bool)
    ensures var after := HandleFill(w, killed, fill, active, links, looked, insertOk, faults, markOk).0;
            var stopped := StoppedAs(killed, fill);
            var through := LetThrough(killed, fill, active, links, looked, insertOk);
            var nobody := stopped.None? && active == Got(true) && links == Got([]);
            after.dispatch ==
            (if markOk && (through || nobody) then w.dispatch[fill.id := Dispatched]
             else if markOk && stopped.Some? && fill.id > 0 then w.dispatch[fill.id := stopped.value]
             else w.dispatch)
  {
    assert SquareOffTag(fill.tag) <==> "sqoff" <= fill.tag;
    if LetThrough(killed, fill, active, links, looked, insertOk) {
      FanOutKeepsMarks(w, fill, links.value, if HasScaled(links.value) then looked.value else 0, faults);
    }
  }

  lemma FanOutKeepsMarks(w: World, fill: Fill, links: seq<Link>, lot: int, faults: set<Tag>)
    ensures FanOutTo(w, fill, links, lot, faults).dispatch == w.dispatch
  {
    var cands := SizeLinks(fill, links, lot);
    InsertKeepsMarks(w, fill, cands, lot);
    var after := InsertBatch(w, fill, cands, lot);
    DispatchKeepsMarks(after, fill, Inserted(w, after), cands, faults);
  }

  lemma {:induction false} InsertKeepsMarks(w: World, fill: Fill, cands: seq<Candidate>, lot: int)
    ensures InsertBatch(w, fill, cands, lot).dispatch == w.dispatch
  {
    if cands != [] { InsertKeepsMarks(w, fill, cands[..|cands| - 1], lot); }
  }

  lemma {:induction false} DispatchKeepsMarks(w: World, fill: Fill, inserted: map<Tag, int>, cands: seq<Candidate>,
                                              faults: set<Tag>)
    ensures DispatchAll(w, fill, inserted, cands, faults).dispatch == w.dispatch
  {
    if cands != [] { DispatchKeepsMarks(w, fill, inserted, cands[..|cands| - 1], faults); }
  }

  // ---------------------------------------------------------------- one fill, run

  class FanOutEngine {
    const pool: WorkerPool
    var killSwitch: bool
    var orders: map<Tag, OrderRow>
    var nextId: int
    var dispatch: map<int, DispatchState>

    constructor (pool: WorkerPool)
      ensures this.pool == pool && !killSwitch && orders == map[] && nextId == 1 && dispatch == map[]
    {
      this.pool := pool;
      killSwitch, orders, nextId, dispatch := false, map[], 1, map[];
    }

    ghost function State(): World
      reads this, pool
    {
      World(orders, nextId, pool.workers, dispatch)
    }

    method SetKillSwitch(engaged: bool)
      modifies this`killSwitch
      ensures killSwitch == engaged
    {
      killSwitch := engaged;
    }

    /** Whether any link needs the lot size. */
    method AnyScaled(links: seq<Link>) returns (scaled: bool)
      ensures scaled == HasScaled(links)
    {
      for i := 0 to |links|
        invariant forall k :: 0 <= k < i ==> IsOne(links[k].ratio)
      {
        if !IsOne(links[i].ratio) {
          return true;
        }
      }
      scaled := false;
    }

    /** Size every link in memory before anything is written. */
    method SizeAll(fill: Fill, links: seq<Link>, lot: int) returns (cands: seq<Candidate>)
      ensures cands == SizeLinks(fill, links, lot)
    {
      cands := [];
      for i := 0 to |links|
        invariant |cands| == i
        invariant forall k :: 0 <= k < i ==> cands[k] == SizeLink(fill, links[k], lot)
      {
        var link := links[i];
        var sized: Sized;
        if link.status == "error" || link.authStatus == "error" {
          sized := Sized(0, ReasonFollowerInError);
        } else if link.status == "pending" || link.authStatus == "pending" {
          sized := Sized(0, ReasonFollowerPending);
        } else if IsOne(link.ratio) {
          if link.maxQty > 0 && fill.qty > link.maxQty {
            sized := Sized(link.maxQty, ReasonCapped);
          } else {
            sized := Sized(fill.qty, ReasonOK);
          }
        } else {
          sized := SizeOrder(fill.qty, link.ratio, lot, link.maxQty);
        }
        cands := cands + [Candidate(link.follower, CopyTag(fill.id, link.follower), sized.qty, sized.reason)];
      }
    }

    /** The store's batch insert: atomic, reporting only the rows it added. */
    method InsertFollowerOrdersBatch(fill: Fill, cands: seq<Candidate>, lot: int) returns (inserted: map<Tag, int>)
      modifies this`orders, this`nextId
      ensures State() == InsertBatch(old(State()), fill, cands, lot)
      ensures inserted == Inserted(old(State()), State())
    {
      var before := orders;
      for i := 0 to |cands|
        invariant State() == InsertBatch(old(State()), fill, cands[..i], lot)
      {
        assert cands[..i + 1][..i] == cands[..i];
        var c := cands[i];
        if c.tag !in orders {
          orders := orders[c.tag := NewRow(fill, c, lot, nextId)];
        }
        nextId := nextId + 1;
      }
      assert cands[..|cands|] == cands;
      inserted := map t | t in orders && t !in before :: orders[t].id;
    }

    /** A failed write is only logged. */
    method UpdateFollowerOrderFailed(t: Tag, status: string, faults: set<Tag>)
      modifies this`orders
      ensures orders == Settle(old(orders), t, status, faults)
    {
      if t in orders && t !in faults {
        orders := orders[t := orders[t].(terminal := Some(status))];
      }
    }

    /** Hand each new order to its worker, or settle its row at once. */
    method DispatchLoop(fill: Fill, inserted: map<Tag, int>, cands: seq<Candidate>, faults: set<Tag>)
      modifies this`orders, pool
      ensures State() == DispatchAll(old(State()), fill, inserted, cands, faults)
    {
      for i := 0 to |cands|
        invariant State() == DispatchAll(old(State()), fill, inserted, cands[..i], faults)
      {
        assert cands[..i + 1][..i] == cands[..i];
        var c := cands[i];
        if c.tag in inserted {
          if c.qty == 0 {
            UpdateFollowerOrderFailed(c.tag, SKIPPED, faults);
          } else {
            var sent := pool.Dispatch(c.follower, JobFor(fill, c, inserted[c.tag]));
            if !sent {
              UpdateFollowerOrderFailed(c.tag, DEAD_LETTERED, faults);
            }
          }
        }
      }
      assert cands[..|cands|] == cands;
    }

    method SetMasterFillDispatchState(fill: Fill, state: DispatchState, markOk: bool) returns (ok: bool)
      modifies this`dispatch
      ensures ok == markOk && State() == Mark(old(State()), fill, state, markOk)
    {
      if markOk { dispatch := dispatch[fill.id := state]; }
      ok := markOk;
    }

    method HandleMasterFill(fill: Fill, active: Fetch<bool>, links: Fetch<seq<Link>>, looked: Fetch<int>,
                            insertOk: bool, faults: set<Tag>, markOk: bool)
      returns (ok: bool)
      modifies this, pool
      ensures (State(), ok) ==
              HandleFill(old(State()), old(killSwitch), fill, active, links, looked, insertOk, faults, markOk)
      ensures killSwitch == old(killSwitch)
    {
      if killSwitch {
        if fill.id > 0 { var _ := SetMasterFillDispatchState(fill, Dispatched, markOk); }
        return true;
      }
      if fill.status != "" && fill.status != COMPLETE {
        if fill.id > 0 { var _ := SetMasterFillDispatchState(fill, Dead, markOk); }
        return true;
      }
      if SquareOffTag(fill.tag) {
        if fill.id > 0 { var _ := SetMasterFillDispatchState(fill, Dispatched, markOk); }
        return true;
      }
      if active.Fault? { return false; }
      if !active.value { return true; }
      if links.Fault? { return false; }
      if links.value == [] {
        ok := SetMasterFillDispatchState(fill, Dispatched, markOk);
        return;
      }
      var lot := 0;
      var scaled := AnyScaled(links.value);
      if scaled {
        if looked.Fault? { return false; }
        lot := looked.value;
      }
      var cands := SizeAll(fill, links.value, lot);
      if !insertOk { return false; }
      var inserted := InsertFollowerOrdersBatch(fill, cands, lot);
      DispatchLoop(fill, inserted, cands, faults);
      ok := SetMasterFillDispatchState(fill, Dispatched, markOk);
    }
  }

  // ---------------------------------------------------------------- placing one job

  /** The broker's answer to one call, and what happens in the pause after a timeout. */
  datatype Reply =
    | Accepted(brokerId: string)
    | TimedOut(deadline: bool, interrupted: bool)
    | Refused(cancelled: bool)
    | Panicked

  datatype Call = Call(tag: Tag, qty: int, reply: Reply)

  datatype PlaceEnd = Placed(brokerId: string) | RejectedEnd | DeadLetteredEnd

  function MaxAttempts(maxRetries: int): nat {
    if maxRetries < 1 then 1 else maxRetries
  }

  /** Status recorded when the attempt that got this reply is the last one. */
  function EndOf(reply: Reply): PlaceEnd {
    match reply
    case Accepted(id) => Placed(id)
    case TimedOut(deadline, interrupted) => if deadline || interrupted then DeadLetteredEnd else RejectedEnd
    case Refused(cancelled) => if cancelled then DeadLetteredEnd else RejectedEnd
    case Panicked => RejectedEnd
  }

  /** Another attempt follows only an uninterrupted timeout before the last attempt. */
  predicate Retries(reply: Reply, attempt: nat, max: nat) {
    reply.TimedOut? && attempt < max && !reply.interrupted
  }

  /** How many calls are made, from this attempt on. */
  function LastAttempt(replies: seq<Reply>, attempt: nat, max: nat): (last: nat)
    requires 1 <= attempt <= max <= |replies|
    ensures attempt <= last <= max
    ensures !Retries(replies[last - 1], last, max)
    ensures forall i :: attempt - 1 <= i < last - 1 ==> Retries(replies[i], i + 1, max)
    decreases max - attempt
  {
    if Retries(replies[attempt - 1], attempt, max) then LastAttempt(replies, attempt + 1, max) else attempt
  }

  /** The pause before retry `i`: doubled each time. */
  function Pause(first: int, i: nat): int {
    if i == 0 then first else 2 * Pause(first, i - 1)
  }

  /** A timeout on the last attempt records the timeout itself; there is no pause to interrupt. */
  function FinalEnd(reply: Reply, attempt: nat, max: nat): PlaceEnd {
    if reply.TimedOut? && attempt == max then EndOf(reply.(interrupted := false)) else EndOf(reply)
  }

  /** Place one job: retry timeouts with doubling pauses, stop at anything else. */
  method Place(job: Job, replies: seq<Reply>, maxRetries: int, initialBackoff: int)
    returns (calls: seq<Call>, end: PlaceEnd, pauses: seq<int>)
    requires |replies| >= MaxAttempts(maxRetries)
    ensures |calls| == LastAttempt(replies, 1, MaxAttempts(maxRetries)) == |pauses| + 1
    ensures forall i :: 0 <= i < |calls| ==> calls[i] == Call(job.tag, job.qty, replies[i])
    ensures end == FinalEnd(replies[|calls| - 1], |calls|, MaxAttempts(maxRetries))
    ensures forall i :: 0 <= i < |pauses| ==>
              pauses[i] == Pause(if initialBackoff <= 0 then 10_000_000 else initialBackoff, i)
  {
    var max := if maxRetries < 1 then 1 else maxRetries;
    var first := if initialBackoff <= 0 then 10_000_000 else initialBackoff;
    var backoff := first;
    calls, pauses := [], [];
    var attempt := 1;
    while true
      invariant 1 <= attempt <= max
      invariant |calls| == attempt - 1 == |pauses|
      invariant LastAttempt(replies, 1, max) == LastAttempt(replies, attempt, max)
      invariant backoff == Pause(first, attempt - 1)
      invariant forall i :: 0 <= i < |calls| ==> calls[i] == Call(job.tag, job.qty, replies[i])
      invariant forall i :: 0 <= i < |pauses| ==> pauses[i] == Pause(first, i)
      decreases max - attempt
    {
      var reply := replies[attempt - 1];
      calls := calls + [Call(job.tag, job.qty, reply)];
      match reply {
        case Accepted(id) =>
          return calls, Placed(id), pauses;
        case Panicked =>
          return calls, RejectedEnd, pauses;
        case Refused(cancelled) =>
          return calls, if cancelled then DeadLetteredEnd else RejectedEnd, pauses;
        case TimedOut(deadline, interrupted) =>
          if attempt == max {
            return calls, if deadline then DeadLetteredEnd else RejectedEnd, pauses;
          }
          if interrupted {
            return calls, DeadLetteredEnd, pauses;
          }
          pauses := pauses + [backoff];
          backoff := backoff * 2;
          attempt := attempt + 1;
      }
    }
  }

  /** When the last call's reply records each end, on the reply and the attempt. */
  lemma FinalEndIff(reply: Reply, attempt: nat, max: nat)
    requires attempt <= max
    ensures var end := FinalEnd(reply, attempt, max);
            && (forall id :: end == Placed(id) <==> reply == Accepted(id))
            && (end == DeadLetteredEnd <==>
                || (reply.Refused? && reply.cancelled)
                || (reply.TimedOut? && (reply.deadline || (reply.interrupted && attempt < max))))
            && (end == RejectedEnd <==>
                || reply.Panicked?
                || (reply.Refused? && !reply.cancelled)
                || (reply.TimedOut? && !reply.deadline && !(reply.interrupted && attempt < max)))
  {
  }

  /** How many calls are made: every one but the last got a timeout whose pause was not interrupted, and
      the last is the last allowed or got something else. */
  lemma CallsMade(replies: seq<Reply>, maxRetries: int)
    requires |replies| >= MaxAttempts(maxRetries)
    ensures var last := LastAttempt(replies, 1, MaxAttempts(maxRetries));
            && 1 <= last && (last <= maxRetries || last == 1)
            && (forall i :: 0 <= i < last - 1 ==> replies[i].TimedOut? && !replies[i].interrupted)
            && (last >= maxRetries || !(replies[last - 1].TimedOut? && !replies[last - 1].interrupted))
  {
    var last := LastAttempt(replies, 1, MaxAttempts(maxRetries));
    assert forall i :: 0 <= i < last - 1 ==> Retries(replies[i], i + 1, MaxAttempts(maxRetries));
  }

  lemma {:induction false} PausesDouble(first: int, i: nat)
    ensures Pause(first, 0) == first && Pause(first, i + 1) == Pause(first, i) + Pause(first, i)
  {
  }
}
