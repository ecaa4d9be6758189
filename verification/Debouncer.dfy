/** The debounced portfolio syncer: callers and runner goroutines sharing `active` and `pending`
    under one lock. Each step is one critical section or one call of the inner syncer. */
module Debouncer {
  import opened Collections

  type AccountId = string

  /** Where a runner is: about to call the inner syncer, inside it, past it and about to check for
      pending work, or unwinding a panic. */
  datatype Point = Starting | Syncing | Checking | Recovering

  datatype RunnerId = RunnerId(n: nat)
  datatype Runner = Runner(account: AccountId, at: Point)

  /** What happened, in order: requests, inner syncs starting, and cleanups after a panic. */
  datatype Mark = Requested(account: AccountId) | SyncStarted(account: AccountId) | Panicked(account: AccountId)

  datatype State = State(active: set<AccountId>, pending: set<AccountId>,
    runners: map<RunnerId, Runner>, trace: seq<Mark>)

  datatype Event =
    | Request(account: AccountId, newRunner: RunnerId)
    | Start(r: RunnerId)
    | Return(r: RunnerId)
    | Panic(r: RunnerId)
    | Check(r: RunnerId)
    | Cleanup(r: RunnerId)

  function Init(): State {
    State({}, {}, map[], [])
  }

  predicate At(s: State, r: RunnerId, p: Point) {
    r in s.runners && s.runners[r].at == p
  }

  predicate Enabled(s: State, e: Event) {
    match e
    case Request(_, r) => r !in s.runners
    case Start(r) => At(s, r, Starting)
    case Return(r) => At(s, r, Syncing)
    case Panic(r) => At(s, r, Syncing)
    case Check(r) => At(s, r, Checking)
    case Cleanup(r) => At(s, r, Recovering)
  }

  function Move(s: State, r: RunnerId, p: Point): map<RunnerId, Runner>
    requires r in s.runners
  {
    s.runners[r := s.runners[r].(at := p)]
  }

  datatype Flags = Flags(active: set<AccountId>, pending: set<AccountId>)

  /** A request marks the account pending if a runner is active, and otherwise active. */
  function AfterRequest(f: Flags, a: AccountId): Flags {
    if a in f.active then f.(pending := f.pending + {a}) else f.(active := f.active + {a})
  }

  /** After a sync the runner takes the pending mark, or gives up being active. */
  function AfterCheck(f: Flags, a: AccountId): Flags {
    if a in f.pending then f.(pending := f.pending - {a}) else f.(active := f.active - {a})
  }

  function Apply(s: State, e: Event): State
    requires Enabled(s, e)
  {
    var f := Flags(s.active, s.pending);
    match e
    case Request(a, r) =>
      var f' := AfterRequest(f, a);
      var runners := if a in s.active then s.runners else s.runners[r := Runner(a, Starting)];
      State(f'.active, f'.pending, runners, s.trace + [Requested(a)])
    case Start(r) => s.(runners := Move(s, r, Syncing), trace := s.trace + [SyncStarted(s.runners[r].account)])
    case Return(r) => s.(runners := Move(s, r, Checking))
    case Panic(r) => s.(runners := Move(s, r, Recovering))
    case Check(r) =>
      var a := s.runners[r].account;
      var f' := AfterCheck(f, a);
      State(f'.active, f'.pending, if a in s.pending then Move(s, r, Starting) else s.runners - {r}, s.trace)
    case Cleanup(r) =>
      var a := s.runners[r].account;
      State(s.active - {a}, s.pending - {a}, s.runners - {r}, s.trace + [Panicked(a)])
  }

  // ---------------------------------------------------------------- the shared maps, as they run

  class DebouncedSyncer {
    var active: set<AccountId>
    var pending: set<AccountId>

    constructor ()
      ensures active == {} && pending == {}
    {
      active, pending := {}, {};
    }

    /** The caller's critical section; `spawn` asks for a new runner. */
    method SyncAccountPortfolio(account: AccountId) returns (spawn: bool)
      modifies this
      ensures spawn == (account !in old(active))
      ensures Flags(active, pending) == AfterRequest(old(Flags(active, pending)), account)
    {
      if account in active {
        pending := pending + {account};
        return false;
      }
      active := active + {account};
      spawn := true;
    }

    /** The runner's critical section after a sync; `again` keeps it running. */
    method CheckPending(account: AccountId) returns (again: bool)
      modifies this
      ensures again == (account in old(pending))
      ensures Flags(active, pending) == AfterCheck(old(Flags(active, pending)), account)
    {
      if account !in pending {
        active := active - {account};
        return false;
      }
      pending := pending - {account};
      again := true;
    }
  }

  // ---------------------------------------------------------------- invariants

  /** A sync is owed by the account's runner: it is about to start one, or will find the mark. */
  ghost predicate Owed(s: State, a: AccountId) {
    exists r :: OwedBy(s, a, r)
  }

  predicate OwedBy(s: State, a: AccountId, r: RunnerId) {
    && r in s.runners && s.runners[r].account == a && s.runners[r].at != Recovering
    && (s.runners[r].at == Starting || a in s.pending)
  }

  /** The account's runner panicked and has not cleaned up yet. */
  ghost predicate Unwinding(s: State, a: AccountId) {
    exists r :: At(s, r, Recovering) && s.runners[r].account == a
  }

  /** The request at `i` is followed by an inner sync, or by a panic of its account. */
  predicate Served(trace: seq<Mark>, i: nat, a: AccountId) {
    exists j :: i < j < |trace| && (trace[j] == SyncStarted(a) || trace[j] == Panicked(a))
  }

  predicate OneRunner(s: State) {
    && (forall r :: r in s.runners ==> s.runners[r].account in s.active)
    && (forall r, q :: r in s.runners && q in s.runners && s.runners[r].account == s.runners[q].account ==> r == q)
  }

  predicate PendingImpliesActive(s: State) {
    s.pending <= s.active
  }

  predicate ActiveHasRunner(s: State) {
    forall a :: a in s.active ==> exists r :: r in s.runners && s.runners[r].account == a
  }

  ghost predicate Settled(s: State, i: nat, a: AccountId) {
    Served(s.trace, i, a) || Owed(s, a) || Unwinding(s, a)
  }

  ghost predicate NoneLost(s: State) {
    forall i :: 0 <= i < |s.trace| && s.trace[i].Requested? ==> 
      Settled(s, i, s.trace[i].account)
  }

  /** Nothing happened to the account since this panic's cleanup. */
  predicate QuietSince(trace: seq<Mark>, j: nat, a: AccountId) {
    forall k :: j < k < |trace| ==> trace[k] != Requested(a)
  }

  /** The panic at `j` is the last word on its account. */
  predicate LastWord(trace: seq<Mark>, j: nat, a: AccountId) {
    j < |trace| && trace[j] == Panicked(a) && QuietSince(trace, j, a)
  }

  /** An account not asked for since a panic has no runner. */
  ghost predicate PanickedIdle(s: State) {
    forall j: nat, a :: LastWord(s.trace, j, a) ==> a !in s.active
  }

  ghost predicate Inv(s: State) {
    OneRunner(s) && PendingImpliesActive(s) && ActiveHasRunner(s) && NoneLost(s) && PanickedIdle(s)
  }

  lemma InitInv()
    ensures Inv(Init())
  {
  }

  lemma ServedGrows(trace: seq<Mark>, m: Mark, i: nat, a: AccountId)
    requires i < |trace| && Served(trace, i, a)
    ensures Served(trace + [m], i, a)
  {
    var j :| i < j < |trace| && (trace[j] == SyncStarted(a) || trace[j] == Panicked(a));
    assert (trace + [m])[j] == trace[j];
  }

  lemma StructureKept(s: State, e: Event)
    requires Inv(s) && Enabled(s, e)
    ensures OneRunner(Apply(s, e)) && PendingImpliesActive(Apply(s, e))
  {
  }

  lemma RunnersKept(s: State, e: Event)
    requires Inv(s) && Enabled(s, e)
    ensures ActiveHasRunner(Apply(s, e))
  {
    var s' := Apply(s, e);
    forall a | a in s'.active
      ensures exists r :: r in s'.runners && s'.runners[r].account == a
    {
      if a in s.active {
        var r :| r in s.runners && s.runners[r].account == a;
        assert r in s'.runners;
      } else {
        assert e.Request? && s'.runners[e.newRunner].account == a;
      }
    }
  }

  /** What is owed stays owed until it is paid or the runner panics. */
  lemma OwedOrPaid(s: State, e: Event, a: AccountId, r: RunnerId)
    requires Inv(s) && Enabled(s, e) && OwedBy(s, a, r)
    ensures var s' := Apply(s, e);
            OwedBy(s', a, r) || s'.trace == s.trace + [SyncStarted(a)] || Unwinding(s', a)
  {
    var s' := Apply(s, e);
    if e == Panic(r) { assert At(s', r, Recovering) && s'.runners[r].account == a; }
  }

  /** A runner that is unwinding stays so until its cleanup. */
  lemma UnwindingOrCleaned(s: State, e: Event, a: AccountId)
    requires Inv(s) && Enabled(s, e) && Unwinding(s, a)
    ensures var s' := Apply(s, e);
            Unwinding(s', a) || s'.trace == s.trace + [Panicked(a)]
  {
    var s' := Apply(s, e);
    var r :| At(s, r, Recovering) && s.runners[r].account == a;
    if e != Cleanup(r) { assert At(s', r, Recovering) && s'.runners[r].account == a; }
  }

  lemma RequestSettled(s: State, a: AccountId, r: RunnerId)
    requires Inv(s) && Enabled(s, Request(a, r))
    ensures var s' := Apply(s, Request(a, r)); Owed(s', a) || Unwinding(s', a)
  {
    var s' := Apply(s, Request(a, r));
    if a in s.active {
      var q :| q in s.runners && s.runners[q].account == a;
      assert OwedBy(s', a, q) || At(s', q, Recovering);
    } else {
      assert OwedBy(s', a, r);
    }
  }

  lemma SettledKept(s: State, e: Event, i: nat, a: AccountId)
    requires Inv(s) && Enabled(s, e) && i < |s.trace| && Settled(s, i, a)
    ensures Settled(Apply(s, e), i, a)
  {
    var s' := Apply(s, e);
    if Served(s.trace, i, a) {
      if s'.trace != s.trace { ServedGrows(s.trace, s'.trace[|s.trace|], i, a); }
    } else if Owed(s, a) {
      var r :| OwedBy(s, a, r);
      OwedOrPaid(s, e, a, r);
      assert s'.trace == s.trace + [SyncStarted(a)] ==> s'.trace[|s.trace|] == SyncStarted(a);
    } else {
      UnwindingOrCleaned(s, e, a);
      assert s'.trace == s.trace + [Panicked(a)] ==> s'.trace[|s.trace|] == Panicked(a);
    }
  }

  lemma NoneLostKept(s: State, e: Event)
    requires Inv(s) && Enabled(s, e)
    ensures NoneLost(Apply(s, e))
  {
    var s' := Apply(s, e);
    forall i | 0 <= i < |s'.trace| && s'.trace[i].Requested?
      ensures Settled(s', i, s'.trace[i].account)
    {
      if i == |s.trace| {
        RequestSettled(s, e.account, e.newRunner);
      } else {
        assert s'.trace[i] == s.trace[i];
        SettledKept(s, e, i, s.trace[i].account);
      }
    }
  }

  lemma PanickedIdleKept(s: State, e: Event)
    requires Inv(s) && Enabled(s, e)
    ensures PanickedIdle(Apply(s, e))
  {
    var s' := Apply(s, e);
    forall j: nat, a | LastWord(s'.trace, j, a)
      ensures a !in s'.active
    {
      assert s.trace <= s'.trace;
      if j < |s.trace| {
        assert forall k :: j < k < |s.trace| ==> s.trace[k] == s'.trace[k];
        assert LastWord(s.trace, j, a);
        if e.Request? { assert s'.trace[|s.trace|] == Requested(e.account); }
      }
    }
  }

  predicate IsRun(run: seq<State>, events: seq<Event>) {
    && |run| == |events| + 1 && run[0] == Init()
    && (forall i :: 0 <= i < |events| ==> Enabled(run[i], events[i]) && run[i + 1] == Apply(run[i], events[i]))
  }

  /** At every state of every run: one runner per account at most, pending only while active, and
      every request followed by an inner sync (or a panic), or still owed one. */
  lemma {:induction false} RunInv(run: seq<State>, events: seq<Event>, k: nat)
    requires IsRun(run, events) && k < |run|
    ensures Inv(run[k])
  {
    if k == 0 {
      InitInv();
    } else {
      var i := k - 1;
      RunInv(run, events, i);
      assert Enabled(run[i], events[i]) && run[i + 1] == Apply(run[i], events[i]);
      StructureKept(run[i], events[i]);
      RunnersKept(run[i], events[i]);
      NoneLostKept(run[i], events[i]);
      PanickedIdleKept(run[i], events[i]);
    }
  }

  /** An inner sync of the account started after `i`. */
  predicate SyncedAfter(trace: seq<Mark>, i: nat, a: AccountId) {
    exists j :: i < j < |trace| && trace[j] == SyncStarted(a)
  }

  /** The account's runner is unwinding, or did after `i` and the account was not asked for since. */
  ghost predicate PanicHolds(s: State, i: nat, a: AccountId) {
    Unwinding(s, a) || exists j: nat :: i < j && LastWord(s.trace, j, a)
  }

  /** A panic that is the last word on the account leaves nobody who owes it a sync. */
  lemma PanicOwesNothing(s: State, i: nat, a: AccountId)
    requires Inv(s) && PanicHolds(s, i, a)
    ensures !Owed(s, a)
  {
    if Unwinding(s, a) {
      var q :| At(s, q, Recovering) && s.runners[q].account == a;
      forall r ensures !OwedBy(s, a, r) {}
    } else {
      var j: nat :| i < j && LastWord(s.trace, j, a);
      forall r ensures !OwedBy(s, a, r) {}
    }
  }

  lemma LastPanic(trace: seq<Mark>, i: nat, j: nat, a: AccountId) returns (last: nat)
    requires i < j < |trace| && trace[j] == Panicked(a)
    ensures j <= last < |trace| && trace[last] == Panicked(a)
    ensures forall k :: last < k < |trace| ==> trace[k] != Panicked(a)
    decreases |trace| - j
  {
    last := j;
    if k :| j < k < |trace| && trace[k] == Panicked(a) { last := LastPanic(trace, i, k, a); }
  }

  /** If nobody owes a sync for an unserved request, a panic had the last word. */
  lemma UnowedPanicked(s: State, i: nat, a: AccountId)
    requires Inv(s) && i < |s.trace| && s.trace[i] == Requested(a) && !SyncedAfter(s.trace, i, a) && !Owed(s, a)
    ensures PanicHolds(s, i, a)
  {
    assert Settled(s, i, a);
    if !Unwinding(s, a) {
      var j :| i < j < |s.trace| && (s.trace[j] == SyncStarted(a) || s.trace[j] == Panicked(a));
      var last := LastPanic(s.trace, i, j, a);
      forall k | last < k < |s.trace| ensures s.trace[k] != Requested(a) {
        assert s.trace[k] == Requested(a) ==> Settled(s, k, a);
      }
      assert LastWord(s.trace, last, a);
    }
  }

  /** Exactly which requests are lost. At every state of every run, a request that no inner sync has
      started after is owed one by the active runner, unless that runner is unwinding a panic, or a
      panic after the request was the last that happened to the account. */
  lemma RequestLostIff(run: seq<State>, events: seq<Event>, k: nat, i: nat, a: AccountId)
    requires IsRun(run, events) && k < |run| && i < |run[k].trace| && run[k].trace[i] == Requested(a)
    requires !SyncedAfter(run[k].trace, i, a)
    ensures !Owed(run[k], a) <==> PanicHolds(run[k], i, a)
  {
    RunInv(run, events, k);
    if PanicHolds(run[k], i, a) {
      PanicOwesNothing(run[k], i, a);
    } else if !Owed(run[k], a) {
      UnowedPanicked(run[k], i, a);
    }
  }

  /** Unless its account's runner panics after it, a request is followed by an inner sync that starts
      after it, or the active runner owes one. */
  lemma NoRequestLost(run: seq<State>, events: seq<Event>, k: nat, i: nat, a: AccountId)
    requires IsRun(run, events) && k < |run| && i < |run[k].trace| && run[k].trace[i] == Requested(a)
    requires forall j :: i < j < |run[k].trace| ==> run[k].trace[j] != Panicked(a)
    requires !Unwinding(run[k], a)
    ensures SyncedAfter(run[k].trace, i, a) || Owed(run[k], a)
  {
    if !SyncedAfter(run[k].trace, i, a) { RequestLostIff(run, events, k, i, a); }
  }

  /** What the owing runner does next: steps of its own, whatever happened before. */
  function Deliver(p: Point, r: RunnerId): seq<Event> {
    match p
    case Starting => [Start(r)]
    case Checking => [Check(r), Start(r)]
    case Syncing => [Return(r), Check(r), Start(r)]
    case Recovering => [Cleanup(r)]
  }

  predicate CanRun(s: State, events: seq<Event>)
    decreases |events|
  {
    events == [] || (Enabled(s, events[0]) && CanRun(Apply(s, events[0]), events[1..]))
  }

  function ApplyAll(s: State, events: seq<Event>): State
    requires CanRun(s, events)
    decreases |events|
  {
    if events == [] then s else ApplyAll(Apply(s, events[0]), events[1..])
  }

  /** An owed sync is never blocked: the runner's own next steps, at most three, start it. */
  lemma OwedDelivers(s: State, a: AccountId, r: RunnerId)
    requires OwedBy(s, a, r)
    ensures var steps := Deliver(s.runners[r].at, r);
            |steps| <= 3 && CanRun(s, steps) && ApplyAll(s, steps).trace == s.trace + [SyncStarted(a)]
  {
    var checking := s.(runners := Move(s, r, Checking));
    StartDelivers(s, a, r);
    if s.runners[r].at != Starting {
      StartDelivers(Apply(checking, Check(r)), a, r);
      assert [Check(r), Start(r)][1..] == [Start(r)];
      assert [Return(r), Check(r), Start(r)][1..] == [Check(r), Start(r)];
      if s.runners[r].at == Checking { assert checking.runners == s.runners; }
    }
  }

  lemma StartDelivers(s: State, a: AccountId, r: RunnerId)
    requires r in s.runners && s.runners[r].account == a
    ensures At(s, r, Starting) ==> CanRun(s, [Start(r)]) && ApplyAll(s, [Start(r)]).trace == s.trace + [SyncStarted(a)]
  {
    assert [Start(r)][1..] == [];
  }

  /** From any reachable state with a sync under way: a request that arrives before that sync panics is
      dropped by the cleanup, and no runner is left. */
  lemma PanicLosesPending(s: State, r: RunnerId, other: RunnerId)
    requires Inv(s) && At(s, r, Syncing) && other !in s.runners
    ensures var a := s.runners[r].account;
            var asked := Apply(s, Request(a, other));
            Enabled(asked, Panic(r)) && Enabled(Apply(asked, Panic(r)), Cleanup(r)) &&
            var after := Apply(Apply(asked, Panic(r)), Cleanup(r));
            && after.trace == s.trace + [Requested(a), Panicked(a)]
            && !Owed(after, a) && a !in after.active
  {
  }
}
