/** A group rebalance never gets stuck: while a follower has not merged it has a next step, every step
    brings its follower closer to the end, and so complete schedules exist. */
module GroupProgress {
  import opened Collections
  import opened OrderBook
  import opened Positions
  import opened Rebalance
  import opened GroupRebalance
  import opened GroupRun

  // ---------------------------------------------------------------- every follower has a diff

  function Listings(ps: seq<Held>): set<Listing> {
    set i | 0 <= i < |ps| :: At(ps[i].key)
  }

  lemma {:induction false} OutsideIsNothing(ps: seq<Held>, l: Listing)
    requires l !in Listings(ps)
    ensures LastHeld(ps, l) == Nothing
  {
    if ps != [] {
      var init := ps[..|ps| - 1];
      assert forall i :: 0 <= i < |ps| ==> At(ps[i].key) in Listings(ps);
      assert forall i :: 0 <= i < |init| ==> init[i] == ps[i];
      OutsideIsNothing(init, l);
    }
  }

  lemma Collected(todo: set<Listing>, drift: Listing -> Drift) returns (ds: seq<Drift>)
    requires forall l :: drift(l).listing == l
    ensures forall i :: 0 <= i < |ds| ==> ds[i] == drift(ds[i].listing) && ds[i].driftQty != 0 && ds[i].listing in todo
    ensures forall i, j :: 0 <= i < j < |ds| ==> ds[i].listing != ds[j].listing
    ensures forall l :: l in todo && drift(l).driftQty != 0 ==> Drifts(ds, l)
    decreases todo
  {
    ds := [];
    if todo != {} {
      var l := AnyElement(todo);
      ds := Collected(todo - {l}, drift);
      if drift(l).driftQty != 0 {
        DriftsGrow(ds, drift(l));
        ds := ds + [drift(l)];
      }
    }
  }

  lemma DriftsExist(acc: Account, lots: map<Listing, int>, master: seq<Held>, follower: seq<Held>)
    returns (ds: seq<Drift>)
    ensures IsDrifts(ds, acc, lots, master, follower)
  {
    var drift := (l: Listing) => DriftAt(acc, lots, master, follower, l);
    var keys := Listings(master) + Listings(follower);
    ds := Collected(keys, drift);
    forall l | DriftAt(acc, lots, master, follower, l).driftQty != 0 ensures Drifts(ds, l) {
      if l !in keys {
        OutsideIsNothing(master, l);
        OutsideIsNothing(follower, l);
        UnheldNoDrift(acc, lots, master, follower, l);
      }
      assert drift(l).driftQty != 0;
    }
  }

  lemma DiffExists(setup: Setup, b: Book, u: UserId) returns (ds: seq<Drift>)
    requires u in setup.plans
    ensures IsDiff(setup, b, u, ds)
  {
    var c := ContextIn(setup, b, setup.plans[u]);
    ds := [];
    if DiffGate(c) == None {
      ds := DriftsExist(c.accounts.value[0], setup.lots, c.master.value, HeldIn(b, u));
    }
  }

  // ---------------------------------------------------------------- every step is progress

  /** How far a follower is from having merged: the stages left, and the calls left in this one. */
  datatype Distance = Distance(stages: nat, calls: nat)

  function Minus(a: nat, b: nat): nat {
    if a < b then 0 else a - b
  }

  function DistanceOf(job: Job): Distance {
    match job
    case Waiting => Distance(5, 0)
    case Diffed(_) => Distance(4, 0)
    case Cancelling(_, ids, i, _) => Distance(3, Minus(|ids|, i))
    case Placing(ds, j, _) => Distance(2, Minus(|ds|, j))
    case Ended(_, _) => Distance(1, 0)
    case Merged(_, _) => Distance(0, 0)
  }

  predicate Closer(a: Distance, b: Distance) {
    a.stages < b.stages || (a.stages == b.stages && a.calls < b.calls)
  }

  /** A step brings its own follower closer and leaves every other where it is. */
  lemma StepIsProgress(setup: Setup, s: State, e: Event)
    requires Enabled(setup, s, e)
    ensures var s' := GroupRun.Apply(setup, s, e);
            && s'.jobs.Keys == s.jobs.Keys
            && Closer(DistanceOf(s'.jobs[e.u]), DistanceOf(s.jobs[e.u]))
            && (forall v :: v in s.jobs && v != e.u ==> s'.jobs[v] == s.jobs[v])
  {
  }

  /** A follower that has not merged has a next step, no panic needed. */
  lemma NextStep(setup: Setup, b0: Book, s: State, u: UserId) returns (e: Event)
    requires GroupOk(setup, b0, s) && u in s.jobs && !s.jobs[u].Merged?
    ensures e.u == u && !e.Panic? && Enabled(setup, s, e)
  {
    assert u in setup.plans && JobOk(setup, b0, s.book, u, s.jobs[u]);
    match s.jobs[u]
    case Waiting => {
      var ds := DiffExists(setup, s.book, u);
      e := Diff(u, ds);
    }
    case Diffed(_) => e := ListOpen(u);
    case Cancelling(_, _, _, _) => e := CancelNext(u);
    case Placing(_, _, _) => e := PlaceNext(u);
    case Ended(_, _) => e := MergeIn(u);
  }

  // ---------------------------------------------------------------- complete schedules

  lemma RunLast(setup: Setup, s: State, events: seq<Event>, e: Event)
    requires CanRun(setup, s, events) && Enabled(setup, AfterSchedule(setup, s, events), e)
    ensures CanRun(setup, s, events + [e])
    ensures AfterSchedule(setup, s, events + [e]) == GroupRun.Apply(setup, AfterSchedule(setup, s, events), e)
  {
    assert (events + [e])[..|events|] == events;
  }

  /** The schedule leads from the start to this state, where all is as the invariant says. */
  ghost predicate LeadsTo(setup: Setup, b0: Book, start: State, events: seq<Event>, s: State) {
    CanRun(setup, start, events) && AfterSchedule(setup, start, events) == s && GroupOk(setup, b0, s)
  }

  /** One more step of a schedule, towards the follower's merge. */
  lemma OneMore(setup: Setup, b0: Book, start: State, events: seq<Event>, s: State, u: UserId)
    returns (e: Event, s': State)
    requires Inv(b0) && LeadsTo(setup, b0, start, events, s) && u in s.jobs && !s.jobs[u].Merged?
    ensures LeadsTo(setup, b0, start, events + [e], s') && s'.jobs.Keys == s.jobs.Keys
    ensures Closer(DistanceOf(s'.jobs[u]), DistanceOf(s.jobs[u]))
    ensures forall v :: v in s.jobs && v != u ==> s'.jobs[v] == s.jobs[v]
  {
    e := NextStep(setup, b0, s, u);
    s' := GroupRun.Apply(setup, s, e);
    StepIsProgress(setup, s, e);
    StepOk(setup, b0, s, e);
    RunLast(setup, start, events, e);
  }

  /** The schedule goes on until one follower has merged, moving no other. */
  lemma FinishOne(setup: Setup, b0: Book, start: State, events: seq<Event>, s: State, u: UserId)
    returns (events': seq<Event>, s': State)
    requires Inv(b0) && LeadsTo(setup, b0, start, events, s) && u in s.jobs
    ensures LeadsTo(setup, b0, start, events', s') && s'.jobs.Keys == s.jobs.Keys && s'.jobs[u].Merged?
    ensures forall v :: v in s.jobs && v != u ==> s'.jobs[v] == s.jobs[v]
    decreases DistanceOf(s.jobs[u]).stages, DistanceOf(s.jobs[u]).calls
  {
    events', s' := events, s;
    if !s.jobs[u].Merged? {
      var e, s1 := OneMore(setup, b0, start, events, s, u);
      events', s' := FinishOne(setup, b0, start, events + [e], s1, u);
    }
  }

  function Unmerged(jobs: map<UserId, Job>): set<UserId> {
    set u | u in jobs && !jobs[u].Merged?
  }

  /** From wherever a group is, a schedule that merges everyone, without a panic of its own. */
  lemma FinishAll(setup: Setup, b0: Book, start: State, events: seq<Event>, s: State)
    returns (events': seq<Event>, s': State)
    requires Inv(b0) && LeadsTo(setup, b0, start, events, s)
    ensures LeadsTo(setup, b0, start, events', s') && AllMerged(s')
    decreases Unmerged(s.jobs)
  {
    events', s' := events, s;
    if Unmerged(s.jobs) != {} {
      var u := AnyElement(Unmerged(s.jobs));
      var more, s1 := FinishOne(setup, b0, start, events, s, u);
      assert Unmerged(s1.jobs) == Unmerged(s.jobs) - {u};
      events', s' := FinishAll(setup, b0, start, more, s1);
    } else {
      assert forall u :: u in s.jobs ==> u !in Unmerged(s.jobs);
    }
  }

  /** So every group rebalance has a complete schedule. */
  lemma ScheduleExists(setup: Setup, b0: Book, targets: seq<UserId>) returns (events: seq<Event>)
    requires Inv(b0) && Grouped(setup, b0, targets)
    ensures CanRun(setup, Start(b0, targets), events)
    ensures AllMerged(AfterSchedule(setup, Start(b0, targets), events))
  {
    var start := Start(b0, targets);
    StartOk(setup, b0, targets);
    var end;
    events, end := FinishAll(setup, b0, start, [], start);
  }
}
