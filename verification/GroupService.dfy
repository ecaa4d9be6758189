/** The group rebalance as it runs: the diff over all followers, the goroutines' steps on the shared
    broker in a schedule nobody controls, and the imbalance flag. */
module GroupService {
  import opened Collections
  import opened OrderBook
  import opened Positions
  import opened Rebalance
  import opened GroupRebalance
  import opened GroupRun
  import Sizing

  /** A follower of the group; `readable` says whether its broker and positions can be reached. */
  datatype Member = Member(id: UserId, account: Account, readable: bool)

  datatype Group = Group(ownId: Option<GroupId>, members: seq<Member>)

  ghost predicate Drifting(setup: Setup, b: Book, m: Member) {
    exists l :: DriftAt(m.account, setup.lots, HeldIn(b, setup.master), HeldIn(b, m.id), l).driftQty != 0
  }

  /** The members as the diff finds them on this book. */
  ghost function Facts(setup: Setup, b: Book, ms: seq<Member>): seq<Follower> {
    seq(|ms|, i requires 0 <= i < |ms| =>
          Follower(ms[i].id, ms[i].account.enabled, ms[i].readable, Drifting(setup, b, ms[i])))
  }

  lemma DiffShowsDrift(setup: Setup, b: Book, m: Member, ds: seq<Drift>)
    requires IsDrifts(ds, m.account, setup.lots, HeldIn(b, setup.master), HeldIn(b, m.id))
    ensures ds != [] <==> Drifting(setup, b, m)
  {
    if ds != [] {
      assert DriftAt(m.account, setup.lots, HeldIn(b, setup.master), HeldIn(b, m.id), ds[0].listing).driftQty != 0;
    }
  }

  datatype Reply = DiffFailed | Reported(result: GroupResult)

  /** One step of one goroutine, on the shared broker. */
  method Perform(engine: OrderEngine, setup: Setup, s: State, e: Event) returns (s': State)
    requires engine.config == setup.cfg && s.book == engine.Contents() && Enabled(setup, s, e)
    modifies engine
    ensures s' == GroupRun.Apply(setup, s, e) && s'.book == engine.Contents()
  {
    var u := e.u;
    var job, plan := s.jobs[u], setup.plans[u];
    match e
    case Diff(_, ds) => s' := s.(jobs := s.jobs[u := AfterDiff(setup, s.book, u, ds)]);
    case ListOpen(_) =>
      if plan.faults.openOrders {
        s' := s.(jobs := s.jobs[u := Placing(job.ds, 0, Tally(0, [], []))]);
      } else {
        var ids := FindOpen(engine.orders, IdsOf(engine.userOrders, u), job.ds);
        s' := s.(jobs := s.jobs[u := Cancelling(job.ds, ids, 0, 0)]);
      }
    case CancelNext(_) =>
      if job.i == |job.ids| {
        job := Placing(job.ds, 0, Tally(job.n, [], []));
      } else if job.ids[job.i] in plan.faults.cancels {
        job := job.(i := job.i + 1);
      } else {
        var outcome := engine.CancelOrder(job.ids[job.i]);
        job := job.(i := job.i + 1, n := if outcome.Accepted? then job.n + 1 else job.n);
      }
      s' := s.(book := engine.Contents(), jobs := s.jobs[u := job]);
    case PlaceNext(_) =>
      if job.j == |job.ds| {
        job := GroupRun.Ended(job.ds, EndOf(u, job.t));
      } else {
        var d := job.ds[job.j];
        var t := PlaceOne(engine, u, d, plan.tag, plan.faults.places, job.t);
        job := job.(j := job.j + 1, t := t);
      }
      s' := s.(book := engine.Contents(), jobs := s.jobs[u := job]);
    case Panic(_) => s' := s.(jobs := s.jobs[u := GroupRun.Ended([], Panicked(AccountPanicked(u)))]);
    case MergeIn(_) =>
      s' := s.(jobs := s.jobs[u := Merged(job.ds, job.outcome)],
               result := Merge(s.result, job.outcome), merged := s.merged + [u]);
  }

  method PlaceOne(engine: OrderEngine, u: UserId, d: Drift, tag: string, faults: set<Listing>,
      start: Tally) returns (t: Tally)
    modifies engine
    ensures (engine.Contents(), t) == PlaceDrift(engine.config, old(engine.Contents()), start, u, d, tag, faults)
  {
    if d.driftQty == 0 { return start; }
    if d.listing in faults { return start.(errors := start.errors + [d.listing]); }
    var outcome := engine.PlaceOrder(u, DriftOrder(d, tag));
    if outcome.Failed? { return start.(errors := start.errors + [d.listing]); }
    var key := Key(d.listing.exchange, d.listing.symbol, d.product);
    t := start.(orders := start.orders + [Placed(outcome.id, key, d.action, Sizing.Abs(d.driftQty))]);
  }

  /** The goroutines' steps, in the schedule's order. */
  method RunSchedule(engine: OrderEngine, setup: Setup, targets: seq<UserId>, schedule: seq<Event>) returns (s: State)
    requires engine.config == setup.cfg && Inv(engine.Contents()) && Grouped(setup, engine.Contents(), targets)
    requires CanRun(setup, Start(engine.Contents(), targets), schedule)
    requires AllMerged(AfterSchedule(setup, Start(engine.Contents(), targets), schedule))
    modifies engine
    ensures s.book == engine.Contents() && ReportOk(setup, old(engine.Contents()), s, targets)
  {
    ghost var b0 := engine.Contents();
    s := Start(engine.Contents(), targets);
    for i := 0 to |schedule|
      invariant s.book == engine.Contents()
      invariant CanRun(setup, Start(b0, targets), schedule[..i])
      invariant s == AfterSchedule(setup, Start(b0, targets), schedule[..i])
    {
      PrefixCanRun(setup, Start(b0, targets), schedule, i + 1);
      assert schedule[..i + 1][..i] == schedule[..i];
      s := Perform(engine, setup, s, schedule[i]);
    }
    assert schedule[..|schedule|] == schedule;
    ScheduleOk(setup, schedule, b0, targets);
    MergedReport(setup, b0, s, targets);
  }

  class Service {
    /** Imbalance flags, by the id they are stored under. */
    var imbalance: map<GroupId, bool>

    /** The diff: fails if the group or master cannot be read, or at the first follower that cannot,
        leaving the flag alone; otherwise the flag says whether any enabled follower drifts. */
    method ComputeGroupDiff(called: GroupId, g: Group, setup: Setup, b: Book, groupRead: bool, written: bool)
      returns (ok: bool, drifts: seq<Follower>)
      modifies this
      ensures ok == (groupRead && Readable(Facts(setup, b, g.members)))
      ensures !ok ==> imbalance == old(imbalance)
      ensures ok ==> imbalance == FlagsDiffed(old(imbalance), called, g.ownId, Facts(setup, b, g.members), written)
      ensures ok ==> drifts == DriftingIn(Facts(setup, b, g.members))
    {
      if !groupRead { return false, []; }
      var ms := g.members;
      ghost var fs := Facts(setup, b, ms);
      var master := HeldIn(b, setup.master);
      drifts := [];
      for i := 0 to |ms|
        invariant forall j :: 0 <= j < i ==> fs[j].readable
        invariant imbalance == old(imbalance)
        invariant drifts == DriftingIn(fs[..i])
      {
        if !ms[i].readable {
          assert !fs[i].readable;
          return false, [];
        }
        assert fs[..i + 1][..i] == fs[..i];
        var ds := CalculateFollowerDrift(ms[i].account, setup.lots, master, HeldIn(b, ms[i].id));
        DiffShowsDrift(setup, b, ms[i], ds);
        if |ds| > 0 { drifts := drifts + [Follower(ms[i].id, ms[i].account.enabled, true, true)]; }
      }
      assert fs[..|ms|] == fs;
      DriftingSame(fs, []);
      var active := AnyEnabled(drifts);
      SomeActive(drifts);
      if written { imbalance := imbalance[OwnOr(g.ownId, called) := active]; }
      ok := true;
    }

    /** The whole call. `schedule` is the order in which the follower goroutines take their steps. The
        report is the sum of what each targeted follower gets alone, panics aside, and the flags end as
        the diff and the report's errors say. */
    method RebalanceGroup(engine: OrderEngine, called: GroupId, g: Group, filter: seq<UserId>, setup: Setup,
                          groupRead: bool, writes: FlagWrites, schedule: seq<Event>)
      returns (reply: Reply, ghost final: State)
      requires engine.config == setup.cfg && Inv(engine.Contents())
      requires forall i, j :: 0 <= i < j < |g.members| ==> g.members[i].id != g.members[j].id
      requires forall i :: 0 <= i < |g.members| ==> g.members[i].id in setup.plans && g.members[i].id != setup.master
      requires var start := Start(engine.Contents(), Targets(Facts(setup, engine.Contents(), g.members), filter));
               CanRun(setup, start, schedule) && AllMerged(AfterSchedule(setup, start, schedule))
      modifies this, engine
      ensures var b0 := old(engine.Contents());
              var fs := Facts(setup, b0, g.members);
              if !groupRead || !Readable(fs) then
                reply == DiffFailed && imbalance == old(imbalance) && engine.Contents() == b0
              else
                && reply == Reported(final.result) && final.book == engine.Contents()
                && ReportOk(setup, b0, final, Targets(fs, filter))
                && imbalance == FlagsAfter(old(imbalance), called, g.ownId, fs, filter, reply.result.errors == [],
                                           writes)
    {
      ghost var b0 := engine.Contents();
      ghost var fs := Facts(setup, b0, g.members);
      var ok, drifts := ComputeGroupDiff(called, g, setup, engine.Contents(), groupRead, writes.diff);
      final := Start(b0, []);
      if !ok { return DiffFailed, final; }
      DriftingSame(fs, filter);
      TargetsGrouped(setup, b0, g, filter);
      var targets := SelectTargets(drifts, filter);
      if |targets| == 0 {
        NobodyReports(setup, b0);
        return Reported(NoResult(0)), final;
      }
      var s := RunSchedule(engine, setup, targets, schedule);
      final := s;
      var total := CountEnabled(drifts);
      StatusSaysErrors(setup, b0, s, targets);
      ClearIfResolved(called, total, |targets|, s.result, writes.clear);
      reply := Reported(s.result);
    }

    /** The flag is cleared when all active drifts were targeted and the result is clean. */
    method ClearIfResolved(called: GroupId, total: nat, targeted: nat, result: GroupResult, written: bool)
      requires result.status == if result.errors == [] then "completed" else "partial"
      modifies this
      ensures imbalance == if total > 0 && targeted == total && result.errors == [] && written
                           then old(imbalance)[called := false] else old(imbalance)
    {
      if total > 0 && targeted == total && |result.errors| == 0 && result.status == "completed" {
        if written { imbalance := imbalance[called := false]; }
      }
    }
  }

  lemma StatusSaysErrors(setup: Setup, b0: Book, s: State, targets: seq<UserId>)
    requires ReportOk(setup, b0, s, targets)
    ensures s.result.status == if s.result.errors == [] then "completed" else "partial"
  {
  }

  /** With nobody targeted the report is empty and clean. */
  lemma NobodyReports(setup: Setup, b0: Book)
    ensures ReportOk(setup, b0, Start(b0, []), []) && Start(b0, []).result == NoResult(0)
  {
    assert TradesOf([]) == [];
  }

  /** A schedule that can run can run its beginnings. */
  lemma {:induction false} PrefixCanRun(setup: Setup, s: State, events: seq<Event>, k: nat)
    requires CanRun(setup, s, events) && k <= |events|
    ensures CanRun(setup, s, events[..k])
    decreases |events|
  {
    if k == |events| {
      assert events[..k] == events;
    } else {
      var init := events[..|events| - 1];
      assert init[..k] == events[..k];
      PrefixCanRun(setup, s, init, k);
    }
  }

  lemma TargetsGrouped(setup: Setup, b: Book, g: Group, filter: seq<UserId>)
    requires forall i, j :: 0 <= i < j < |g.members| ==> g.members[i].id != g.members[j].id
    requires forall i :: 0 <= i < |g.members| ==> g.members[i].id in setup.plans && g.members[i].id != setup.master
    ensures Grouped(setup, b, Targets(Facts(setup, b, g.members), filter))
  {
    var fs := Facts(setup, b, g.members);
    TargetsOnce(fs, filter);
    forall u: UserId
      ensures u in Targets(fs, filter) ==> u in setup.plans && u != setup.master
    {
      TargetsAre(fs, filter, u);
    }
  }
}
