/** The copy-trade protocol as a step machine: deliveries, concurrent fan-outs, queues, workers,
    registrations, kill switch, restarts and other writers, interleaved in any order. Rows are
    never deleted (no archive purge). */
module CopyTrade {
  import opened Collections
  import opened Sizing
  import opened FanOut
  import opened Engine

  datatype Pid = Pid(n: nat)
  datatype ChannelId = ChannelId(n: nat)

  /** One running `HandleMasterFill`: before the gates, past them, or in the dispatch loop. */
  datatype Process =
    | Arrived(fill: Fill)
    | Gated(fill: Fill)
    | Dispatching(fill: Fill, inserted: map<Tag, int>, todo: seq<Candidate>, picked: Picked)

  /** The queue a dispatch turn read from the pool, before it tries to send. */
  datatype Picked = NotYet | NoWorker | Chose(ch: ChannelId)

  datatype Placing = Placing(job: Job, made: nat)

  /** A queue with its worker. A replaced queue stays, and takes jobs from a turn that read it before;
      once its worker has stopped nobody takes them out. */
  datatype Worker = Worker(follower: AccountId, capacity: nat, jobs: seq<Job>, placing: Option<Placing>, running: bool)

  /** Where a new order's single right to be placed is. */
  datatype Phase = AtProcess(p: Pid) | Queued(ch: ChannelId) | InPlace(ch: ChannelId) | Over

  /** The last three fields are history: every hand-off, every broker call, and each tag's phase. */
  datatype State = State(
    maxAttempts: nat,
    fills: map<int, Fill>,
    orders: map<Tag, OrderRow>,
    nextFill: int,
    nextId: int,
    killed: bool,
    processes: map<Pid, Process>,
    live: map<AccountId, ChannelId>,
    workers: map<ChannelId, Worker>,
    enqueued: seq<Job>,
    calls: seq<Call>,
    phase: map<Tag, Phase>)

  datatype Event =
    | Deliver(fill: Fill, p: Pid)
    | Rerun(fillId: int, p: Pid)
    | Gate(p: Pid)
    | Abandon(p: Pid)
    | Insert(p: Pid, links: seq<Link>, lot: int)
    | Pick(p: Pid)
    | Turn(p: Pid)
    | Finish(p: Pid)
    | Register(follower: AccountId, capacity: nat, ch: ChannelId)
    | Unregister(follower: AccountId)
    | Stop(ch: ChannelId)
    | Take(ch: ChannelId)
    | Attempt(ch: ChannelId, reply: Reply)
    | Toggle(engaged: bool)
    | Restart
    | OtherWriter(orders: map<Tag, OrderRow>)

  function Init(maxRetries: int): State {
    State(MaxAttempts(maxRetries), map[], map[], 1, 1, false, map[], map[], map[], [], [], map[])
  }

  predicate SameSignal(a: Fill, b: Fill) {
    a.master == b.master && a.brokerOrderId == b.brokerOrderId && a.qty == b.qty && a.status == b.status
  }

  /** The turn at hand has a new order of some quantity to send. */
  predicate Sends(proc: Process)
    requires proc.Dispatching? && proc.todo != []
  {
    proc.todo[0].tag in proc.inserted && proc.todo[0].qty != 0
  }

  predicate Enabled(s: State, e: Event) {
    match e
    case Deliver(_, p) => p !in s.processes
    case Rerun(id, p) => p !in s.processes && id in s.fills
    case Gate(p) => p in s.processes && s.processes[p].Arrived?
    case Abandon(p) => p in s.processes && !s.processes[p].Dispatching?
    case Insert(p, links, _) => p in s.processes && s.processes[p].Gated? && DistinctFollowers(links)
    case Pick(p) =>
      && p in s.processes && s.processes[p].Dispatching? && s.processes[p].todo != []
      && s.processes[p].picked.NotYet? && Sends(s.processes[p])
    case Turn(p) =>
      && p in s.processes && s.processes[p].Dispatching? && s.processes[p].todo != []
      && (s.processes[p].picked.NotYet? <==> !Sends(s.processes[p]))
    case Finish(p) => p in s.processes && s.processes[p].Dispatching? && s.processes[p].todo == []
    case Register(_, _, ch) => ch !in s.workers
    case Unregister(_) => true
    case Stop(ch) => ch in s.workers
    case Take(ch) =>
      ch in s.workers && s.workers[ch].running && s.workers[ch].placing.None? && s.workers[ch].jobs != []
    case Attempt(ch, _) => ch in s.workers && s.workers[ch].placing.Some?
    case Toggle(_) => true
    case Restart => true
    case OtherWriter(orders) => s.orders.Keys <= orders.Keys
  }

  /** The same queues, each its follower's. */
  predicate SameQueues(a: map<ChannelId, Worker>, b: map<ChannelId, Worker>) {
    a.Keys == b.Keys && forall ch :: ch in a ==> b[ch].follower == a[ch].follower
  }

  /** The tables as the engine's insert sees them. */
  function Tables(s: State): World {
    World(s.orders, s.nextId, map[], map[])
  }

  function AfterInsert(s: State, p: Pid, links: seq<Link>, lot: int): (s': State)
    requires p in s.processes
    ensures s'.maxAttempts == s.maxAttempts && s'.live == s.live && SameQueues(s.workers, s'.workers)
  {
    var fill := s.processes[p].fill;
    var cands := SizeLinks(fill, links, lot);
    var w := InsertBatch(Tables(s), fill, cands, lot);
    var inserted := Inserted(Tables(s), w);
    s.(orders := w.orders, nextId := w.nextId,
       processes := s.processes[p := Dispatching(fill, inserted, cands, NotYet)],
       phase := s.phase + map t | t in inserted :: AtProcess(p))
  }

  /** The queue has room for one more. */
  predicate Room(workers: map<ChannelId, Worker>, picked: Picked) {
    picked.Chose? && picked.ch in workers && |workers[picked.ch].jobs| < workers[picked.ch].capacity
  }

  /** The status a turn settles its row with, if it does. */
  function TurnStatus(proc: Process, room: bool): Option<string>
    requires proc.Dispatching? && proc.todo != []
  {
    if proc.todo[0].tag !in proc.inserted then None
    else if proc.todo[0].qty == 0 then Some(SKIPPED)
    else if room then None
    else Some(DEAD_LETTERED)
  }

  /** One turn of a dispatch loop, sending to the queue it picked, which may have been replaced since. */
  function AfterTurn(s: State, p: Pid): (s': State)
    requires Enabled(s, Turn(p))
    ensures s'.maxAttempts == s.maxAttempts
  {
    var proc := s.processes[p];
    var c := proc.todo[0];
    var sent := Sends(proc) && Room(s.workers, proc.picked);
    var settled := TurnStatus(proc, sent);
    s.(processes := s.processes[p := proc.(todo := proc.todo[1..], picked := NotYet)],
       orders := if settled.Some? then SetTerminal(s.orders, c.tag, settled.value) else s.orders,
       workers := if sent then Sent(s.workers, proc.picked.ch, JobFor(proc.fill, c, proc.inserted[c.tag]))
                  else s.workers,
       enqueued := if sent then s.enqueued + [JobFor(proc.fill, c, proc.inserted[c.tag])] else s.enqueued,
       phase := if sent then s.phase[c.tag := Queued(proc.picked.ch)]
                else if settled.Some? then s.phase[c.tag := Over] else s.phase)
  }

  function Sent(workers: map<ChannelId, Worker>, ch: ChannelId, job: Job): (sent: map<ChannelId, Worker>)
    requires ch in workers
    ensures SameQueues(workers, sent)
  {
    workers[ch := workers[ch].(jobs := workers[ch].jobs + [job])]
  }

  function EndStatus(end: PlaceEnd, row: OrderRow): OrderRow {
    match end
    case Placed(id) => row.(brokerId := Some(id))
    case RejectedEnd => row.(terminal := Some("REJECTED"))
    case DeadLetteredEnd => row.(terminal := Some(DEAD_LETTERED))
  }

  /** One broker call by the worker of `ch`, and what follows from its reply. */
  function AfterAttempt(s: State, ch: ChannelId, reply: Reply): (s': State)
    requires Enabled(s, Attempt(ch, reply))
    ensures s'.maxAttempts == s.maxAttempts
  {
    var wk := s.workers[ch];
    var Placing(job, made) := wk.placing.value;
    var again := Retries(reply, made + 1, s.maxAttempts);
    s.(calls := s.calls + [Call(job.tag, job.qty, reply)],
       workers := s.workers[ch := wk.(placing := if again then Some(Placing(job, made + 1)) else None)],
       orders := if again || job.tag !in s.orders then s.orders
                 else s.orders[job.tag := EndStatus(FinalEnd(reply, made + 1, s.maxAttempts), s.orders[job.tag])],
       phase := if again then s.phase else s.phase[job.tag := Over])
  }

  function Apply(s: State, e: Event): (s': State)
    requires Enabled(s, e)
    ensures s'.maxAttempts == s.maxAttempts
  {
    match e
    case Deliver(fill, p) =>
      if exists id :: id in s.fills && SameSignal(s.fills[id], fill) then s
      else
        var f := fill.(id := s.nextFill);
        s.(fills := s.fills[f.id := f], nextFill := s.nextFill + 1, processes := s.processes[p := Arrived(f)])
    case Rerun(id, p) => s.(processes := s.processes[p := Arrived(s.fills[id])])
    case Gate(p) =>
      if s.killed then s.(processes := s.processes - {p})
      else s.(processes := s.processes[p := Gated(s.processes[p].fill)])
    case Abandon(p) => s.(processes := s.processes - {p})
    case Insert(p, links, lot) => AfterInsert(s, p, links, lot)
    case Pick(p) =>
      var proc := s.processes[p];
      var f := proc.todo[0].follower;
      s.(processes := s.processes[p := proc.(picked := if f in s.live then Chose(s.live[f]) else NoWorker)])
    case Turn(p) => AfterTurn(s, p)
    case Finish(p) => s.(processes := s.processes - {p})
    case Register(f, capacity, ch) =>
      s.(workers := s.workers[ch := Worker(f, capacity, [], None, true)], live := s.live[f := ch])
    case Unregister(f) => s.(live := s.live - {f})
    case Stop(ch) => s.(workers := s.workers[ch := s.workers[ch].(placing := None, running := false)])
    case Take(ch) =>
      var wk := s.workers[ch];
      s.(workers := s.workers[ch := wk.(jobs := wk.jobs[1..], placing := Some(Placing(wk.jobs[0], 0)))],
         phase := s.phase[wk.jobs[0].tag := InPlace(ch)])
    case Attempt(ch, reply) => AfterAttempt(s, ch, reply)
    case Toggle(engaged) => s.(killed := engaged)
    case Restart => s.(killed := false, processes := map[], live := map[], workers := map[])
    case OtherWriter(orders) => s.(orders := orders)
  }

  // ---------------------------------------------------------------- what is counted

  function CallsFor(calls: seq<Call>, t: Tag): nat {
    if calls == [] then 0
    else CallsFor(calls[..|calls| - 1], t) + (if calls[|calls| - 1].tag == t then 1 else 0)
  }

  function AcceptsFor(calls: seq<Call>, t: Tag): nat {
    if calls == [] then 0
    else
      var last := calls[|calls| - 1];
      AcceptsFor(calls[..|calls| - 1], t) + (if last.tag == t && last.reply.Accepted? then 1 else 0)
  }

  lemma CountAppend(calls: seq<Call>, c: Call, t: Tag)
    ensures CallsFor(calls + [c], t) == CallsFor(calls, t) + (if c.tag == t then 1 else 0)
    ensures AcceptsFor(calls + [c], t) == AcceptsFor(calls, t) + (if c.tag == t && c.reply.Accepted? then 1 else 0)
  {
    assert (calls + [c])[..|calls|] == calls;
  }

  // ---------------------------------------------------------------- the invariant

  predicate DistinctTags(jobs: seq<Job>) {
    forall i, j :: 0 <= i < j < |jobs| ==> jobs[i].tag != jobs[j].tag
  }

  /** A running dispatch loop holds the right to place each of its new orders. */
  predicate ProcessOk(p: Pid, proc: Process, phase: map<Tag, Phase>) {
    proc.Dispatching? ==>
      && Fanned(proc.fill, proc.todo)
      && (forall i :: 0 <= i < |proc.todo| && proc.todo[i].tag in proc.inserted ==>
            proc.todo[i].tag in phase && phase[proc.todo[i].tag] == AtProcess(p))
  }

  /** A queue holds distinct handed-off jobs that are nowhere else. */
  predicate QueueOk(ch: ChannelId, jobs: seq<Job>, phase: map<Tag, Phase>, enqueued: seq<Job>) {
    && DistinctTags(jobs)
    && (forall i :: 0 <= i < |jobs| ==>
          jobs[i] in enqueued && jobs[i].tag in phase && phase[jobs[i].tag] == Queued(ch))
  }

  /** A job being placed has been called for exactly as often as its worker counts, without success. */
  predicate PlacingOk(ch: ChannelId, placing: Option<Placing>, phase: map<Tag, Phase>, enqueued: seq<Job>,
      calls: seq<Call>, max: nat) {
    placing.Some? ==>
      var Placing(job, made) := placing.value;
      && job in enqueued && job.tag in phase && phase[job.tag] == InPlace(ch)
      && made < max && CallsFor(calls, job.tag) == made && AcceptsFor(calls, job.tag) == 0
  }

  predicate TagOk(t: Tag, phase: map<Tag, Phase>, orders: map<Tag, OrderRow>, calls: seq<Call>, max: nat) {
    && CallsFor(calls, t) <= max && AcceptsFor(calls, t) <= 1
    && (t in phase ==> t in orders)
    && (t !in phase || phase[t].AtProcess? || phase[t].Queued? ==> CallsFor(calls, t) == 0 && AcceptsFor(calls, t) == 0)
  }

  /** A call made for some handed-off job: its tag and its quantity. */
  predicate FromJob(enqueued: seq<Job>, c: Call) {
    exists j :: 0 <= j < |enqueued| && enqueued[j].tag == c.tag && enqueued[j].qty == c.qty
  }

  predicate EnqueuedOk(enqueued: seq<Job>, phase: map<Tag, Phase>) {
    && DistinctTags(enqueued)
    && (forall i :: 0 <= i < |enqueued| ==> enqueued[i].tag in phase && !phase[enqueued[i].tag].AtProcess?)
  }

  predicate CallsOk(calls: seq<Call>, enqueued: seq<Job>) {
    forall i :: 0 <= i < |calls| ==> FromJob(enqueued, calls[i])
  }

  predicate ProcessesOk(processes: map<Pid, Process>, phase: map<Tag, Phase>) {
    forall p :: p in processes ==> ProcessOk(p, processes[p], phase)
  }

  predicate WorkersOk(workers: map<ChannelId, Worker>, phase: map<Tag, Phase>, enqueued: seq<Job>, calls: seq<Call>,
      max: nat) {
    forall ch :: ch in workers ==>
      && QueueOk(ch, workers[ch].jobs, phase, enqueued)
      && PlacingOk(ch, workers[ch].placing, phase, enqueued, calls, max)
  }

  ghost predicate TagsOk(phase: map<Tag, Phase>, orders: map<Tag, OrderRow>, calls: seq<Call>, max: nat) {
    forall t :: TagOk(t, phase, orders, calls, max)
  }

  ghost predicate Inv(s: State) {
    && 1 <= s.maxAttempts
    && ProcessesOk(s.processes, s.phase)
    && WorkersOk(s.workers, s.phase, s.enqueued, s.calls, s.maxAttempts)
    && TagsOk(s.phase, s.orders, s.calls, s.maxAttempts)
    && EnqueuedOk(s.enqueued, s.phase)
    && CallsOk(s.calls, s.enqueued)
  }

  lemma InitInv(maxRetries: int)
    ensures Inv(Init(maxRetries))
  {
  }

  // ---------------------------------------------------------------- every step keeps it

  predicate Housekeeping(e: Event) {
    !(e.Insert? || e.Turn? || e.Take? || e.Attempt? || e.OtherWriter?)
  }

  predicate SameTurns(a: Process, b: Process) {
    a.Dispatching? && b.Dispatching? && a.(picked := b.picked) == b
  }

  predicate SameJobs(a: Worker, b: Worker) {
    b.jobs == a.jobs && (b.placing == a.placing || b.placing.None?)
  }

  /** Only idle processes and workers appear, and the tables' keys and the history stay. */
  predicate Quiet(s: State, s': State) {
    && s'.maxAttempts == s.maxAttempts && s'.orders == s.orders
    && s'.enqueued == s.enqueued && s'.calls == s.calls && s'.phase == s.phase
    && (forall p :: p in s'.processes ==>
          !s'.processes[p].Dispatching? || (p in s.processes && SameTurns(s.processes[p], s'.processes[p])))
    && (forall ch :: ch in s'.workers ==>
          || (s'.workers[ch].jobs == [] && s'.workers[ch].placing.None?)
          || (ch in s.workers && SameJobs(s.workers[ch], s'.workers[ch])))
  }

  lemma QuietKeepsInv(s: State, s': State)
    requires Inv(s) && Quiet(s, s')
    ensures Inv(s')
  {
    forall p | p in s'.processes ensures ProcessOk(p, s'.processes[p], s'.phase) {
      if s'.processes[p].Dispatching? { assert ProcessOk(p, s.processes[p], s.phase); }
    }
    forall ch | ch in s'.workers
      ensures QueueOk(ch, s'.workers[ch].jobs, s'.phase, s'.enqueued)
      ensures PlacingOk(ch, s'.workers[ch].placing, s'.phase, s'.enqueued, s'.calls, s'.maxAttempts)
    {
      if ch in s.workers && SameJobs(s.workers[ch], s'.workers[ch]) {
        assert QueueOk(ch, s.workers[ch].jobs, s.phase, s.enqueued);
      }
    }
  }

  predicate AtProcesses(e: Event) {
    e.Deliver? || e.Rerun? || e.Gate? || e.Abandon? || e.Pick? || e.Finish?
  }

  lemma ProcessesQuiet(s: State, e: Event)
    requires Enabled(s, e) && AtProcesses(e)
    ensures Quiet(s, Apply(s, e))
  {
  }

  lemma WorkersQuiet(s: State, e: Event)
    requires Enabled(s, e) && Housekeeping(e) && !AtProcesses(e)
    ensures Quiet(s, Apply(s, e))
  {
  }

  /** Fan-outs, registrations, stops and restarts only add idle processes and workers or drop some. */
  lemma HousekeepingIsQuiet(s: State, e: Event)
    requires Enabled(s, e) && Housekeeping(e)
    ensures Quiet(s, Apply(s, e))
  {
    if AtProcesses(e) { ProcessesQuiet(s, e); } else { WorkersQuiet(s, e); }
  }

  lemma OtherWriterKeepsInv(s: State, orders: map<Tag, OrderRow>)
    requires Inv(s) && Enabled(s, OtherWriter(orders))
    ensures Inv(Apply(s, OtherWriter(orders)))
  {
    forall t ensures TagOk(t, s.phase, orders, s.calls, s.maxAttempts) {
      assert TagOk(t, s.phase, s.orders, s.calls, s.maxAttempts);
    }
  }

  // A phase change at one tag, or at new tags, leaves everyone who does not hold that tag alone.

  predicate PhaseGrows(before: map<Tag, Phase>, after: map<Tag, Phase>) {
    forall t :: t in before ==> t in after && after[t] == before[t]
  }

  lemma InsertTags(s: State, fill: Fill, cands: seq<Candidate>, lot: int, p: Pid)
    requires TagsOk(s.phase, s.orders, s.calls, s.maxAttempts)
    ensures var w := InsertBatch(Tables(s), fill, cands, lot);
            var phase := s.phase + map t | t in Inserted(Tables(s), w) :: AtProcess(p);
            PhaseGrows(s.phase, phase) && TagsOk(phase, w.orders, s.calls, s.maxAttempts)
  {
    var w := InsertBatch(Tables(s), fill, cands, lot);
    var phase := s.phase + map t | t in Inserted(Tables(s), w) :: AtProcess(p);
    forall t
      ensures t in s.phase ==> t in phase && phase[t] == s.phase[t]
      ensures TagOk(t, phase, w.orders, s.calls, s.maxAttempts)
    {
      assert TagOk(t, s.phase, s.orders, s.calls, s.maxAttempts);
      if t in s.orders {
        InsertFrame(Tables(s), fill, cands, lot, "", t);
      }
    }
  }

  lemma InsertKeepsInv(s: State, p: Pid, links: seq<Link>, lot: int)
    requires Inv(s) && Enabled(s, Insert(p, links, lot))
    ensures Inv(AfterInsert(s, p, links, lot))
  {
    var fill := s.processes[p].fill;
    var cands := SizeLinks(fill, links, lot);
    LinksFanned(fill, links, lot);
    InsertTags(s, fill, cands, lot, p);
    var w := InsertBatch(Tables(s), fill, cands, lot);
    var phase := s.phase + map t | t in Inserted(Tables(s), w) :: AtProcess(p);
    assert ProcessOk(p, Dispatching(fill, Inserted(Tables(s), w), cands, NotYet), phase);
    assert ProcessesOk(s.processes[p := Dispatching(fill, Inserted(Tables(s), w), cands, NotYet)], phase);
  }

  /** Moving tag `t` on does not disturb processes that no longer list it. */
  lemma ProcessesAfterMove(s: State, p: Pid, to: Phase)
    requires ProcessesOk(s.processes, s.phase) && Enabled(s, Turn(p))
    requires s.processes[p].todo[0].tag in s.processes[p].inserted
    ensures var proc := s.processes[p];
            ProcessesOk(s.processes[p := proc.(todo := proc.todo[1..], picked := NotYet)],
                        s.phase[proc.todo[0].tag := to])
  {
    var proc := s.processes[p];
    var t := proc.todo[0].tag;
    var phase := s.phase[t := to];
    assert ProcessOk(p, proc, s.phase);
    assert s.phase[t] == AtProcess(p);
    assert ProcessOk(p, proc.(todo := proc.todo[1..], picked := NotYet), phase);
    forall q | q in s.processes && q != p
      ensures ProcessOk(q, s.processes[q], phase)
    {
      assert ProcessOk(q, s.processes[q], s.phase);
    }
  }

  /** Queues and placements survive a phase change at a tag none of them holds. */
  lemma WorkersAfterMove(workers: map<ChannelId, Worker>, phase: map<Tag, Phase>, enqueued: seq<Job>,
      calls: seq<Call>, max: nat,
                         t: Tag, to: Phase, more: seq<Job>)
    requires WorkersOk(workers, phase, enqueued, calls, max)
    requires t in phase && !phase[t].Queued? && !phase[t].InPlace?
    ensures WorkersOk(workers, phase[t := to], enqueued + more, calls, max)
  {
    forall ch | ch in workers
      ensures QueueOk(ch, workers[ch].jobs, phase[t := to], enqueued + more)
      ensures PlacingOk(ch, workers[ch].placing, phase[t := to], enqueued + more, calls, max)
    {
      assert QueueOk(ch, workers[ch].jobs, phase, enqueued);
    }
  }

  lemma TagsAfterMove(phase: map<Tag, Phase>, orders: map<Tag, OrderRow>, orders': map<Tag, OrderRow>,
      calls: seq<Call>, max: nat, t: Tag, to: Phase)
    requires TagsOk(phase, orders, calls, max) && orders'.Keys == orders.Keys
    requires t in phase && (phase[t].AtProcess? || phase[t].Queued?)
    ensures TagsOk(phase[t := to], orders', calls, max)
  {
    var after := phase[t := to];
    forall u ensures TagOk(u, after, orders', calls, max) {
      assert TagOk(u, phase, orders, calls, max);
    }
  }

  lemma CallsStayOk(calls: seq<Call>, enqueued: seq<Job>, more: seq<Job>)
    requires CallsOk(calls, enqueued)
    ensures CallsOk(calls, enqueued + more)
  {
    forall i | 0 <= i < |calls| ensures FromJob(enqueued + more, calls[i]) {
      assert FromJob(enqueued, calls[i]);
      var j :| 0 <= j < |enqueued| && enqueued[j].tag == calls[i].tag && enqueued[j].qty == calls[i].qty;
      assert (enqueued + more)[j] == enqueued[j];
    }
  }

  lemma SetTerminalKeys(orders: map<Tag, OrderRow>, t: Tag, status: string)
    ensures SetTerminal(orders, t, status).Keys == orders.Keys
  {
  }

  lemma HandOff(s: State, ch: ChannelId, job: Job)
    requires Inv(s) && ch in s.workers && job.tag in s.phase && s.phase[job.tag].AtProcess?
    ensures var wk := s.workers[ch];
            var workers := s.workers[ch := wk.(jobs := wk.jobs + [job])];
            && WorkersOk(workers, s.phase[job.tag := Queued(ch)], s.enqueued + [job], s.calls, s.maxAttempts)
            && EnqueuedOk(s.enqueued + [job], s.phase[job.tag := Queued(ch)])
  {
    var phase, wk := s.phase[job.tag := Queued(ch)], s.workers[ch];
    WorkersAfterMove(s.workers, s.phase, s.enqueued, s.calls, s.maxAttempts, job.tag, Queued(ch), [job]);
    assert QueueOk(ch, wk.jobs, s.phase, s.enqueued);
    assert QueueOk(ch, wk.jobs + [job], phase, s.enqueued + [job]);
  }

  lemma TurnHandsOff(s: State, p: Pid)
    requires Inv(s) && Enabled(s, Turn(p)) && Sends(s.processes[p]) && Room(s.workers, s.processes[p].picked)
    ensures Inv(AfterTurn(s, p))
  {
    var proc := s.processes[p];
    var c, ch := proc.todo[0], proc.picked.ch;
    assert ProcessOk(p, proc, s.phase);
    var job := JobFor(proc.fill, c, proc.inserted[c.tag]);
    ProcessesAfterMove(s, p, Queued(ch));
    TagsAfterMove(s.phase, s.orders, s.orders, s.calls, s.maxAttempts, c.tag, Queued(ch));
    HandOff(s, ch, job);
    CallsStayOk(s.calls, s.enqueued, [job]);
  }

  lemma TurnEnds(s: State, p: Pid)
    requires Inv(s) && Enabled(s, Turn(p)) && s.processes[p].todo[0].tag in s.processes[p].inserted
    requires s.processes[p].todo[0].qty == 0 || !Room(s.workers, s.processes[p].picked)
    ensures Inv(AfterTurn(s, p))
  {
    var proc := s.processes[p];
    var c := proc.todo[0];
    assert ProcessOk(p, proc, s.phase);
    var status := if c.qty == 0 then SKIPPED else DEAD_LETTERED;
    SetTerminalKeys(s.orders, c.tag, status);
    ProcessesAfterMove(s, p, Over);
    TagsAfterMove(s.phase, s.orders, SetTerminal(s.orders, c.tag, status), s.calls, s.maxAttempts, c.tag, Over);
    WorkersAfterMove(s.workers, s.phase, s.enqueued, s.calls, s.maxAttempts, c.tag, Over, []);
    assert s.enqueued + [] == s.enqueued;
  }

  lemma TurnKeepsInv(s: State, p: Pid)
    requires Inv(s) && Enabled(s, Turn(p))
    ensures Inv(AfterTurn(s, p))
  {
    var proc := s.processes[p];
    if proc.todo[0].tag !in proc.inserted {
      assert ProcessOk(p, proc, s.phase);
      assert ProcessOk(p, proc.(todo := proc.todo[1..], picked := NotYet), s.phase);
    } else if Sends(proc) && Room(s.workers, proc.picked) {
      TurnHandsOff(s, p);
    } else {
      TurnEnds(s, p);
    }
  }

  /** Processes hold only tags in phase `AtProcess`, so other phase changes pass them by. */
  lemma ProcessesUnmoved(processes: map<Pid, Process>, phase: map<Tag, Phase>, t: Tag, to: Phase)
    requires ProcessesOk(processes, phase) && t in phase && !phase[t].AtProcess?
    ensures ProcessesOk(processes, phase[t := to])
  {
    forall p | p in processes ensures ProcessOk(p, processes[p], phase[t := to]) {
      assert ProcessOk(p, processes[p], phase);
    }
  }

  lemma TakeKeepsInv(s: State, ch: ChannelId)
    requires Inv(s) && Enabled(s, Take(ch))
    ensures Inv(Apply(s, Take(ch)))
  {
    var wk := s.workers[ch];
    var job := wk.jobs[0];
    var phase := s.phase[job.tag := InPlace(ch)];
    assert QueueOk(ch, wk.jobs, s.phase, s.enqueued);
    assert TagOk(job.tag, s.phase, s.orders, s.calls, s.maxAttempts);
    ProcessesUnmoved(s.processes, s.phase, job.tag, InPlace(ch));
    TagsAfterMove(s.phase, s.orders, s.orders, s.calls, s.maxAttempts, job.tag, InPlace(ch));
    assert QueueOk(ch, wk.jobs[1..], phase, s.enqueued);
    assert PlacingOk(ch, Some(Placing(job, 0)), phase, s.enqueued, s.calls, s.maxAttempts);
    forall c | c in s.workers && c != ch
      ensures QueueOk(c, s.workers[c].jobs, phase, s.enqueued)
      ensures PlacingOk(c, s.workers[c].placing, phase, s.enqueued, s.calls, s.maxAttempts)
    {
      assert QueueOk(c, s.workers[c].jobs, s.phase, s.enqueued);
    }
  }

  /** A call for a job in placement: only its own worker and its own tag are concerned. */
  lemma AttemptWorkers(s: State, ch: ChannelId, reply: Reply, phase: map<Tag, Phase>, placing: Option<Placing>)
    requires Inv(s) && Enabled(s, Attempt(ch, reply))
    requires var job := s.workers[ch].placing.value.job;
             var call := Call(job.tag, job.qty, reply);
             && (phase == s.phase || phase == s.phase[job.tag := Over])
             && PlacingOk(ch, placing, phase, s.enqueued, s.calls + [call], s.maxAttempts)
    ensures var wk := s.workers[ch];
            var call := Call(wk.placing.value.job.tag, wk.placing.value.job.qty, reply);
            WorkersOk(s.workers[ch := wk.(placing := placing)], phase, s.enqueued, s.calls + [call], s.maxAttempts)
  {
    var wk := s.workers[ch];
    var job := wk.placing.value.job;
    var call := Call(job.tag, job.qty, reply);
    assert PlacingOk(ch, wk.placing, s.phase, s.enqueued, s.calls, s.maxAttempts);
    assert QueueOk(ch, wk.jobs, s.phase, s.enqueued);
    assert QueueOk(ch, wk.jobs, phase, s.enqueued);
    forall c | c in s.workers && c != ch
      ensures QueueOk(c, s.workers[c].jobs, phase, s.enqueued)
      ensures PlacingOk(c, s.workers[c].placing, phase, s.enqueued, s.calls + [call], s.maxAttempts)
    {
      assert QueueOk(c, s.workers[c].jobs, s.phase, s.enqueued);
      assert PlacingOk(c, s.workers[c].placing, s.phase, s.enqueued, s.calls, s.maxAttempts);
      if s.workers[c].placing.Some? {
        CountAppend(s.calls, call, s.workers[c].placing.value.job.tag);
      }
    }
  }

  lemma AttemptTags(s: State, ch: ChannelId, reply: Reply, phase: map<Tag, Phase>, orders: map<Tag, OrderRow>)
    requires Inv(s) && Enabled(s, Attempt(ch, reply)) && orders.Keys == s.orders.Keys
    requires phase == s.phase || phase == s.phase[s.workers[ch].placing.value.job.tag := Over]
    ensures var job := s.workers[ch].placing.value.job;
            TagsOk(phase, orders, s.calls + [Call(job.tag, job.qty, reply)], s.maxAttempts)
  {
    var job := s.workers[ch].placing.value.job;
    var call := Call(job.tag, job.qty, reply);
    assert PlacingOk(ch, s.workers[ch].placing, s.phase, s.enqueued, s.calls, s.maxAttempts);
    forall t ensures TagOk(t, phase, orders, s.calls + [call], s.maxAttempts) {
      assert TagOk(t, s.phase, s.orders, s.calls, s.maxAttempts);
      CountAppend(s.calls, call, t);
    }
  }

  /** What a call changes: the log, its worker's count or its end, and then its own phase. */
  lemma AttemptShape(s: State, ch: ChannelId, reply: Reply)
    requires Enabled(s, Attempt(ch, reply))
    ensures var Placing(job, made) := s.workers[ch].placing.value;
            var s' := AfterAttempt(s, ch, reply);
            var again := Retries(reply, made + 1, s.maxAttempts);
            && s'.processes == s.processes && s'.enqueued == s.enqueued
            && s'.calls == s.calls + [Call(job.tag, job.qty, reply)] && s'.orders.Keys == s.orders.Keys
            && s'.phase == (if again then s.phase else s.phase[job.tag := Over])
            && s'.workers == s.workers[ch :=
                 s.workers[ch].(placing := if again then Some(Placing(job, made + 1)) else None)]
  {
  }

  /** A call that is retried was no success and not the last. */
  lemma RetriedPlacing(ch: ChannelId, job: Job, made: nat, phase: map<Tag, Phase>, enqueued: seq<Job>,
      calls: seq<Call>, max: nat, reply: Reply)
    requires PlacingOk(ch, Some(Placing(job, made)), phase, enqueued, calls, max) && Retries(reply, made + 1, max)
    ensures PlacingOk(ch, Some(Placing(job, made + 1)), phase, enqueued, calls + [Call(job.tag, job.qty, reply)], max)
  {
    CountAppend(calls, Call(job.tag, job.qty, reply), job.tag);
  }

  lemma AttemptKeepsInv(s: State, ch: ChannelId, reply: Reply)
    requires Inv(s) && Enabled(s, Attempt(ch, reply))
    ensures Inv(AfterAttempt(s, ch, reply))
  {
    var Placing(job, made) := s.workers[ch].placing.value;
    var s' := AfterAttempt(s, ch, reply);
    assert PlacingOk(ch, s.workers[ch].placing, s.phase, s.enqueued, s.calls, s.maxAttempts);
    AttemptShape(s, ch, reply);
    if Retries(reply, made + 1, s.maxAttempts) {
      RetriedPlacing(ch, job, made, s.phase, s.enqueued, s.calls, s.maxAttempts, reply);
    }
    AttemptTags(s, ch, reply, s'.phase, s'.orders);
    AttemptWorkers(s, ch, reply, s'.phase, s'.workers[ch].placing);
    AttemptRest(s, s'.phase, job, reply);
  }

  lemma AttemptRest(s: State, phase: map<Tag, Phase>, job: Job, reply: Reply)
    requires ProcessesOk(s.processes, s.phase) && EnqueuedOk(s.enqueued, s.phase) && CallsOk(s.calls, s.enqueued)
    requires job in s.enqueued && job.tag in s.phase && s.phase[job.tag].InPlace?
    requires phase == s.phase || phase == s.phase[job.tag := Over]
    ensures ProcessesOk(s.processes, phase) && EnqueuedOk(s.enqueued, phase)
    ensures CallsOk(s.calls + [Call(job.tag, job.qty, reply)], s.enqueued)
  {
    ProcessesUnmoved(s.processes, s.phase, job.tag, Over);
    assert FromJob(s.enqueued, Call(job.tag, job.qty, reply));
  }

  lemma StepKeepsInv(s: State, e: Event)
    requires Inv(s) && Enabled(s, e)
    ensures Inv(Apply(s, e))
  {
    match e
    case Insert(p, links, lot) => InsertKeepsInv(s, p, links, lot);
    case Turn(p) => TurnKeepsInv(s, p);
    case Take(ch) => TakeKeepsInv(s, ch);
    case Attempt(ch, reply) => AttemptKeepsInv(s, ch, reply);
    case OtherWriter(orders) => OtherWriterKeepsInv(s, orders);
    case _ =>
      HousekeepingIsQuiet(s, e);
      QuietKeepsInv(s, Apply(s, e));
  }

  // ---------------------------------------------------------------- every run

  predicate IsRun(run: seq<State>, events: seq<Event>, maxRetries: int) {
    && |run| == |events| + 1 && run[0] == Init(maxRetries)
    && (forall i :: 0 <= i < |events| ==> Enabled(run[i], events[i]) && run[i + 1] == Apply(run[i], events[i]))
  }

  lemma {:induction false} RunInv(run: seq<State>, events: seq<Event>, maxRetries: int, k: nat)
    requires IsRun(run, events, maxRetries) && k < |run|
    ensures Inv(run[k]) && run[k].maxAttempts == MaxAttempts(maxRetries)
  {
    if k == 0 {
      InitInv(maxRetries);
    } else {
      RunInv(run, events, maxRetries, k - 1);
      var i := k - 1;
      assert Enabled(run[i], events[i]) && run[i + 1] == Apply(run[i], events[i]);
      StepKeepsInv(run[i], events[i]);
    }
  }

  /** What the protocol promises for one tag. */
  predicate PlacedAtMostOnce(s: State, t: Tag, max: nat) {
    && (forall i, j :: 0 <= i < j < |s.enqueued| ==> !(s.enqueued[i].tag == t && s.enqueued[j].tag == t))
    && CallsFor(s.calls, t) <= max
    && AcceptsFor(s.calls, t) <= 1
    && (forall i :: 0 <= i < |s.calls| && s.calls[i].tag == t ==> FromJob(s.enqueued, s.calls[i]))
    && (forall i, j :: 0 <= i < j < |s.calls| && s.calls[i].tag == t && s.calls[j].tag == t ==>
          s.calls[i].qty == s.calls[j].qty)
  }

  /** At every state of every run, each (fill, follower) pair has at most one handed-off job, at most
      max(1, MaxRetries) broker calls, all for that job's tag and quantity, and at most one
      accepted call. */
  lemma AtMostOnce(run: seq<State>, events: seq<Event>, maxRetries: int, k: nat, fillId: int, follower: AccountId)
    requires IsRun(run, events, maxRetries) && k < |run|
    ensures PlacedAtMostOnce(run[k], CopyTag(fillId, follower), MaxAttempts(maxRetries))
  {
    RunInv(run, events, maxRetries, k);
    InvGivesAtMostOnce(run[k], CopyTag(fillId, follower));
  }

  lemma InvGivesAtMostOnce(s: State, t: Tag)
    requires Inv(s)
    ensures PlacedAtMostOnce(s, t, s.maxAttempts)
  {
    assert TagOk(t, s.phase, s.orders, s.calls, s.maxAttempts);
    forall i, j | 0 <= i < j < |s.calls| && s.calls[i].tag == t && s.calls[j].tag == t
      ensures s.calls[i].qty == s.calls[j].qty
    {
      assert FromJob(s.enqueued, s.calls[i]) && FromJob(s.enqueued, s.calls[j]);
    }
  }

  // ---------------------------------------------------------------- the pool behind the steps

  /** Registered followers have queues, each its own. */
  predicate LiveFits(live: map<AccountId, ChannelId>, workers: map<ChannelId, Worker>) {
    forall f :: f in live ==> live[f] in workers && workers[live[f]].follower == f
  }

  lemma TurnKeepsQueues(s: State, p: Pid)
    requires Enabled(s, Turn(p))
    ensures AfterTurn(s, p).live == s.live && SameQueues(s.workers, AfterTurn(s, p).workers)
  {
  }

  lemma AttemptKeepsQueues(s: State, ch: ChannelId, reply: Reply)
    requires Enabled(s, Attempt(ch, reply))
    ensures AfterAttempt(s, ch, reply).live == s.live && SameQueues(s.workers, AfterAttempt(s, ch, reply).workers)
  {
  }

  lemma StepKeepsLive(s: State, e: Event)
    requires LiveFits(s.live, s.workers) && Enabled(s, e)
    ensures LiveFits(Apply(s, e).live, Apply(s, e).workers)
  {
    if e.Turn? { TurnKeepsQueues(s, e.p); }
    if e.Attempt? { AttemptKeepsQueues(s, e.ch, e.reply); }
  }

  lemma {:induction false} RunKeepsLive(run: seq<State>, events: seq<Event>, maxRetries: int, k: nat)
    requires IsRun(run, events, maxRetries) && k < |run|
    ensures LiveFits(run[k].live, run[k].workers)
  {
    if k > 0 {
      var i := k - 1;
      RunKeepsLive(run, events, maxRetries, i);
      assert Enabled(run[i], events[i]) && run[i + 1] == Apply(run[i], events[i]);
      StepKeepsLive(run[i], events[i]);
    }
  }

  /** The pool as a caller sees it: each registered follower's current queue. */
  function PoolOf(live: map<AccountId, ChannelId>, workers: map<ChannelId, Worker>): map<AccountId, Channel>
    requires LiveFits(live, workers)
  {
    map f | f in live :: Channel(workers[live[f]].capacity, workers[live[f]].jobs)
  }

  /** The register and unregister steps are the pool's operations: a fresh empty queue for that follower,
      or none, and every other follower's queue as it was. */
  lemma RegisterSteps(s: State, f: AccountId, capacity: nat, ch: ChannelId)
    requires LiveFits(s.live, s.workers) && Enabled(s, Register(f, capacity, ch))
    ensures var r, u := Apply(s, Register(f, capacity, ch)), Apply(s, Unregister(f));
            && LiveFits(r.live, r.workers) && LiveFits(u.live, u.workers)
            && PoolOf(r.live, r.workers) == Registered(PoolOf(s.live, s.workers), f, capacity)
            && PoolOf(u.live, u.workers) == Unregistered(PoolOf(s.live, s.workers), f)
  {
    var r, u := Apply(s, Register(f, capacity, ch)), Apply(s, Unregister(f));
    SameMap(PoolOf(r.live, r.workers), Registered(PoolOf(s.live, s.workers), f, capacity));
    SameMap(PoolOf(u.live, u.workers), Unregistered(PoolOf(s.live, s.workers), f));
  }

  /** One more job in the queue a follower is registered under is one more in that follower's queue of
      the pool, and in no other. */
  lemma SendView(live: map<AccountId, ChannelId>, workers: map<ChannelId, Worker>, f: AccountId, job: Job)
    requires LiveFits(live, workers) && f in live
    ensures var wk := workers[live[f]];
            var sent := workers[live[f] := wk.(jobs := wk.jobs + [job])];
            LiveFits(live, sent) && PoolOf(live, sent) == Send(PoolOf(live, workers), f, job)
  {
    var wk := workers[live[f]];
    var sent := workers[live[f] := wk.(jobs := wk.jobs + [job])];
    SameMap(PoolOf(live, sent), Send(PoolOf(live, workers), f, job));
  }

  /** A pick with its turn right after it. */
  function HandOver(s: State, p: Pid): State
    requires Enabled(s, Pick(p))
  {
    AfterTurn(Apply(s, Pick(p)), p)
  }

  lemma HandOverWorkers(s: State, p: Pid)
    requires LiveFits(s.live, s.workers) && Enabled(s, Pick(p))
    ensures var proc := s.processes[p];
            var f := proc.todo[0].follower;
            var job := JobFor(proc.fill, proc.todo[0], proc.inserted[proc.todo[0].tag]);
            HandOver(s, p).workers ==
            if f in s.live && |s.workers[s.live[f]].jobs| < s.workers[s.live[f]].capacity
            then s.workers[s.live[f] := s.workers[s.live[f]].(jobs := s.workers[s.live[f]].jobs + [job])]
            else s.workers
  {
  }

  /** It is the pool's non-blocking hand-off: sent if and only if the follower has a queue with room. */
  lemma HandOffSteps(s: State, p: Pid)
    requires LiveFits(s.live, s.workers) && Enabled(s, Pick(p))
    ensures var proc := s.processes[p];
            var c := proc.todo[0];
            var pool := PoolOf(s.live, s.workers);
            var s' := HandOver(s, p);
            LiveFits(s'.live, s'.workers) && PoolOf(s'.live, s'.workers) ==
            if HasRoom(pool, c.follower) then Send(pool, c.follower, JobFor(proc.fill, c, proc.inserted[c.tag]))
            else pool
  {
    var proc := s.processes[p];
    var c := proc.todo[0];
    HandOverWorkers(s, p);
    if c.follower in s.live {
      SendView(s.live, s.workers, c.follower, JobFor(proc.fill, c, proc.inserted[c.tag]));
    }
  }

  /** What registration drops: a job waiting in a follower's queue is in no queue of the pool afterwards. */
  lemma RegisterDrops(s: State, f: AccountId, capacity: nat, ch: ChannelId, job: Job)
    requires Inv(s) && LiveFits(s.live, s.workers) && Enabled(s, Register(f, capacity, ch))
    requires f in s.live && job in PoolOf(s.live, s.workers)[f].jobs
    ensures var s' := Apply(s, Register(f, capacity, ch));
            && LiveFits(s'.live, s'.workers)
            && forall g :: g in s'.live ==> job !in PoolOf(s'.live, s'.workers)[g].jobs
  {
    var s' := Apply(s, Register(f, capacity, ch));
    forall g | g in s'.live ensures job !in PoolOf(s'.live, s'.workers)[g].jobs {
      if g != f {
        assert QueueOk(s.live[g], s.workers[s.live[g]].jobs, s.phase, s.enqueued);
        assert QueueOk(s.live[f], s.workers[s.live[f]].jobs, s.phase, s.enqueued);
      }
    }
  }

  // ---------------------------------------------------------------- which fill a job names

  /** A copied order's row names the fill and follower of its tag. */
  predicate RowsTell(orders: map<Tag, OrderRow>) {
    forall t :: t in orders && t.CopyTag? ==> orders[t].fillId == t.fillId && orders[t].follower == t.follower
  }

  /** So does a job. */
  predicate JobsTell(jobs: seq<Job>) {
    forall i :: 0 <= i < |jobs| ==> jobs[i].tag == CopyTag(jobs[i].fillId, jobs[i].follower)
  }

  predicate ProcessTells(proc: Process) {
    proc.Dispatching? ==> Fanned(proc.fill, proc.todo)
  }

  predicate Tells(s: State) {
    RowsTell(s.orders) && JobsTell(s.enqueued) && forall p :: p in s.processes ==> ProcessTells(s.processes[p])
  }

  lemma {:induction false} InsertTells(w: World, fill: Fill, cands: seq<Candidate>, lot: int)
    requires RowsTell(w.orders) && Fanned(fill, cands)
    ensures RowsTell(InsertBatch(w, fill, cands, lot).orders)
  {
    if cands != [] { InsertTells(w, fill, cands[..|cands| - 1], lot); }
  }

  lemma SettledTells(orders: map<Tag, OrderRow>, t: Tag, status: string)
    requires RowsTell(orders)
    ensures RowsTell(SetTerminal(orders, t, status))
  {
  }

  lemma OneMoreTells(jobs: seq<Job>, fill: Fill, c: Candidate, id: int)
    requires JobsTell(jobs) && c.tag == CopyTag(fill.id, c.follower)
    ensures JobsTell(jobs + [JobFor(fill, c, id)])
  {
  }

  lemma TailFanned(fill: Fill, cands: seq<Candidate>)
    requires Fanned(fill, cands) && cands != []
    ensures Fanned(fill, cands[1..]) && cands[0].tag == CopyTag(fill.id, cands[0].follower)
  {
  }

  /** What a turn leaves of the rows, the hand-offs and the processes. */
  lemma TurnLeaves(s: State, p: Pid)
    requires Enabled(s, Turn(p))
    ensures var s', proc := AfterTurn(s, p), s.processes[p];
            var c := proc.todo[0];
            && (|| s'.orders == s.orders || s'.orders == SetTerminal(s.orders, c.tag, SKIPPED)
                || s'.orders == SetTerminal(s.orders, c.tag, DEAD_LETTERED))
            && (|| s'.enqueued == s.enqueued
                || (c.tag in proc.inserted && s'.enqueued == s.enqueued + [JobFor(proc.fill, c, proc.inserted[c.tag])]))
            && s'.processes == s.processes[p := proc.(todo := proc.todo[1..], picked := NotYet)]
  {
  }

  lemma TurnTells(s: State, p: Pid)
    requires Tells(s) && Enabled(s, Turn(p))
    ensures Tells(AfterTurn(s, p))
  {
    var proc := s.processes[p];
    var c := proc.todo[0];
    assert ProcessTells(proc);
    TurnLeaves(s, p);
    TailFanned(proc.fill, proc.todo);
    SettledTells(s.orders, c.tag, SKIPPED);
    SettledTells(s.orders, c.tag, DEAD_LETTERED);
    if c.tag in proc.inserted { OneMoreTells(s.enqueued, proc.fill, c, proc.inserted[c.tag]); }
  }

  lemma AttemptTells(s: State, ch: ChannelId, reply: Reply)
    requires Tells(s) && Enabled(s, Attempt(ch, reply))
    ensures Tells(AfterAttempt(s, ch, reply))
  {
  }

  lemma StepTells(s: State, e: Event)
    requires Tells(s) && Enabled(s, e) && (e.OtherWriter? ==> RowsTell(e.orders))
    ensures Tells(Apply(s, e))
  {
    match e
    case Insert(p, links, lot) =>
      var fill := s.processes[p].fill;
      LinksFanned(fill, links, lot);
      InsertTells(Tables(s), fill, SizeLinks(fill, links, lot), lot);
    case Turn(p) => TurnTells(s, p);
    case Attempt(ch, reply) => AttemptTells(s, ch, reply);
    case _ =>
  }

  lemma {:induction false} RunTells(run: seq<State>, events: seq<Event>, maxRetries: int, k: nat)
    requires IsRun(run, events, maxRetries) && k < |run|
    requires forall i :: 0 <= i < k && events[i].OtherWriter? ==> RowsTell(events[i].orders)
    ensures Tells(run[k])
  {
    if k > 0 {
      var i := k - 1;
      RunTells(run, events, maxRetries, i);
      assert Enabled(run[i], events[i]) && run[i + 1] == Apply(run[i], events[i]);
      StepTells(run[i], events[i]);
    }
  }

  /** A job handed to a worker names the fill its order's row names, as long as no other writer changes a
      row's fill or follower. */
  lemma JobNamesRowsFill(run: seq<State>, events: seq<Event>, maxRetries: int, k: nat, job: Job)
    requires IsRun(run, events, maxRetries) && k < |run| && job in run[k].enqueued && job.tag in run[k].orders
    requires forall i :: 0 <= i < k && events[i].OtherWriter? ==> RowsTell(events[i].orders)
    ensures run[k].orders[job.tag].fillId == job.fillId && run[k].orders[job.tag].follower == job.follower
  {
    RunTells(run, events, maxRetries, k);
  }

  // ---------------------------------------------------------------- what a job trades

  /** Stored fills sit under their own serial numbers, below the next. */
  predicate FillsFit(fills: map<int, Fill>, nextFill: int) {
    forall id :: id in fills ==> fills[id].id == id && id < nextFill
  }

  predicate Known(fills: map<int, Fill>, fill: Fill) {
    fill.id in fills && fills[fill.id] == fill
  }

  /** A job trades what its stored fill traded. */
  predicate Copies(fills: map<int, Fill>, job: Job) {
    job.fillId in fills && SameTrade(job, fills[job.fillId]) && PricedAs(job, fills[job.fillId])
  }

  predicate FillsKnown(s: State) {
    FillsFit(s.fills, s.nextFill) && ProcessesKnown(s.fills, s.processes) && AllCopy(s.fills, s.enqueued)
  }

  predicate ProcessesKnown(fills: map<int, Fill>, processes: map<Pid, Process>) {
    forall p :: p in processes ==> Known(fills, processes[p].fill)
  }

  predicate AllCopy(fills: map<int, Fill>, jobs: seq<Job>) {
    forall i :: 0 <= i < |jobs| ==> Copies(fills, jobs[i])
  }

  lemma TurnFillsKnown(s: State, p: Pid)
    requires FillsKnown(s) && Enabled(s, Turn(p))
    ensures FillsKnown(AfterTurn(s, p))
  {
    var proc := s.processes[p];
    var c := proc.todo[0];
    TurnLeaves(s, p);
    if c.tag in proc.inserted { JobCopiesFill(s.fills, proc.fill, c, proc.inserted[c.tag]); }
  }

  lemma JobCopiesFill(fills: map<int, Fill>, fill: Fill, c: Candidate, id: int)
    requires Known(fills, fill)
    ensures Copies(fills, JobFor(fill, c, id))
  {
    FanOut.JobCopies(fill, c, id);
  }

  lemma DeliverFillsKnown(s: State, fill: Fill, p: Pid)
    requires FillsKnown(s) && Enabled(s, Deliver(fill, p))
    ensures FillsKnown(Apply(s, Deliver(fill, p)))
  {
  }

  /** Steps other than a delivery and a turn leave the fills and the hand-offs alone. */
  lemma StepFills(s: State, e: Event)
    requires Enabled(s, e) && !e.Deliver?
    ensures Apply(s, e).fills == s.fills && Apply(s, e).nextFill == s.nextFill
    ensures !e.Turn? ==> Apply(s, e).enqueued == s.enqueued
  {
  }

  /** A process is of a fill it had before, or of a stored one. */
  lemma StepProcess(s: State, e: Event, p: Pid)
    requires Enabled(s, e) && !e.Deliver? && p in Apply(s, e).processes
    ensures var fill := Apply(s, e).processes[p].fill;
            || (p in s.processes && s.processes[p].fill == fill)
            || (e.Rerun? && e.fillId in s.fills && s.fills[e.fillId] == fill)
  {
  }

  lemma OtherFillsKnown(s: State, e: Event)
    requires FillsKnown(s) && Enabled(s, e) && !e.Deliver? && !e.Turn?
    ensures FillsKnown(Apply(s, e))
  {
    StepFills(s, e);
    forall p | p in Apply(s, e).processes ensures Known(s.fills, Apply(s, e).processes[p].fill) {
      StepProcess(s, e, p);
    }
  }

  lemma StepFillsKnown(s: State, e: Event)
    requires FillsKnown(s) && Enabled(s, e)
    ensures FillsKnown(Apply(s, e))
  {
    if e.Deliver? {
      DeliverFillsKnown(s, e.fill, e.p);
    } else if e.Turn? {
      TurnFillsKnown(s, e.p);
    } else {
      OtherFillsKnown(s, e);
    }
  }

  /** At every state of every run, each job handed to a worker names a stored fill, and its exchange,
      symbol, side, product, order type and prices are that fill's. */
  lemma {:induction false} JobsCopyFills(run: seq<State>, events: seq<Event>, maxRetries: int, k: nat)
    requires IsRun(run, events, maxRetries) && k < |run|
    ensures FillsKnown(run[k])
    ensures forall job :: job in run[k].enqueued ==>
              && job.fillId in run[k].fills
              && SameTrade(job, run[k].fills[job.fillId]) && PricedAs(job, run[k].fills[job.fillId])
  {
    if k > 0 {
      var i := k - 1;
      JobsCopyFills(run, events, maxRetries, i);
      assert Enabled(run[i], events[i]) && run[i + 1] == Apply(run[i], events[i]);
      StepFillsKnown(run[i], events[i]);
    }
    assert forall job :: job in run[k].enqueued ==> Copies(run[k].fills, job);
  }

  // ---------------------------------------------------------------- which deliveries count

  /** A delivery is stored under the next serial number and processed, unless a stored fill is alike. */
  lemma DeliverIff(s: State, fill: Fill, p: Pid)
    requires Enabled(s, Deliver(fill, p))
    ensures var s' := Apply(s, Deliver(fill, p));
            if exists id :: id in s.fills && s.fills[id].master == fill.master && s.fills[id].qty == fill.qty
                 && s.fills[id].brokerOrderId == fill.brokerOrderId && s.fills[id].status == fill.status
            then s' == s
            else
              && s'.fills == s.fills[s.nextFill := fill.(id := s.nextFill)]
              && s'.processes == s.processes[p := Arrived(fill.(id := s.nextFill))]
              && s'.orders == s.orders && s'.enqueued == s.enqueued && s'.calls == s.calls
  {
  }

  predicate NoneAlike(fills: map<int, Fill>) {
    forall a, b :: a in fills && b in fills && SameSignal(fills[a], fills[b]) ==> a == b
  }

  lemma DeliverNoneAlike(s: State, fill: Fill, p: Pid)
    requires NoneAlike(s.fills) && Enabled(s, Deliver(fill, p))
    ensures NoneAlike(Apply(s, Deliver(fill, p)).fills)
  {
    DeliverIff(s, fill, p);
  }

  /** However often a fill is delivered, no two stored fills are alike, in any run. */
  lemma {:induction false} FillsDiffer(run: seq<State>, events: seq<Event>, maxRetries: int, k: nat)
    requires IsRun(run, events, maxRetries) && k < |run|
    ensures NoneAlike(run[k].fills)
  {
    if k > 0 {
      var i := k - 1;
      FillsDiffer(run, events, maxRetries, i);
      assert Enabled(run[i], events[i]) && run[i + 1] == Apply(run[i], events[i]);
      if events[i].Deliver? {
        DeliverNoneAlike(run[i], events[i].fill, events[i].p);
      } else {
        StepFills(run[i], events[i]);
      }
    }
  }

  // ---------------------------------------------------------------- the kill switch

  /** The process got past the kill switch and can still insert or hand off. */
  predicate PastGate(processes: map<Pid, Process>, p: Pid) {
    p in processes && !processes[p].Arrived?
  }

  /** Who is past the gate was so before, with the same fill. */
  predicate NoneNewPast(before: map<Pid, Process>, after: map<Pid, Process>) {
    forall p :: p in after && PastGate(after, p) ==> PastGate(before, p) && after[p].fill == before[p].fill
  }

  /** The job is of a process that was past the gate. */
  predicate OfPast(processes: map<Pid, Process>, job: Job) {
    exists p :: p in processes && PastGate(processes, p) && processes[p].fill.id == job.fillId
  }

  /** Since `start` nobody got past the gate, and only processes past it then handed anything off. */
  predicate HeldBack(start: State, s: State) {
    && s.killed && NoneNewPast(start.processes, s.processes) && start.enqueued <= s.enqueued
    && (forall j :: |start.enqueued| <= j < |s.enqueued| ==> OfPast(start.processes, s.enqueued[j]))
  }

  lemma TurnHeldBack(start: State, s: State, p: Pid)
    requires HeldBack(start, s) && Enabled(s, Turn(p))
    ensures HeldBack(start, AfterTurn(s, p))
  {
    TurnLeaves(s, p);
    assert PastGate(s.processes, p);
    assert PastGate(start.processes, p) && start.processes[p].fill.id == s.processes[p].fill.id;
  }

  lemma StepHeldBack(start: State, s: State, e: Event)
    requires HeldBack(start, s) && Enabled(s, e) && e != Toggle(false) && e != Restart
    ensures HeldBack(start, Apply(s, e))
  {
    if e.Turn? { TurnHeldBack(start, s, e.p); }
  }

  /** Once the kill switch is on, and while it is not released and the engine not restarted, every job
      handed off is of a fill whose processing was past the gate when it went on. */
  lemma {:induction false} KillSwitchHolds(run: seq<State>, events: seq<Event>, maxRetries: int, i: nat, k: nat)
    requires IsRun(run, events, maxRetries) && i < k < |run| && events[i] == Toggle(true)
    requires forall j :: i < j < k ==> events[j] != Toggle(false) && events[j] != Restart
    ensures HeldBack(run[i], run[k])
  {
    assert run[k] == Apply(run[k - 1], events[k - 1]) && Enabled(run[k - 1], events[k - 1]);
    if i < k - 1 {
      KillSwitchHolds(run, events, maxRetries, i, k - 1);
      StepHeldBack(run[i], run[k - 1], events[k - 1]);
    }
  }

  /** The gate holds a process back exactly while the switch is on. */
  lemma GateHolds(s: State, p: Pid)
    requires Enabled(s, Gate(p))
    ensures PastGate(Apply(s, Gate(p)).processes, p) <==> !s.killed
    ensures !Apply(s, Toggle(false)).killed && Apply(s, Toggle(true)).killed
  {
  }

  // ---------------------------------------------------------------- which row a job is of

  /** Known rows keep their ids and quantities. */
  predicate KeepsRows(before: map<Tag, OrderRow>, after: map<Tag, OrderRow>) {
    forall t :: t in before ==> t in after && after[t].id == before[t].id && after[t].qty == before[t].qty
  }

  predicate OfRow(orders: map<Tag, OrderRow>, t: Tag, id: int, qty: int) {
    t in orders && orders[t].id == id && orders[t].qty == qty
  }

  predicate CandidatesOfRows(orders: map<Tag, OrderRow>, proc: Process) {
    proc.Dispatching? ==>
      forall i :: 0 <= i < |proc.todo| && proc.todo[i].tag in proc.inserted ==>
        OfRow(orders, proc.todo[i].tag, proc.inserted[proc.todo[i].tag], proc.todo[i].qty)
  }

  predicate JobsOfRows(orders: map<Tag, OrderRow>, jobs: seq<Job>) {
    forall i :: 0 <= i < |jobs| ==> OfRow(orders, jobs[i].tag, jobs[i].orderId, jobs[i].qty)
  }

  predicate RowsKept(orders: map<Tag, OrderRow>, processes: map<Pid, Process>, enqueued: seq<Job>) {
    JobsOfRows(orders, enqueued) && forall p :: p in processes ==> CandidatesOfRows(orders, processes[p])
  }

  lemma RowsStay(before: map<Tag, OrderRow>, after: map<Tag, OrderRow>, processes: map<Pid, Process>,
    enqueued: seq<Job>)
    requires RowsKept(before, processes, enqueued) && KeepsRows(before, after)
    ensures RowsKept(after, processes, enqueued)
  {
    forall p | p in processes ensures CandidatesOfRows(after, processes[p]) {
      assert CandidatesOfRows(before, processes[p]);
    }
  }

  lemma {:induction false} InsertKeepsRows(w: World, fill: Fill, cands: seq<Candidate>, lot: int)
    ensures KeepsRows(w.orders, InsertBatch(w, fill, cands, lot).orders)
  {
    if cands != [] { InsertKeepsRows(w, fill, cands[..|cands| - 1], lot); }
  }

  lemma InsertedOfRows(s: State, fill: Fill, links: seq<Link>, lot: int)
    requires DistinctFollowers(links)
    ensures var cands := SizeLinks(fill, links, lot);
            var w := InsertBatch(Tables(s), fill, cands, lot);
            CandidatesOfRows(w.orders, Dispatching(fill, Inserted(Tables(s), w), cands, NotYet))
  {
    var cands := SizeLinks(fill, links, lot);
    var w := InsertBatch(Tables(s), fill, cands, lot);
    var inserted := Inserted(Tables(s), w);
    LinksFanned(fill, links, lot);
    forall i | 0 <= i < |cands| && cands[i].tag in inserted
      ensures OfRow(w.orders, cands[i].tag, inserted[cands[i].tag], cands[i].qty)
    {
      InsertAdds(Tables(s), fill, cands, lot, i);
      assert Look(w, cands[i].follower, cands[i].tag).row == Some(NewRow(fill, cands[i], lot, s.nextId + i));
    }
  }

  lemma TurnRowsKept(s: State, p: Pid)
    requires RowsKept(s.orders, s.processes, s.enqueued) && Enabled(s, Turn(p))
    ensures var s' := AfterTurn(s, p); RowsKept(s'.orders, s'.processes, s'.enqueued)
  {
    var proc := s.processes[p];
    var s' := AfterTurn(s, p);
    TurnLeaves(s, p);
    assert CandidatesOfRows(s.orders, proc);
    var rest := proc.(todo := proc.todo[1..], picked := NotYet);
    assert CandidatesOfRows(s.orders, rest);
    var c := proc.todo[0];
    assert JobsOfRows(s.orders, s'.enqueued);
    RowsStay(s.orders, s'.orders, s'.processes, s'.enqueued);
  }

  lemma InsertRowsKept(s: State, p: Pid, links: seq<Link>, lot: int)
    requires RowsKept(s.orders, s.processes, s.enqueued) && Enabled(s, Insert(p, links, lot))
    ensures var s' := AfterInsert(s, p, links, lot); RowsKept(s'.orders, s'.processes, s'.enqueued)
  {
    var fill := s.processes[p].fill;
    InsertKeepsRows(Tables(s), fill, SizeLinks(fill, links, lot), lot);
    InsertedOfRows(s, fill, links, lot);
    RowsStay(s.orders, AfterInsert(s, p, links, lot).orders, s.processes, s.enqueued);
  }

  lemma AttemptRowsKept(s: State, ch: ChannelId, reply: Reply)
    requires Enabled(s, Attempt(ch, reply))
    ensures KeepsRows(s.orders, AfterAttempt(s, ch, reply).orders)
    ensures AfterAttempt(s, ch, reply).processes == s.processes && AfterAttempt(s, ch, reply).enqueued == s.enqueued
  {
  }

  lemma StepRowsKept(s: State, e: Event)
    requires RowsKept(s.orders, s.processes, s.enqueued) && Enabled(s, e)
    requires e.OtherWriter? ==> KeepsRows(s.orders, e.orders)
    ensures var s' := Apply(s, e); RowsKept(s'.orders, s'.processes, s'.enqueued)
  {
    match e
    case Insert(p, links, lot) => InsertRowsKept(s, p, links, lot);
    case Turn(p) => TurnRowsKept(s, p);
    case Attempt(ch, reply) =>
      AttemptRowsKept(s, ch, reply);
      RowsStay(s.orders, AfterAttempt(s, ch, reply).orders, s.processes, s.enqueued);
    case OtherWriter(orders) => RowsStay(s.orders, orders, s.processes, s.enqueued);
    case Pick(p) => assert CandidatesOfRows(s.orders, s.processes[p]);
    case _ =>
  }

  /** While other writers leave ids and quantities alone, a job handed to a worker has its row's serial
      number and quantity. */
  lemma {:induction false} JobsHaveRows(run: seq<State>, events: seq<Event>, maxRetries: int, k: nat)
    requires IsRun(run, events, maxRetries) && k < |run|
    requires forall i :: 0 <= i < k && events[i].OtherWriter? ==> KeepsRows(run[i].orders, events[i].orders)
    ensures RowsKept(run[k].orders, run[k].processes, run[k].enqueued)
    ensures forall job :: job in run[k].enqueued ==>
              && job.tag in run[k].orders
              && job.orderId == run[k].orders[job.tag].id && job.qty == run[k].orders[job.tag].qty
  {
    if k > 0 {
      var i := k - 1;
      JobsHaveRows(run, events, maxRetries, i);
      assert Enabled(run[i], events[i]) && run[i + 1] == Apply(run[i], events[i]);
      StepRowsKept(run[i], events[i]);
    }
    forall job | job in run[k].enqueued ensures OfRow(run[k].orders, job.tag, job.orderId, job.qty) {
      var j :| 0 <= j < |run[k].enqueued| && run[k].enqueued[j] == job;
    }
  }

  // ---------------------------------------------------------------- what a worker records

  /** After a broker call: an accepted order's row gets the broker id and nothing else; a rejection or a
      panic marks it rejected, a cancelled or deadline-bound call dead-lettered; a call that will be
      retried, an uninterrupted timeout before the last attempt, changes no row. */
  lemma AttemptRecords(s: State, ch: ChannelId, reply: Reply)
    requires Enabled(s, Attempt(ch, reply))
    ensures var job, attempt := s.workers[ch].placing.value.job, s.workers[ch].placing.value.made + 1;
            var orders := AfterAttempt(s, ch, reply).orders;
            && orders.Keys == s.orders.Keys
            && (forall t :: t in s.orders && t != job.tag ==> orders[t] == s.orders[t])
            && (job.tag in s.orders ==>
                  var before, after := s.orders[job.tag], orders[job.tag];
                  match reply
                  case Accepted(id) => after == before.(brokerId := Some(id))
                  case Panicked => after == before.(terminal := Some("REJECTED"))
                  case Refused(cancelled) =>
                    after == before.(terminal := Some(if cancelled then "DEAD_LETTERED" else "REJECTED"))
                  case TimedOut(deadline, interrupted) =>
                    if attempt < s.maxAttempts && !interrupted then after == before
                    else if deadline || (interrupted && attempt != s.maxAttempts) then
                      after == before.(terminal := Some("DEAD_LETTERED"))
                    else after == before.(terminal := Some("REJECTED")))
  {
  }
}
