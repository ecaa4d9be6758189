/** Rebalancing a group: which followers are targeted, how their outcomes merge under the lock, and
    where the group's imbalance flag ends. */
module GroupRebalance {
  import opened Collections
  import opened OrderBook
  import opened Positions
  import Rebalance

  // ---------------------------------------------------------------- outcomes

  /** An order a follower's rebalance placed. */
  datatype PlacedFor = PlacedFor(account: UserId, order: Rebalance.Placed)

  /** The same without the id, which depends on who placed before. */
  datatype Trade = Trade(account: UserId, key: Key, side: string, quantity: int)

  datatype Problem =
    | OrderFailed(account: UserId, listing: Listing)
    | AccountFailed(account: UserId, why: Rebalance.Refusal)
    | AccountPanicked(account: UserId)

  /** How one follower's rebalance ended. */
  datatype FollowerEnd =
    | Finished(cancelled: nat, orders: seq<PlacedFor>, errors: seq<Problem>)
    | Erred(problem: Problem)
    | Panicked(problem: Problem)

  datatype GroupResult = GroupResult(status: string, affected: nat, cancelled: nat, placed: nat,
    orders: seq<PlacedFor>, errors: seq<Problem>)

  function NoResult(affected: nat): GroupResult {
    GroupResult("completed", affected, 0, 0, [], [])
  }

  /** What the account service's report becomes. */
  function EndOf(u: UserId, t: Rebalance.Tally): FollowerEnd {
    Finished(t.cancelled,
             seq(|t.orders|, i requires 0 <= i < |t.orders| => PlacedFor(u, t.orders[i])),
             seq(|t.errors|, i requires 0 <= i < |t.errors| => OrderFailed(u, t.errors[i])))
  }

  // ---------------------------------------------------------------- merging

  function Merge(r: GroupResult, o: FollowerEnd): GroupResult {
    match o
    case Finished(c, orders, errors) =>
      r.(cancelled := r.cancelled + c, placed := r.placed + |orders|,
         orders := r.orders + orders, errors := r.errors + errors,
         status := if errors == [] then r.status else "partial")
    case Erred(m) => r.(errors := r.errors + [m], status := "partial")
    case Panicked(m) => r.(errors := r.errors + [m], status := "partial")
  }

  /** One outcome's share of the result. */
  function ErrorsOf(o: FollowerEnd): seq<Problem> {
    match o
    case Finished(_, _, errors) => errors
    case Erred(m) => [m]
    case Panicked(m) => [m]
  }

  function PlacedBy(o: FollowerEnd): seq<PlacedFor> {
    if o.Finished? then o.orders else []
  }

  function CancelledOf(o: FollowerEnd): nat {
    if o.Finished? then o.cancelled else 0
  }

  function TradeOf(p: PlacedFor): Trade {
    Trade(p.account, p.order.key, p.order.side, p.order.quantity)
  }

  function TradesOf(orders: seq<PlacedFor>): seq<Trade> {
    seq(|orders|, i requires 0 <= i < |orders| => TradeOf(orders[i]))
  }

  /** Sums over accounts, with no order to them. */
  datatype Sums = Sums(cancelled: nat, placed: nat, trades: multiset<Trade>, errors: multiset<Problem>)

  function Plus(a: Sums, b: Sums): Sums {
    Sums(a.cancelled + b.cancelled, a.placed + b.placed, a.trades + b.trades, a.errors + b.errors)
  }

  function SumOf(o: FollowerEnd): Sums {
    Sums(CancelledOf(o), |PlacedBy(o)|, multiset(TradesOf(PlacedBy(o))), multiset(ErrorsOf(o)))
  }

  const NoSums := Sums(0, 0, multiset{}, multiset{})

  /** The shares of a list of things, added up. */
  function SumAll<T>(ids: seq<T>, share: T -> Sums): Sums {
    if ids == [] then NoSums else Plus(SumAll(ids[..|ids| - 1], share), share(ids[|ids| - 1]))
  }

  lemma PlusSwaps(t: Sums, a: Sums, b: Sums)
    ensures Plus(Plus(t, a), b) == Plus(Plus(t, b), a)
  {
  }

  lemma AddLast<T>(ids: seq<T>, x: T, share: T -> Sums)
    ensures SumAll(ids + [x], share) == Plus(SumAll(ids, share), share(x))
  {
    assert (ids + [x])[..|ids|] == ids;
  }

  lemma {:induction false} AddSame<T>(ids: seq<T>, f: T -> Sums, g: T -> Sums)
    requires forall i :: 0 <= i < |ids| ==> f(ids[i]) == g(ids[i])
    ensures SumAll(ids, f) == SumAll(ids, g)
  {
    if ids != [] { AddSame(ids[..|ids| - 1], f, g); }
  }

  /** An element in the middle of a list counts as if it came last. */
  lemma {:induction false} AddMiddle<T>(left: seq<T>, x: T, right: seq<T>, share: T -> Sums)
    ensures SumAll(left + [x] + right, share) == Plus(SumAll(left + right, share), share(x))
  {
    if right == [] {
      assert left + [x] + right == left + [x] && left + right == left;
      AddLast(left, x, share);
    } else {
      var init, y := right[..|right| - 1], right[|right| - 1];
      assert left + [x] + right == left + [x] + init + [y] && left + right == left + init + [y];
      AddMiddle(left, x, init, share);
      AddLast(left + [x] + init, y, share);
      AddLast(left + init, y, share);
      PlusSwaps(SumAll(left + init, share), share(x), share(y));
    }
  }

  /** Where the last element of one list is in a permutation of it. */
  lemma LastElsewhere<T>(a: seq<T>, b: seq<T>) returns (left: seq<T>, right: seq<T>)
    requires a != [] && multiset(a) == multiset(b)
    ensures b == left + [a[|a| - 1]] + right
    ensures multiset(a[..|a| - 1]) == multiset(left + right)
  {
    var n := |a| - 1;
    assert a == a[..n] + [a[n]];
    assert a[n] in multiset(b);
    var i :| 0 <= i < |b| && b[i] == a[n];
    left, right := b[..i], b[i + 1..];
    assert b == left + [b[i]] + right;
    SameRest(a[..n], left + right, a[n], multiset(a));
  }

  lemma SameRest<T>(p: seq<T>, q: seq<T>, x: T, all: multiset<T>)
    requires all == multiset(p) + multiset{x} && all == multiset(q) + multiset{x}
    ensures multiset(p) == multiset(q)
  {
    assert multiset(p) == all - multiset{x};
    assert multiset(q) == all - multiset{x};
  }

  /** Sums do not depend on the order things come in. */
  lemma {:induction false} AddAnyOrder<T>(a: seq<T>, b: seq<T>, share: T -> Sums)
    requires multiset(a) == multiset(b)
    ensures SumAll(a, share) == SumAll(b, share)
    decreases |a|
  {
    assert |multiset(a)| == |a| && |multiset(b)| == |b|;
    if a != [] {
      var left, right := LastElsewhere(a, b);
      AddAnyOrder(a[..|a| - 1], left + right, share);
      AddMiddle(left, a[|a| - 1], right, share);
    }
  }

  predicate AllDifferent<T(==)>(s: seq<T>) {
    forall i, j :: 0 <= i < j < |s| ==> s[i] != s[j]
  }

  /** Two lists of the same things without repeats are permutations of each other. */
  lemma {:induction false} SameThings<T>(a: seq<T>, b: seq<T>)
    requires AllDifferent(a) && AllDifferent(b)
    requires forall x :: x in a <==> x in b
    ensures multiset(a) == multiset(b)
  {
    forall x: T ensures multiset(a)[x] == multiset(b)[x] {
      OnceOrNot(a, x);
      OnceOrNot(b, x);
    }
  }

  lemma {:induction false} OnceOrNot<T>(s: seq<T>, x: T)
    requires AllDifferent(s)
    ensures multiset(s)[x] == if x in s then 1 else 0
  {
    if s != [] {
      var init, last := s[..|s| - 1], s[|s| - 1];
      OnceOrNot(init, x);
      assert s == init + [last];
      assert last !in init;
    }
  }

  function SumsIn(r: GroupResult): Sums {
    Sums(r.cancelled, r.placed, multiset(TradesOf(r.orders)), multiset(r.errors))
  }

  /** What the accumulator holds after some merges: the sums so far, and "partial" iff an error. */
  predicate Tallies(r: GroupResult, affected: nat, t: Sums) {
    && r.affected == affected && SumsIn(r) == t
    && r.status == (if r.errors == [] then "completed" else "partial")
  }

  lemma TradesAppend(a: seq<PlacedFor>, b: seq<PlacedFor>)
    ensures multiset(TradesOf(a + b)) == multiset(TradesOf(a)) + multiset(TradesOf(b))
  {
    assert TradesOf(a + b) == TradesOf(a) + TradesOf(b);
  }

  /** A merge adds the outcome's share to every field. */
  lemma MergeFields(r: GroupResult, o: FollowerEnd)
    ensures Merge(r, o) == GroupResult(if ErrorsOf(o) == [] then r.status else "partial", r.affected,
                                  r.cancelled + CancelledOf(o), r.placed + |PlacedBy(o)|,
                                  r.orders + PlacedBy(o), r.errors + ErrorsOf(o))
  {
    assert r.orders + [] == r.orders;
  }

  lemma MergeSums(r: GroupResult, o: FollowerEnd)
    ensures SumsIn(Merge(r, o)) == Plus(SumsIn(r), SumOf(o))
  {
    MergeFields(r, o);
    TradesAppend(r.orders, PlacedBy(o));
    assert multiset(r.errors + ErrorsOf(o)) == multiset(r.errors) + multiset(ErrorsOf(o));
  }

  lemma MergeStatus(r: GroupResult, o: FollowerEnd)
    requires r.status == if r.errors == [] then "completed" else "partial"
    ensures var r' := Merge(r, o); r'.status == (if r'.errors == [] then "completed" else "partial")
    ensures Merge(r, o).affected == r.affected
  {
    MergeFields(r, o);
  }

  lemma MergeAdds(r: GroupResult, affected: nat, t: Sums, o: FollowerEnd)
    requires Tallies(r, affected, t)
    ensures Tallies(Merge(r, o), affected, Plus(t, SumOf(o)))
  {
    MergeSums(r, o);
    MergeStatus(r, o);
  }

  /** A follower's share, read off its own report: its cancels, its orders as trades under its name, and
      one failure for each listing its report names. */
  lemma ShareOfReport(u: UserId, t: Rebalance.Tally)
    ensures var s := SumOf(EndOf(u, t));
            && s.cancelled == t.cancelled && s.placed == |t.orders|
            && s.trades == multiset(seq(|t.orders|, i requires 0 <= i < |t.orders| =>
                                          Trade(u, t.orders[i].key, t.orders[i].side, t.orders[i].quantity)))
            && s.errors == multiset(seq(|t.errors|, i requires 0 <= i < |t.errors| => OrderFailed(u, t.errors[i])))
  {
    var trades := seq(|t.orders|, i requires 0 <= i < |t.orders| =>
                        Trade(u, t.orders[i].key, t.orders[i].side, t.orders[i].quantity));
    assert TradesOf(PlacedBy(EndOf(u, t))) == trades;
  }

  lemma EmptyIffNone<T>(s: seq<T>)
    ensures s == [] <==> multiset(s) == multiset{}
  {
    if s != [] { assert s[0] in multiset(s); }
  }

  // ---------------------------------------------------------------- which followers are targeted

  datatype GroupId = GroupId(name: string)

  /** A follower of the group as the diff finds it; an unreadable one fails the whole diff. */
  datatype Follower = Follower(id: UserId, enabled: bool, readable: bool, drifts: bool)

  predicate Active(f: Follower) {
    f.drifts && f.enabled
  }

  predicate Wanted(f: Follower, filter: seq<UserId>) {
    filter == [] || f.id in filter
  }

  function ActiveIn(fs: seq<Follower>): seq<UserId> {
    if fs == [] then []
    else
      var before, f := ActiveIn(fs[..|fs| - 1]), fs[|fs| - 1];
      if Active(f) then before + [f.id] else before
  }

  function Targets(fs: seq<Follower>, filter: seq<UserId>): seq<UserId> {
    if fs == [] then []
    else
      var before, f := Targets(fs[..|fs| - 1], filter), fs[|fs| - 1];
      if Active(f) && Wanted(f, filter) then before + [f.id] else before
  }

  /** The counts agree exactly when no active follower was filtered out. */
  lemma {:induction false} AllTargetedIff(fs: seq<Follower>, filter: seq<UserId>)
    ensures |Targets(fs, filter)| <= |ActiveIn(fs)|
    ensures |Targets(fs, filter)| == |ActiveIn(fs)| <==>
            forall i :: 0 <= i < |fs| && Active(fs[i]) ==> Wanted(fs[i], filter)
    ensures ActiveIn(fs) == [] <==> forall i :: 0 <= i < |fs| ==> !Active(fs[i])
  {
    if fs != [] {
      var init := fs[..|fs| - 1];
      AllTargetedIff(init, filter);
      forall i | 0 <= i < |fs| ensures fs[i] == if i < |init| then init[i] else fs[|fs| - 1] {}
      assert forall i :: 0 <= i < |init| ==> init[i] == fs[i];
    }
  }

  /** A drifting, enabled follower with this id, named by the filter if there is one. */
  predicate TargetAt(fs: seq<Follower>, filter: seq<UserId>, u: UserId, i: int) {
    0 <= i < |fs| && fs[i].id == u && fs[i].drifts && fs[i].enabled && (filter == [] || u in filter)
  }

  lemma {:induction false} TargetsAre(fs: seq<Follower>, filter: seq<UserId>, u: UserId)
    ensures u in Targets(fs, filter) <==> exists i :: TargetAt(fs, filter, u, i)
  {
    if fs != [] {
      var init := fs[..|fs| - 1];
      TargetsAre(init, filter, u);
      if i :| TargetAt(init, filter, u, i) { assert TargetAt(fs, filter, u, i); }
      if i :| TargetAt(fs, filter, u, i) { assert i < |init| ==> TargetAt(init, filter, u, i); }
      var f := fs[|init|];
      assert TargetAt(fs, filter, u, |init|) <==> u == f.id && Active(f) && Wanted(f, filter);
    }
  }

  lemma {:induction false} TargetsOnce(fs: seq<Follower>, filter: seq<UserId>)
    requires forall i, j :: 0 <= i < j < |fs| ==> fs[i].id != fs[j].id
    ensures AllDifferent(Targets(fs, filter))
  {
    if fs != [] {
      var n := |fs| - 1;
      TargetsOnce(fs[..n], filter);
      TargetsAre(fs[..n], filter, fs[n].id);
      assert forall i :: 0 <= i < n ==> fs[..n][i] == fs[i];
    }
  }

  /** The followers the diff reports. */
  function DriftingIn(fs: seq<Follower>): seq<Follower> {
    if fs == [] then []
    else
      var before, f := DriftingIn(fs[..|fs| - 1]), fs[|fs| - 1];
      if f.drifts then before + [f] else before
  }

  lemma {:induction false} DriftingSame(fs: seq<Follower>, filter: seq<UserId>)
    ensures var ds := DriftingIn(fs);
            ActiveIn(ds) == ActiveIn(fs) && Targets(ds, filter) == Targets(fs, filter)
            && forall f :: f in ds ==> f.drifts
  {
    if fs != [] {
      var before, f := DriftingIn(fs[..|fs| - 1]), fs[|fs| - 1];
      DriftingSame(fs[..|fs| - 1], filter);
      assert (before + [f])[..|before|] == before;
    }
  }

  predicate Readable(fs: seq<Follower>) {
    forall i :: 0 <= i < |fs| ==> fs[i].readable
  }

  lemma SomeActive(fs: seq<Follower>)
    ensures ActiveIn(fs) != [] <==> exists i :: 0 <= i < |fs| && Active(fs[i])
  {
    AllTargetedIff(fs, []);
  }

  method SelectTargets(drifts: seq<Follower>, filter: seq<UserId>) returns (targets: seq<UserId>)
    requires forall f :: f in drifts ==> f.drifts
    ensures targets == Targets(drifts, filter)
  {
    targets := [];
    for i := 0 to |drifts|
      invariant targets == Targets(drifts[..i], filter)
    {
      assert drifts[..i + 1][..i] == drifts[..i];
      if !drifts[i].enabled { continue; }
      if |filter| == 0 || drifts[i].id in filter { targets := targets + [drifts[i].id]; }
    }
    assert drifts[..|drifts|] == drifts;
  }

  method AnyEnabled(drifts: seq<Follower>) returns (active: bool)
    requires forall f :: f in drifts ==> f.drifts
    ensures active <==> exists i :: 0 <= i < |drifts| && Active(drifts[i])
  {
    for i := 0 to |drifts|
      invariant forall j :: 0 <= j < i ==> !Active(drifts[j])
    {
      if drifts[i].enabled { return true; }
    }
    return false;
  }

  method CountEnabled(drifts: seq<Follower>) returns (n: nat)
    requires forall f :: f in drifts ==> f.drifts
    ensures n == |ActiveIn(drifts)|
  {
    n := 0;
    for i := 0 to |drifts|
      invariant n == |ActiveIn(drifts[..i])|
    {
      assert drifts[..i + 1][..i] == drifts[..i];
      if drifts[i].enabled { n := n + 1; }
    }
    assert drifts[..|drifts|] == drifts;
  }

  // ---------------------------------------------------------------- where the flag ends

  /** The group's own id is missing when the store leaves it unset. */
  function OwnOr(ownId: Option<GroupId>, called: GroupId): GroupId {
    if ownId.Some? then ownId.value else called
  }

  /** Whether each of the two flag writes succeeds; a failed one is only logged. */
  datatype FlagWrites = FlagWrites(diff: bool, clear: bool)

  function FlagOf(flags: map<GroupId, bool>, id: GroupId): Option<bool> {
    if id in flags then Some(flags[id]) else None
  }

  /** The flags after the diff: under the group's own id, whether an enabled follower drifts. */
  function FlagsDiffed(flags: map<GroupId, bool>, called: GroupId, ownId: Option<GroupId>, fs: seq<Follower>,
                       written: bool): map<GroupId, bool>
  {
    if written then flags[OwnOr(ownId, called) := ActiveIn(fs) != []] else flags
  }

  /** The flags after the whole call: cleared under the id called with, if someone was targeted, nobody
      active was left out and nothing failed. */
  function FlagsAfter(flags: map<GroupId, bool>, called: GroupId, ownId: Option<GroupId>, fs: seq<Follower>,
                      filter: seq<UserId>, clean: bool, writes: FlagWrites): map<GroupId, bool>
  {
    var diffed := FlagsDiffed(flags, called, ownId, fs, writes.diff);
    if Targets(fs, filter) != [] && |Targets(fs, filter)| == |ActiveIn(fs)| && clean && writes.clear
    then diffed[called := false] else diffed
  }

  predicate SomeoneActive(fs: seq<Follower>) {
    exists i :: 0 <= i < |fs| && Active(fs[i])
  }

  /** Called under the group's own id, the flag ends false exactly when everyone who drifted and is enabled
      was targeted, nothing failed and the clearing was written; or the diff found no such follower and
      wrote that, or could not write and the flag was false before. With both writes made, that is: no
      enabled follower drifted, or all that did were targeted and nothing failed. */
  lemma FlagEndsFalseIff(flags: map<GroupId, bool>, called: GroupId, ownId: Option<GroupId>, fs: seq<Follower>,
                         filter: seq<UserId>, clean: bool, writes: FlagWrites)
    requires OwnOr(ownId, called) == called
    ensures var all := forall i :: 0 <= i < |fs| && Active(fs[i]) ==> Wanted(fs[i], filter);
            && (FlagOf(FlagsAfter(flags, called, ownId, fs, filter, clean, writes), called) == Some(false) <==>
                || (SomeoneActive(fs) && all && clean && writes.clear)
                || (if writes.diff then !SomeoneActive(fs) else FlagOf(flags, called) == Some(false)))
            && (writes == FlagWrites(true, true) ==>
                (FlagOf(FlagsAfter(flags, called, ownId, fs, filter, clean, writes), called) == Some(false) <==>
                 !SomeoneActive(fs) || (all && clean)))
  {
    AllTargetedIff(fs, filter);
    SomeActive(fs);
  }

  /** Called under another id, the group's own flag is what the diff wrote, and never clears. */
  lemma ForeignIdNeverClears(flags: map<GroupId, bool>, called: GroupId, ownId: Option<GroupId>, fs: seq<Follower>,
                             filter: seq<UserId>, clean: bool, writes: FlagWrites)
    requires OwnOr(ownId, called) != called
    ensures FlagOf(FlagsAfter(flags, called, ownId, fs, filter, clean, writes), OwnOr(ownId, called)) ==
            if writes.diff then Some(ActiveIn(fs) != []) else FlagOf(flags, OwnOr(ownId, called))
  {
  }
}
