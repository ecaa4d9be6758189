/** The instrument cache against its store, over every sequence of calls and any capacity. */
module CacheAgreement {
  import opened Collections
  import opened Text
  import opened InstrumentCache

  datatype Call =
    | LoadCall(fault: bool)
    | LotCall(exchange: string, symbol: string, fault: bool)
    | SecurityCall(exchange: string, symbol: string, fault: bool)
    | SymbolCall(segment: string, id: string)

  function Apply(c: Cache, store: Store, call: Call): Cache {
    match call
    case LoadCall(fault) => Load(c, store, fault)
    case LotCall(ex, sym, fault) => ResolveLot(c, store, ex, sym, fault).0
    case SecurityCall(ex, sym, fault) => ResolveSecurity(c, store, ex, sym, fault).0
    case SymbolCall(_, _) => c
  }

  function RunAll(capacity: nat, store: Store, calls: seq<Call>): Cache {
    if calls == [] then Cache(capacity, map[], map[])
    else Apply(RunAll(capacity, store, calls[..|calls| - 1]), store, calls[|calls| - 1])
  }

  // ---------------------------------------------------------------- structure

  predicate Normal(n: Name) {
    Norm(n.exchange) == n.exchange && Norm(n.symbol) == n.symbol
  }

  /** Bounded size, reverse targets present, names in normal form and spelled as their entry says. */
  ghost predicate Sound(c: Cache) {
    && |c.entries| <= c.capacity
    && (forall s :: s in c.reverse ==> c.reverse[s] in c.entries)
    && (forall n :: n in c.entries ==>
          Normal(n) && (c.entries[n].symbol != "" ==> Norm(c.entries[n].symbol) == n.symbol))
  }

  lemma OneMore<K, V>(m: map<K, V>, k: K, v: V)
    ensures |m[k := v]| <= |m| + 1
  {
    assert m[k := v].Keys == m.Keys + {k};
  }

  lemma KeyIsNormal(exchange: string, symbol: string)
    ensures Normal(KeyOf(exchange, symbol)) && Norm(Trim(symbol)) == KeyOf(exchange, symbol).symbol
  {
    NormIdempotent(exchange);
    NormIdempotent(symbol);
  }

  lemma KeepSound(c: Cache, n: Name, info: Info)
    requires Sound(c) && Normal(n) && (info.symbol != "" ==> Norm(info.symbol) == n.symbol)
    ensures Sound(Keep(c, n, info)) && Keep(c, n, info).capacity == c.capacity
  {
    OneMore(c.entries, n, info);
  }

  lemma LoadRowSound(c: Cache, r: Row)
    requires Sound(c) && |c.entries| < c.capacity
    ensures Sound(LoadRow(c, r))
  {
    OneMore(c.entries, RowKey(r), Info(r.lot, r.security, r.symbol));
    KeyIsNormal(r.exchange, r.symbol);
  }

  lemma {:induction false} LoadRowsSound(c: Cache, rows: seq<Row>)
    requires Sound(c)
    ensures Sound(LoadRows(c, rows)) && LoadRows(c, rows).capacity == c.capacity
  {
    if rows != [] {
      var before := LoadRows(c, rows[..|rows| - 1]);
      LoadRowsSound(c, rows[..|rows| - 1]);
      if |before.entries| < before.capacity { LoadRowSound(before, rows[|rows| - 1]); }
    }
  }

  lemma ApplySound(c: Cache, store: Store, call: Call)
    requires Sound(c)
    ensures Sound(Apply(c, store, call)) && Apply(c, store, call).capacity == c.capacity
  {
    match call
    case LoadCall(fault) => LoadRowsSound(c.(entries := map[], reverse := map[]), store.active);
    case LotCall(ex, sym, fault) => LotSound(c, store, ex, sym, fault);
    case SecurityCall(ex, sym, fault) => SecuritySound(c, store, ex, sym, fault);
    case SymbolCall(_, _) =>
  }

  lemma LotSound(c: Cache, store: Store, exchange: string, symbol: string, fault: bool)
    requires Sound(c)
    ensures var c' := ResolveLot(c, store, exchange, symbol, fault).0; Sound(c') && c'.capacity == c.capacity
  {
    var n := KeyOf(exchange, symbol);
    KeyIsNormal(exchange, symbol);
    KeepSound(c, n, Info(if n in store.lots then store.lots[n] else 0, NoSecurity, ""));
  }

  lemma SecuritySound(c: Cache, store: Store, exchange: string, symbol: string, fault: bool)
    requires Sound(c)
    ensures var c' := ResolveSecurity(c, store, exchange, symbol, fault).0; Sound(c') && c'.capacity == c.capacity
  {
    var n := KeyOf(exchange, symbol);
    var raw := Name(n.exchange, Trim(symbol));
    KeyIsNormal(exchange, symbol);
    if raw in store.securities {
      KeepSound(c, n, Info(store.securities[raw].lot, store.securities[raw].security, raw.symbol));
    }
  }

  /** At every point of every run the entries fit the capacity and every reverse target is an entry. */
  lemma {:induction false} RunSound(capacity: nat, store: Store, calls: seq<Call>)
    ensures Sound(RunAll(capacity, store, calls)) && RunAll(capacity, store, calls).capacity == capacity
  {
    if calls != [] {
      RunSound(capacity, store, calls[..|calls| - 1]);
      ApplySound(RunAll(capacity, store, calls[..|calls| - 1]), store, calls[|calls| - 1]);
    }
  }

  // ---------------------------------------------------------------- what a load leaves

  function Names(rows: seq<Row>): set<Name> {
    set i | 0 <= i < |rows| :: RowKey(rows[i])
  }

  predicate FirstOfName(rows: seq<Row>, i: nat)
    requires i < |rows|
  {
    forall j :: 0 <= j < i ==> RowKey(rows[j]) != RowKey(rows[i])
  }

  /** The row gets an entry: first of its name, and fewer names than the capacity come before it. */
  predicate Loaded(rows: seq<Row>, capacity: nat, i: nat)
    requires i < |rows|
  {
    FirstOfName(rows, i) && |Names(rows[..i])| < capacity
  }

  lemma NamesGrow(rows: seq<Row>)
    requires rows != []
    ensures Names(rows) == Names(rows[..|rows| - 1]) + {RowKey(rows[|rows| - 1])}
  {
    var init := rows[..|rows| - 1];
    assert forall i :: 0 <= i < |init| ==> init[i] == rows[i];
    forall n | n in Names(init) ensures n in Names(rows) {
      var i :| 0 <= i < |init| && RowKey(init[i]) == n;
      assert RowKey(rows[i]) == n;
    }
  }

  /** Short of capacity the entries are the names so far; a full cache has seen as many names. */
  lemma {:induction false} LoadedNames(c: Cache, rows: seq<Row>)
    requires c.entries == map[]
    ensures var c' := LoadRows(c, rows);
            && c'.capacity == c.capacity && c'.entries.Keys <= Names(rows)
            && (|c'.entries| < c.capacity ==> c'.entries.Keys == Names(rows))
  {
    if rows != [] {
      LoadedNames(c, rows[..|rows| - 1]);
      NamesGrow(rows);
    }
  }

  /** Room is left exactly when fewer names than the capacity came before. */
  lemma RoomLeft(c: Cache, rows: seq<Row>)
    requires c.entries == map[]
    ensures |LoadRows(c, rows).entries| < c.capacity <==> |Names(rows)| < c.capacity
  {
    LoadedNames(c, rows);
    var keys, names := LoadRows(c, rows).entries.Keys, Names(rows);
    assert |keys| <= |names| by { assert names == keys + (names - keys); }
  }

  lemma LoadedInPrefix(rows: seq<Row>, capacity: nat, i: nat)
    requires rows != [] && i < |rows| - 1
    ensures Loaded(rows, capacity, i) <==> Loaded(rows[..|rows| - 1], capacity, i)
  {
    var init := rows[..|rows| - 1];
    assert init[..i] == rows[..i];
    assert forall j :: 0 <= j <= i ==> init[j] == rows[j];
  }

  /** The last row changes the entries only if it is loaded, and then adds its own. */
  lemma LastRow(c: Cache, rows: seq<Row>)
    requires c.entries == map[] && rows != []
    ensures var m := |rows| - 1;
            var before := LoadRows(c, rows[..m]).entries;
            var r := rows[m];
            LoadRows(c, rows).entries ==
            (if Loaded(rows, c.capacity, m) then before[RowKey(r) := Info(r.lot, r.security, r.symbol)] else before)
            && (Loaded(rows, c.capacity, m) ==> RowKey(r) !in before)
  {
    var m := |rows| - 1;
    LoadedNames(c, rows[..m]);
    RoomLeft(c, rows[..m]);
    LastLoadedIff(LoadRows(c, rows[..m]), rows, c.capacity);
  }

  /** Every entry is some loaded row's. */
  lemma {:induction false} EntryIsLoaded(c: Cache, rows: seq<Row>, n: Name)
    requires c.entries == map[] && n in LoadRows(c, rows).entries
    ensures exists i :: 0 <= i < |rows| && Loaded(rows, c.capacity, i) && RowKey(rows[i]) == n
  {
    var m := |rows| - 1;
    LastRow(c, rows);
    if n in LoadRows(c, rows[..m]).entries {
      EntryIsLoaded(c, rows[..m], n);
      var i :| 0 <= i < m && Loaded(rows[..m], c.capacity, i) && RowKey(rows[..m][i]) == n;
      LoadedInPrefix(rows, c.capacity, i);
      assert RowKey(rows[i]) == n;
    } else {
      assert Loaded(rows, c.capacity, m) && RowKey(rows[m]) == n;
    }
  }

  /** Every loaded row has an entry, with its own lot. */
  lemma {:induction false} LoadedHasEntry(c: Cache, rows: seq<Row>, i: nat)
    requires c.entries == map[] && i < |rows| && Loaded(rows, c.capacity, i)
    ensures var entries := LoadRows(c, rows).entries;
            RowKey(rows[i]) in entries && entries[RowKey(rows[i])].lot == rows[i].lot
  {
    var m := |rows| - 1;
    LastRow(c, rows);
    if i < m {
      LoadedInPrefix(rows, c.capacity, i);
      LoadedHasEntry(c, rows[..m], i);
      assert rows[..m][i] == rows[i];
    }
  }

  lemma LastLoadedIff(before: Cache, rows: seq<Row>, capacity: nat)
    requires rows != []
    requires |before.entries| < capacity <==> |Names(rows[..|rows| - 1])| < capacity
    requires |before.entries| < capacity ==> before.entries.Keys == Names(rows[..|rows| - 1])
    ensures Loaded(rows, capacity, |rows| - 1) <==>
            |before.entries| < capacity && RowKey(rows[|rows| - 1]) !in before.entries
  {
    var m := |rows| - 1;
    var init := rows[..m];
    assert forall j :: 0 <= j < m ==> init[j] == rows[j];
    assert FirstOfName(rows, m) <==> RowKey(rows[m]) !in Names(init);
  }

  // ---------------------------------------------------------------- lots agree with the store

  function LotIn(store: Store, n: Name): Option<int> {
    if n in store.lots then Some(store.lots[n]) else None
  }

  /** What an entry with this lot says: nothing positive reads as not found. */
  function Reads(lot: int): Option<int> {
    if lot > 0 then Some(lot) else None
  }

  /** What the store would answer. */
  function StoreReply(store: Store, exchange: string, symbol: string): Reply<int> {
    var n := KeyOf(exchange, symbol);
    if Empty(n) || n !in store.lots then NotFound else Got(store.lots[n])
  }

  /** A name some call can look up. */
  predicate Askable(n: Name) {
    Normal(n) && !Empty(n)
  }

  ghost predicate PositiveLots(store: Store) {
    forall n :: Askable(n) && n in store.lots ==> store.lots[n] > 0
  }

  ghost predicate AliasesAgree(store: Store) {
    forall n :: Askable(n) && Alias(n).Some? ==> LotIn(store, n) == LotIn(store, Alias(n).value)
  }

  /** A security lookup some call can make, and whose answer it can cache. */
  predicate Cacheable(store: Store, raw: Name) {
    && raw in store.securities && store.securities[raw].security.id != ""
    && Norm(raw.exchange) == raw.exchange && Trim(raw.symbol) == raw.symbol && !Empty(raw)
  }

  ghost predicate SecuritiesAgree(store: Store) {
    forall raw :: Cacheable(store, raw) ==>
      LotIn(store, Name(raw.exchange, ToUpper(raw.symbol))) == Reads(store.securities[raw].lot)
  }

  ghost predicate RowsAgree(store: Store, capacity: nat) {
    forall i :: 0 <= i < |store.active| && Loaded(store.active, capacity, i) && !Empty(RowKey(store.active[i])) ==>
      LotIn(store, RowKey(store.active[i])) == Reads(store.active[i].lot)
  }

  /** All a cache of this capacity can ever hold agrees with the store's lots: positive lots, equal
      answers under both names of an alias pair, and agreeing security and active rows. */
  ghost predicate Consistent(store: Store, capacity: nat) {
    PositiveLots(store) && AliasesAgree(store) && SecuritiesAgree(store) && RowsAgree(store, capacity)
  }

  ghost predicate LotsAgree(entries: map<Name, Info>, store: Store) {
    forall n :: n in entries && !Empty(n) ==> LotIn(store, n) == Reads(entries[n].lot)
  }

  lemma LoadedLots(c: Cache, store: Store)
    requires c.entries == map[] && RowsAgree(store, c.capacity)
    ensures LotsAgree(LoadRows(c, store.active).entries, store)
  {
    var entries := LoadRows(c, store.active).entries;
    forall n | n in entries && !Empty(n)
      ensures LotIn(store, n) == Reads(entries[n].lot)
    {
      EntryIsLoaded(c, store.active, n);
      var i :| 0 <= i < |store.active| && Loaded(store.active, c.capacity, i) && RowKey(store.active[i]) == n;
      LoadedHasEntry(c, store.active, i);
    }
  }

  lemma KeepLots(c: Cache, n: Name, info: Info, store: Store)
    requires LotsAgree(c.entries, store)
    requires LotIn(store, n) == Reads(info.lot)
    ensures LotsAgree(Keep(c, n, info).entries, store)
  {
  }

  lemma RawIsCacheable(exchange: string, symbol: string, store: Store)
    requires !Empty(KeyOf(exchange, symbol))
    ensures var raw := Name(Norm(exchange), Trim(symbol));
            && Name(raw.exchange, ToUpper(raw.symbol)) == KeyOf(exchange, symbol)
            && (raw in store.securities && store.securities[raw].security.id != "" ==> Cacheable(store, raw))
  {
    NormIdempotent(exchange);
    TrimTrims(symbol);
  }

  lemma SecurityKeepsLots(c: Cache, store: Store, exchange: string, symbol: string, fault: bool)
    requires SecuritiesAgree(store) && LotsAgree(c.entries, store)
    ensures LotsAgree(ResolveSecurity(c, store, exchange, symbol, fault).0.entries, store)
  {
    var n := KeyOf(exchange, symbol);
    var raw := Name(n.exchange, Trim(symbol));
    if !Empty(n) && raw in store.securities && store.securities[raw].security.id != "" {
      RawIsCacheable(exchange, symbol, store);
      KeepLots(c, n, Info(store.securities[raw].lot, store.securities[raw].security, raw.symbol), store);
    }
  }

  lemma LotKeepsLots(c: Cache, store: Store, exchange: string, symbol: string, fault: bool)
    requires PositiveLots(store) && LotsAgree(c.entries, store)
    ensures LotsAgree(ResolveLot(c, store, exchange, symbol, fault).0.entries, store)
  {
    var n := KeyOf(exchange, symbol);
    KeyIsNormal(exchange, symbol);
    if !Empty(n) { KeepLots(c, n, Info(if n in store.lots then store.lots[n] else 0, NoSecurity, ""), store); }
  }

  lemma ApplyLots(c: Cache, store: Store, call: Call)
    requires Consistent(store, c.capacity) && LotsAgree(c.entries, store)
    ensures LotsAgree(Apply(c, store, call).entries, store)
  {
    match call
    case LoadCall(fault) => LoadedLots(c.(entries := map[], reverse := map[]), store);
    case LotCall(ex, sym, fault) => LotKeepsLots(c, store, ex, sym, fault);
    case SecurityCall(ex, sym, fault) => SecurityKeepsLots(c, store, ex, sym, fault);
    case SymbolCall(_, _) =>
  }

  lemma {:induction false} RunLots(capacity: nat, store: Store, calls: seq<Call>)
    requires Consistent(store, capacity)
    ensures LotsAgree(RunAll(capacity, store, calls).entries, store)
  {
    if calls != [] {
      var before := RunAll(capacity, store, calls[..|calls| - 1]);
      RunLots(capacity, store, calls[..|calls| - 1]);
      RunSound(capacity, store, calls[..|calls| - 1]);
      ApplyLots(before, store, calls[|calls| - 1]);
    }
  }

  /** A lot size resolves to what the store would say, unless this very call's store access fails. */
  predicate Transparent(c: Cache, store: Store, exchange: string, symbol: string, fault: bool) {
    var r := ResolveLot(c, store, exchange, symbol, fault).1;
    r == StoreReply(store, exchange, symbol) || (fault && r == Fault)
  }

  /** So after every sequence of calls, for every name. */
  ghost predicate AlwaysTransparent(store: Store, capacity: nat) {
    forall calls: seq<Call>, ex: string, sym: string, fault: bool ::
      Transparent(RunAll(capacity, store, calls), store, ex, sym, fault)
  }

  lemma ResolveLotTransparent(capacity: nat, store: Store, calls: seq<Call>, exchange: string, symbol: string,
      fault: bool)
    requires Consistent(store, capacity)
    ensures Transparent(RunAll(capacity, store, calls), store, exchange, symbol, fault)
  {
    var c := RunAll(capacity, store, calls);
    RunLots(capacity, store, calls);
    KeyIsNormal(exchange, symbol);
    AgreeingIsTransparent(c, store, exchange, symbol, fault);
  }

  lemma AgreeingIsTransparent(c: Cache, store: Store, exchange: string, symbol: string, fault: bool)
    requires LotsAgree(c.entries, store) && AliasesAgree(store) && Normal(KeyOf(exchange, symbol))
    ensures Transparent(c, store, exchange, symbol, fault)
  {
    var n := KeyOf(exchange, symbol);
    if !Empty(n) && n !in c.entries && Alias(n).Some? {
      assert Askable(n) && LotIn(store, n) == LotIn(store, Alias(n).value);
    }
  }

  // ---------------------------------------------------------------- and only then

  lemma OneCall(capacity: nat, store: Store, call: Call)
    ensures RunAll(capacity, store, [call]) == Apply(Cache(capacity, map[], map[]), store, call)
  {
    assert [call][..0] == [];
  }

  /** Asking for a normal name by its own parts asks for it. */
  lemma AskByName(store: Store, n: Name)
    requires Askable(n)
    ensures KeyOf(n.exchange, n.symbol) == n
    ensures StoreReply(store, n.exchange, n.symbol) == if n in store.lots then Got(store.lots[n]) else NotFound
  {
  }

  /** Positive lots are needed: a stored lot of zero or less is returned once, then not found. */
  lemma NonPositiveLotFlips(capacity: nat, store: Store, n: Name)
    requires capacity > 0 && Askable(n) && n in store.lots && store.lots[n] <= 0
    ensures var c := RunAll(capacity, store, [LotCall(n.exchange, n.symbol, false)]);
            ResolveLot(c, store, n.exchange, n.symbol, false).1 == NotFound
    ensures StoreReply(store, n.exchange, n.symbol) == Got(store.lots[n])
  {
    OneCall(capacity, store, LotCall(n.exchange, n.symbol, false));
    AskByName(store, n);
  }

  lemma AliasAskable(n: Name)
    requires Askable(n) && Alias(n).Some?
    ensures Askable(Alias(n).value) && Alias(Alias(n).value) == Some(n)
  {
    LettersAreNormal('N', 'S', 'E');
    LettersAreNormal('N', 'F', 'O');
    LettersAreNormal('B', 'S', 'E');
    LettersAreNormal('B', 'F', 'O');
  }

  lemma LettersAreNormal(a: char, b: char, c: char)
    requires 'A' <= a <= 'Z' && 'A' <= b <= 'Z' && 'A' <= c <= 'Z'
    ensures Norm([a, b, c]) == [a, b, c]
  {
    var s := [a, b, c];
    assert TrimLeft(s) == s && TrimRight(s) == s;
  }

  /** Alias agreement is needed: on any store whose answers for the two names differ, asking for one
      makes the cache answer the other with it. */
  lemma AliasDisagreementShows(capacity: nat, store: Store, n: Name)
    requires capacity > 0 && PositiveLots(store) && Askable(n) && Alias(n).Some?
    ensures var other := Alias(n).value;
            var c := RunAll(capacity, store, [LotCall(other.exchange, other.symbol, false)]);
            ResolveLot(c, store, n.exchange, n.symbol, false).1 == StoreReply(store, other.exchange, other.symbol)
  {
    var other := Alias(n).value;
    AliasAskable(n);
    OneCall(capacity, store, LotCall(other.exchange, other.symbol, false));
    AskByName(store, n);
    AskByName(store, other);
  }

  /** Agreement of security rows is needed: a cached lookup answers for the lot too. */
  lemma SecurityLotShows(capacity: nat, store: Store, raw: Name)
    requires capacity > 0 && Cacheable(store, raw)
    ensures var c := RunAll(capacity, store, [SecurityCall(raw.exchange, raw.symbol, false)]);
            ResolveLot(c, store, raw.exchange, raw.symbol, false).1 ==
            if store.securities[raw].lot > 0 then Got(store.securities[raw].lot) else NotFound
    ensures Askable(KeyOf(raw.exchange, raw.symbol))
    ensures KeyOf(raw.exchange, raw.symbol) == Name(raw.exchange, ToUpper(raw.symbol))
  {
    OneCall(capacity, store, SecurityCall(raw.exchange, raw.symbol, false));
    KeyIsNormal(raw.exchange, raw.symbol);
    assert |ToUpper(raw.symbol)| == |raw.symbol|;
  }

  /** Agreement of active rows is needed: a loaded row answers for the lot. */
  lemma LoadedLotShows(capacity: nat, store: Store, i: nat)
    requires i < |store.active| && Loaded(store.active, capacity, i) && !Empty(RowKey(store.active[i]))
    ensures var c := RunAll(capacity, store, [LoadCall(false)]);
            var n := RowKey(store.active[i]);
            Askable(n) && ResolveLot(c, store, n.exchange, n.symbol, false).1 ==
                          if store.active[i].lot > 0 then Got(store.active[i].lot) else NotFound
  {
    OneCall(capacity, store, LoadCall(false));
    KeyIsNormal(store.active[i].exchange, store.active[i].symbol);
    AskByName(store, RowKey(store.active[i]));
    LoadedHasEntry(Cache(capacity, map[], map[]), store.active, i);
  }

  lemma TransparentNow(capacity: nat, store: Store, calls: seq<Call>, exchange: string, symbol: string)
    requires AlwaysTransparent(store, capacity)
    ensures ResolveLot(RunAll(capacity, store, calls), store, exchange, symbol, false).1
            == StoreReply(store, exchange, symbol)
  {
    assert Transparent(RunAll(capacity, store, calls), store, exchange, symbol, false);
  }

  /** The cache is transparent, over every call sequence and for every name, if and only if the store
      is consistent in all that a cache of this capacity can hold. */
  lemma TransparentIff(store: Store, capacity: nat)
    requires capacity > 0
    ensures AlwaysTransparent(store, capacity) <==> Consistent(store, capacity)
  {
    if AlwaysTransparent(store, capacity) {
      TransparentLots(store, capacity);
      TransparentRows(store, capacity);
    }
    if Consistent(store, capacity) {
      forall calls: seq<Call>, ex: string, sym: string, fault: bool
        ensures Transparent(RunAll(capacity, store, calls), store, ex, sym, fault)
      {
        ResolveLotTransparent(capacity, store, calls, ex, sym, fault);
      }
    }
  }

  lemma TransparentLots(store: Store, capacity: nat)
    requires capacity > 0 && AlwaysTransparent(store, capacity)
    ensures PositiveLots(store) && AliasesAgree(store)
  {
    forall n | Askable(n) && n in store.lots ensures store.lots[n] > 0 {
      TransparentNow(capacity, store, [LotCall(n.exchange, n.symbol, false)], n.exchange, n.symbol);
      if store.lots[n] <= 0 { NonPositiveLotFlips(capacity, store, n); }
    }
    forall n | Askable(n) && Alias(n).Some? ensures LotIn(store, n) == LotIn(store, Alias(n).value) {
      var other := Alias(n).value;
      TransparentNow(capacity, store, [LotCall(other.exchange, other.symbol, false)], n.exchange, n.symbol);
      AliasDisagreementShows(capacity, store, n);
      AliasAskable(n);
      AskByName(store, n);
      AskByName(store, other);
    }
  }

  lemma TransparentRows(store: Store, capacity: nat)
    requires capacity > 0 && AlwaysTransparent(store, capacity) && PositiveLots(store)
    ensures SecuritiesAgree(store) && RowsAgree(store, capacity)
  {
    forall raw | Cacheable(store, raw)
      ensures LotIn(store, Name(raw.exchange, ToUpper(raw.symbol))) == Reads(store.securities[raw].lot)
    {
      TransparentNow(capacity, store, [SecurityCall(raw.exchange, raw.symbol, false)], raw.exchange, raw.symbol);
      SecurityLotShows(capacity, store, raw);
    }
    forall i | 0 <= i < |store.active| && Loaded(store.active, capacity, i) && !Empty(RowKey(store.active[i]))
      ensures LotIn(store, RowKey(store.active[i])) == Reads(store.active[i].lot)
    {
      var n := RowKey(store.active[i]);
      TransparentNow(capacity, store, [LoadCall(false)], n.exchange, n.symbol);
      LoadedLotShows(capacity, store, i);
      AskByName(store, n);
    }
  }

  // ---------------------------------------------------------------- security ids and back

  /** A security id belongs to one name only among the active rows. */
  predicate UniqueIds(rows: seq<Row>) {
    forall i, j | 0 <= i < |rows| && 0 <= j < |rows| && Indexed(rows[i].security) && Indexed(rows[j].security) ::
      ReverseKey(rows[i].security) == ReverseKey(rows[j].security) ==> RowKey(rows[i]) == RowKey(rows[j])
  }

  /** The entry's security leads back to an entry for the same security. */
  predicate LeadsBack(c: Cache, n: Name)
    requires n in c.entries
  {
    var s := c.entries[n].security;
    Indexed(s) ==>
      && ReverseKey(s) in c.reverse
      && var t := c.reverse[ReverseKey(s)];
         && t in c.entries && Indexed(c.entries[t].security)
         && ReverseKey(c.entries[t].security) == ReverseKey(s)
         && (!Empty(n) ==> !Empty(t))
  }

  ghost predicate AllLeadBack(c: Cache) {
    forall n :: n in c.entries ==> LeadsBack(c, n)
  }

  lemma KeepLeadsBack(c: Cache, n: Name, info: Info)
    requires AllLeadBack(c) && !Empty(n)
    requires n in c.entries ==> c.entries[n].security.id == ""
    ensures AllLeadBack(Keep(c, n, info))
  {
    var c' := Keep(c, n, info);
    forall m | m in c'.entries
      ensures LeadsBack(c', m)
    {
      if m in c.entries { assert LeadsBack(c, m); }
    }
  }

  /** Entries come from rows. */
  ghost predicate FromRows(c: Cache, rows: seq<Row>) {
    forall n :: n in c.entries ==>
      exists i :: 0 <= i < |rows| && RowKey(rows[i]) == n && rows[i].security == c.entries[n].security
  }

  lemma {:induction false} LoadedLeadBack(c: Cache, rows: seq<Row>)
    requires c.entries == map[] && UniqueIds(rows)
    ensures AllLeadBack(LoadRows(c, rows)) && FromRows(LoadRows(c, rows), rows)
  {
    if rows != [] {
      var m := |rows| - 1;
      var init := rows[..m];
      assert forall i :: 0 <= i < m ==> init[i] == rows[i];
      LoadedLeadBack(c, init);
      var before := LoadRows(c, init);
      FromRowsGrow(before, init, rows);
      if |before.entries| < before.capacity { LoadRowLeadsBack(before, rows, m); }
    }
  }

  lemma FromRowsGrow(c: Cache, init: seq<Row>, rows: seq<Row>)
    requires init <= rows && FromRows(c, init)
    ensures FromRows(c, rows)
  {
    forall n | n in c.entries
      ensures exists i :: 0 <= i < |rows| && RowKey(rows[i]) == n && rows[i].security == c.entries[n].security
    {
      var i :| 0 <= i < |init| && RowKey(init[i]) == n && init[i].security == c.entries[n].security;
      assert rows[i] == init[i];
    }
  }

  lemma LoadRowLeadsBack(c: Cache, rows: seq<Row>, m: nat)
    requires m < |rows| && UniqueIds(rows) && AllLeadBack(c) && FromRows(c, rows)
    ensures AllLeadBack(LoadRow(c, rows[m])) && FromRows(LoadRow(c, rows[m]), rows)
  {
    var r := rows[m];
    var c' := LoadRow(c, r);
    forall n | n in c'.entries
      ensures LeadsBack(c', n)
      ensures exists i :: 0 <= i < |rows| && RowKey(rows[i]) == n && rows[i].security == c'.entries[n].security
    {
      if n in c.entries {
        assert LeadsBack(c, n);
        var i :| 0 <= i < |rows| && RowKey(rows[i]) == n && rows[i].security == c.entries[n].security;
        assert rows[i].security == c'.entries[n].security;
      } else {
        assert RowKey(rows[m]) == n;
      }
    }
  }

  lemma ApplyLeadsBack(c: Cache, store: Store, call: Call)
    requires AllLeadBack(c) && UniqueIds(store.active)
    ensures AllLeadBack(Apply(c, store, call))
  {
    match call
    case LoadCall(fault) => LoadedLeadBack(c.(entries := map[], reverse := map[]), store.active);
    case LotCall(ex, sym, fault) => {
      var n := KeyOf(ex, sym);
      if !Empty(n) && n !in c.entries {
        KeepLeadsBack(c, n, Info(if n in store.lots then store.lots[n] else 0, NoSecurity, ""));
      }
    }
    case SecurityCall(ex, sym, fault) => SecurityLeadsBack(c, store, ex, sym, fault);
    case SymbolCall(_, _) =>
  }

  lemma SecurityLeadsBack(c: Cache, store: Store, exchange: string, symbol: string, fault: bool)
    requires AllLeadBack(c)
    ensures AllLeadBack(ResolveSecurity(c, store, exchange, symbol, fault).0)
  {
    var n := KeyOf(exchange, symbol);
    var raw := Name(n.exchange, Trim(symbol));
    if !Empty(n) && LookupSecurity(c.entries, n) == None && raw in store.securities {
      KeepLeadsBack(c, n, Info(store.securities[raw].lot, store.securities[raw].security, raw.symbol));
    }
  }

  lemma {:induction false} RunLeadsBack(capacity: nat, store: Store, calls: seq<Call>)
    requires UniqueIds(store.active)
    ensures AllLeadBack(RunAll(capacity, store, calls))
  {
    if calls != [] {
      RunLeadsBack(capacity, store, calls[..|calls| - 1]);
      ApplyLeadsBack(RunAll(capacity, store, calls[..|calls| - 1]), store, calls[|calls| - 1]);
    }
  }

  /** The security resolves to a name, and that name back to the security, from the cache alone. */
  predicate RoundTrips(c: Cache, store: Store, s: Security, fault: bool) {
    var back := ResolveSymbol(c, s.segment, s.id);
    && back.Got?
    && var (c', again) := ResolveSecurity(c, store, back.value.exchange, back.value.symbol, fault);
       c' == c && again.Got? && ReverseKey(again.value.security) == ReverseKey(s)
  }

  predicate Usable(s: Security) {
    ReverseKey(s).segment != "" && ReverseKey(s).id != ""
  }

  lemma EntryRoundTrips(c: Cache, store: Store, n: Name, fault: bool)
    requires Sound(c) && AllLeadBack(c) && n in c.entries && !Empty(n) && Usable(c.entries[n].security)
    ensures RoundTrips(c, store, c.entries[n].security, fault)
  {
    var s := c.entries[n].security;
    assert Indexed(s) && LeadsBack(c, n);
    var t := c.reverse[ReverseKey(s)];
    var back := ResolveSymbol(c, s.segment, s.id).value;
    assert Normal(t);
    assert KeyOf(back.exchange, back.symbol) == t;
  }

  /** Below capacity, what was resolved is in the cache afterwards. */
  lemma ResolvedIsCached(c: Cache, store: Store, exchange: string, symbol: string, fault: bool) returns (at: Name)
    requires |c.entries| < c.capacity && ResolveSecurity(c, store, exchange, symbol, fault).1.Got?
    ensures var (c', r) := ResolveSecurity(c, store, exchange, symbol, fault);
            at in c'.entries && !Empty(at) && c'.entries[at].security == r.value.security
  {
    var n := KeyOf(exchange, symbol);
    var (c', r) := ResolveSecurity(c, store, exchange, symbol, fault);
    at := if n in c'.entries && c'.entries[n].security == r.value.security then n else Alias(n).value;
  }

  /** Below capacity a resolved security id maps back to a name for the same security: resolving that
      name again gives the same segment and id, from the cache alone. */
  lemma SecurityRoundTrip(capacity: nat, store: Store, calls: seq<Call>, exchange: string, symbol: string,
      fault: bool, fault': bool)
    requires UniqueIds(store.active) && |RunAll(capacity, store, calls).entries| < capacity
    ensures var (c, r) := ResolveSecurity(RunAll(capacity, store, calls), store, exchange, symbol, fault);
            r.Got? && Usable(r.value.security) ==> RoundTrips(c, store, r.value.security, fault')
  {
    var start := RunAll(capacity, store, calls);
    RunSound(capacity, store, calls);
    RunLeadsBack(capacity, store, calls);
    SecuritySound(start, store, exchange, symbol, fault);
    SecurityLeadsBack(start, store, exchange, symbol, fault);
    var (c, r) := ResolveSecurity(start, store, exchange, symbol, fault);
    if r.Got? && Usable(r.value.security) {
      var at := ResolvedIsCached(start, store, exchange, symbol, fault);
      EntryRoundTrips(c, store, at, fault');
    }
  }

  // ---------------------------------------------------------------- where answers come from

  /** A derivative's exchange and its cash exchange stand for each other, and no others do. */
  lemma AliasIff(n: Name, m: Name)
    ensures Alias(n) == Some(m) <==>
            && m.symbol == n.symbol
            && (n.exchange, m.exchange) in {("NFO", "NSE"), ("NSE", "NFO"), ("BFO", "BSE"), ("BSE", "BFO")}
  {
  }

  /** The entry records a security lookup made under some spelling of the name. */
  predicate FromSecurity(store: Store, n: Name, info: Info, raw: Name) {
    && raw in store.securities && raw.exchange == n.exchange && Norm(raw.symbol) == n.symbol
    && store.securities[raw].security.id != ""
    && info == Info(store.securities[raw].lot, store.securities[raw].security, raw.symbol)
  }

  /** It records an active row of the name. */
  predicate FromRow(store: Store, n: Name, info: Info, i: int) {
    && 0 <= i < |store.active|
    && var r := store.active[i];
       Name(Norm(r.exchange), Norm(r.symbol)) == n && info == Info(r.lot, r.security, r.symbol)
  }

  /** What an entry can hold: the store's lot for the name, zero for none, a security's listing, or a row. */
  ghost predicate FromStore(store: Store, n: Name, info: Info) {
    || info == Info(if n in store.lots then store.lots[n] else 0, Security("", ""), "")
    || (exists raw :: FromSecurity(store, n, info, raw))
    || (exists i :: FromRow(store, n, info, i))
  }

  ghost predicate AllFromStore(entries: map<Name, Info>, store: Store) {
    forall n :: n in entries ==> FromStore(store, n, entries[n])
  }

  lemma {:induction false} LoadedFromStore(c: Cache, store: Store, k: nat)
    requires c.entries == map[] && k <= |store.active|
    ensures AllFromStore(LoadRows(c, store.active[..k]).entries, store)
  {
    if k > 0 {
      LoadedFromStore(c, store, k - 1);
      var rows, r := store.active[..k], store.active[k - 1];
      assert rows[..k - 1] == store.active[..k - 1] && rows[k - 1] == r;
      assert FromRow(store, RowKey(r), Info(r.lot, r.security, r.symbol), k - 1);
    }
  }

  lemma SecurityFromStore(c: Cache, store: Store, exchange: string, symbol: string, fault: bool)
    requires AllFromStore(c.entries, store)
    ensures AllFromStore(ResolveSecurity(c, store, exchange, symbol, fault).0.entries, store)
  {
    var n := KeyOf(exchange, symbol);
    var raw := Name(n.exchange, Trim(symbol));
    KeyIsNormal(exchange, symbol);
    if raw in store.securities && store.securities[raw].security.id != "" {
      assert FromSecurity(store, n, Info(store.securities[raw].lot, store.securities[raw].security, raw.symbol), raw);
    }
  }

  /** After any calls, everything cached is something the store said of that very name. */
  lemma {:induction false} RunFromStore(capacity: nat, store: Store, calls: seq<Call>)
    ensures AllFromStore(RunAll(capacity, store, calls).entries, store)
  {
    if calls != [] {
      var before := RunAll(capacity, store, calls[..|calls| - 1]);
      RunFromStore(capacity, store, calls[..|calls| - 1]);
      match calls[|calls| - 1]
      case LoadCall(fault) =>
        LoadedFromStore(before.(entries := map[], reverse := map[]), store, |store.active|);
        assert store.active[..|store.active|] == store.active;
      case LotCall(ex, sym, fault) =>
      case SecurityCall(ex, sym, fault) => SecurityFromStore(before, store, ex, sym, fault);
      case SymbolCall(_, _) =>
    }
  }

  /** The name asked for, or its other exchange. */
  predicate SameInstrument(n: Name, asked: Name) {
    n == asked || Alias(asked) == Some(n)
  }

  /** A security id answered after any calls is one the store lists for the name or its alias, with that
      listing's lot; and none is missed that the store lists under the name as written. */
  lemma SecurityAnswers(capacity: nat, store: Store, calls: seq<Call>, exchange: string, symbol: string, fault: bool)
    ensures var r := ResolveSecurity(RunAll(capacity, store, calls), store, exchange, symbol, fault).1;
            var asked := Name(Norm(exchange), Norm(symbol));
            var raw := Name(Norm(exchange), Trim(symbol));
            && r != Fault
            && (r.Got? ==> exists n, info :: SameInstrument(n, asked) && FromStore(store, n, info)
                             && info.security.id != "" && r.value == Listed(info.security, info.lot))
            && (r == NotFound && !fault && asked.exchange != "" && asked.symbol != "" ==>
                  raw !in store.securities || store.securities[raw].security.id == "")
  {
    var c := RunAll(capacity, store, calls);
    var n := KeyOf(exchange, symbol);
    var raw := Name(n.exchange, Trim(symbol));
    var r := ResolveSecurity(c, store, exchange, symbol, fault).1;
    RunFromStore(capacity, store, calls);
    KeyIsNormal(exchange, symbol);
    if r.Got? {
      var hit := LookupSecurity(c.entries, n);
      if hit.Some? {
        var m := if n in c.entries && c.entries[n].security.id != "" then n else Alias(n).value;
        assert SameInstrument(m, n) && FromStore(store, m, hit.value);
      } else {
        var info := Info(store.securities[raw].lot, store.securities[raw].security, raw.symbol);
        assert FromSecurity(store, n, info, raw);
        assert SameInstrument(n, n) && FromStore(store, n, info);
      }
    }
  }

  /** The name with its symbol as the store wrote it, if that was kept. */
  function Spelled(n: Name, info: Info): Name {
    Name(n.exchange, if info.symbol != "" then info.symbol else n.symbol)
  }

  /** A symbol answered for a security id is spelled as the store spells the name indexed for it, or is
      that name where no spelling is kept; and no indexed id is missed. */
  lemma SymbolAnswers(capacity: nat, store: Store, calls: seq<Call>, segment: string, id: string)
    ensures var c := RunAll(capacity, store, calls);
            var r := ResolveSymbol(c, segment, id);
            var key := Security(Norm(segment), Trim(id));
            && r != Fault
            && (r.Got? <==> key.segment != "" && key.id != "" && key in c.reverse)
            && (r.Got? ==>
                  exists info :: FromStore(store, c.reverse[key], info) && r.value == Spelled(c.reverse[key], info))
  {
    var c := RunAll(capacity, store, calls);
    RunFromStore(capacity, store, calls);
    RunSound(capacity, store, calls);
    if ResolveSymbol(c, segment, id).Got? {
      var n := c.reverse[Security(Norm(segment), Trim(id))];
      assert FromStore(store, n, c.entries[n]);
    }
  }
}
