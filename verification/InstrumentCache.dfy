/** The instrument cache: names to lots and security ids, security ids back to names, a capacity, and
    a store to fall back on. Keys are pairs. */
module InstrumentCache {
  import opened Collections
  import opened Text

  datatype Name = Name(exchange: string, symbol: string)
  datatype Security = Security(segment: string, id: string)

  /** What an entry knows; a lot of zero records that the store has no such instrument. */
  datatype Info = Info(lot: int, security: Security, symbol: string)

  datatype Row = Row(exchange: string, symbol: string, lot: int, security: Security)

  datatype Listed = Listed(security: Security, lot: int)

  /** A store that does not change while the cache is used. Security lookups get the symbol as it was
      written, lot lookups the normalised name. */
  datatype Store = Store(lots: map<Name, int>, securities: map<Name, Listed>, active: seq<Row>)

  datatype Cache = Cache(capacity: nat, entries: map<Name, Info>, reverse: map<Security, Name>)

  const NoSecurity := Security("", "")

  function KeyOf(exchange: string, symbol: string): Name {
    Name(Norm(exchange), Norm(symbol))
  }

  function RowKey(r: Row): Name {
    KeyOf(r.exchange, r.symbol)
  }

  function ReverseKey(s: Security): Security {
    Security(Norm(s.segment), Trim(s.id))
  }

  /** The segment and id are both given, so the reverse index gets them. */
  predicate Indexed(s: Security) {
    s.segment != "" && s.id != ""
  }

  predicate Empty(n: Name) {
    n.exchange == "" || n.symbol == ""
  }

  /** The other name of a derivative's exchange. */
  function Alias(n: Name): Option<Name> {
    if n.exchange == "NFO" then Some(Name("NSE", n.symbol))
    else if n.exchange == "NSE" then Some(Name("NFO", n.symbol))
    else if n.exchange == "BFO" then Some(Name("BSE", n.symbol))
    else if n.exchange == "BSE" then Some(Name("BFO", n.symbol))
    else None
  }

  datatype Reply<T> = Got(value: T) | NotFound | Fault

  // ---------------------------------------------------------------- the calls as functions

  /** Under its own name first, then under its alias. */
  function Lookup(entries: map<Name, Info>, n: Name): Option<Info> {
    if n in entries then Some(entries[n])
    else if Alias(n).Some? && Alias(n).value in entries then Some(entries[Alias(n).value])
    else None
  }

  /** A full cache takes no more. */
  function Keep(c: Cache, n: Name, info: Info): Cache {
    if |c.entries| < c.capacity then
      c.(entries := c.entries[n := info],
         reverse := if Indexed(info.security) then c.reverse[ReverseKey(info.security) := n] else c.reverse)
    else c
  }

  function LoadRow(c: Cache, r: Row): Cache {
    var key := RowKey(r);
    c.(reverse := if Indexed(r.security) then c.reverse[ReverseKey(r.security) := key] else c.reverse,
       entries := if key in c.entries then c.entries else c.entries[key := Info(r.lot, r.security, r.symbol)])
  }

  /** Rows go in until the cache is full; the first row of a name keeps it. */
  function LoadRows(c: Cache, rows: seq<Row>): Cache {
    if rows == [] then c
    else
      var before := LoadRows(c, rows[..|rows| - 1]);
      if |before.entries| >= before.capacity then before else LoadRow(before, rows[|rows| - 1])
  }

  function Load(c: Cache, store: Store, fault: bool): Cache {
    if fault then c else LoadRows(c.(entries := map[], reverse := map[]), store.active)
  }

  function LotReply(info: Info): Reply<int> {
    if info.lot <= 0 then NotFound else Got(info.lot)
  }

  function ResolveLot(c: Cache, store: Store, exchange: string, symbol: string, fault: bool): (Cache, Reply<int>) {
    var n := KeyOf(exchange, symbol);
    if Empty(n) then (c, NotFound)
    else if Lookup(c.entries, n).Some? then (c, LotReply(Lookup(c.entries, n).value))
    else if fault then (c, Fault)
    else if n !in store.lots then (Keep(c, n, Info(0, NoSecurity, "")), NotFound)
    else (Keep(c, n, Info(store.lots[n], NoSecurity, "")), Got(store.lots[n]))
  }

  /** An entry with a security id, under the name or its alias. */
  function LookupSecurity(entries: map<Name, Info>, n: Name): Option<Info> {
    if n in entries && entries[n].security.id != "" then Some(entries[n])
    else if Alias(n).Some? && Alias(n).value in entries && entries[Alias(n).value].security.id != ""
    then Some(entries[Alias(n).value])
    else None
  }

  function ResolveSecurity(c: Cache, store: Store, exchange: string, symbol: string, fault: bool): (Cache,
      Reply<Listed>) {
    var n := KeyOf(exchange, symbol);
    var raw := Name(n.exchange, Trim(symbol));
    var hit := LookupSecurity(c.entries, n);
    if Empty(n) then (c, NotFound)
    else if hit.Some? then (c, Got(Listed(hit.value.security, hit.value.lot)))
    else if fault || raw !in store.securities || store.securities[raw].security.id == "" then (c, NotFound)
    else
      var found := store.securities[raw];
      (Keep(c, n, Info(found.lot, found.security, raw.symbol)), Got(found))
  }

  function ResolveSymbol(c: Cache, segment: string, id: string): Reply<Name> {
    var key := ReverseKey(Security(segment, id));
    if key.segment == "" || key.id == "" || key !in c.reverse then NotFound
    else
      var n := c.reverse[key];
      if n in c.entries && c.entries[n].symbol != "" then Got(Name(n.exchange, c.entries[n].symbol)) else Got(n)
  }

  // ---------------------------------------------------------------- the cache as it runs

  class InstrumentCache {
    const capacity: nat
    var entries: map<Name, Info>
    var reverse: map<Security, Name>

    function Contents(): Cache
      reads this
    {
      Cache(capacity, entries, reverse)
    }

    constructor (requested: int)
      ensures Contents() == Cache(if requested <= 0 then 10000 else requested, map[], map[])
    {
      capacity := if requested <= 0 then 10000 else requested;
      entries, reverse := map[], map[];
    }

    method AutoLoadActiveFO(store: Store, fault: bool) returns (ok: bool)
      modifies this
      ensures ok == !fault && Contents() == Load(old(Contents()), store, fault)
    {
      if fault { return false; }
      entries, reverse := map[], map[];
      var rows := store.active;
      ghost var c := Contents();
      var i := 0;
      while i < |rows| && |entries| < capacity
        invariant 0 <= i <= |rows|
        invariant Contents() == LoadRows(c, rows[..i])
      {
        assert rows[..i + 1][..i] == rows[..i];
        var key := RowKey(rows[i]);
        if Indexed(rows[i].security) { reverse := reverse[ReverseKey(rows[i].security) := key]; }
        if key !in entries { entries := entries[key := Info(rows[i].lot, rows[i].security, rows[i].symbol)]; }
        i := i + 1;
      }
      FullStops(c, rows, i);
      ok := true;
    }

    method ResolveLotSize(store: Store, exchange: string, symbol: string, fault: bool) returns (r: Reply<int>)
      modifies this
      ensures (Contents(), r) == ResolveLot(old(Contents()), store, exchange, symbol, fault)
    {
      var n := KeyOf(exchange, symbol);
      if Empty(n) { return NotFound; }
      var hit := Lookup(entries, n);
      if hit.Some? { return if hit.value.lot <= 0 then NotFound else Got(hit.value.lot); }
      if fault { return Fault; }
      if n !in store.lots {
        if |entries| < capacity { entries := entries[n := Info(0, NoSecurity, "")]; }
        return NotFound;
      }
      if |entries| < capacity { entries := entries[n := Info(store.lots[n], NoSecurity, "")]; }
      r := Got(store.lots[n]);
    }

    method ResolveToSecurityID(store: Store, exchange: string, symbol: string, fault: bool) returns (r: Reply<Listed>)
      modifies this
      ensures (Contents(), r) == ResolveSecurity(old(Contents()), store, exchange, symbol, fault)
    {
      var n := KeyOf(exchange, symbol);
      if Empty(n) { return NotFound; }
      var hit := LookupSecurity(entries, n);
      if hit.Some? { return Got(Listed(hit.value.security, hit.value.lot)); }
      var raw := Name(n.exchange, Trim(symbol));
      if fault || raw !in store.securities || store.securities[raw].security.id == "" { return NotFound; }
      var found := store.securities[raw];
      if |entries| < capacity {
        entries := entries[n := Info(found.lot, found.security, raw.symbol)];
        if Indexed(found.security) { reverse := reverse[ReverseKey(found.security) := n]; }
      }
      r := Got(found);
    }

    method ResolveToSymbol(segment: string, id: string) returns (r: Reply<Name>)
      ensures r == ResolveSymbol(Contents(), segment, id)
    {
      var key := Security(Norm(segment), Trim(id));
      if key.segment == "" || key.id == "" { return NotFound; }
      if key in reverse {
        var n := reverse[key];
        if n in entries && entries[n].symbol != "" { return Got(Name(n.exchange, entries[n].symbol)); }
        return Got(n);
      }
      r := NotFound;
    }
  }

  /** Once full, the rest of the rows change nothing. */
  lemma {:induction false} FullStops(c: Cache, rows: seq<Row>, i: nat)
    requires i <= |rows| && (i == |rows| || |LoadRows(c, rows[..i]).entries| >= c.capacity)
    ensures LoadRows(c, rows) == LoadRows(c, rows[..i])
    decreases |rows|
  {
    LoadRowsCapacity(c, rows[..i]);
    if i == |rows| {
      assert rows[..i] == rows;
    } else {
      var init := rows[..|rows| - 1];
      assert init[..i] == rows[..i];
      FullStops(c, init, i);
    }
  }

  lemma {:induction false} LoadRowsCapacity(c: Cache, rows: seq<Row>)
    ensures LoadRows(c, rows).capacity == c.capacity
  {
    if rows != [] { LoadRowsCapacity(c, rows[..|rows| - 1]); }
  }
}
