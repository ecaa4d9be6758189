/** Order sizing: how many units a follower trades for one master fill.

    Ratios are decimals, an integer over a power of ten. The division by the lot size is the
    decimal library's: rounded half away from zero at sixteen places, and only then floored. */
module Sizing {

  datatype Decimal = Decimal(unscaled: int, scale: nat)

  datatype Reason =
    | ReasonOK
    | ReasonBelowOneLot
    | ReasonCapped
    | ReasonBadInstrument
    | ReasonInvalidRatio
    | ReasonFollowerInError
    | ReasonFollowerPending

  datatype Sized = Sized(qty: int, reason: Reason)

  /** Ten to the sixteenth: one unit in the last place the decimal division keeps is its inverse. */
  const DIV_ONE: int := 10_000_000_000_000_000

  const MAX_INT64: int := 0x7fff_ffff_ffff_ffff

  function Pow10(n: nat): (p: int)
    ensures p >= 1
  {
    if n == 0 then 1 else 10 * Pow10(n - 1)
  }

  function Abs(x: int): int {
    if x < 0 then -x else x
  }

  /** Truncate the magnitude at sixteen places, then add one unit unless twice the remainder is
      below the divisor. The result counts units of 10^-16. */
  function DivRound(n: int, d: int): int
    requires d > 0
  {
    var q := Abs(n) * DIV_ONE / d;
    var r := Abs(n) * DIV_ONE % d;
    var magnitude := if 2 * r < d then q else q + 1;
    if n < 0 then -magnitude else magnitude
  }

  /** Whole lots in `masterQty * ratio`, as computed: decimal division, then floor. */
  function ComputedLots(masterQty: int, ratio: Decimal, lot: int): int
    requires lot > 0
  {
    DivRound(masterQty * ratio.unscaled, Pow10(ratio.scale) * lot) / DIV_ONE
  }

  function SizeOrder(masterQty: int, ratio: Decimal, lotSize: int, maxQty: int): Sized {
    if lotSize <= 0 then Sized(0, ReasonBadInstrument)
    else if ratio.unscaled <= 0 then Sized(0, ReasonInvalidRatio)
    else
      var qty := ComputedLots(masterQty, ratio, lotSize) * lotSize;
      if maxQty > 0 && qty > maxQty then
        var capped := maxQty - maxQty % lotSize;
        if capped == 0 then Sized(0, ReasonBelowOneLot) else Sized(capped, ReasonCapped)
      else if qty == 0 then Sized(0, ReasonBelowOneLot)
      else Sized(qty, ReasonOK)
  }

  /** Numeric equality with one, whatever the scale. */
  predicate IsOne(ratio: Decimal) {
    ratio.unscaled == Pow10(ratio.scale)
  }

  /** The engine's choice: at ratio one the fill is copied as it is and only capped, never floored
      to a lot; any other ratio goes through `SizeOrder`. */
  function CopyQuantity(fillQty: int, ratio: Decimal, lotSize: int, maxQty: int): Sized {
    if IsOne(ratio) then
      if maxQty > 0 && fillQty > maxQty then Sized(maxQty, ReasonCapped) else Sized(fillQty, ReasonOK)
    else SizeOrder(fillQty, ratio, lotSize, maxQty)
  }

  // ---------------------------------------------------------------- rounding against exact floor

  /** The quotient lies so close below an integer that rounding carries it over. */
  predicate RoundsOver(n: int, d: int)
    requires d > 0
  {
    var gap := 2 * DIV_ONE * (d - n % d);
    if n >= 0 then gap <= d else gap < d
  }

  lemma MulMonotone(x: int, y: int, b: int)
    requires b >= 0
    ensures x <= y ==> x * b <= y * b
  {
    assert x <= y ==> (y - x) * b >= 0;
  }

  lemma DivUnique(a: int, b: int, q: int)
    requires b > 0 && q * b <= a < (q + 1) * b
    ensures a / b == q
  {
    var k := a / b;
    assert k * b <= a < (k + 1) * b;
    MulMonotone(k + 1, q, b);
    MulMonotone(q + 1, k, b);
  }

  /** Rounding is the nearest integer to `n * DIV_ONE / d`, ties away from zero. */
  lemma DivRoundNearest(n: int, d: int)
    requires d > 0
    ensures n >= 0 ==> 2 * n * DIV_ONE - d < 2 * DivRound(n, d) * d <= 2 * n * DIV_ONE + d
    ensures n < 0 ==> 2 * n * DIV_ONE - d <= 2 * DivRound(n, d) * d < 2 * n * DIV_ONE + d
  {
    var a := Abs(n) * DIV_ONE;
    var q, r := a / d, a % d;
    assert a == q * d + r;
    var m := if 2 * r < d then q else q + 1;
    assert m * d == q * d + (if 2 * r < d then 0 else d);
    assert 2 * a - d < 2 * (m * d) <= 2 * a + d;
    if n < 0 {
      assert DivRound(n, d) == -m;
      assert (-m) * d == -(m * d);
    }
  }

  /** Exactly when decimal division followed by floor is the true floor. */
  lemma ComputedFloorIffNotRoundedOver(n: int, d: int)
    requires d > 0
    ensures DivRound(n, d) / DIV_ONE == n / d <==> !RoundsOver(n, d)
  {
    DivRoundNearest(n, d);
    var z := DivRound(n, d);
    var k, r := n / d, n % d;
    assert n == k * d + r;
    FloorOfRounded(z, d, k, r, n >= 0);
  }

  /** The same fact with the quotient and remainder named: `w` is the rounded value above `k`. */
  lemma FloorOfRounded(z: int, d: int, k: int, r: int, up: bool)
    requires d > 0 && 0 <= r < d
    requires up ==> 2 * (k * d + r) * DIV_ONE - d < 2 * z * d <= 2 * (k * d + r) * DIV_ONE + d
    requires !up ==> 2 * (k * d + r) * DIV_ONE - d <= 2 * z * d < 2 * (k * d + r) * DIV_ONE + d
    ensures z / DIV_ONE == k <==> !(if up then 2 * DIV_ONE * (d - r) <= d else 2 * DIV_ONE * (d - r) < d)
  {
    var w := z - k * DIV_ONE;
    assert w * d == z * d - k * d * DIV_ONE;
    FloorOfOffset(w, w * d, d, r, up);
    if 0 <= w < DIV_ONE {
      DivUnique(z, DIV_ONE, k);
    }
  }

  /** Near `r / d`, the rounded offset is non-negative, and below one exactly when not carried over. */
  lemma FloorOfOffset(w: int, wd: int, d: int, r: int, up: bool)
    requires d > 0 && 0 <= r < d && wd == w * d
    requires up ==> 2 * r * DIV_ONE - d < 2 * wd <= 2 * r * DIV_ONE + d
    requires !up ==> 2 * r * DIV_ONE - d <= 2 * wd < 2 * r * DIV_ONE + d
    ensures w >= 0
    ensures w < DIV_ONE <==> !(if up then 2 * DIV_ONE * (d - r) <= d else 2 * DIV_ONE * (d - r) < d)
  {
    MulMonotone(w, -1, d);
    MulMonotone(w, DIV_ONE - 1, d);
    MulMonotone(DIV_ONE, w, d);
  }

  /** The computed lot count is the exact floor whenever `10^scale * lot < 2 * 10^16`. */
  lemma ComputedLotsExact(masterQty: int, ratio: Decimal, lot: int)
    requires lot > 0 && Pow10(ratio.scale) * lot < 2 * DIV_ONE
    ensures ComputedLots(masterQty, ratio, lot) == masterQty * ratio.unscaled / (Pow10(ratio.scale) * lot)
  {
    var d := Pow10(ratio.scale) * lot;
    assert d > 0;
    var n := masterQty * ratio.unscaled;
    assert d - n % d >= 1;
    assert !RoundsOver(n, d);
    ComputedFloorIffNotRoundedOver(n, d);
  }

  /** The bound is tight: at or above it, some ratio of that scale sizes a unit fill one lot too high. */
  lemma ComputedLotsBoundTight(scale: nat, lot: int)
    requires lot > 0 && Pow10(scale) * lot >= 2 * DIV_ONE
    ensures var d := Pow10(scale) * lot;
            var ratio := Decimal(d - 1, scale);
            ComputedLots(1, ratio, lot) == 1 && 1 * ratio.unscaled / d == 0
  {
    var d := Pow10(scale) * lot;
    var n := 1 * (d - 1);
    DivUnique(n, d, 0);
    assert n % d == d - 1;
    assert RoundsOver(n, d);
    DivRoundNearest(n, d);
    var z := DivRound(n, d);
    MulMonotone(DIV_ONE + 1, z, d);
    MulMonotone(z, 0, d);
    ComputedFloorIffNotRoundedOver(n, d);
  }

  // ---------------------------------------------------------------- what SizeOrder returns

  /** Inputs `SizeOrder` accepts and for which decimal division is exact. */
  predicate Usable(ratio: Decimal, lot: int) {
    lot > 0 && ratio.unscaled > 0 && Pow10(ratio.scale) * lot < 2 * DIV_ONE
  }

  /** `q` does not exceed the scaled master quantity, nor a positive cap. */
  predicate Within(q: int, masterQty: int, ratio: Decimal, maxQty: int) {
    q * Pow10(ratio.scale) <= masterQty * ratio.unscaled && (maxQty > 0 ==> q <= maxQty)
  }

  /** Distance from the scaled quantity down to `qty`, in units of 10^-scale. */
  function Shortfall(masterQty: int, ratio: Decimal, qty: int): int {
    masterQty * ratio.unscaled - qty * Pow10(ratio.scale)
  }

  /** Uncapped, what flooring drops is less than one lot. */
  lemma UncappedShortfall(masterQty: int, ratio: Decimal, lot: int)
    requires Usable(ratio, lot)
    ensures var q := SizeOrder(masterQty, ratio, lot, 0).qty;
            q % lot == 0 && 0 <= Shortfall(masterQty, ratio, q) < Pow10(ratio.scale) * lot
  {
    ComputedLotsExact(masterQty, ratio, lot);
    var n, d := masterQty * ratio.unscaled, Pow10(ratio.scale) * lot;
    var lots := n / d;
    assert n == lots * d + n % d;
    assert lots * d == lots * lot * Pow10(ratio.scale);
    MulMod(lots, lot);
  }

  lemma MulMod(k: int, lot: int)
    requires lot > 0
    ensures (k * lot) % lot == 0
  {
    DivUnique(k * lot, lot, k);
  }

  /** Rounded over or not, a sized order is whole lots. */
  lemma SizedInLots(masterQty: int, ratio: Decimal, lot: int, maxQty: int)
    requires lot > 0
    ensures SizeOrder(masterQty, ratio, lot, maxQty).qty % lot == 0
  {
    if ratio.unscaled > 0 {
      var lots := ComputedLots(masterQty, ratio, lot);
      WholeLots(lots, maxQty, lot);
      var q := SizeOrder(masterQty, ratio, lot, maxQty).qty;
      assert q == 0 || q == lots * lot || q == maxQty - maxQty % lot;
    }
  }

  lemma WholeLots(lots: int, maxQty: int, lot: int)
    requires lot > 0
    ensures (lots * lot) % lot == 0 && (maxQty - maxQty % lot) % lot == 0
  {
    MulMod(lots, lot);
    MulMod(maxQty / lot, lot);
  }

  /** A lot multiple is no larger than another unless it is a whole lot larger. */
  lemma MultiplesApart(a: int, b: int, lot: int)
    requires lot > 0 && a % lot == 0 && b % lot == 0
    ensures a > b ==> a >= b + lot
  {
    var i, j := a / lot, b / lot;
    assert a == i * lot && b == j * lot;
    MulMonotone(j + 1, i, lot);
    MulMonotone(i, j, lot);
  }

  /** The result is the greatest lot multiple within the scaled quantity and the cap. */
  lemma SizeOrderGreatest(masterQty: int, ratio: Decimal, lot: int, maxQty: int, other: int)
    requires Usable(ratio, lot)
    ensures var q := SizeOrder(masterQty, ratio, lot, maxQty).qty;
            && q % lot == 0
            && Within(q, masterQty, ratio, maxQty)
            && (other % lot == 0 && Within(other, masterQty, ratio, maxQty) ==> other <= q)
  {
    var u := SizeOrder(masterQty, ratio, lot, 0).qty;
    var q := SizeOrder(masterQty, ratio, lot, maxQty).qty;
    var s := Pow10(ratio.scale);
    UncappedShortfall(masterQty, ratio, lot);
    MulMonotone(u + lot, other, s);
    assert (u + lot) * s == u * s + s * lot;
    if other % lot == 0 { MultiplesApart(other, u, lot); }
    if maxQty > 0 && u > maxQty {
      var k := maxQty / lot;
      assert q == k * lot;
      MulMod(k, lot);
      MulMonotone(q, u, s);
      if other % lot == 0 { MultiplesApart(other, q, lot); }
    }
  }

  /** Whole lots are above the cap exactly when the lots that fit under it are fewer. */
  lemma LotsAboveCap(lots: int, maxQty: int, lot: int)
    requires lot > 0 && maxQty > 0
    ensures lots * lot > maxQty <==> lots > maxQty / lot
    ensures maxQty - maxQty % lot == 0 <==> maxQty < lot
  {
    var fit := maxQty / lot;
    assert fit * lot <= maxQty < (fit + 1) * lot;
    MulMonotone(fit + 1, lots, lot);
    MulMonotone(lots, fit, lot);
    MulMonotone(1, fit, lot);
    MulMonotone(fit, 0, lot);
  }

  /** All five reasons, from the inputs alone and on every input. With whole lots as the rounded
      division counts them: bad instrument, bad ratio; below one lot when there is no lot, or some but
      a cap under one lot; capped when a cap of a lot or more holds fewer lots; and otherwise fine. */
  lemma SizeOrderReasons(masterQty: int, ratio: Decimal, lot: int, maxQty: int)
    ensures var reason := SizeOrder(masterQty, ratio, lot, maxQty).reason;
            if lot <= 0 then reason == ReasonBadInstrument
            else if ratio.unscaled <= 0 then reason == ReasonInvalidRatio
            else
              var lots := ComputedLots(masterQty, ratio, lot);
              && (reason == ReasonBelowOneLot <==> lots == 0 || (lots > 0 && 0 < maxQty < lot))
              && (reason == ReasonCapped <==> maxQty >= lot && lots > maxQty / lot)
              && (reason == ReasonOK <==> lots < 0 || (lots > 0 && (maxQty <= 0 || lots <= maxQty / lot)))
  {
    if lot > 0 && ratio.unscaled > 0 {
      var lots := ComputedLots(masterQty, ratio, lot);
      MulMonotone(1, lots, lot);
      MulMonotone(lots, -1, lot);
      if maxQty > 0 {
        LotsAboveCap(lots, maxQty, lot);
        CapLots(maxQty, lot);
      }
    }
  }

  lemma CapLots(maxQty: int, lot: int)
    requires lot > 0 && maxQty > 0
    ensures maxQty / lot >= 0 && (maxQty / lot == 0 <==> maxQty < lot)
  {
    LotsAboveCap(0, maxQty, lot);
    assert maxQty < lot ==> maxQty / lot == 0;
  }

  /** Where the division is exact, the same in terms of the scaled quantity. */
  lemma ExactReasons(masterQty: int, ratio: Decimal, lot: int, maxQty: int)
    requires Usable(ratio, lot)
    ensures var reason := SizeOrder(masterQty, ratio, lot, maxQty).reason;
            var scaled, unit := masterQty * ratio.unscaled, Pow10(ratio.scale) * lot;
            && (reason == ReasonBelowOneLot <==> 0 <= scaled && (scaled < unit || 0 < maxQty < lot))
            && (reason == ReasonCapped <==> maxQty >= lot && scaled >= (maxQty / lot + 1) * unit)
  {
    var scaled, unit := masterQty * ratio.unscaled, Pow10(ratio.scale) * lot;
    SizeOrderReasons(masterQty, ratio, lot, maxQty);
    ComputedLotsExact(masterQty, ratio, lot);
    QuotientAtLeast(scaled, unit, 0);
    QuotientAtLeast(scaled, unit, 1);
    QuotientAtLeast(scaled, unit, maxQty / lot + 1);
  }

  lemma QuotientAtLeast(n: int, d: int, k: int)
    requires d > 0
    ensures n / d >= k <==> n >= k * d
  {
    var q := n / d;
    assert q * d <= n < (q + 1) * d;
    MulMonotone(k, q, d);
    MulMonotone(q + 1, k, d);
  }

  /** A non-negative fill never sizes to a negative order. */
  lemma SizeOrderNonNegative(masterQty: int, ratio: Decimal, lot: int, maxQty: int)
    requires masterQty >= 0
    ensures SizeOrder(masterQty, ratio, lot, maxQty).qty >= 0
  {
    if lot > 0 && ratio.unscaled > 0 {
      NonNegativeQuotient(masterQty * ratio.unscaled, Pow10(ratio.scale) * lot, lot);
      CappedNonNegative(maxQty, lot);
    }
  }

  lemma NonNegativeQuotient(n: int, d: int, lot: int)
    requires n >= 0 && d > 0 && lot > 0
    ensures DivRound(n, d) / DIV_ONE * lot >= 0
  {
    var z := DivRound(n, d);
    assert z >= 0;
    MulMonotone(0, z / DIV_ONE, lot);
  }

  lemma CappedNonNegative(maxQty: int, lot: int)
    requires lot > 0
    ensures maxQty > 0 ==> maxQty - maxQty % lot >= 0
  {
  }

  /** Stored ratios have six decimals and at most four integer digits, and quantities and lots are
      32-bit, so the computed order fits the 64-bit integer it is held in and is exact. */
  lemma StoredInputsFit(masterQty: int, unscaled: int, lot: int)
    requires 0 <= masterQty < 0x8000_0000 && 0 < unscaled < 10_000_000_000 && 0 < lot < 0x8000_0000
    ensures Pow10(6) == 1_000_000
    ensures Usable(Decimal(unscaled, 6), lot)
    ensures 0 <= SizeOrder(masterQty, Decimal(unscaled, 6), lot, 0).qty <= MAX_INT64
  {
    var ratio := Decimal(unscaled, 6);
    assert Pow10(6) == 1_000_000 by {
      assert Pow10(4) == 10 * Pow10(3) && Pow10(2) == 10 * Pow10(1);
    }
    UncappedShortfall(masterQty, ratio, lot);
    SizeOrderNonNegative(masterQty, ratio, lot, 0);
    MulMonotone(masterQty, 0x8000_0000, unscaled);
  }

  // ---------------------------------------------------------------- partial fills

  function Sum(s: seq<int>): int {
    if s == [] then 0 else s[0] + Sum(s[1..])
  }

  function SizedTotal(fills: seq<int>, ratio: Decimal, lot: int): int {
    if fills == [] then 0
    else SizeOrder(fills[0], ratio, lot, 0).qty + SizedTotal(fills[1..], ratio, lot)
  }

  lemma ShortfallAdds(m1: int, q1: int, m2: int, q2: int, ratio: Decimal)
    ensures Shortfall(m1 + m2, ratio, q1 + q2) == Shortfall(m1, ratio, q1) + Shortfall(m2, ratio, q2)
    ensures Shortfall(-m1, ratio, -q1) == -Shortfall(m1, ratio, q1)
  {
  }

  /** Two results for one quantity: their distance in lots from the difference of their shortfalls. */
  lemma ShortfallGap(m: int, a: int, b: int, ratio: Decimal, lot: int, k: int)
    requires lot > 0
    requires Shortfall(m, ratio, a) - Shortfall(m, ratio, b) < k * (Pow10(ratio.scale) * lot)
    ensures b - a < k * lot
  {
    var s := Pow10(ratio.scale);
    assert (b - a) * s == b * s - a * s;
    assert k * lot * s == k * (s * lot);
    MulMonotone(k * lot, b - a, s);
  }

  /** Copying a fill in k parts never trades more than copying it whole, and trades less by fewer
      than k lots. */
  lemma PartialFillsBound(fills: seq<int>, ratio: Decimal, lot: int)
    requires Usable(ratio, lot) && fills != []
    ensures var whole := SizeOrder(Sum(fills), ratio, lot, 0).qty;
            var parts := SizedTotal(fills, ratio, lot);
            parts <= whole < parts + |fills| * lot
  {
    var whole, parts := SizeOrder(Sum(fills), ratio, lot, 0).qty, SizedTotal(fills, ratio, lot);
    PartsShortfall(fills, ratio, lot);
    UncappedShortfall(Sum(fills), ratio, lot);
    PartsAgainstWhole(Sum(fills), whole, parts, |fills|, ratio, lot);
  }

  lemma PartsAgainstWhole(m: int, whole: int, parts: int, k: nat, ratio: Decimal, lot: int)
    requires lot > 0 && whole % lot == 0 && parts % lot == 0
    requires 0 <= Shortfall(m, ratio, whole) < Pow10(ratio.scale) * lot
    requires 0 <= Shortfall(m, ratio, parts) < k * (Pow10(ratio.scale) * lot)
    ensures parts <= whole < parts + k * lot
  {
    ShortfallGap(m, parts, whole, ratio, lot, k);
    ShortfallGap(m, whole, parts, ratio, lot, 1);
    MultiplesApart(parts, whole, lot);
  }

  lemma {:induction false} PartsShortfall(fills: seq<int>, ratio: Decimal, lot: int)
    requires Usable(ratio, lot)
    ensures var parts := SizedTotal(fills, ratio, lot);
            var miss := Shortfall(Sum(fills), ratio, parts);
            var bound := |fills| * (Pow10(ratio.scale) * lot);
            parts % lot == 0 && 0 <= miss <= bound && (fills != [] ==> miss < bound)
  {
    if fills != [] {
      var head := SizeOrder(fills[0], ratio, lot, 0).qty;
      var tail := SizedTotal(fills[1..], ratio, lot);
      PartsShortfall(fills[1..], ratio, lot);
      UncappedShortfall(fills[0], ratio, lot);
      AddMultiples(head, tail, lot);
      ShortfallAdds(fills[0], head, Sum(fills[1..]), tail, ratio);
      OneMore(|fills[1..]|, Pow10(ratio.scale) * lot);
    }
  }

  lemma OneMore(k: int, unit: int)
    ensures (k + 1) * unit == k * unit + unit
  {
  }

  lemma AddMultiples(a: int, b: int, lot: int)
    requires lot > 0 && a % lot == 0 && b % lot == 0
    ensures (a + b) % lot == 0
  {
    var i, j := a / lot, b / lot;
    assert a + b == (i + j) * lot;
    MulMod(i + j, lot);
  }

  // ---------------------------------------------------------------- the ratio-one path

  /** For a positive fill the fast path agrees with `SizeOrder` exactly when the lot divides the
      smaller of the fill and a positive cap. */
  lemma RatioOneAgreesIff(fillQty: int, ratio: Decimal, lot: int, maxQty: int)
    requires fillQty > 0 && IsOne(ratio) && Usable(ratio, lot)
    ensures var bound := if 0 < maxQty < fillQty then maxQty else fillQty;
            && CopyQuantity(fillQty, ratio, lot, maxQty).qty == bound
            && (SizeOrder(fillQty, ratio, lot, maxQty).qty == bound <==> bound % lot == 0)
  {
    var bound := if 0 < maxQty < fillQty then maxQty else fillQty;
    MulMonotone(bound, fillQty, Pow10(ratio.scale));
    SizeOrderGreatest(fillQty, ratio, lot, maxQty, bound);
    var q := SizeOrder(fillQty, ratio, lot, maxQty).qty;
    MulMonotone(fillQty + 1, q, Pow10(ratio.scale));
  }

  // ---------------------------------------------------------------- drift of a copied position

  /** The signed follower position a rebalance aims for, given the master's net position. */
  function RebalanceTarget(masterQty: int, ratio: Decimal, lot: int, maxQty: int): int {
    if masterQty == 0 then 0
    else
      var sized := SizeOrder(Abs(masterQty), ratio, lot, maxQty);
      if sized.reason == ReasonOK || sized.reason == ReasonCapped then
        if masterQty > 0 then sized.qty else -sized.qty
      else 0
  }

  lemma TargetInLots(masterQty: int, ratio: Decimal, lot: int, maxQty: int)
    requires lot > 0
    ensures RebalanceTarget(masterQty, ratio, lot, maxQty) % lot == 0
  {
    var q := SizeOrder(Abs(masterQty), ratio, lot, maxQty).qty;
    SizedInLots(Abs(masterQty), ratio, lot, maxQty);
    SubMultiples(0, q, lot);
    MulMod(0, lot);
  }

  lemma SubMultiples(a: int, b: int, lot: int)
    requires lot > 0 && a % lot == 0 && b % lot == 0
    ensures (a - b) % lot == 0
  {
    var i, j := a / lot, b / lot;
    assert a - b == (i - j) * lot;
    MulMod(i - j, lot);
  }

  /** Follower's net position after copying each signed master trade, every order filling fully. */
  function CopiedNet(trades: seq<int>, ratio: Decimal, lot: int): int {
    if trades == [] then 0
    else
      var q := CopyQuantity(Abs(trades[0]), ratio, lot, 0).qty;
      (if trades[0] < 0 then -q else q) + CopiedNet(trades[1..], ratio, lot)
  }

  /** With the rounding left in, and so for every positive ratio and lot, one sized order still
      misses the exact scaled quantity by less than a lot. */
  lemma RoundedShortfall(q: int, ratio: Decimal, lot: int)
    requires lot > 0 && ratio.unscaled > 0
    ensures var unit := Pow10(ratio.scale) * lot;
            -unit < Shortfall(q, ratio, SizeOrder(q, ratio, lot, 0).qty) < unit
  {
    var n, d := q * ratio.unscaled, Pow10(ratio.scale) * lot;
    assert d > 0;
    DivRoundNearest(n, d);
    var z := DivRound(n, d);
    FloorWithinOne(n, d, z, z / DIV_ONE);
    var lots := z / DIV_ONE;
    assert lots * d == lots * lot * Pow10(ratio.scale);
  }

  lemma FloorWithinOne(n: int, d: int, z: int, lots: int)
    requires d > 0 && lots * DIV_ONE <= z < (lots + 1) * DIV_ONE
    requires 2 * n * DIV_ONE - d <= 2 * z * d <= 2 * n * DIV_ONE + d
    ensures -d < n - lots * d < d
  {
    MulMonotone(lots * DIV_ONE, z, d);
    MulMonotone(z + 1, (lots + 1) * DIV_ONE, d);
    assert lots * DIV_ONE * d == (lots * d) * DIV_ONE;
    assert (lots + 1) * DIV_ONE * d == (lots * d) * DIV_ONE + d * DIV_ONE;
    assert (z + 1) * d == z * d + d;
  }

  lemma CopyShortfall(q: int, ratio: Decimal, lot: int)
    requires lot > 0 && ratio.unscaled > 0
    ensures var unit := Pow10(ratio.scale) * lot;
            -unit < Shortfall(q, ratio, CopyQuantity(q, ratio, lot, 0).qty) < unit
  {
    if IsOne(ratio) { MulMonotone(1, lot, Pow10(ratio.scale)); } else { RoundedShortfall(q, ratio, lot); }
  }

  /** A signed result misses the signed quantity by what its magnitude misses, either way. */
  lemma SignedShortfall(m: int, q: int, ratio: Decimal, unit: int)
    requires -unit < Shortfall(Abs(m), ratio, q) < unit
    ensures -unit < Shortfall(m, ratio, if m < 0 then -q else q) < unit
  {
    ShortfallAdds(Abs(m), q, 0, 0, ratio);
  }

  /** Trade by trade, the follower strays from the exact scaled position by less than a lot. */
  lemma {:induction false} CopiedShortfall(trades: seq<int>, ratio: Decimal, lot: int)
    requires lot > 0 && ratio.unscaled > 0
    ensures var miss := Shortfall(Sum(trades), ratio, CopiedNet(trades, ratio, lot));
            var bound := |trades| * (Pow10(ratio.scale) * lot);
            -bound <= miss <= bound
  {
    if trades != [] {
      var q := CopyQuantity(Abs(trades[0]), ratio, lot, 0).qty;
      var rest := CopiedNet(trades[1..], ratio, lot);
      CopiedShortfall(trades[1..], ratio, lot);
      CopyShortfall(Abs(trades[0]), ratio, lot);
      SignedShortfall(trades[0], q, ratio, Pow10(ratio.scale) * lot);
      ShortfallAdds(trades[0], if trades[0] < 0 then -q else q, Sum(trades[1..]), rest, ratio);
      OneMore(|trades[1..]|, Pow10(ratio.scale) * lot);
    }
  }

  lemma TargetShortfall(masterQty: int, ratio: Decimal, lot: int)
    requires lot > 0 && ratio.unscaled > 0
    ensures var miss := Shortfall(masterQty, ratio, RebalanceTarget(masterQty, ratio, lot, 0));
            -(Pow10(ratio.scale) * lot) < miss < Pow10(ratio.scale) * lot
  {
    var q := SizeOrder(Abs(masterQty), ratio, lot, 0).qty;
    RoundedShortfall(Abs(masterQty), ratio, lot);
    SizeOrderReasons(Abs(masterQty), ratio, lot, 0);
    SignedShortfall(masterQty, q, ratio, Pow10(ratio.scale) * lot);
    assert RebalanceTarget(masterQty, ratio, lot, 0) ==
           if masterQty == 0 then 0 else if masterQty < 0 then -q else q;
  }

  /** After n copied buys and sells from flat, the follower is strictly within n + 1 lots of the
      rebalance target for the master's net position: for every positive ratio and lot. */
  lemma CopyDriftBound(trades: seq<int>, ratio: Decimal, lot: int)
    requires lot > 0 && ratio.unscaled > 0
    ensures var drift := RebalanceTarget(Sum(trades), ratio, lot, 0) - CopiedNet(trades, ratio, lot);
            Abs(drift) < (|trades| + 1) * lot
  {
    var target, held := RebalanceTarget(Sum(trades), ratio, lot, 0), CopiedNet(trades, ratio, lot);
    CopiedShortfall(trades, ratio, lot);
    TargetShortfall(Sum(trades), ratio, lot);
    OneMore(|trades|, Pow10(ratio.scale) * lot);
    ShortfallGap(Sum(trades), target, held, ratio, lot, |trades| + 1);
    ShortfallGap(Sum(trades), held, target, ratio, lot, |trades| + 1);
  }
}
