/** Floor arithmetic of the reward shares: decimal conversion and reward per staked token. */
module Shares {
  import opened Prelude

  const DECIMALS: nat := 18

  function Pow10(n: nat): (r: nat)
    ensures r > 0
  {
    if n == 0 then 1 else 10 * Pow10(n - 1)
  }

  function FloorDiv(x: nat, u: nat): nat
    requires u > 0
  {
    x / u
  }

  function Times(x: nat, y: nat): nat {
    x * y
  }

  /** A stake of the staking token in units of the local balance, rounded down. */
  function Convert(decimals: nat, stake: nat): nat {
    if decimals < DECIMALS then FloorDiv(stake, Pow10(DECIMALS - decimals))
    else Times(stake, Pow10(decimals - DECIMALS))
  }

  function Unit(decimals: nat): (r: nat)
    ensures r > 0
  {
    Pow10(decimals)
  }

  /** The reward accumulated by `stake` at `acc` per share, rounded down. */
  function Share(decimals: nat, acc: nat, stake: nat): nat {
    FloorDiv(Times(acc, Convert(decimals, stake)), Unit(decimals))
  }

  /** A 256-bit amount as a balance, clamped. */
  function ToBalance(amount: nat): nat {
    Min(amount, BALANCE_MAX)
  }

  // ---- products and floor quotients ----

  lemma FloorBounds(x: nat, u: nat)
    requires u > 0
    ensures Times(FloorDiv(x, u), u) <= x < Times(FloorDiv(x, u), u) + u
  {
  }

  lemma TimesAdd(a: nat, b: nat, c: nat)
    ensures Times(a, b + c) == Times(a, b) + Times(a, c)
    ensures Times(b + c, a) == Times(b, a) + Times(c, a)
  {
  }

  lemma TimesUnits(a: nat)
    ensures Times(a, 0) == 0 && Times(a, 1) == Times(1, a) == a && Times(2, a) == a + a
  {
  }

  lemma TimesMono(a: nat, b: nat, c: nat)
    requires b <= c
    ensures Times(a, b) <= Times(a, c) && Times(b, a) <= Times(c, a)
  {
  }

  lemma TimesCancel(a: nat, b: nat, u: nat)
    requires Times(a, u) < Times(b, u)
    ensures a < b
  {
    hide Times;
    if b <= a {
      TimesMono(u, b, a);
    }
  }

  /** The quotient is the greatest multiple that fits. */
  lemma FloorGreatest(q: nat, x: nat, u: nat)
    requires u > 0 && Times(q, u) <= x
    ensures q <= FloorDiv(x, u)
  {
    hide FloorDiv, Times;
    FloorBounds(x, u);
    TimesAdd(u, FloorDiv(x, u), 1);
    TimesUnits(u);
    TimesCancel(q, FloorDiv(x, u) + 1, u);
  }

  lemma FloorMono(x: nat, y: nat, u: nat)
    requires u > 0 && x <= y
    ensures FloorDiv(x, u) <= FloorDiv(y, u)
  {
    hide FloorDiv, Times;
    FloorBounds(x, u);
    FloorGreatest(FloorDiv(x, u), y, u);
  }

  lemma FloorSuperAdditive(x: nat, y: nat, u: nat)
    requires u > 0
    ensures FloorDiv(x, u) + FloorDiv(y, u) <= FloorDiv(x + y, u)
  {
    hide FloorDiv, Times;
    FloorBounds(x, u);
    FloorBounds(y, u);
    TimesAdd(u, FloorDiv(x, u), FloorDiv(y, u));
    FloorGreatest(FloorDiv(x, u) + FloorDiv(y, u), x + y, u);
  }

  lemma FloorNearlyAdditive(x: nat, y: nat, u: nat)
    requires u > 0
    ensures FloorDiv(x + y, u) <= FloorDiv(x, u) + FloorDiv(y, u) + 1
  {
    hide FloorDiv, Times;
    FloorBounds(x, u);
    FloorBounds(y, u);
    FloorBounds(x + y, u);
    var qx, qy, q := FloorDiv(x, u), FloorDiv(y, u), FloorDiv(x + y, u);
    TimesAdd(u, qx, qy);
    TimesAdd(u, qx + qy, 2);
    TimesUnits(u);
    TimesCancel(q, qx + qy + 2, u);
  }

  lemma FloorOfMultiple(x: nat, n: nat, u: nat)
    requires u > 0
    ensures FloorDiv(x + Times(n, u), u) == FloorDiv(x, u) + n
  {
    hide FloorDiv, Times;
    var q := FloorDiv(x, u);
    FloorBounds(x, u);
    FloorBounds(x + Times(n, u), u);
    TimesAdd(u, q, n);
    TimesAdd(u, q + n, 1);
    TimesUnits(u);
    FloorGreatest(q + n, x + Times(n, u), u);
    TimesCancel(FloorDiv(x + Times(n, u), u), q + n + 1, u);
  }

  // ---- quotients described by products ----

  /** `r` is `x / y`, rounded down and at most `cap`. */
  predicate Quotient(r: nat, x: nat, y: nat, cap: nat) {
    if cap * y <= x then r == cap else r * y <= x < (r + 1) * y
  }

  lemma QuotientIs(x: nat, y: nat, cap: nat)
    requires y > 0
    ensures Quotient(Min(FloorDiv(x, y), cap), x, y, cap)
  {
    hide FloorDiv, Times;
    var q := FloorDiv(x, y);
    FloorBounds(x, y);
    TimesAdd(y, q, 1);
    TimesUnits(y);
    TimesIs(q, y);
    TimesIs(q + 1, y);
    TimesIs(cap, y);
    if cap * y <= x {
      FloorGreatest(cap, x, y);
    } else {
      TimesCancel(q, cap, y);
    }
  }

  /** At most one number is the quotient. */
  lemma QuotientOnce(a: nat, b: nat, x: nat, y: nat, cap: nat)
    requires Quotient(a, x, y, cap) && Quotient(b, x, y, cap)
    ensures a == b
  {
    hide Times;
    if cap * y > x {
      TimesIs(a, y);
      TimesIs(b, y);
      TimesIs(a + 1, y);
      TimesIs(b + 1, y);
      TimesCancel(a, b + 1, y);
      TimesCancel(b, a + 1, y);
    }
  }

  /** The quotient by products, without a cap. */
  lemma FloorIs(q: nat, x: nat, y: nat)
    requires y > 0
    ensures q * y <= x < (q + 1) * y <==> q == FloorDiv(x, y)
  {
    hide FloorDiv, Times;
    var f := FloorDiv(x, y);
    FloorBounds(x, y);
    TimesIs(q, y);
    TimesIs(q + 1, y);
    TimesAdd(y, f, 1);
    TimesUnits(y);
    if q * y <= x < (q + 1) * y {
      FloorGreatest(q, x, y);
      TimesCancel(f, q + 1, y);
    }
  }

  /** Being above a quotient, without the division. */
  lemma AboveQuotient(r: nat, x: nat, y: nat)
    requires y > 0
    ensures r > FloorDiv(x, y) <==> r * y > x
  {
    hide FloorDiv, Times;
    TimesIs(r, y);
    if Times(r, y) <= x {
      FloorGreatest(r, x, y);
    } else {
      FloorBounds(x, y);
      TimesCancel(FloorDiv(x, y), r, y);
    }
  }

  lemma TimesIs(a: nat, b: nat)
    ensures Times(a, b) == a * b
  {
  }

  // ---- conversion and shares ----

  lemma {:induction false} PowersAdd(a: nat, b: nat)
    ensures Pow10(a + b) == Pow10(a) * Pow10(b) && Pow10(1) == 10
  {
    if a > 0 {
      PowersAdd(a - 1, b);
      assert (10 * Pow10(a - 1)) * Pow10(b) == 10 * (Pow10(a - 1) * Pow10(b));
    }
  }

  /** Conversion multiplies by 10^decimals / 10^18 and rounds down. */
  lemma ConvertScales(decimals: nat, stake: nat)
    ensures var c := Convert(decimals, stake);
      c * Pow10(DECIMALS) <= stake * Pow10(decimals) < (c + 1) * Pow10(DECIMALS)
  {
    hide Pow10, FloorDiv, Times;
    var c, v := Convert(decimals, stake), Pow10(decimals);
    if decimals < DECIMALS {
      var u := Pow10(DECIMALS - decimals);
      PowersAdd(DECIMALS - decimals, decimals);
      FloorBounds(stake, u);
      TimesIs(c, u);
      Scaled(c, stake, u, v);
    } else {
      var w := Pow10(decimals - DECIMALS);
      PowersAdd(decimals - DECIMALS, DECIMALS);
      TimesIs(stake, w);
      Scaled(stake * w, stake * w, 1, Pow10(DECIMALS));
      Regrouped(stake, w, Pow10(DECIMALS));
    }
  }

  lemma Scaled(c: nat, x: nat, u: nat, v: nat)
    requires v > 0 && c * u <= x < c * u + u
    ensures c * (u * v) <= x * v < (c + 1) * (u * v)
  {
    Regrouped(c, u, v);
    Regrouped(c + 1, u, v);
    assert (c + 1) * u == c * u + u;
    hide Times;
    TimesIs(x, v);
    TimesIs(c * u, v);
    TimesIs(c * u + u, v);
    TimesMono(v, c * u, x);
    TimesMono(v, x + 1, c * u + u);
    TimesAdd(v, x, 1);
    TimesUnits(v);
  }

  lemma Regrouped(a: nat, b: nat, c: nat)
    ensures (a * b) * c == a * (b * c)
  {
  }

  /** Converting parts never yields more than converting the whole. */
  lemma ConvertSuperAdditive(decimals: nat, x: nat, y: nat)
    ensures Convert(decimals, x) + Convert(decimals, y) <= Convert(decimals, x + y)
  {
    hide FloorDiv, Times;
    if decimals < DECIMALS {
      FloorSuperAdditive(x, y, Pow10(DECIMALS - decimals));
    } else {
      TimesAdd(Pow10(decimals - DECIMALS), x, y);
    }
  }

  lemma ShareMonoAcc(decimals: nat, a: nat, b: nat, stake: nat)
    requires a <= b
    ensures Share(decimals, a, stake) <= Share(decimals, b, stake)
  {
    hide FloorDiv, Times;
    var c := Convert(decimals, stake);
    TimesMono(c, a, b);
    FloorMono(Times(a, c), Times(b, c), Unit(decimals));
  }

  /** The shares of two stakes never exceed the share of their sum. */
  lemma ShareSuperAdditive(decimals: nat, acc: nat, x: nat, y: nat)
    ensures Share(decimals, acc, x) + Share(decimals, acc, y) <= Share(decimals, acc, x + y)
  {
    hide Convert, Unit, FloorDiv, Times;
    var cx, cy, c, u := Convert(decimals, x), Convert(decimals, y), Convert(decimals, x + y), Unit(decimals);
    ConvertSuperAdditive(decimals, x, y);
    TimesAdd(acc, cx, cy);
    TimesMono(acc, cx + cy, c);
    FloorSuperAdditive(Times(acc, cx), Times(acc, cy), u);
    FloorMono(Times(acc, cx + cy), Times(acc, c), u);
  }

  lemma ShareOfNothing(decimals: nat, acc: nat)
    ensures Share(decimals, acc, 0) == 0
  {
    hide FloorDiv, Times;
    if decimals < DECIMALS {
      NothingDivided(Pow10(DECIMALS - decimals));
    } else {
      NothingTimes(Pow10(decimals - DECIMALS));
    }
    TimesUnits(acc);
    NothingDivided(Unit(decimals));
  }

  lemma NothingDivided(u: nat)
    requires u > 0
    ensures FloorDiv(0, u) == 0
  {
  }

  lemma NothingTimes(u: nat)
    ensures Times(0, u) == 0
  {
  }

  /** Raising `acc` by a floor share of `pending` raises no total share by more than `pending`. */
  lemma PendingShare(acc: nat, d: nat, pending: nat, total: nat, u: nat)
    requires u > 0 && total > 0 && d <= FloorDiv(Times(pending, u), total)
    ensures FloorDiv(Times(acc + d, total), u) <= FloorDiv(Times(acc, total), u) + pending
  {
    hide FloorDiv, Times;
    FloorBounds(Times(pending, u), total);
    TimesMono(total, d, FloorDiv(Times(pending, u), total));
    TimesAdd(total, acc, d);
    FloorMono(Times(acc + d, total), Times(acc, total) + Times(pending, u), u);
    FloorOfMultiple(Times(acc, total), pending, u);
  }

  // ---- rounding dust ----

  /** The most that the share of a sum exceeds the sum of two shares by: one unit with 18 decimals or more;
      with fewer, where conversion rounds too, two units and the share of one converted unit of stake. */
  function Dust(decimals: nat, acc: nat): nat {
    if decimals < DECIMALS then FloorDiv(acc, Unit(decimals)) + 2 else 1
  }

  lemma ConvertNearlyAdditive(decimals: nat, x: nat, y: nat)
    ensures Convert(decimals, x + y) <=
      Convert(decimals, x) + Convert(decimals, y) + if decimals < DECIMALS then 1 else 0
  {
    hide FloorDiv, Times;
    if decimals < DECIMALS {
      FloorNearlyAdditive(x, y, Pow10(DECIMALS - decimals));
    } else {
      TimesAdd(Pow10(decimals - DECIMALS), x, y);
    }
  }

  /** The share of a sum exceeds the sum of the shares by rounding only. */
  lemma ShareNearlyAdditive(decimals: nat, acc: nat, x: nat, y: nat)
    ensures Share(decimals, acc, x + y) <= Share(decimals, acc, x) + Share(decimals, acc, y) + Dust(decimals, acc)
  {
    hide Convert, Unit, FloorDiv, Times;
    var cx, cy, c, u := Convert(decimals, x), Convert(decimals, y), Convert(decimals, x + y), Unit(decimals);
    ConvertNearlyAdditive(decimals, x, y);
    TimesAdd(acc, cx, cy);
    FloorNearlyAdditive(Times(acc, cx), Times(acc, cy), u);
    if decimals < DECIMALS {
      TimesMono(acc, c, cx + cy + 1);
      TimesAdd(acc, cx + cy, 1);
      TimesUnits(acc);
      FloorMono(Times(acc, c), Times(acc, cx + cy) + acc, u);
      FloorNearlyAdditive(Times(acc, cx + cy), acc, u);
    } else {
      TimesMono(acc, c, cx + cy);
      FloorMono(Times(acc, c), Times(acc, cx + cy), u);
    }
  }
}
