/** The three-tier fault classification used for every piece of equipment:
    more than 50% of fault predictions is critical, more than 30% is a
    warning, anything else is normal. Percentages are compared by
    cross-multiplication, so an empty group (0/0, NaN in the source) compares
    false with both thresholds and is normal. */
module Tiering {

  datatype Tier = Normal | Warning | Critical

  /** `(faults / total) * 100 > 50`. */
  predicate AboveCritical(faults: nat, total: nat)
  {
    100 * faults > 50 * total
  }

  /** `(faults / total) * 100 > 30`. */
  predicate AboveWarning(faults: nat, total: nat)
  {
    100 * faults > 30 * total
  }

  /** The `if (pct > 50) ... else if (pct > 30) ... else ...` chain. */
  function TierOf(faults: nat, total: nat): (t: Tier)
    ensures t == Critical <==> 100 * faults > 50 * total
    ensures t == Normal <==> 100 * faults <= 30 * total
    ensures faults == 0 ==> t == Normal
  {
    if AboveCritical(faults, total) then Critical
    else if AboveWarning(faults, total) then Warning
    else Normal
  }

  /** `(faults / total) * 100` over exact reals. */
  function Percentage(faults: nat, total: nat): real
    requires total > 0
  {
    (faults as real / total as real) * 100.0
  }

  lemma CrossMultiply(faults: nat, total: nat, bound: real)
    requires total > 0
    ensures Percentage(faults, total) > bound <==> 100.0 * (faults as real) > bound * (total as real)
  {
    var n := total as real;
    var q := faults as real / n;
    assert q * n == faults as real;
    if Percentage(faults, total) > bound {
      assert q * 100.0 > bound;
      assert (q * 100.0) * n > bound * n;
    } else {
      assert q * 100.0 <= bound;
      assert (q * 100.0) * n <= bound * n;
    }
  }

  /** For a non-empty group the tiers are the percentage bands (0, 30],
      (30, 50] and (50, 100], and the percentage lies in [0, 100]. */
  lemma TierMatchesPercentage(faults: nat, total: nat)
    requires 0 < total && faults <= total
    ensures 0.0 <= Percentage(faults, total) <= 100.0
    ensures TierOf(faults, total) == Critical <==> Percentage(faults, total) > 50.0
    ensures TierOf(faults, total) == Warning <==> 30.0 < Percentage(faults, total) <= 50.0
    ensures TierOf(faults, total) == Normal <==> Percentage(faults, total) <= 30.0
  {
    CrossMultiply(faults, total, 50.0);
    CrossMultiply(faults, total, 30.0);
    PercentageRange(faults, total);
  }

  lemma PercentageRange(faults: nat, total: nat)
    requires 0 < total && faults <= total
    ensures 0.0 <= Percentage(faults, total) <= 100.0
  {
    var n := total as real;
    var f := faults as real;
    var q := f / n;
    assert q * n == f;
    assert (1.0 - q) * n == n - f;
    assert 0.0 <= q <= 1.0;
  }

  /** An empty group compares false with both thresholds. */
  lemma EmptyGroupIsNormal()
    ensures TierOf(0, 0) == Normal
  {
  }

  /** The blink test `pct > 50 || pct > 30` is just `pct > 30`: the light
      blinks exactly when its tier is warning or critical. */
  lemma BlinkIsWarningOrCritical(faults: nat, total: nat)
    ensures (AboveCritical(faults, total) || AboveWarning(faults, total)) <==> AboveWarning(faults, total)
    ensures AboveWarning(faults, total) <==> TierOf(faults, total) != Normal
  {
  }
}
