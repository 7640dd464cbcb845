/** The one percentage every view computes, `whole > 0 ? part / whole * 100 : 0`,
    and the three bands and the capped bar width used to draw it. */
module Utilization {

  /** `part` as a percentage of `whole`; 0 unless `whole` is positive. */
  function PercentOf(part: real, whole: real): (r: real)
    ensures whole <= 0.0 ==> r == 0.0
    ensures whole > 0.0 ==> r * whole == part * 100.0
    ensures whole > 0.0 ==> (r > 100.0 <==> part > whole) && (r >= 0.0 <==> part >= 0.0)
    ensures whole > 0.0 && 0.0 <= part <= whole ==> 0.0 <= r <= 100.0
  {
    if whole > 0.0 then
      var q := part / whole;
      assert q * whole == part;
      assert q > 1.0 ==> q * whole > whole;
      assert q <= 1.0 ==> q * whole <= whole;
      assert q < 0.0 ==> q * whole < 0.0;
      assert q >= 0.0 ==> q * whole >= 0.0;
      q * 100.0
    else 0.0
  }

  datatype Band = WithinBudget | NearLimit | OverBudget

  /** The colour band of a utilisation: up to 80, above 80 up to 100, above 100. */
  function BandOf(u: real): (b: Band)
    ensures b == WithinBudget <==> u <= 80.0
    ensures b == NearLimit <==> 80.0 < u <= 100.0
    ensures b == OverBudget <==> u > 100.0
  {
    if u > 100.0 then OverBudget else if u > 80.0 then NearLimit else WithinBudget
  }

  function BandRank(b: Band): nat
  {
    match b
    case WithinBudget => 0
    case NearLimit => 1
    case OverBudget => 2
  }

  /** Higher utilisation never shows a milder band. */
  lemma BandMonotone(u: real, v: real)
    requires u <= v
    ensures BandRank(BandOf(u)) <= BandRank(BandOf(v))
  {
  }

  /** `Math.min(u, 100)`: the width, in percent, of a utilisation bar. */
  function BarWidth(u: real): (w: real)
    ensures w <= 100.0
    ensures w == u || w == 100.0
    ensures u <= 100.0 ==> w == u
  {
    if u < 100.0 then u else 100.0
  }
}
