/**
 * The progress bar (src/components/ui/ProgressBar.tsx): the percentage is
 * `Math.round(value / max * 100)` capped at 100 (there is no lower cap), and
 * the automatic colour is chosen by four bands of that percentage. The dual
 * bar caps its planned and actual percentages the same way, one by one.
 */
module ProgressBar {
  import opened Common

  const DefaultMax := 100

  /** What `Math.min(Math.round((value / max) * 100), 100)` evaluates to: a whole
      number, or, for a zero maximum, `NaN` (0 / 0) or minus infinity (a negative
      value over 0). A positive value over 0 is infinity, which the cap makes 100. */
  datatype Share = Finite(percent: int) | NotANumber | MinusInfinity

  /** `Math.min(Math.round((value / max) * 100), 100)`. */
  function Percentage(value: int, max: int): (r: Share)
    ensures r.NotANumber? <==> max == 0 && value == 0
    ensures r.MinusInfinity? <==> max == 0 && value < 0
    ensures max == 0 && value > 0 ==> r == Finite(100)
    ensures r.Finite? ==> r.percent <= 100
    ensures max > 0 ==> r.Finite? && (r.percent == 100 <==> 200 * value + max >= 200 * max)
    ensures max > 0 && r.percent < 100 ==> 2 * max * r.percent <= 200 * value + max < 2 * max * (r.percent + 1)
    ensures max < 0 ==> r.Finite? && (r.percent == 100 <==> -200 * value - max >= -200 * max)
    ensures max < 0 && r.percent < 100 ==> -2 * max * r.percent <= -200 * value - max < -2 * max * (r.percent + 1)
  {
    if max == 0 then
      if value > 0 then Finite(100) else if value == 0 then NotANumber else MinusInfinity
    else
      // value / max == (-value) / (-max), so a negative maximum rounds the same share
      var v, m := if max > 0 then value else -value, if max > 0 then max else -max;
      var p := RoundedPercent(v, m);
      if p >= 100 then
        MulMonotone(2 * m, 100, p);
        Finite(100)
      else
        MulMonotone(2 * m, p + 1, 100);
        Finite(p)
  }

  /** A zero budget with nothing spent, as the portfolio cards pass it, is `NaN`. */
  lemma ZeroMaximum()
    ensures Percentage(0, 0) == NotANumber && BarAutoColor(0, 0) == Danger
    ensures Percentage(1, 0) == Finite(100) && BarAutoColor(1, 0) == Success
  {
  }

  /** With the default maximum, a value from 0 to 100 is shown as itself. */
  lemma PercentageOfDefaultMax(value: int)
    requires 0 <= value <= 100
    ensures Percentage(value, DefaultMax) == Finite(value)
  {
    RoundedPercentOfHundred(value);
  }

  /** A larger value never shows a smaller percentage. */
  lemma PercentageMonotone(v1: int, v2: int, max: int)
    requires max > 0 && v1 <= v2
    ensures Percentage(v1, max).percent <= Percentage(v2, max).percent
  {
    RoundedPercentMonotone(v1, v2, max);
  }

  /** Only the upper end is capped: a negative value gives a negative width. */
  lemma NoLowerCap()
    ensures Percentage(-1, DefaultMax) == Finite(-1)
  {
  }

  datatype BarColor = Success | Primary | Warning | Danger

  /** `getAutoColor`: the first of 80, 50 and 25 that the percentage reaches. */
  function AutoColor(percentage: int): (r: BarColor)
    ensures r == Success <==> percentage >= 80
    ensures r == Primary <==> 50 <= percentage < 80
    ensures r == Warning <==> 25 <= percentage < 50
    ensures r == Danger <==> percentage < 25
  {
    if percentage >= 80 then Success
    else if percentage >= 50 then Primary
    else if percentage >= 25 then Warning
    else Danger
  }

  /** Bands ordered from worst to best. */
  function ColorRank(c: BarColor): nat
  {
    match c
    case Danger => 0
    case Warning => 1
    case Primary => 2
    case Success => 3
  }

  /** More progress never gives a worse colour. */
  lemma AutoColorMonotone(p: int, q: int)
    requires p <= q
    ensures ColorRank(AutoColor(p)) <= ColorRank(AutoColor(q))
  {
  }

  /** `getAutoColor` on any share: every comparison with `NaN` or minus infinity
      fails, so both fall through to danger. */
  function ShareColor(s: Share): (r: BarColor)
    ensures s.Finite? ==> r == AutoColor(s.percent)
    ensures !s.Finite? ==> r == Danger
  {
    match s
    case Finite(p) => AutoColor(p)
    case _ => Danger
  }

  /** The colour a bar gets under `color = 'auto'`, from its value. */
  function BarAutoColor(value: int, max: int): (r: BarColor)
    ensures max > 0 && value >= max ==> r == Success
    ensures max > 0 && value <= 0 ==> r == Danger
    ensures max == 0 ==> (r == Success <==> value > 0) && (r != Success ==> r == Danger)
  {
    if max > 0 then
      PercentageAtEnds(value, max);
      ShareColor(Percentage(value, max))
    else
      ShareColor(Percentage(value, max))
  }

  /** Reaching the maximum fills the bar; nothing above zero leaves it empty. */
  lemma PercentageAtEnds(value: int, max: int)
    requires max > 0
    ensures value >= max ==> Percentage(value, max) == Finite(100)
    ensures value <= 0 ==> Percentage(value, max).percent <= 0
  {
    if value >= max {
      MulMonotone(200, max, value);
    } else if value <= 0 {
      var r := Percentage(value, max).percent;
      if r > 0 {
        MulMonotone(2 * max, 1, r);
      }
    }
  }

  datatype DualPercents = DualPercents(plannedPercent: Share, actualPercent: Share)

  /** `plannedPercent` and `actualPercent` of the dual bar. */
  function Dual(planned: int, actual: int, max: int): (r: DualPercents)
    ensures r.plannedPercent.Finite? ==> r.plannedPercent.percent <= 100
    ensures r.actualPercent.Finite? ==> r.actualPercent.percent <= 100
    ensures r.plannedPercent == Percentage(planned, max) && r.actualPercent == Percentage(actual, max)
  {
    DualPercents(Percentage(planned, max), Percentage(actual, max))
  }

  /** Each half of the dual bar depends on its own input alone. */
  lemma DualIndependent(planned: int, a1: int, a2: int, max: int)
    ensures Dual(planned, a1, max).plannedPercent == Dual(planned, a2, max).plannedPercent
    ensures Dual(a1, planned, max).actualPercent == Dual(a2, planned, max).actualPercent
  {
  }
}
