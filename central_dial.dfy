/**
 * The mobile app's central dial: the target temperature moves in half-degree
 * steps inside [minTemp, maxTemp] (5 and 30 unless the caller passes other
 * bounds), the arc shows how far the target lies along that range, and each
 * button is disabled at its end of the range.  A handler's effect is the
 * temperature it hands to `onTempChange`, or `None` when it does not call it.
 */
module CentralDial {
  import opened Common

  const DefaultMin := 5.0
  const DefaultMax := 30.0
  const Step := 0.5

  /** The dial's props; an absent bound takes its default. */
  datatype DialProps = DialProps(currentTemp: real, targetTemp: real, minTemp: Option<real>, maxTemp: Option<real>) {
    function Low(): real {
      minTemp.GetOr(DefaultMin)
    }

    function High(): real {
      maxTemp.GetOr(DefaultMax)
    }
  }

  /** `handleIncrement`: one step up, only while the target is below the maximum. */
  function HandleIncrement(p: DialProps): (r: Option<real>)
    ensures r.Some? <==> p.targetTemp < p.High()
    ensures r.Some? ==> r.value == p.targetTemp + Step && r.value > p.targetTemp
  {
    if p.targetTemp < p.High() then Some(p.targetTemp + Step) else None
  }

  /** `handleDecrement`: one step down, only while the target is above the minimum. */
  function HandleDecrement(p: DialProps): (r: Option<real>)
    ensures r.Some? <==> p.targetTemp > p.Low()
    ensures r.Some? ==> r.value == p.targetTemp - Step && r.value < p.targetTemp
  {
    if p.targetTemp > p.Low() then Some(p.targetTemp - Step) else None
  }

  /** The minus button's `disabled` prop. */
  predicate MinusDisabled(p: DialProps) {
    p.targetTemp <= p.Low()
  }

  /** The plus button's `disabled` prop. */
  predicate PlusDisabled(p: DialProps) {
    p.targetTemp >= p.High()
  }

  /** A button is disabled exactly when its handler would do nothing. */
  lemma DisabledIffNoChange(p: DialProps)
    ensures PlusDisabled(p) <==> HandleIncrement(p).None?
    ensures MinusDisabled(p) <==> HandleDecrement(p).None?
  {
  }

  /** Without bounds in the props the range is 5 to 30. */
  lemma DefaultRange(current: real, target: real)
    ensures DialProps(current, target, None, None).Low() == 5.0
    ensures DialProps(current, target, None, None).High() == 30.0
  {
  }

  /**
   * `(targetTemp - minTemp) / (maxTemp - minTemp)`.  An empty range divides
   * by zero, which JavaScript answers with a non-finite number (`None`).
   */
  function Progress(p: DialProps): (r: Option<real>)
    ensures r.None? <==> p.High() == p.Low()
    ensures r.Some? ==> r.value * (p.High() - p.Low()) == p.targetTemp - p.Low()
  {
    if p.High() == p.Low() then None else Some((p.targetTemp - p.Low()) / (p.High() - p.Low()))
  }

  /** The arc is empty at the minimum and full at the maximum. */
  lemma ProgressEnds(p: DialProps)
    requires p.Low() != p.High()
    ensures p.targetTemp == p.Low() ==> Progress(p) == Some(0.0)
    ensures p.targetTemp == p.High() ==> Progress(p) == Some(1.0)
  {
    var d := p.High() - p.Low();
    if p.targetTemp == p.Low() {
      assert p.targetTemp - p.Low() == 0.0;
      assert 0.0 / d == 0.0;
    }
    if p.targetTemp == p.High() {
      assert p.targetTemp - p.Low() == d;
      assert d / d == 1.0;
    }
  }

  /** For a positive `d` and `v * d == x`: `v` lies in `[0, 1]` exactly when `x` lies in `[0, d]`. */
  lemma ScaledUnit(v: real, d: real, x: real)
    requires d > 0.0 && v * d == x
    ensures 0.0 <= v <= 1.0 <==> 0.0 <= x <= d
  {
    if 0.0 <= v {
      assert 0.0 <= v * d;
    } else {
      assert v * d < 0.0;
    }
    if v <= 1.0 {
      assert v * d <= 1.0 * d;
    } else {
      assert v * d > 1.0 * d;
    }
  }

  /** On a proper range the arc lies between empty and full exactly when the target lies in the range. */
  lemma ProgressInUnit(p: DialProps)
    requires p.Low() < p.High()
    ensures 0.0 <= Progress(p).value <= 1.0 <==> p.Low() <= p.targetTemp <= p.High()
  {
    ScaledUnit(Progress(p).value, p.High() - p.Low(), p.targetTemp - p.Low());
  }

  /** Multiplying by a positive `d` keeps the order. */
  lemma ScaledOrder(u: real, v: real, d: real)
    requires d > 0.0 && u * d <= v * d
    ensures u <= v
  {
  }

  /** A higher target never shows a shorter arc. */
  lemma ProgressMonotone(p: DialProps, target: real)
    requires p.Low() < p.High() && p.targetTemp <= target
    ensures Progress(p).value <= Progress(p.(targetTemp := target)).value
  {
    ScaledOrder(Progress(p).value, Progress(p.(targetTemp := target)).value, p.High() - p.Low());
  }

  /** A step down undoes a step up, as long as the raised target is still above the minimum. */
  lemma DecrementUndoesIncrement(p: DialProps)
    requires HandleIncrement(p).Some?
    requires HandleIncrement(p).value > p.Low()
    ensures HandleDecrement(p.(targetTemp := HandleIncrement(p).value)) == Some(p.targetTemp)
  {
  }

  /** The target after `n` presses of plus, each raised target fed back as the next prop. */
  function PressPlus(p: DialProps, n: nat): real
    decreases n
  {
    if n == 0 then p.targetTemp
    else match HandleIncrement(p)
      case None => p.targetTemp
      case Some(v) => PressPlus(p.(targetTemp := v), n - 1)
  }

  /**
   * From a target `k` half-degrees above the minimum of a range `m`
   * half-degrees wide, `presses` presses of plus land `min(k + presses, m)`
   * half-degrees above the minimum: the maximum is reached and never passed.
   */
  lemma {:induction false} PressPlusOnGrid(p: DialProps, k: nat, m: nat, presses: nat)
    requires k <= m
    requires p.targetTemp == p.Low() + k as real * Step
    requires p.High() == p.Low() + m as real * Step
    ensures PressPlus(p, presses) == p.Low() + (if k + presses <= m then k + presses else m) as real * Step
    ensures PressPlus(p, presses) <= p.High()
    decreases presses
  {
    if presses > 0 {
      if k < m {
        var q := p.(targetTemp := p.targetTemp + Step);
        assert HandleIncrement(p) == Some(q.targetTemp);
        assert q.targetTemp == q.Low() + (k + 1) as real * Step;
        PressPlusOnGrid(q, k + 1, m, presses - 1);
      } else {
        assert HandleIncrement(p).None?;
      }
    }
  }

  /** Off the half-degree grid one press passes the maximum: 29.8 becomes 30.3. */
  lemma OffGridOvershoot()
    ensures HandleIncrement(DialProps(20.0, 29.8, None, None)) == Some(30.3)
    ensures 30.3 > DialProps(20.0, 29.8, None, None).High()
  {
  }
}
