/**
 * The schedule strip's "current slot" rule: a slot's "HH:MM" is placed on
 * the current calendar day and the slot is current when that moment lies
 * less than 30 minutes from now.  Times are milliseconds; `dayStart` is the
 * local midnight of `now`'s day, and daylight-saving shifts are not modelled.
 */
module ScheduleTimeline {
  import opened Common
  import opened Text
  import ApiClient

  const HalfHourMs := 30 * 60 * 1000

  /**
   * JavaScript's `Number(s)` on decimal text: text that is blank by
   * JavaScript's whitespace is 0; otherwise the trimmed text is read as a
   * signed decimal, and anything else is `NaN` (`None`).
   */
  function JsNumber(s: string): (r: Option<real>)
    ensures JsTrim(s) == [] ==> r == Some(0.0)
    ensures JsTrim(s) != [] ==> r == ParseSignedDecimal(JsTrim(s))
  {
    var t := JsTrim(s);
    if t == [] then Some(0.0) else ParseSignedDecimal(t)
  }

  /** Digits with JavaScript whitespace in front, a no-break space or a byte-order mark say, read as the digits. */
  lemma PaddedDigitsNumber(pad: string, ds: string)
    requires forall k :: 0 <= k < |pad| ==> IsJsSpace(pad[k])
    requires ds != [] && AllDigits(ds)
    ensures JsNumber(pad + ds) == Some(DigitsValue(ds) as real)
  {
    assert !IsJsSpace(ds[0]) by { assert IsDigit(ds[0]); }
    assert !IsJsSpace(ds[|ds| - 1]) by { assert IsDigit(ds[|ds| - 1]); }
    JsTrimPadding(pad, ds);
    SignedDecimalDigits(ds);
  }

  /** An information separator U+001C..U+001F is whitespace to Python but not to `Number`: alone it is `NaN`, not 0. */
  lemma SeparatorIsNotBlank(c: char)
    requires '\U{1C}' <= c <= '\U{1F}'
    ensures IsSpace(c) && !IsJsSpace(c)
    ensures JsNumber([c]) == None
  {
    assert JsTrimStart([c]) == [c];
    assert JsTrimEnd([c]) == [c];
    NoDigitNoDecimal([c]);
  }

  /**
   * `setHours(hours, minutes, 0, 0)` on a copy of now: midnight plus the
   * truncated hours and minutes, rolling over past 24 h or 60 min as `Date`
   * does.  A missing or non-numeric part gives an invalid date (`None`).
   */
  function SlotStart(time: string, dayStart: int): (r: Option<int>)
    ensures r.Some? ==> |Split(time, ':')| >= 2 && JsNumber(Split(time, ':')[0]).Some? && JsNumber(Split(time, ':')[1]).Some?
  {
    var parts := Split(time, ':');
    if |parts| < 2 then None
    else
      var h, m := JsNumber(parts[0]), JsNumber(parts[1]);
      if h.Some? && m.Some? then Some(dayStart + Trunc(h.value) * 3600000 + Trunc(m.value) * 60000)
      else None
  }

  /** Without a colon the minutes are missing, and the date is invalid. */
  lemma NoColonNoSlot(time: string, dayStart: int)
    requires ':' !in time
    ensures SlotStart(time, dayStart).None?
  {
    SplitNoSeparator(time, ':');
  }

  function Abs(x: int): (r: nat)
    ensures r == x || r == -x
  {
    if x < 0 then -x else x
  }

  /** `isCurrentSlot`: strictly less than 30 minutes away; an invalid date never is. */
  function IsCurrentSlot(s: ApiClient.Schedule, now: int, dayStart: int): (r: bool)
    ensures r ==> SlotStart(s.time, dayStart).Some?
  {
    match SlotStart(s.time, dayStart)
    case None => false
    case Some(t) => Abs(now - t) < HalfHourMs
  }

  /**
   * A well-formed "HH:MM" (digits, leading zeros allowed; `ColonSplit` shows
   * that `hs + ":" + ms` splits into `[hs, ms]`) lands at that hour and
   * minute of the day, the moment `t`.
   */
  lemma DigitsSlotStart(time: string, hs: string, ms: string, dayStart: int, t: int)
    requires hs != [] && AllDigits(hs) && ms != [] && AllDigits(ms)
    requires Split(time, ':') == [hs, ms]
    requires t == dayStart + DigitsValue(hs) * 3600000 + DigitsValue(ms) * 60000
    ensures SlotStart(time, dayStart) == Some(t)
  {
    DigitsNumber(hs);
    DigitsNumber(ms);
    NumberedSlotStart(time, hs, ms, DigitsValue(hs), DigitsValue(ms), dayStart, t);
  }

  lemma NumberedSlotStart(time: string, hs: string, ms: string, h: nat, m: nat, dayStart: int, t: int)
    requires Split(time, ':') == [hs, ms]
    requires JsNumber(hs) == Some(h as real) && JsNumber(ms) == Some(m as real)
    requires t == dayStart + h * 3600000 + m * 60000
    ensures SlotStart(time, dayStart) == Some(t)
  {
    TruncNat(h);
    TruncNat(m);
    SlotStartOfParts(time, hs, ms, h as real, m as real, dayStart, t);
  }

  lemma TruncNat(n: nat)
    ensures Trunc(n as real) == n
  {
  }

  /** Two numeric parts give midnight plus their truncated hours and minutes. */
  lemma SlotStartOfParts(time: string, a: string, b: string, x: real, y: real, dayStart: int, t: int)
    requires Split(time, ':') == [a, b]
    requires JsNumber(a) == Some(x) && JsNumber(b) == Some(y)
    requires t == dayStart + Trunc(x) * 3600000 + Trunc(y) * 60000
    ensures SlotStart(time, dayStart) == Some(t)
  {
  }

  lemma ColonSplit(hs: string, ms: string)
    requires AllDigits(hs) && AllDigits(ms)
    ensures Split(hs + ":" + ms, ':') == [hs, ms]
  {
    assert ':' !in hs && ':' !in ms by {
      assert forall i :: 0 <= i < |hs| ==> hs[i] != ':';
      assert forall i :: 0 <= i < |ms| ==> ms[i] != ':';
    }
    var time := hs + ":" + ms;
    assert time == hs + [':'] + ms;
    assert time[|hs|] == ':';
    SplitAfter(hs, ':', ms);
    SplitNoSeparator(ms, ':');
  }

  lemma DigitsNumber(ds: string)
    requires ds != [] && AllDigits(ds)
    ensures JsNumber(ds) == Some(DigitsValue(ds) as real)
  {
    PaddedDigitsNumber([], ds);
    assert [] + ds == ds;
  }

  /** A valid slot is current exactly when it lies strictly within 30 minutes of now, either side. */
  lemma CurrentIffNear(s: ApiClient.Schedule, now: int, dayStart: int, t: int)
    requires SlotStart(s.time, dayStart) == Some(t)
    ensures IsCurrentSlot(s, now, dayStart) <==> t - HalfHourMs < now < t + HalfHourMs
  {
  }

  /**
   * A slot "HH:MM" at the moment `slot` of the day is current exactly when it
   * lies strictly within 30 minutes of now, either side; exactly 30 minutes
   * away it is not.
   */
  lemma CurrentIffWithinHalfHour(s: ApiClient.Schedule, hs: string, ms: string, now: int, dayStart: int, slot: int)
    requires hs != [] && AllDigits(hs) && ms != [] && AllDigits(ms)
    requires Split(s.time, ':') == [hs, ms]
    requires slot == dayStart + DigitsValue(hs) * 3600000 + DigitsValue(ms) * 60000
    ensures IsCurrentSlot(s, now, dayStart) <==> slot - HalfHourMs < now < slot + HalfHourMs
    ensures !IsCurrentSlot(s, slot + HalfHourMs, dayStart) && !IsCurrentSlot(s, slot - HalfHourMs, dayStart)
  {
    DigitsSlotStart(s.time, hs, ms, dayStart, slot);
    CurrentIffNear(s, now, dayStart, slot);
    CurrentIffNear(s, slot + HalfHourMs, dayStart, slot);
    CurrentIffNear(s, slot - HalfHourMs, dayStart, slot);
  }

  /**
   * The slot is placed on now's own day and never on the previous one: a
   * slot at or after 23:30 is not current in the first half hour after
   * midnight, though it lies less than 30 minutes back across midnight.
   */
  lemma NoMidnightWrap(s: ApiClient.Schedule, hs: string, ms: string, now: int, dayStart: int)
    requires hs != [] && AllDigits(hs) && ms != [] && AllDigits(ms)
    requires Split(s.time, ':') == [hs, ms]
    requires DigitsValue(hs) * 60 + DigitsValue(ms) >= 23 * 60 + 30
    requires dayStart <= now < dayStart + HalfHourMs
    ensures !IsCurrentSlot(s, now, dayStart)
  {
    var slot := dayStart + DigitsValue(hs) * 3600000 + DigitsValue(ms) * 60000;
    DigitsSlotStart(s.time, hs, ms, dayStart, slot);
    CurrentIffNear(s, now, dayStart, slot);
  }

  /** Whether a slot is current does not depend on whether it is active. */
  lemma ActiveDoesNotMatter(s: ApiClient.Schedule, active: bool, now: int, dayStart: int)
    ensures IsCurrentSlot(s.(active := active), now, dayStart) == IsCurrentSlot(s, now, dayStart)
  {
  }
}
