/** Small value helpers shared by every module of the model. */
module Common {

  /** An optional value: Python's `None`, TypeScript's `null`/`undefined`. */
  datatype Option<+T> = None | Some(value: T) {
    /** The value, or `default` when absent: TypeScript's `??`, Python's `dict.get(k, default)`. */
    function GetOr(default: T): T {
      match this
      case Some(v) => v
      case None => default
    }
  }

  /** One MQTT `publish(topic, payload)`: a number or a text payload. */
  datatype Publish = PublishNum(topic: string, value: real) | PublishText(topic: string, text: string)

  function Min(a: real, b: real): (r: real)
    ensures r <= a && r <= b && (r == a || r == b)
  {
    if a <= b then a else b
  }

  function Max(a: real, b: real): (r: real)
    ensures r >= a && r >= b && (r == a || r == b)
  {
    if a >= b then a else b
  }

  /** `max(lo, min(hi, x))`, the clamp idiom every service of the system uses. */
  function Clamp(x: real, lo: real, hi: real): (r: real)
    requires lo <= hi
    ensures lo <= r <= hi
    ensures lo <= x <= hi ==> r == x
    ensures x < lo ==> r == lo
    ensures x > hi ==> r == hi
  {
    Max(lo, Min(hi, x))
  }

  /** Python's `int(x)` and JavaScript's `Math.trunc`: rounds toward zero. */
  function Trunc(x: real): (r: int)
    ensures 0.0 <= x ==> r as real <= x < r as real + 1.0
    ensures x < 0.0 ==> r as real - 1.0 < x <= r as real
  {
    if x >= 0.0 then x.Floor else -((-x).Floor)
  }
}
