/**
 * Helpers of the sensor's display firmware: the three-colour range code, the
 * linear rescaling, the bar width and the summary fish colour. C `float` is
 * taken as `real`; the `(int)` cast truncates toward zero.
 */
module Firmware {
  import opened RealArith

  datatype Color = Red | Orange | Green

  /** Red outside `[min, max]`, orange in the outer fifth at either edge, green in between. */
  function ColorByRange(v: real, min: real, max: real): (c: Color)
    ensures c == Red <==> v < min || v > max
    ensures c == Green <==> min <= v <= max && min + (max - min) * 0.2 <= v <= max - (max - min) * 0.2
  {
    if v < min || v > max then Red
    else if v < min + (max - min) * 0.2 || v > max - (max - min) * 0.2 then Orange
    else Green
  }

  /** With `min > max` every value is red; the middle of a proper range is green. */
  lemma ColorByRangeCases(v: real, min: real, max: real)
    ensures max < min ==> ColorByRange(v, min, max) == Red
    ensures min <= max ==> ColorByRange((min + max) / 2.0, min, max) == Green
    ensures min < max ==> ColorByRange(min, min, max) == Orange && ColorByRange(max, min, max) == Orange
  {
  }

  /** The linear map from `[inMin, inMax]` onto `[outMin, outMax]`; a degenerate input range gives `outMin`. */
  function MapFloat(value: real, inMin: real, inMax: real, outMin: real, outMax: real): (r: real)
    ensures inMax <= inMin ==> r == outMin
  {
    if inMax <= inMin then outMin
    else (value - inMin) * (outMax - outMin) / (inMax - inMin) + outMin
  }

  /** The map sends the input ends to the output ends and keeps the order when the output rises. */
  lemma MapFloatAffine(v1: real, v2: real, inMin: real, inMax: real, outMin: real, outMax: real)
    requires inMin < inMax
    ensures MapFloat(inMin, inMin, inMax, outMin, outMax) == outMin
    ensures MapFloat(inMax, inMin, inMax, outMin, outMax) == outMax
    ensures outMin <= outMax && v1 <= v2 ==>
      MapFloat(v1, inMin, inMax, outMin, outMax) <= MapFloat(v2, inMin, inMax, outMin, outMax)
  {
    if outMin <= outMax && v1 <= v2 {
      var k := (outMax - outMin) / (inMax - inMin);
      assert MapFloat(v1, inMin, inMax, outMin, outMax) == (v1 - inMin) * k + outMin;
      assert MapFloat(v2, inMin, inMax, outMin, outMax) == (v2 - inMin) * k + outMin;
      MulNonNegative(v2 - v1, k);
    }
  }

  /** The Arduino `constrain` macro. */
  function Constrain(x: real, lo: real, hi: real): real
  {
    if x < lo then lo else if x > hi then hi else x
  }

  /** The C conversion of a float to `int`, which drops the fraction toward zero. */
  function Truncate(x: real): (n: int)
    ensures x >= 0.0 ==> n as real <= x < n as real + 1.0
    ensures x < 0.0 ==> n as real - 1.0 < x <= n as real
  {
    if x >= 0.0 then x.Floor else -((-x).Floor)
  }

  /** The fill width of a bar of outer width `w` showing `v` on `[min, max]`. */
  function BarWidth(w: int, v: real, min: real, max: real): (bw: int)
    ensures w >= 2 ==> 0 <= bw <= w - 2
    ensures bw > 0 ==> w > 2
  {
    var maxFill := (w - 2) as real;
    Truncate(Constrain(MapFloat(v, min, max, 0.0, maxFill), 0.0, maxFill))
  }

  /** What `drawBar` fills inside the frame: nothing when the width is 0, else the width and the range colour. */
  datatype Fill = NoFill | Filled(width: int, color: Color)

  function BarFill(w: int, v: real, min: real, max: real): (f: Fill)
    ensures f.Filled? <==> BarWidth(w, v, min, max) > 0
    ensures f.Filled? ==> 0 < f.width <= w - 2 && f.color == ColorByRange(v, min, max)
  {
    var bw := BarWidth(w, v, min, max);
    if bw > 0 then Filled(bw, ColorByRange(v, min, max)) else NoFill
  }

  /** A value at or below `min` draws no fill; one at or above `max` fills the whole inside. */
  lemma BarEnds(w: int, v: real, min: real, max: real)
    requires w >= 2 && min < max
    ensures v <= min ==> BarFill(w, v, min, max) == NoFill
    ensures v >= max ==> BarWidth(w, v, min, max) == w - 2
  {
    var maxFill := (w - 2) as real;
    if v <= min {
      MapFloatAffine(v, min, min, max, 0.0, maxFill);
    } else if v >= max {
      MapFloatAffine(max, v, min, max, 0.0, maxFill);
    }
  }

  /** The summary colour of the water for the fish. */
  function GlobalFishColor(t: real, ph: real, ec: real): (c: Color)
    ensures c == Red <==> t < 18.0 || t > 28.0 || ph < 6.0 || ph > 7.5 || ec < 400.0 || ec > 1600.0
    ensures c == Green <==> 20.0 <= t <= 26.0 && 6.4 <= ph <= 7.2 && 400.0 <= ec <= 1600.0
  {
    if t < 18.0 || t > 28.0 || ph < 6.0 || ph > 7.5 || ec < 400.0 || ec > 1600.0 then Red
    else if t < 20.0 || t > 26.0 || ph < 6.4 || ph > 7.2 then Orange
    else Green
  }
}
