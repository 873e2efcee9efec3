/**
 The linear scaling of a range of numbers to one octet: RemoteValueScaling and DPTScaling with
 its subclass DPTAngle. Floats are modelled as reals.
 */
module Scaling {
  import opened Bytes
  import opened Rounding

  // ------------------------------------------------------------------ the code

  /** A distance from the start of a range of width delta, in 255ths of that width. */
  function OctetOf(distance: real, delta: int): int
    requires delta != 0
  {
    RoundHalfEven(distance / delta as real * 255.0)
  }

  function NumberOf(raw: int, delta: int): int {
    RoundHalfEven(Exact(raw, delta))
  }

  /** The distance before rounding. */
  function Exact(raw: int, delta: int): real {
    (raw as real / 255.0) * delta as real
  }

  /** _calc_from_knx */
  function CalcFromKnx(rangeFrom: int, rangeTo: int, raw: int): int {
    NumberOf(raw, rangeTo - rangeFrom) + rangeFrom
  }

  /** _calc_to_knx; a range of one number divides by zero. */
  function CalcToKnx(rangeFrom: int, rangeTo: int, value: real): (r: Result<int>)
    ensures r.Ok? <==> rangeFrom != rangeTo
  {
    var delta := rangeTo - rangeFrom;
    if delta == 0 then Err(ZeroDivisionError) else Ok(OctetOf(value - rangeFrom as real, delta))
  }

  /** DPTScaling.to_knx of a class with these limits. */
  function ToKnx(valueMin: int, valueMax: int, value: real): Result<int> {
    if !(valueMin as real <= value <= valueMax as real) then Err(ConversionError)
    else CalcToKnx(valueMin, valueMax, value)
  }

  /** DPTScaling.from_knx of a payload of the right length. */
  function FromKnx(valueMin: int, valueMax: int, raw: byte): Result<int> {
    var value := CalcFromKnx(valueMin, valueMax, raw);
    if valueMin <= value <= valueMax then Ok(value) else Err(ConversionError)
  }

  // ------------------------------------------------------------- narrow ranges

  lemma ErrorOfNumber(u: real, delta: real, q: real)
    requires delta != 0.0
    ensures (q / 255.0) * delta == u - (u / delta * 255.0 - q) / 255.0 * delta
  {
    var w := u / delta;
    assert w * delta == u;
    assert (w * 255.0 - q) / 255.0 == w - q / 255.0;
    assert (w - q / 255.0) * delta == w * delta - (q / 255.0) * delta;
  }

  lemma NarrowShrinks(d: real, delta: real)
    requires -0.5 <= d <= 0.5 && -255.0 < delta < 255.0
    ensures -0.5 < d / 255.0 * delta < 0.5
  {
    var s := delta / 255.0;
    assert -1.0 < s < 1.0 && d / 255.0 * delta == d * s;
    if d > 0.0 {
      assert -d < d * s < d;
    } else if d < 0.0 {
      assert d < d * s < -d;
    }
  }

  lemma NarrowClose(u: real, delta: real, q: real)
    requires delta != 0.0 && -255.0 < delta < 255.0
    requires -0.5 <= u / delta * 255.0 - q <= 0.5
    ensures -0.5 < (q / 255.0) * delta - u < 0.5
  {
    ErrorOfNumber(u, delta, q);
    NarrowShrinks(u / delta * 255.0 - q, delta);
  }

  lemma OctetIsNear(distance: real, delta: int)
    requires delta != 0
    ensures -0.5 <= distance / delta as real * 255.0 - OctetOf(distance, delta) as real <= 0.5
  {
  }

  lemma NearestNumber(raw: int, delta: int, n: int)
    requires -0.5 < Exact(raw, delta) - n as real < 0.5
    ensures NumberOf(raw, delta) == n
  {
    RoundIsUnique(Exact(raw, delta), n);
  }

  lemma NarrowRestoresStrictly(u: int, delta: int)
    requires delta != 0 && -255 < delta < 255
    ensures NumberOf(OctetOf(u as real, delta), delta) == u
  {
    var q := OctetOf(u as real, delta);
    OctetIsNear(u as real, delta);
    NarrowClose(u as real, delta as real, q as real);
    NearestNumber(q, delta, u);
  }

  /** In a range at most 255 wide every whole distance has an octet of its own. */
  lemma NarrowRestores(u: int, delta: int)
    requires delta != 0 && -255 <= delta <= 255
    ensures NumberOf(OctetOf(u as real, delta), delta) == u
  {
    if delta == 255 || delta == -255 {
      RoundOfInt(u);
      RoundOfInt(-u);
      assert OctetOf(u as real, delta) == if delta == 255 then u else -u;
    } else {
      NarrowRestoresStrictly(u, delta);
    }
  }

  // --------------------------------------------------------------- wide ranges

  lemma ErrorOfOctet(x: real, delta: real, q: real)
    requires delta != 0.0
    ensures q / delta * 255.0 == x - (x / 255.0 * delta - q) / delta * 255.0
  {
    var w := x / 255.0;
    assert (w * delta - q) / delta == w - q / delta by {
      assert w * delta / delta == w;
    }
  }

  lemma WideShrinks(d: real, delta: real)
    requires -0.5 <= d <= 0.5 && (delta > 255.0 || delta < -255.0)
    ensures -0.5 < d / delta * 255.0 < 0.5
  {
    var w := d / delta;
    assert w * delta == d;
    TimesFarther(w, delta);
  }

  lemma SmallerProduct(w: real, delta: real)
    requires w != 0.0 && (delta > 255.0 || delta < -255.0)
    ensures w * delta != w * 255.0 && w * delta != w * -255.0
  {
    assert w * delta - w * 255.0 == w * (delta - 255.0);
    assert w * delta - w * -255.0 == w * (delta + 255.0);
  }

  lemma TimesFarther(w: real, delta: real)
    requires -0.5 <= w * delta <= 0.5 && (delta > 255.0 || delta < -255.0)
    ensures -0.5 < w * 255.0 < 0.5
  {
    if delta > 255.0 {
      ProductOrder(255.0, delta, w);
    } else {
      ProductOrder(delta, -255.0, w);
    }
    if w != 0.0 {
      SmallerProduct(w, delta);
    }
  }

  lemma WideClose(x: real, delta: real, q: real)
    requires delta > 255.0 || delta < -255.0
    requires -0.5 <= x / 255.0 * delta - q <= 0.5
    ensures -0.5 < q / delta * 255.0 - x < 0.5
  {
    ErrorOfOctet(x, delta, q);
    WideShrinks(x / 255.0 * delta - q, delta);
  }

  lemma WideRestoresStrictly(raw: int, delta: int)
    requires delta < -255 || delta > 255
    ensures OctetOf(NumberOf(raw, delta) as real, delta) == raw
  {
    var y := (raw as real / 255.0) * delta as real;
    var q := RoundHalfEven(y);
    WideClose(raw as real, delta as real, q as real);
    var r := q as real / delta as real * 255.0;
    RoundIsUnique(r, raw);
  }

  /** In a range at least 255 wide every octet has a whole distance of its own. */
  lemma WideRestores(raw: int, delta: int)
    requires delta <= -255 || delta >= 255
    ensures OctetOf(NumberOf(raw, delta) as real, delta) == raw
  {
    if delta == 255 || delta == -255 {
      RoundOfInt(raw);
      RoundOfInt(-raw);
      assert NumberOf(raw, delta) == if delta == 255 then raw else -raw;
    } else {
      WideRestoresStrictly(raw, delta);
    }
  }

  // ------------------------------------------------------------ order and ends

  lemma QuotientOrder(x: real, y: real, delta: real)
    requires x <= y && delta != 0.0
    ensures delta > 0.0 ==> x / delta <= y / delta
    ensures delta < 0.0 ==> x / delta >= y / delta
  {
    var v, w := x / delta, y / delta;
    assert v * delta == x && w * delta == y;
    assert (w - v) * delta == y - x;
    if delta > 0.0 && w < v {
      assert (w - v) * delta < 0.0;
    }
    if delta < 0.0 && w > v {
      assert (w - v) * delta < 0.0;
    }
  }

  lemma OctetOrder(x: real, y: real, delta: int)
    requires x <= y && delta != 0
    ensures delta > 0 ==> OctetOf(x, delta) <= OctetOf(y, delta)
    ensures delta < 0 ==> OctetOf(x, delta) >= OctetOf(y, delta)
  {
    QuotientOrder(x, y, delta as real);
    var v, w := x / delta as real, y / delta as real;
    if delta > 0 {
      RoundMonotone(v * 255.0, w * 255.0);
    } else {
      RoundMonotone(w * 255.0, v * 255.0);
    }
  }

  lemma ProductOrder(x: real, y: real, delta: real)
    requires x <= y
    ensures delta >= 0.0 ==> x * delta <= y * delta
    ensures delta <= 0.0 ==> x * delta >= y * delta
  {
    assert (y - x) * delta == y * delta - x * delta;
  }

  lemma ExactOrder(x: int, y: int, delta: int)
    requires x <= y
    ensures delta >= 0 ==> Exact(x, delta) <= Exact(y, delta)
    ensures delta <= 0 ==> Exact(x, delta) >= Exact(y, delta)
  {
    ProductOrder(x as real / 255.0, y as real / 255.0, delta as real);
  }

  lemma NumberOrder(x: int, y: int, delta: int)
    requires x <= y
    ensures delta >= 0 ==> NumberOf(x, delta) <= NumberOf(y, delta)
    ensures delta <= 0 ==> NumberOf(x, delta) >= NumberOf(y, delta)
  {
    ExactOrder(x, y, delta);
    var p, q := Exact(x, delta), Exact(y, delta);
    if p <= q {
      RoundMonotone(p, q);
    }
    if q <= p {
      RoundMonotone(q, p);
    }
  }

  lemma SelfQuotient(d: real)
    requires d != 0.0
    ensures d / d == 1.0 && 0.0 / d == 0.0
  {
  }

  lemma Ends(delta: int)
    requires delta != 0
    ensures OctetOf(0.0, delta) == 0 && OctetOf(delta as real, delta) == 255
    ensures NumberOf(0, delta) == 0 && NumberOf(255, delta) == delta
  {
    SelfQuotient(delta as real);
    RoundOfInt(0);
    RoundOfInt(255);
    NearestNumber(255, delta, delta);
    NearestNumber(0, delta, 0);
  }

  /** An order-keeping map of 0..n into fewer numbers has no inverse. */
  lemma FewerLose(n: nat, f: int -> int, g: int -> int) returns (x: nat)
    requires f(0) >= 0 && f(n) < n
    requires forall i :: 0 <= i < n ==> f(i) <= f(i + 1)
    ensures x <= n && g(f(x)) != x
  {
    x := 0;
    while g(f(x)) == x
      invariant x <= n
      invariant g(f(x)) == x ==> f(x) >= x
      decreases n - x
    {
      assert f(x) <= f(x + 1);
      x := x + 1;
    }
  }

  // ----------------------------------------------------------------- main results

  /** A number on its way to the bus and back. */
  function ValueOnBus(a: int, b: int, v: int): int
    requires a != b
  {
    CalcFromKnx(a, b, CalcToKnx(a, b, v as real).value)
  }

  /** An octet decoded and encoded again. */
  function OctetAgain(a: int, b: int, raw: int): int
    requires a != b
  {
    CalcToKnx(a, b, CalcFromKnx(a, b, raw) as real).value
  }

  lemma ValueOnBusIs(a: int, b: int, v: int)
    requires a != b
    ensures ValueOnBus(a, b, v) == NumberOf(OctetOf((v - a) as real, b - a), b - a) + a
  {
    assert v as real - a as real == (v - a) as real;
  }

  lemma OctetAgainIs(a: int, b: int, raw: int)
    requires a != b
    ensures OctetAgain(a, b, raw) == OctetOf(NumberOf(raw, b - a) as real, b - a)
  {
    var n := NumberOf(raw, b - a);
    assert (n + a) as real - a as real == n as real;
  }

  predicate InRange(a: int, v: int, b: int) {
    a <= v <= b || b <= v <= a
  }

  ghost predicate RestoresValues(a: int, b: int)
    requires a != b
  {
    forall v: int :: InRange(a, v, b) ==> ValueOnBus(a, b, v) == v
  }

  ghost predicate RestoresOctets(a: int, b: int)
    requires a != b
  {
    forall raw: int :: 0 <= raw <= 255 ==> OctetAgain(a, b, raw) == raw
  }

  lemma LostValue(a: int, b: int) returns (v: int)
    requires b - a > 255 || b - a < -255
    ensures InRange(a, v, b) && ValueOnBus(a, b, v) != v
  {
    var delta := b - a;
    var sign := if delta > 0 then 1 else -1;
    var f := (u: int) => OctetOf((sign * u) as real, delta);
    var g := (raw: int) => sign * NumberOf(raw, delta);
    Ends(delta);
    forall i | 0 <= i < sign * delta ensures f(i) <= f(i + 1) {
      if sign == 1 {
        OctetOrder(i as real, (i + 1) as real, delta);
      } else {
        OctetOrder((-(i + 1)) as real, (-i) as real, delta);
      }
    }
    assert f(0) == 0 && f(sign * delta) == 255;
    var x := FewerLose(sign * delta, f, g);
    v := a + sign * x;
    ValueOnBusIs(a, b, v);
  }

  /** Every whole number of the range survives exactly when the range is at most 255 wide. */
  lemma RestoresValuesIff(a: int, b: int)
    requires a != b
    ensures RestoresValues(a, b) <==> -255 <= b - a <= 255
  {
    if -255 <= b - a <= 255 {
      forall v: int | InRange(a, v, b) ensures ValueOnBus(a, b, v) == v {
        ValueOnBusIs(a, b, v);
        NarrowRestores(v - a, b - a);
      }
    } else {
      var v := LostValue(a, b);
    }
  }

  lemma LostOctet(a: int, b: int) returns (raw: int)
    requires a != b && -255 < b - a < 255
    ensures 0 <= raw <= 255 && OctetAgain(a, b, raw) != raw
  {
    var delta := b - a;
    var sign := if delta > 0 then 1 else -1;
    var f := (raw: int) => sign * NumberOf(raw, delta);
    var g := (n: int) => OctetOf((sign * n) as real, delta);
    Ends(delta);
    forall i | 0 <= i < 255 ensures f(i) <= f(i + 1) {
      NumberOrder(i, i + 1, delta);
    }
    assert f(0) == 0 && f(255) == sign * delta;
    raw := FewerLose(255, f, g);
    OctetAgainIs(a, b, raw);
    assert sign * (sign * NumberOf(raw, delta)) == NumberOf(raw, delta);
  }

  /** Every octet survives exactly when the range is at least 255 wide. */
  lemma RestoresOctetsIff(a: int, b: int)
    requires a != b
    ensures RestoresOctets(a, b) <==> b - a <= -255 || b - a >= 255
  {
    if b - a <= -255 || b - a >= 255 {
      forall raw: int | 0 <= raw <= 255 ensures OctetAgain(a, b, raw) == raw {
        OctetAgainIs(a, b, raw);
        WideRestores(raw, b - a);
      }
    } else {
      var raw := LostOctet(a, b);
    }
  }

  /** Both maps keep order, or invert it with an inverted range. */
  lemma Monotone(a: int, b: int, v: real, w: real, raw: int, other: int)
    requires a != b && v <= w && raw <= other
    ensures a < b ==> CalcToKnx(a, b, v).value <= CalcToKnx(a, b, w).value
    ensures a > b ==> CalcToKnx(a, b, v).value >= CalcToKnx(a, b, w).value
    ensures a < b ==> CalcFromKnx(a, b, raw) <= CalcFromKnx(a, b, other)
    ensures a > b ==> CalcFromKnx(a, b, raw) >= CalcFromKnx(a, b, other)
  {
    OctetOrder(v - a as real, w - a as real, b - a);
    NumberOrder(raw, other, b - a);
  }

  lemma EndsCorrespond(a: int, b: int)
    requires a != b
    ensures CalcToKnx(a, b, a as real).value == 0 && CalcToKnx(a, b, b as real).value == 255
    ensures CalcFromKnx(a, b, 0) == a && CalcFromKnx(a, b, 255) == b
  {
    Ends(b - a);
    assert b as real - a as real == (b - a) as real && a as real - a as real == 0.0;
  }

  /** Numbers of the range, whole or not, give octets, and octets give numbers of the range. */
  lemma StaysInRange(a: int, b: int, v: real, raw: byte)
    requires a as real <= v <= b as real || b as real <= v <= a as real
    requires a != b
    ensures 0 <= CalcToKnx(a, b, v).value <= 255
    ensures InRange(a, CalcFromKnx(a, b, raw), b)
  {
    EndsCorrespond(a, b);
    if a < b {
      Monotone(a, b, a as real, v, 0, raw);
      Monotone(a, b, v, b as real, raw, 255);
    } else {
      Monotone(a, b, v, a as real, 0, raw);
      Monotone(a, b, b as real, v, raw, 255);
    }
  }

  /** A class with these limits refuses exactly the numbers beyond them, and decodes every octet. */
  lemma RefusesIff(valueMin: int, valueMax: int, v: real, raw: byte)
    requires valueMin < valueMax
    ensures ToKnx(valueMin, valueMax, v) == Err(ConversionError) <==> v < valueMin as real || v > valueMax as real
    ensures ToKnx(valueMin, valueMax, v).Ok? ==> 0 <= ToKnx(valueMin, valueMax, v).value <= 255
    ensures FromKnx(valueMin, valueMax, raw).Ok?
  {
    StaysInRange(valueMin, valueMax, if valueMin as real <= v <= valueMax as real then v else valueMin as real, raw);
  }

  // ------------------------------------------------------------------- instances

  /** DPTScaling: every whole percentage is restored, but not every octet. */
  lemma PercentRestores(v: int)
    requires 0 <= v <= 100
    ensures ToKnx(0, 100, v as real).Ok? && 0 <= ToKnx(0, 100, v as real).value <= 255
    ensures FromKnx(0, 100, ToKnx(0, 100, v as real).value) == Ok(v)
    ensures RestoresValues(0, 100) && !RestoresOctets(0, 100)
  {
    StaysInRange(0, 100, v as real, 0);
    RestoresValuesIff(0, 100);
    RestoresOctetsIff(0, 100);
    assert InRange(0, v, 100) && ValueOnBus(0, 100, v) == v;
  }

  /** DPTAngle: every octet is restored, but not every whole angle. */
  lemma AngleRestores(raw: byte)
    ensures FromKnx(0, 360, raw).Ok?
    ensures ToKnx(0, 360, FromKnx(0, 360, raw).value as real) == Ok(raw)
    ensures RestoresOctets(0, 360) && !RestoresValues(0, 360)
  {
    StaysInRange(0, 360, 0.0, raw);
    RestoresValuesIff(0, 360);
    RestoresOctetsIff(0, 360);
    assert OctetAgain(0, 360, raw) == raw;
  }
}
