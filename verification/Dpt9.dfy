/**
 DPT2ByteFloat: a sign, 4 bits of exponent and 11 bits of mantissa in hundredths. Floats are
 modelled as reals, so float(v) * 100 and the divisions by 2 are exact; the divisions by 2
 are exact in binary floating point as well.
 */
module Dpt9 {
  import opened Bytes
  import opened Rounding

  // -------------------------------------------------------- shifts, by one bit each

  /** x / 2 / ... / 2 */
  function Halved(x: real, e: nat): real
    decreases e
  {
    if e == 0 then x else Halved(x / 2.0, e - 1)
  }

  function Doubled(x: real, e: nat): real
    decreases e
  {
    if e == 0 then x else Doubled(2.0 * x, e - 1)
  }

  /** m << e */
  function Shifted(m: int, e: nat): int
    decreases e
  {
    if e == 0 then m else Shifted(2 * m, e - 1)
  }

  lemma {:induction false} ShiftedIsDoubled(m: int, e: nat)
    ensures Shifted(m, e) as real == Doubled(m as real, e)
    decreases e
  {
    if e > 0 {
      ShiftedIsDoubled(2 * m, e - 1);
      assert (2 * m) as real == 2.0 * m as real;
    }
  }

  lemma {:induction false} HalvedOfSum(x: real, d: nat, e: nat)
    ensures Halved(Halved(x, d), e) == Halved(x, d + e)
    decreases d
  {
    if d > 0 {
      HalvedOfSum(x / 2.0, d - 1, e);
    }
  }

  lemma {:induction false} HalvedOfDoubled(x: real, d: nat, e: nat)
    requires d <= e
    ensures Halved(Doubled(x, e), d) == Doubled(x, e - d)
    decreases e
  {
    if d > 0 {
      LastDoubling(x, e);
      HalvedOfDoubled(x, d - 1, e - 1);
    }
  }

  lemma {:induction false} LastDoubling(x: real, e: nat)
    requires e > 0
    ensures Doubled(x, e) == 2.0 * Doubled(x, e - 1)
    decreases e
  {
    if e > 1 {
      LastDoubling(2.0 * x, e - 1);
    }
  }

  lemma LastHalving(x: real, e: nat)
    requires e > 0
    ensures Halved(x, e) == Halved(x, e - 1) / 2.0
  {
    HalvedOfSum(x, e - 1, 1);
    assert Halved(Halved(x, e - 1), 1) == Halved(Halved(x, e - 1) / 2.0, 0);
  }

  lemma {:induction false} DoubledOfHalved(x: real, e: nat)
    ensures Doubled(Halved(x, e), e) == x
    decreases e
  {
    if e > 0 {
      LastHalving(x, e);
      DoubledOfHalved(x, e - 1);
    }
  }

  /** Both shifts are additive, and so monotone. */
  lemma {:induction false} DoubledIsAdditive(x: real, y: real, e: nat)
    ensures Doubled(x - y, e) == Doubled(x, e) - Doubled(y, e)
    ensures x <= y ==> Doubled(x, e) <= Doubled(y, e)
    decreases e
  {
    if e > 0 {
      DoubledIsAdditive(2.0 * x, 2.0 * y, e - 1);
      assert 2.0 * (x - y) == 2.0 * x - 2.0 * y;
    }
  }

  lemma {:induction false} HalvedIsMonotone(x: real, y: real, e: nat)
    requires x <= y
    ensures Halved(x, e) <= Halved(y, e)
    decreases e
  {
    if e > 0 {
      HalvedIsMonotone(x / 2.0, y / 2.0, e - 1);
    }
  }

  // ------------------------------------------------------------------ the encoding

  predicate Fits(x: real) {
    -2048.0 <= x <= 2047.0
  }

  lemma {:induction false} FitsFurther(x: real, d: nat, e: nat)
    requires Fits(Halved(x, d)) && d <= e
    ensures Fits(Halved(x, e))
    decreases e
  {
    if d < e {
      FitsFurther(x, d, e - 1);
      LastHalving(x, e);
    }
  }

  /** What the loop computes: the number of halvings until the value fits. */
  function Exponent(x: real): (e: nat)
    decreases (if x < 0.0 then -x else x).Floor
  {
    if Fits(x) then 0 else Exponent(x / 2.0) + 1
  }

  /** The exponent is the least one with which the value fits. */
  lemma {:induction false} ExponentIsLeast(x: real, e: nat)
    ensures Fits(Halved(x, Exponent(x)))
    ensures Fits(Halved(x, e)) <==> Exponent(x) <= e
    decreases (if x < 0.0 then -x else x).Floor
  {
    if Fits(x) {
      FitsFurther(x, 0, e);
    } else {
      ExponentIsLeast(x / 2.0, if e > 0 then e - 1 else 0);
    }
  }

  /** Exponent and mantissa of a number of hundredths. */
  datatype Float = Float(exponent: nat, mantissa: int)

  function Encode(x: real): Float {
    if RoundHalfEven(x) == 0 then Float(0, 0)
    else Float(Exponent(x), RoundHalfEven(Halved(x, Exponent(x))))
  }

  function Decode(f: Float): int {
    Shifted(f.mantissa, f.exponent)
  }

  /** An encodable number of hundredths, in the range of the base class. */
  predicate InRange(x: real) {
    -67108864.0 <= x <= 67076096.0
  }

  predicate Representable(f: Float) {
    f.exponent <= 15 && -2048 <= f.mantissa <= 2047
  }

  /** The special case near 0 only settles the sign of a mantissa that rounds to 0. */
  lemma EncodeUniformly(x: real)
    ensures Encode(x) == Float(Exponent(x), RoundHalfEven(Halved(x, Exponent(x))))
  {
    if RoundHalfEven(x) == 0 {
      assert Fits(x);
    }
  }

  /** The loop terminates with an exponent of at most 15 exactly for values in range. */
  lemma EncodeRepresentable(x: real)
    ensures Exponent(x) <= 15 <==> InRange(x)
    ensures InRange(x) ==> Representable(Encode(x))
  {
    ExponentIsLeast(x, 15);
    Fifteen(x);
    EncodeUniformly(x);
  }

  lemma Five(x: real)
    ensures Halved(x, 5) == x / 32.0
    ensures Doubled(x, 5) == 32.0 * x
  {
    assert Halved(x, 5) == Halved(x / 2.0, 4) == Halved(x / 4.0, 3) == Halved(x / 8.0, 2) == Halved(x / 16.0, 1);
    assert Doubled(x, 5) == Doubled(2.0 * x, 4) == Doubled(4.0 * x, 3) == Doubled(8.0 * x, 2) == Doubled(16.0 * x, 1);
  }

  lemma {:induction false} DoubledOfSum(x: real, d: nat, e: nat)
    ensures Doubled(Doubled(x, d), e) == Doubled(x, d + e)
    decreases d
  {
    if d > 0 {
      DoubledOfSum(2.0 * x, d - 1, e);
    }
  }

  lemma Fifteen(x: real)
    ensures Halved(x, 15) == x / 32768.0
    ensures Doubled(x, 15) == 32768.0 * x
  {
    HalvedOfSum(x, 5, 10);
    HalvedOfSum(Halved(x, 5), 5, 5);
    Five(x);
    Five(x / 32.0);
    Five(x / 1024.0);
    DoubledOfSum(x, 5, 10);
    DoubledOfSum(Doubled(x, 5), 5, 5);
    Five(32.0 * x);
    Five(1024.0 * x);
  }

  /** The decoded value differs by at most half a unit of the last place: 2^(e-1) hundredths. */
  lemma RoundTripError(x: real)
    ensures var f := Encode(x);
            -Doubled(0.5, f.exponent) <= Decode(f) as real - x <= Doubled(0.5, f.exponent)
  {
    EncodeUniformly(x);
    var e := Exponent(x);
    var h := Halved(x, e);
    var m := RoundHalfEven(h);
    ShiftedIsDoubled(m, e);
    DoubledOfHalved(x, e);
    DoubledIsAdditive(m as real, h, e);
    DoubledIsAdditive(m as real - h, 0.5, e);
    DoubledIsAdditive(-0.5, m as real - h, e);
    DoubledIsAdditive(0.0, 0.5, e);
    DoubledIsAdditive(0.5, 0.5, e);
  }

  // ------------------------------------------------- decoding and encoding compared

  /** The number a decoded mantissa and exponent stand for, shifted back by d. */
  lemma HalvedOfDecoded(f: Float, d: nat)
    ensures Halved(Decode(f) as real, d) ==
            if d <= f.exponent then Shifted(f.mantissa, f.exponent - d) as real else Halved(f.mantissa as real, d - f.exponent)
  {
    var m, e := f.mantissa as real, f.exponent;
    ShiftedIsDoubled(f.mantissa, e);
    if d <= e {
      HalvedOfDoubled(m, d, e);
      ShiftedIsDoubled(f.mantissa, e - d);
    } else {
      HalvedOfSum(Doubled(m, e), e, d - e);
      HalvedOfDoubled(m, e, e);
    }
  }

  lemma DecodedInRange(f: Float)
    requires Representable(f)
    ensures InRange(Decode(f) as real)
  {
    HalvedOfDecoded(f, 15);
    FitsFurther(f.mantissa as real, 0, 15 - f.exponent);
    Fifteen(Decode(f) as real);
  }

  predicate Normalised(f: Float) {
    f.exponent == 0 || f.mantissa < -1024 || f.mantissa > 1023
  }

  /** Decoding and encoding again restores exactly the normalised pairs. */
  lemma EncodeOfDecodedIff(f: Float)
    requires Representable(f)
    ensures Encode(Decode(f) as real) == f <==> Normalised(f)
  {
    var x := Decode(f) as real;
    EncodeUniformly(x);
    HalvedOfDecoded(f, f.exponent);
    ExponentIsLeast(x, f.exponent);
    RoundOfInt(f.mantissa);
    if f.exponent > 0 {
      HalvedOfDecoded(f, f.exponent - 1);
      ExponentIsLeast(x, f.exponent - 1);
      assert Shifted(f.mantissa, 1) == 2 * f.mantissa;
    }
  }

  /** Decoding and encoding again keeps every value. */
  lemma DecodedIsKept(f: Float)
    requires Representable(f)
    ensures Decode(Encode(Decode(f) as real)) == Decode(f)
  {
    var x := Decode(f) as real;
    EncodeUniformly(x);
    HalvedOfDecoded(f, f.exponent);
    ExponentIsLeast(x, f.exponent);
    var e := Exponent(x);
    HalvedOfDecoded(f, e);
    var m := Shifted(f.mantissa, f.exponent - e);
    RoundOfInt(m);
    ShiftedIsDoubled(m, e);
    DoubledOfHalved(x, e);
  }

  /** What a number of hundredths becomes on the bus. */
  function OnBus(x: real): int {
    Decode(Encode(x))
  }

  lemma OnBusIsIdempotent(x: real)
    requires InRange(x)
    ensures OnBus(OnBus(x) as real) == OnBus(x)
  {
    EncodeRepresentable(x);
    DecodedIsKept(Encode(x));
  }

  /** The pair itself may change once more: exactly when the rounding has reached -1024. */
  lemma SecondEncodingDiffersIff(x: real)
    requires InRange(x)
    ensures Encode(OnBus(x) as real) != Encode(x) <==> Encode(x).exponent > 0 && Encode(x).mantissa == -1024
  {
    EncodeRepresentable(x);
    EncodeOfDecodedIff(Encode(x));
    EncodeUniformly(x);
    var e := Exponent(x);
    if e > 0 {
      ExponentIsLeast(x, e - 1);
      LastHalving(x, e);
    }
  }

  lemma MantissaBounds(x: real)
    ensures var f := Encode(x);
            && -2048 <= f.mantissa <= 2047
            && (f.exponent > 0 ==> if x < 0.0 then f.mantissa <= -1024 else f.mantissa >= 1024)
  {
    EncodeUniformly(x);
    var e := Exponent(x);
    ExponentIsLeast(x, e);
    if e > 0 {
      ExponentIsLeast(x, e - 1);
      LastHalving(x, e);
      ZeroHalved(e - 1);
      if x < 0.0 {
        HalvedIsMonotone(x, 0.0, e - 1);
      } else {
        HalvedIsMonotone(0.0, x, e - 1);
      }
    }
  }

  lemma {:induction false} ZeroHalved(e: nat)
    ensures Halved(0.0, e) == 0.0 == Doubled(0.0, e)
  {
    if e > 0 {
      ZeroHalved(e - 1);
      assert 0.0 / 2.0 == 0.0 == 2.0 * 0.0;
    }
  }

  lemma {:induction false} DoubledGrows(x: real, d: nat, e: nat)
    requires d <= e
    ensures x >= 0.0 ==> Doubled(x, e) >= Doubled(x, d) >= 0.0
    ensures x <= 0.0 ==> Doubled(x, e) <= Doubled(x, d) <= 0.0
    decreases e
  {
    ZeroHalved(d);
    DoubledIsAdditive(0.0, x, d);
    DoubledIsAdditive(x, 0.0, d);
    if d < e {
      DoubledGrows(x, d, e - 1);
      LastDoubling(x, e);
    }
  }

  /** A pair with the greater exponent is the one further from 0. */
  lemma GreaterExponentIsFurther(d: nat, m: int, e: nat, n: int)
    requires d < e && -2048 <= m <= 2047
    ensures n >= 1024 ==> Shifted(m, d) <= Shifted(n, e)
    ensures n <= -1024 ==> Shifted(m, d) >= Shifted(n, e)
  {
    ShiftedIsDoubled(m, d);
    ShiftedIsDoubled(n, e);
    assert Doubled(n as real, e) == Doubled(2.0 * n as real, e - 1);
    DoubledGrows(2.0 * n as real, d, e - 1);
    DoubledIsAdditive(m as real, 2.0 * n as real, d);
    DoubledIsAdditive(2.0 * n as real, m as real, d);
  }

  /** Encoding and decoding is monotone, across changes of the exponent too. */
  lemma OnBusIsMonotone(x: real, y: real)
    requires x <= y
    ensures OnBus(x) <= OnBus(y)
  {
    EncodeUniformly(x);
    EncodeUniformly(y);
    MantissaBounds(x);
    MantissaBounds(y);
    var f, g := Encode(x), Encode(y);
    if f.exponent == g.exponent {
      var e := f.exponent;
      HalvedIsMonotone(x, y, e);
      RoundMonotone(Halved(x, e), Halved(y, e));
      ShiftedIsDoubled(f.mantissa, e);
      ShiftedIsDoubled(g.mantissa, e);
      DoubledIsAdditive(f.mantissa as real, g.mantissa as real, e);
    } else if f.exponent < g.exponent {
      GreaterNeedsSign(x, y);
      GreaterExponentIsFurther(f.exponent, f.mantissa, g.exponent, g.mantissa);
    } else {
      GreaterNeedsSign(x, y);
      GreaterExponentIsFurther(g.exponent, g.mantissa, f.exponent, f.mantissa);
    }
  }

  /**
   Of two numbers in order, the greater may need more halvings only if it is positive, the smaller
   only if negative.
   */
  lemma GreaterNeedsSign(x: real, y: real)
    requires x <= y
    ensures Exponent(x) < Exponent(y) ==> y >= 0.0
    ensures Exponent(x) > Exponent(y) ==> x < 0.0
  {
    var d, e := Exponent(x), Exponent(y);
    ExponentIsLeast(x, d);
    ExponentIsLeast(y, d);
    ExponentIsLeast(x, e);
    ExponentIsLeast(y, e);
    HalvedIsMonotone(x, y, d);
    HalvedIsMonotone(x, y, e);
    if y < 0.0 {
      HalvedIsMonotone(y, 0.0, d);
      ZeroHalved(d);
    }
    if x >= 0.0 {
      HalvedIsMonotone(0.0, x, e);
      ZeroHalved(e);
    }
  }

  // ---------------------------------------------------------------------- payloads

  function Pack(f: Float, negative: bool): (raw: Bytes)
    requires f.exponent <= 15
    ensures |raw| == 2
  {
    var mantissa := f.mantissa % 2048;
    var msb: int := f.exponent * 8 + mantissa / 256 + if negative then 128 else 0;
    [msb, mantissa % 256]
  }

  function Unpack(raw: Bytes): (f: Float)
    requires |raw| == 2
    ensures Representable(f)
  {
    var data: int := Word(raw[0], raw[1]);
    var significand := data % 2048;
    Float((data / 2048) % 16, if data / 32768 == 1 then significand - 2048 else significand)
  }

  lemma UnpackOfPack(f: Float)
    requires Representable(f)
    ensures Unpack(Pack(f, f.mantissa < 0)) == f
  {
    var raw := Pack(f, f.mantissa < 0);
    var mantissa := f.mantissa % 2048;
    var data: int := Word(raw[0], raw[1]);
    assert data == (if f.mantissa < 0 then 32768 else 0) + f.exponent * 2048 + mantissa;
  }

  lemma PackOfUnpack(raw: Bytes)
    requires |raw| == 2
    ensures Pack(Unpack(raw), Unpack(raw).mantissa < 0) == raw
  {
    var hi: int, lo: int := raw[0], raw[1];
    Fields(hi, lo);
    var f := Unpack(raw);
    assert Word(raw[0], raw[1]) == hi * 256 + lo;
    assert f.exponent == (hi / 8) % 16 && (f.mantissa < 0 <==> hi / 128 == 1);
    assert f.mantissa % 2048 == (hi % 8) * 256 + lo;
    var back := Pack(f, f.mantissa < 0);
    assert back[0] == raw[0] && back[1] == raw[1];
  }

  lemma Fields(hi: int, lo: int)
    requires 0 <= hi < 256 && 0 <= lo < 256
    ensures var data := hi * 256 + lo;
            data % 2048 == (hi % 8) * 256 + lo && data / 2048 == hi / 8 && data / 32768 == hi / 128
    ensures ((hi % 8) * 256 + lo) / 256 == hi % 8 && ((hi % 8) * 256 + lo) % 256 == lo
    ensures ((hi / 8) % 16) * 8 + hi % 8 + (if hi / 128 == 1 then 128 else 0) == hi
  {
  }

  /** The limits of a class, within those of the base class. */
  datatype Limits = Limits(min: real, max: real) {
    predicate Valid() {
      -671088.64 <= min <= max <= 670760.96
    }

    predicate Contains(v: real) {
      min <= v <= max
    }
  }

  const BASE := Limits(-671088.64, 670760.96)

  function FromKnx(limits: Limits, raw: Bytes): Result<real> {
    if |raw| != 2 then Err(CouldNotParseTelegram)
    else
      var value := Decode(Unpack(raw)) as real / 100.0;
      if limits.Contains(value) then Ok(value) else Err(ConversionError)
  }

  function ToKnx(limits: Limits, v: real): (r: Result<Bytes>)
    requires limits.Valid()
    ensures r.Ok? <==> limits.Contains(v)
    ensures r.Ok? ==> |r.value| == 2
  {
    if !limits.Contains(v) then Err(ConversionError)
    else
      var x := v * 100.0;
      EncodeRepresentable(x);
      if RoundHalfEven(x) == 0 then Ok([0, 0])
      else Ok(Pack(Encode(x), Halved(x, Exponent(x)) < 0.0))
  }

  /** to_knx with its loop. */
  method Serialize(limits: Limits, v: real) returns (r: Result<Bytes>)
    requires limits.Valid()
    ensures r == ToKnx(limits, v)
  {
    if !limits.Contains(v) {
      return Err(ConversionError);
    }
    var x := v * 100.0;
    if RoundHalfEven(x) == 0 {
      return Ok([0, 0]);
    }
    var knxValue := x;
    var exponent := 0;
    EncodeRepresentable(x);
    while !(-2048.0 <= knxValue <= 2047.0)
      invariant knxValue == Halved(x, exponent)
      invariant exponent + Exponent(knxValue) == Exponent(x)
      decreases (if knxValue < 0.0 then -knxValue else knxValue).Floor
    {
      LastHalving(x, exponent + 1);
      exponent := exponent + 1;
      knxValue := knxValue / 2.0;
    }
    var mantissa := RoundHalfEven(knxValue) % 2048;
    var msb: int := exponent * 8 + mantissa / 256;
    if knxValue < 0.0 {
      msb := msb + 128;
    }
    r := Ok([msb, mantissa % 256]);
  }

  /** A payload decodes to the number its pair stands for. */
  lemma PayloadOfValue(limits: Limits, v: real)
    requires limits.Valid() && limits.Contains(v)
    ensures Unpack(ToKnx(limits, v).value) == Encode(v * 100.0)
  {
    var x := v * 100.0;
    EncodeRepresentable(x);
    if RoundHalfEven(x) == 0 {
      assert Unpack([0, 0]) == Float(0, 0);
    } else {
      SignOfMantissa(x);
      UnpackOfPack(Encode(x));
    }
  }

  lemma SignOfMantissa(x: real)
    requires RoundHalfEven(x) != 0
    ensures Halved(x, Exponent(x)) < 0.0 <==> Encode(x).mantissa < 0
  {
    var e := Exponent(x);
    MantissaBounds(x);
    ZeroHalved(e);
    if x < 0.0 {
      HalvedIsMonotone(x, 0.0, e);
    } else {
      HalvedIsMonotone(0.0, x, e);
    }
  }

  /** Every two octets decode in the base class. */
  lemma EveryPayloadDecodes(raw: Bytes)
    ensures FromKnx(BASE, raw).Ok? <==> |raw| == 2
  {
    if |raw| == 2 {
      DecodedInRange(Unpack(raw));
    }
  }

  /** Two octets come back from decoding and encoding exactly when their pair is normalised. */
  lemma PayloadRestoredIff(raw: Bytes)
    requires |raw| == 2
    ensures FromKnx(BASE, raw).Ok?
    ensures ToKnx(BASE, FromKnx(BASE, raw).value) == Ok(raw) <==> Normalised(Unpack(raw))
  {
    EveryPayloadDecodes(raw);
    var f := Unpack(raw);
    var v := FromKnx(BASE, raw).value;
    assert v * 100.0 == Decode(f) as real;
    PayloadOfValue(BASE, v);
    EncodeOfDecodedIff(f);
    var back := ToKnx(BASE, v).value;
    PackOfUnpack(raw);
    PackOfUnpack(back);
  }

  /**
   The decoded value differs from the encoded one by at most 2^(e-1) hundredths, e <= 15 being the
   least exponent that fits.
   */
  lemma DecodedIsClose(v: real, d: nat)
    requires BASE.Contains(v)
    ensures var raw := ToKnx(BASE, v).value;
            var e := Unpack(raw).exponent;
            && FromKnx(BASE, raw).Ok? && e <= 15
            && (Fits(Halved(v * 100.0, d)) <==> e <= d)
            && -Doubled(0.5, e) / 100.0 <= FromKnx(BASE, raw).value - v <= Doubled(0.5, e) / 100.0
  {
    PayloadOfValue(BASE, v);
    EveryPayloadDecodes(ToKnx(BASE, v).value);
    RoundTripError(v * 100.0);
    EncodeUniformly(v * 100.0);
    ExponentIsLeast(v * 100.0, d);
  }

  /** A class decodes what it encodes exactly when the value on the bus is still within its limits. */
  lemma DecodableIff(limits: Limits, v: real)
    requires limits.Valid() && limits.Contains(v)
    ensures FromKnx(limits, ToKnx(limits, v).value).Ok? <==> limits.Contains(OnBus(v * 100.0) as real / 100.0)
  {
    PayloadOfValue(limits, v);
  }

  ghost predicate Closed(limits: Limits)
    requires limits.Valid()
  {
    forall v: real :: limits.Contains(v) ==> FromKnx(limits, ToKnx(limits, v).value).Ok?
  }

  /** Neither limit is rounded outward. */
  predicate LimitsKept(limits: Limits) {
    && OnBus(limits.min * 100.0) as real >= limits.min * 100.0
    && OnBus(limits.max * 100.0) as real <= limits.max * 100.0
  }

  lemma KeptLimitsDecode(limits: Limits, v: real)
    requires limits.Valid() && limits.Contains(v) && LimitsKept(limits)
    ensures FromKnx(limits, ToKnx(limits, v).value).Ok?
  {
    BetweenLimits(limits, v, OnBus(v * 100.0));
    DecodableIff(limits, v);
  }

  lemma BetweenLimits(limits: Limits, v: real, b: int)
    requires limits.Contains(v) && LimitsKept(limits) && b == OnBus(v * 100.0)
    ensures limits.Contains(b as real / 100.0)
  {
    OnBusIsMonotone(limits.min * 100.0, v * 100.0);
    OnBusIsMonotone(v * 100.0, limits.max * 100.0);
  }

  lemma DecodableLimitsAreKept(limits: Limits)
    requires limits.Valid()
    requires FromKnx(limits, ToKnx(limits, limits.min).value).Ok? && FromKnx(limits, ToKnx(limits, limits.max).value).Ok?
    ensures LimitsKept(limits)
  {
    DecodableIff(limits, limits.min);
    DecodableIff(limits, limits.max);
  }

  /** The range of a class is closed under the round trip exactly when its two limits are. */
  lemma ClosedIff(limits: Limits)
    requires limits.Valid()
    ensures Closed(limits) <==> LimitsKept(limits)
  {
    if Closed(limits) {
      assert limits.Contains(limits.min) && limits.Contains(limits.max);
      DecodableLimitsAreKept(limits);
    }
    if LimitsKept(limits) {
      forall v: real | limits.Contains(v) ensures FromKnx(limits, ToKnx(limits, v).value).Ok? {
        KeptLimitsDecode(limits, v);
      }
    }
  }

  // --------------------------------------------------------- the subclasses' limits

  /** Far from 0 the exponent is 15. */
  lemma OnBusFarOut(x: real)
    requires InRange(x) && (x > 33554432.0 || x < -33554432.0)
    ensures OnBus(x) == 32768 * RoundHalfEven(x / 32768.0)
  {
    EncodeUniformly(x);
    ExponentIsLeast(x, 15);
    ExponentIsLeast(x, 14);
    LastHalving(x, 15);
    Fifteen(x);
    var m := RoundHalfEven(x / 32768.0);
    Fifteen(m as real);
    ShiftedIsDoubled(m, 15);
  }

  lemma TopOfRangeIff(v: real)
    requires BASE.Contains(v)
    ensures OnBus(v * 100.0) as real / 100.0 <= 670760.0 <==> v <= 670597.12
  {
    if v <= 670597.12 {
      OnBusIsMonotone(v * 100.0, 67059712.0);
      OnBusFarOut(67059712.0);
      RoundIsUnique(2046.5, 2046);
    } else {
      OnBusFarOut(v * 100.0);
      assert RoundHalfEven(v * 100.0 / 32768.0) >= 2047;
    }
  }

  lemma BottomOfRangeIff(v: real)
    requires BASE.Contains(v)
    ensures OnBus(v * 100.0) as real / 100.0 >= -670760.0 <==> v >= -670597.12
  {
    if v >= -670597.12 {
      OnBusIsMonotone(-67059712.0, v * 100.0);
      OnBusFarOut(-67059712.0);
      RoundIsUnique(-2046.5, -2046);
    } else {
      OnBusFarOut(v * 100.0);
      assert RoundHalfEven(v * 100.0 / 32768.0) <= -2047;
    }
  }

  /**
   A class whose upper limit is 670760 and whose lower limit is kept refuses its own payloads
   exactly above 670597.12.
   */
  lemma UpperLimitRefusesIff(limits: Limits, v: real)
    requires limits.Valid() && limits.Contains(v) && limits.max == 670760.0
    requires OnBus(limits.min * 100.0) as real >= limits.min * 100.0
    ensures FromKnx(limits, ToKnx(limits, v).value).Ok? <==> v <= 670597.12
  {
    DecodableIff(limits, v);
    TopOfRangeIff(v);
    OnBusIsMonotone(limits.min * 100.0, v * 100.0);
  }

  /** With the limits -670760 and 670760 it does so at both ends. */
  lemma BothLimitsRefuseIff(v: real)
    requires -670760.0 <= v <= 670760.0
    ensures var limits := Limits(-670760.0, 670760.0);
            FromKnx(limits, ToKnx(limits, v).value).Ok? <==> -670597.12 <= v <= 670597.12
  {
    DecodableIff(Limits(-670760.0, 670760.0), v);
    TopOfRangeIff(v);
    BottomOfRangeIff(v);
  }

  /** The other lower limits in use are kept: 0, -273 and -459.6. */
  lemma LowerLimitsKept()
    ensures OnBus(0.0) == 0
    ensures OnBus(-27300.0) == -27296 && -27296.0 >= -273.0 * 100.0
    ensures OnBus(-45960.0) == -45952 && -45952.0 >= -459.6 * 100.0
  {
    LeastIs(-27300.0, 4, -1706.25);
    RoundIsUnique(-1706.25, -1706);
    LeastIs(-45960.0, 5, -1436.25);
    RoundIsUnique(-1436.25, -1436);
    EncodeUniformly(-27300.0);
    EncodeUniformly(-45960.0);
    assert Shifted(-1706, 4) == Shifted(-6824, 2) == -27296;
    assert Shifted(-1436, 5) == Shifted(-5744, 3) == Shifted(-45952, 0);
    RoundOfInt(0);
  }

  lemma LeastIs(x: real, e: nat, h: real)
    requires 0 < e <= 5 && x == Doubled(h, e) && Fits(h) && !Fits(2.0 * h)
    ensures Exponent(x) == e && Halved(x, e) == h
  {
    HalvedOfDoubled(h, e, e);
    HalvedOfDoubled(h, e - 1, e);
    assert Doubled(h, 1) == 2.0 * h;
    ExponentIsLeast(x, e);
    ExponentIsLeast(x, e - 1);
  }
}
