/** Octets, octet strings and the results of Python calls that may raise. */
module Bytes {

  type byte = x: int | 0 <= x < 256
  type Bytes = seq<byte>

  /** The exceptions that the modelled functions raise. */
  datatype Error =
    | CouldNotParseKNXIP
    | IncompleteKNXIPFrame
    | KNXSecureValidationError
    | CouldNotParseCEMI
    | CouldNotParseTelegram
    | UnsupportedCEMIMessage
    | ConversionError
    | IPSecureError
    | CommunicationError
    | ValueError
    | IndexError
    | OverflowError
    | TypeError
    | InvalidStateError
    | ZeroDivisionError
      /** The call does not return: its loop repeats with the same position for ever. */
    | Diverges

  datatype Result<+T> = Ok(value: T) | Err(error: Error) {
    predicate IsFailure() { Err? }

    function PropagateFailure<U>(): Result<U>
      requires Err?
    {
      Err(error)
    }

    function Extract(): T
      requires Ok?
    {
      value
    }
  }

  /** What a parse loop that has collected `front` returns when the rest of its input yields r. */
  function Prepend<T>(front: seq<T>, r: Result<seq<T>>): Result<seq<T>> {
    if r.Ok? then Ok(front + r.value) else r
  }

  lemma PrependNothing<T>(r: Result<seq<T>>)
    ensures Prepend([], r) == r
  {
    if r.Ok? {
      assert [] + r.value == r.value;
    }
  }

  lemma PrependPrepend<T>(a: seq<T>, b: seq<T>, r: Result<seq<T>>)
    ensures Prepend(a, Prepend(b, r)) == Prepend(a + b, r)
  {
    if r.Ok? {
      assert a + (b + r.value) == a + b + r.value;
    }
  }

  datatype Option<+T> = None | Some(value: T)

  /** bytes(n): n zero octets. */
  function Zeros(n: nat): (z: Bytes) {
    seq(n, _ => 0)
  }

  /** raw[start:], which is empty when start is past the end. */
  function From(raw: Bytes, start: nat): (rest: Bytes)
    ensures |rest| == if start < |raw| then |raw| - start else 0
    ensures start < |raw| ==> rest == raw[start..]
  {
    if start < |raw| then raw[start..] else []
  }

  lemma FromFrom(raw: Bytes, i: nat, j: nat)
    ensures From(From(raw, i), j) == From(raw, i + j)
  {
  }

  /** hi * 256 + lo */
  function Word(hi: byte, lo: byte): (n: nat)
    ensures n < 0x1_0000 && U16(n) == [hi, lo]
  {
    var h: int := hi;
    h * 256 + lo
  }

  function Pow256(width: nat): (p: nat)
    ensures p > 0
  {
    if width == 0 then 1 else 256 * Pow256(width - 1)
  }

  /** int.from_bytes(b, "big") */
  function FromBE(b: Bytes): (n: nat)
    ensures n < Pow256(|b|)
  {
    if b == [] then 0 else 256 * FromBE(b[..|b| - 1]) + b[|b| - 1]
  }

  /** n.to_bytes(width, "big"), which raises OverflowError when n does not fit. */
  function ToBE(n: nat, width: nat): (b: Bytes)
    requires n < Pow256(width)
    ensures |b| == width
    ensures FromBE(b) == n
  {
    if width == 0 then []
    else
      var b := ToBE(n / 256, width - 1) + [n % 256];
      assert b[..|b| - 1] == ToBE(n / 256, width - 1);
      b
  }

  lemma {:induction false} ToBEOfFromBE(b: Bytes)
    ensures ToBE(FromBE(b), |b|) == b
  {
    if b != [] {
      var front, last: int := b[..|b| - 1], b[|b| - 1];
      ToBEOfFromBE(front);
      QuotientAndRemainder(FromBE(front), last);
      assert b == front + [b[|b| - 1]];
    }
  }

  lemma QuotientAndRemainder(q: nat, r: nat)
    requires r < 256
    ensures (256 * q + r) / 256 == q && (256 * q + r) % 256 == r
  {
  }

  lemma Pow256Values()
    ensures Pow256(1) == 0x100
    ensures Pow256(2) == 0x1_0000
    ensures Pow256(6) == 0x1_0000_0000_0000
  {
    assert Pow256(3) == 256 * Pow256(2);
    assert Pow256(4) == 256 * Pow256(3);
    assert Pow256(5) == 256 * Pow256(4);
  }

  /** The two-octet form used for lengths and identifiers throughout KNXnet/IP. */
  function U16(n: nat): (b: Bytes)
    requires n < 0x1_0000
    ensures |b| == 2
  {
    [n / 256, n % 256]
  }

  /** Exclusive or of non-negative integers, bit by bit. */
  function Xor(a: nat, b: nat): (x: nat) {
    if a == 0 && b == 0 then 0
    else 2 * Xor(a / 2, b / 2) + (a % 2 + b % 2) % 2
  }

  function Pow2(n: nat): (p: nat)
    ensures p > 0
  {
    if n == 0 then 1 else 2 * Pow2(n - 1)
  }

  /** The number with high part hi and low part lo of n bits. */
  function Join(hi: nat, lo: nat, n: nat): (j: nat) {
    hi * Pow2(n) + lo
  }

  lemma JoinStep(hi: nat, lo: nat, n: nat)
    requires n > 0
    ensures Join(hi, lo, n) == 2 * Join(hi, lo / 2, n - 1) + lo % 2
  {
    var p := Pow2(n - 1);
    assert hi * (2 * p) == 2 * (hi * p);
  }

  /** Xor acts on the low n bits and on the rest separately. */
  lemma {:induction false} XorSplit(hiA: nat, loA: nat, hiB: nat, loB: nat, n: nat)
    requires loA < Pow2(n) && loB < Pow2(n)
    ensures Xor(loA, loB) < Pow2(n)
    ensures Xor(Join(hiA, loA, n), Join(hiB, loB, n)) == Join(Xor(hiA, hiB), Xor(loA, loB), n)
  {
    if n == 0 {
      assert hiA * 1 == hiA && hiB * 1 == hiB;
    } else {
      var halfA, halfB, bitA, bitB := loA / 2, loB / 2, loA % 2, loB % 2;
      var half, bit := Xor(halfA, halfB), (bitA + bitB) % 2;
      XorSplit(hiA, halfA, hiB, halfB, n - 1);
      XorOfHalves(halfA, bitA, halfB, bitB);
      assert Xor(loA, loB) == 2 * half + bit;
      HalfAndParity(half, bit);
      JoinStep(hiA, loA, n);
      JoinStep(hiB, loB, n);
      JoinStep(Xor(hiA, hiB), 2 * half + bit, n);
      XorOfHalves(Join(hiA, halfA, n - 1), bitA, Join(hiB, halfB, n - 1), bitB);
    }
  }

  lemma XorOfHalves(a: nat, bitA: nat, b: nat, bitB: nat)
    requires bitA < 2 && bitB < 2
    ensures Xor(2 * a + bitA, 2 * b + bitB) == 2 * Xor(a, b) + (bitA + bitB) % 2
  {
    HalfAndParity(a, bitA);
    HalfAndParity(b, bitB);
    XorStep(2 * a + bitA, 2 * b + bitB);
  }

  lemma HalfAndParity(h: nat, bit: nat)
    requires bit < 2
    ensures (2 * h + bit) / 2 == h && (2 * h + bit) % 2 == bit
  {
  }

  lemma {:induction false} XorStep(a: nat, b: nat)
    ensures Xor(a, b) == 2 * Xor(a / 2, b / 2) + (a % 2 + b % 2) % 2
  {
    if a == 0 && b == 0 {
    } else {
    }
  }

  lemma {:induction false} XorInvolutive(a: nat, b: nat)
    ensures Xor(Xor(a, b), b) == a
    decreases a + b
  {
    if a != 0 || b != 0 {
      XorInvolutive(a / 2, b / 2);
      var x, bit := Xor(a / 2, b / 2), (a % 2 + b % 2) % 2;
      XorStep(a, b);
      HalfAndParity(x, bit);
      XorStep(2 * x + bit, b);
      assert Xor(Xor(a, b), b) == 2 * Xor(x, b / 2) + (bit + b % 2) % 2;
    }
  }

  lemma XorByteInvolutive(a: byte, b: byte)
    ensures XorByte(XorByte(a, b), b) == a
  {
    XorInvolutive(a, b);
  }

  /** The exclusive or of two octets is an octet. */
  function XorByte(a: byte, b: byte): (x: byte) {
    assert Pow2(8) == 256 by {
      assert Pow2(4) == 16;
    }
    XorSplit(0, a, 0, b, 8);
    Xor(a, b)
  }

  function XorBytes(a: Bytes, b: Bytes): (x: Bytes)
    requires |a| == |b|
    ensures |x| == |a|
    ensures forall i :: 0 <= i < |a| ==> x[i] == XorByte(a[i], b[i])
  {
    seq(|a|, i requires 0 <= i < |a| => XorByte(a[i], b[i]))
  }
}
