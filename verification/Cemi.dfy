/**
 The cEMI codec: additional information, L_Data with its TPCI and APDU, the M_Prop messages,
 and the frame around them. Of an APDU only its octets matter here; which ones are refused,
 and how, is a parameter.
 */
module Cemi {
  import opened Bytes
  import opened TransportControl

  const MAX_NPDU_LENGTH := 254
  const STANDARD_FRAME_MAX_NPDU_LENGTH := 15
  const FRAME_TYPE_STANDARD := 0x8000
  const DESTINATION_GROUP_ADDRESS := 0x0080

  // ------------------------------------------------------------------- L_Data

  datatype Address = Group(raw: nat) | Individual(raw: nat)

  /** An APDU, its 10 bits of APCI in the first two octets with the TPCI bits clear. */
  predicate IsApdu(b: Bytes) {
    |b| >= 2 && b[0] < 4
  }

  /** How APCI.from_knx takes an APDU; an accepted one serialises to its own octets. */
  datatype ApciOutcome = Accepted | Unsupported | Malformed

  datatype LData = LData(flags: nat, source: nat, destination: Address, tpci: Tpci, payload: Option<Bytes>)

  predicate ValidLData(d: LData) {
    && d.flags < 0x1_0000 && d.source < 0x1_0000 && d.destination.raw < 0x1_0000 && d.tpci.Valid()
    && (d.payload.Some? ==> IsApdu(d.payload.value))
  }

  function Hops(flags: nat): nat {
    (flags / 16) % 8
  }

  /** Bitwise or. */
  function Or(a: nat, b: nat): nat {
    if a == 0 then b else if b == 0 then a
    else 2 * Or(a / 2, b / 2) + if a % 2 == 1 || b % 2 == 1 then 1 else 0
  }

  lemma OrStep(a: nat, bitA: nat, b: nat, bitB: nat)
    requires bitA < 2 && bitB < 2
    ensures Or(2 * a + bitA, 2 * b + bitB) == 2 * Or(a, b) + if bitA == 1 || bitB == 1 then 1 else 0
  {
    HalfAndParity(a, bitA);
    HalfAndParity(b, bitB);
  }

  /** flags & (0xFFFF ^ 0x0070) */
  function WithoutHops(flags: nat): nat {
    (flags % 0x1_0000) / 128 * 128 + flags % 16
  }

  /** The hops setter: it shifts any value into place, unchecked. */
  function WithHops(flags: nat, hops: nat): nat {
    Or(WithoutHops(flags), hops * 16)
  }

  /** Below a number whose low n bits are clear, the low bits stay. */
  lemma {:induction false} OrBesideLowBits(a: nat, low: nat, b: nat, n: nat)
    requires low < Pow2(n)
    ensures Or(Join(a, low, n), Join(b, 0, n)) == Join(Or(a, b), low, n)
    decreases n
  {
    if n > 0 {
      OrBesideLowBits(a, low / 2, b, n - 1);
      JoinStep(a, low, n);
      JoinStep(b, 0, n);
      JoinStep(Or(a, b), low, n);
      OrStep(Join(a, low / 2, n - 1), low % 2, Join(b, 0, n - 1), 0);
    }
  }

  /** Bits set where all are clear are the number itself. */
  lemma {:induction false} OrOfLowBits(a: nat, v: nat, n: nat)
    requires v < Pow2(n)
    ensures Or(Join(a, 0, n), v) == Join(a, v, n)
    decreases n
  {
    if n > 0 {
      OrOfLowBits(a, v / 2, n - 1);
      JoinStep(a, 0, n);
      JoinStep(a, v, n);
      OrStep(Join(a, 0, n - 1), 0, v / 2, v % 2);
    }
  }

  lemma Places(a: nat, v: nat)
    ensures Pow2(3) == 8 && Pow2(4) == 16 && Pow2(8) == 256
    ensures Join(a, v, 3) == 8 * a + v && Join(a, v, 4) == 16 * a + v && Join(a, v, 8) == 256 * a + v
  {
    assert Pow2(2) == 4 && Pow2(6) == 64;
  }

  lemma HopsInPlace(top: nat, low: nat, hops: nat)
    requires low < 16 && hops < 8
    ensures Or(128 * top + low, hops * 16) == 16 * (8 * top + hops) + low
  {
    Places(8 * top, low);
    Places(hops, 0);
    Places(Or(8 * top, hops), low);
    OrBesideLowBits(8 * top, low, hops, 4);
    EightTimes(top, hops);
  }

  lemma EightTimes(top: nat, v: nat)
    requires v < 8
    ensures Or(8 * top, v) == 8 * top + v
  {
    Places(top, 0);
    Places(top, v);
    OrOfLowBits(top, v, 3);
  }

  lemma HopFields(top: nat, hops: nat, low: nat)
    requires hops < 8 && low < 16
    ensures var r := 16 * (8 * top + hops) + low; r / 16 % 8 == hops && r % 16 == low && r / 128 == top
  {
  }

  lemma WithoutHopsParts(flags: nat)
    requires flags < 0x1_0000
    ensures WithoutHops(flags) == 128 * (flags / 128) + flags % 16
  {
  }

  /** A hop count is set, and nothing else changed, exactly when it fits its three bits. */
  lemma WithHopsIff(flags: nat, hops: nat)
    requires flags < 0x1_0000
    ensures var r := WithHops(flags, hops);
            Hops(r) == hops && r % 16 == flags % 16 && r / 128 == flags / 128 <==> hops < 8
  {
    if hops < 8 {
      WithoutHopsParts(flags);
      HopsInPlace(flags / 128, flags % 16, hops);
      HopFields(flags / 128, hops, flags % 16);
    }
  }

  /** A hop count of eight, for example, addresses a group. */
  lemma EightHopsAddressAGroup(top: nat)
    requires top < 256
    ensures WithHops(256 * top, 8) == 256 * top + DESTINATION_GROUP_ADDRESS
  {
    assert WithoutHops(256 * top) == 256 * top;
    EightHops(top);
  }

  lemma EightHops(top: nat)
    ensures Or(256 * top, 128) == 256 * top + 128
  {
    Places(top, 0);
    Places(top, 128);
    OrOfLowBits(top, 128, 8);
  }

  function LDataLength(d: LData): Result<nat> {
    if !d.tpci.Control() && d.payload.Some? then Ok(8 + (|d.payload.value| - 1))
    else if d.tpci.Control() && d.payload.None? then Ok(8)
    else Err(TypeError)
  }

  /** The flags without the highest bit. */
  function WithoutFrameType(flags: nat): nat {
    if flags < FRAME_TYPE_STANDARD then flags else flags - FRAME_TYPE_STANDARD
  }

  /** The Frame Type bit set or cleared. */
  function WithFrameType(flags: nat, npduLength: nat): (f: nat)
    requires flags < 0x1_0000
    ensures f < 0x1_0000
  {
    WithoutFrameType(flags) + if npduLength <= STANDARD_FRAME_MAX_NPDU_LENGTH then FRAME_TYPE_STANDARD else 0
  }

  /** The TPDU and the length of the NPDU, for a data TPDU with a payload or a control TPDU. */
  function Tpdu(d: LData): (r: Result<Bytes>)
    requires ValidLData(d)
    ensures r.Ok? ==> |r.value| >= 1
  {
    if d.tpci.Control() then Ok([d.tpci.ToKnx()])
    else if d.payload.None? then Err(ConversionError)
    else
      DataOctet(d.tpci, d.payload.value[0]);
      Ok([d.payload.value[0] + d.tpci.ToKnx()] + d.payload.value[1..])
  }

  /** The two low bits of a data TPCI are free for the APCI. */
  lemma DataOctet(t: Tpci, apci: byte)
    requires !t.Control() && t.Valid() && apci < 4
    ensures t.ToKnx() % 4 == 0 && t.ToKnx() < 0x80
    ensures apci + t.ToKnx() < 0x80
  {
  }

  function LDataToKnx(d: LData): (r: Result<Bytes>)
    requires ValidLData(d)
  {
    var tpdu :- Tpdu(d);
    var npduLength := |tpdu| - 1;
    if npduLength > MAX_NPDU_LENGTH then Err(ConversionError)
    else Ok(U16(WithFrameType(d.flags, npduLength)) + U16(d.source) + U16(d.destination.raw) + [npduLength] + tpdu)
  }

  function LDataFromKnx(apci: Bytes -> ApciOutcome, raw: Bytes): (r: Result<LData>)
    ensures r.Ok? ==> ValidLData(r.value)
  {
    if |raw| < 8 then Err(CouldNotParseCEMI)
    else
      var flags := Word(raw[0], raw[1]);
      // the Extended Frame Format and the destination address type are bits of the second octet
      if raw[1] % 16 != 0 then Err(UnsupportedCEMIMessage)
      else
        var toGroup := raw[1] >= 128;
        var address := Word(raw[4], raw[5]);
        var tpdu := raw[7..];
        if |tpdu| - 1 != raw[6] then Err(CouldNotParseCEMI)
        else
          var tpci := Resolve(tpdu[0], toGroup, address == 0);
          if tpci.Err? then Err(UnsupportedCEMIMessage)
          else
            ResolvedSerialises(tpdu[0], toGroup, address == 0);
            var destination := if toGroup then Group(address) else Individual(address);
            if tpci.value.Control() then
              if raw[6] != 0 then Err(CouldNotParseCEMI)
              else Ok(LData(flags, Word(raw[2], raw[3]), destination, tpci.value, None))
            else
              var apdu := [tpdu[0] % 4] + tpdu[1..];
              if |apdu| < 2 then Err(CouldNotParseCEMI)
              else match apci(apdu)
                case Unsupported => Err(UnsupportedCEMIMessage)
                case Malformed => Err(CouldNotParseCEMI)
                case Accepted => Ok(LData(flags, Word(raw[2], raw[3]), destination, tpci.value, Some(apdu)))
  }

  /** There is a calculated length exactly for data with a payload and control without, and what serialises has it. */
  lemma LDataLengthIsExact(d: LData)
    requires ValidLData(d)
    ensures LDataLength(d).Ok? <==> (d.tpci.Control() <==> d.payload.None?)
    ensures LDataToKnx(d).Ok? && LDataLength(d).Ok? ==> |LDataToKnx(d).value| == LDataLength(d).value
  {
  }

  function TpciOctet(raw: byte): byte {
    if raw >= 0x80 then Canonical(raw) else raw
  }

  function WithoutTopBit(octet: byte): byte {
    if octet < 128 then octet else octet - 128
  }

  /** The higher octet of the flags with its Frame Type bit set by length. */
  function FlagOctet(hi: byte, npduLength: nat): byte {
    if npduLength <= STANDARD_FRAME_MAX_NPDU_LENGTH then WithoutTopBit(hi) + 128 else WithoutTopBit(hi)
  }

  /** A parsed L_Data with its Frame Type set by length and its TPCI octet in the canonical form. */
  function Normalised(raw: Bytes): (n: Bytes)
    requires |raw| >= 8
    ensures |n| == |raw|
  {
    [FlagOctet(raw[0], raw[6])] + raw[1..7] + [TpciOctet(raw[7])] + raw[8..]
  }

  lemma NormalisedOctets(raw: Bytes)
    requires |raw| >= 8
    ensures var n := Normalised(raw);
            && n[0] == FlagOctet(raw[0], raw[6]) && n[7] == TpciOctet(raw[7]) && n[8..] == raw[8..]
            && (forall i :: 1 <= i < 7 ==> n[i] == raw[i])
            && n == [n[0], raw[1]] + [raw[2], raw[3]] + [raw[4], raw[5]] + [raw[6]] + ([n[7]] + raw[8..])
  {
    var n := Normalised(raw);
    forall i | 1 <= i < 7 ensures n[i] == raw[i] {
      assert n[1..7] == raw[1..7];
      assert n[i] == n[1..7][i - 1] && raw[i] == raw[1..7][i - 1];
    }
    assert raw[1..7] == [raw[1], raw[2], raw[3], raw[4], raw[5], raw[6]];
  }

  lemma TopBitOfWord(hi: byte, lo: byte)
    ensures WithoutFrameType(Word(hi, lo)) == Word(WithoutTopBit(hi), lo)
    ensures Word(hi, lo) >= FRAME_TYPE_STANDARD <==> hi >= 128
  {
  }

  /** Setting the Frame Type bit of the word sets that of its higher octet. */
  lemma FrameTypeInOctets(hi: byte, lo: byte, npduLength: nat)
    ensures WithFrameType(Word(hi, lo), npduLength) == Word(FlagOctet(hi, npduLength), lo)
    ensures FlagOctet(FlagOctet(hi, npduLength), npduLength) == FlagOctet(hi, npduLength)
  {
    TopBitOfWord(hi, lo);
  }

  lemma ParsedTpci(apci: Bytes -> ApciOutcome, raw: Bytes)
    requires LDataFromKnx(apci, raw).Ok?
    ensures |raw| - 8 == raw[6]
    ensures var d := LDataFromKnx(apci, raw).value;
            && d.tpci.ToKnx() == Canonical(raw[7]) && (d.tpci.Control() <==> raw[7] >= 0x80)
            && (d.tpci.Control() ==> raw[6] == 0)
            && (!d.tpci.Control() ==> d.payload == Some([raw[7] % 4] + raw[8..]))
  {
    var toGroup := raw[1] >= 128;
    ResolvedSerialises(raw[7], toGroup, Word(raw[4], raw[5]) == 0);
    assert raw[7..][0] == raw[7] && raw[7..][1..] == raw[8..];
  }

  lemma TpduOfParsed(apci: Bytes -> ApciOutcome, raw: Bytes)
    requires LDataFromKnx(apci, raw).Ok?
    ensures |raw| - 8 == raw[6]
    ensures Tpdu(LDataFromKnx(apci, raw).value) == Ok([TpciOctet(raw[7])] + raw[8..])
  {
    ParsedTpci(apci, raw);
    var d := LDataFromKnx(apci, raw).value;
    if d.tpci.Control() {
      assert raw[8..] == [] && Tpdu(d).value == [Canonical(raw[7])];
      assert [Canonical(raw[7])] + [] == [Canonical(raw[7])];
    } else {
      assert d.payload.value[1..] == raw[8..];
    }
  }

  /**
   Serialising a parsed L_Data changes at most the Frame Type bit and a TAck or TNak octet
   without its number bit; an NPDU of 255 octets, which parses, is refused.
   */
  lemma ReserialisedLData(apci: Bytes -> ApciOutcome, raw: Bytes)
    requires LDataFromKnx(apci, raw).Ok?
    ensures LDataToKnx(LDataFromKnx(apci, raw).value) ==
            if raw[6] > MAX_NPDU_LENGTH then Err(ConversionError) else Ok(Normalised(raw))
  {
    TpduOfParsed(apci, raw);
    ParsedFields(apci, raw);
    FrameTypeInOctets(raw[0], raw[1], raw[6]);
    NormalisedOctets(raw);
    assert |Tpdu(LDataFromKnx(apci, raw).value).value| - 1 == raw[6];
  }

  lemma ParsedFields(apci: Bytes -> ApciOutcome, raw: Bytes)
    requires LDataFromKnx(apci, raw).Ok?
    ensures var d := LDataFromKnx(apci, raw).value;
            && d.flags == Word(raw[0], raw[1]) && U16(d.source) == [raw[2], raw[3]]
            && U16(d.destination.raw) == [raw[4], raw[5]]
  {
  }

  /** Of the flags only the Frame Type bit may differ, and it is set exactly for NPDUs of at most 15 octets. */
  lemma FrameTypeOfNormalised(raw: Bytes)
    requires |raw| >= 8
    ensures var n := Normalised(raw);
            && WithoutFrameType(Word(n[0], n[1])) == WithoutFrameType(Word(raw[0], raw[1]))
            && (Word(n[0], n[1]) >= FRAME_TYPE_STANDARD <==> raw[6] <= STANDARD_FRAME_MAX_NPDU_LENGTH)
  {
    var n := Normalised(raw);
    NormalisedOctets(raw);
    TopBitOfWord(raw[0], raw[1]);
    TopBitOfWord(n[0], n[1]);
  }

  /** The normalised octets parse to the same L_Data but for its Frame Type bit. */
  lemma NormalisedParses(apci: Bytes -> ApciOutcome, raw: Bytes)
    requires LDataFromKnx(apci, raw).Ok?
    ensures var d := LDataFromKnx(apci, raw).value;
            LDataFromKnx(apci, Normalised(raw)) == Ok(d.(flags := WithFrameType(d.flags, raw[6])))
  {
    var n := Normalised(raw);
    NormalisedOctets(raw);
    FrameTypeInOctets(raw[0], raw[1], raw[6]);
    var toGroup := raw[1] >= 128;
    var toZero := Word(raw[4], raw[5]) == 0;
    SerialisedResolves(raw[7], toGroup, toZero, raw[7] % 4);
    ResolvedSerialises(raw[7], toGroup, toZero);
    assert Resolve(n[7], toGroup, toZero) == Resolve(raw[7], toGroup, toZero);
    assert n[7..] == [n[7]] + raw[8..] && raw[7..] == [raw[7]] + raw[8..];
    assert n[7..][1..] == raw[7..][1..];
  }

  /** from_knx and then to_knx. */
  function Pass(apci: Bytes -> ApciOutcome, raw: Bytes): Result<Bytes> {
    var d :- LDataFromKnx(apci, raw);
    LDataToKnx(d)
  }

  /** A second pass changes nothing. */
  lemma SecondPassIsIdentity(apci: Bytes -> ApciOutcome, raw: Bytes)
    requires Pass(apci, raw).Ok?
    ensures Pass(apci, Pass(apci, raw).value) == Pass(apci, raw)
  {
    ReserialisedLData(apci, raw);
    NormalisedParses(apci, raw);
    ReserialisedLData(apci, Normalised(raw));
    NormalisedOctets(raw);
    SameOctets(raw);
  }

  lemma SameOctets(raw: Bytes)
    requires |raw| >= 8
    ensures Normalised(Normalised(raw)) == Normalised(raw)
  {
    NormalisedOctets(raw);
    FrameTypeInOctets(raw[0], raw[1], raw[6]);
    NormalisedOctets(Normalised(raw));
  }

  // ------------------------------------------------------- what L_Data is parsed

  /** The standard format, a destination type and a TPCI that fit the destination, and an APDU that is accepted. */
  predicate Carries(apci: Bytes -> ApciOutcome, d: LData) {
    && ValidLData(d) && (d.flags % 256) % 16 == 0 && (d.destination.Group? <==> d.flags % 256 >= 128)
    && Fits(d.tpci, d.destination.Group?, d.destination.raw == 0)
    && if d.tpci.Control() then d.payload.None? else d.payload.Some? && apci(d.payload.value) == Accepted
  }

  /** The octets of an L_Data in front of its TPDU. */
  lemma HeadOctets(d: LData)
    requires ValidLData(d) && LDataToKnx(d).Ok?
    ensures var raw, tpdu := LDataToKnx(d).value, Tpdu(d).value;
            && |raw| == 7 + |tpdu| && raw[6] == |tpdu| - 1 && raw[7..] == tpdu
            && Word(raw[0], raw[1]) == WithFrameType(d.flags, |tpdu| - 1)
            && Word(raw[2], raw[3]) == d.source && Word(raw[4], raw[5]) == d.destination.raw
  {
    var raw, tpdu := LDataToKnx(d).value, Tpdu(d).value;
    var flags := U16(WithFrameType(d.flags, |tpdu| - 1));
    assert raw == [flags[0], flags[1]] + U16(d.source) + U16(d.destination.raw) + [|tpdu| - 1] + tpdu;
    assert [raw[2], raw[3]] == U16(d.source) && [raw[4], raw[5]] == U16(d.destination.raw);
  }

  /** The Frame Type bit is in the higher octet. */
  lemma LowOctetOfFlags(flags: nat, npduLength: nat)
    requires flags < 0x1_0000
    ensures WithFrameType(flags, npduLength) % 256 == flags % 256
  {
    var hi: byte, lo: byte := flags / 256, flags % 256;
    assert Word(hi, lo) == flags;
    FrameTypeInOctets(hi, lo, npduLength);
    LowOctetOfWord(FlagOctet(hi, npduLength), lo);
  }

  lemma LowOctetOfWord(hi: byte, lo: byte)
    ensures Word(hi, lo) % 256 == lo
  {
  }

  /** What is parsed of serialised octets, by the destination type in the flags and the TPCI octet. */
  lemma SerialisedParses(apci: Bytes -> ApciOutcome, d: LData)
    requires Carries(apci, d) && LDataToKnx(d).Ok?
    ensures LDataFromKnx(apci, LDataToKnx(d).value) == Ok(d.(flags := WithFrameType(d.flags, |Tpdu(d).value| - 1)))
  {
    var raw, tpdu := LDataToKnx(d).value, Tpdu(d).value;
    HeadOctets(d);
    LowOctetOfFlags(d.flags, |tpdu| - 1);
    LowOctetOfWord(raw[0], raw[1]);
    TpduResolves(d);
    if !d.tpci.Control() {
      assert [tpdu[0] % 4] + tpdu[1..] == d.payload.value;
    }
  }

  lemma TpduResolves(d: LData)
    requires ValidLData(d) && Tpdu(d).Ok? && Fits(d.tpci, d.destination.Group?, d.destination.raw == 0)
    ensures var tpdu := Tpdu(d).value;
            && Resolve(tpdu[0], d.destination.Group?, d.destination.raw == 0) == Ok(d.tpci)
            && (d.tpci.Control() ==> |tpdu| == 1)
            && (!d.tpci.Control() ==> d.payload.Some? && tpdu[0] % 4 == d.payload.value[0] && tpdu[1..] == d.payload.value[1..])
  {
    ResolvesIff(d.tpci, d.destination.Group?, d.destination.raw == 0, if d.tpci.Control() then 0 else d.payload.value[0]);
    if !d.tpci.Control() {
      DataOctet(d.tpci, d.payload.value[0]);
    }
  }

  /** Only such L_Data is ever parsed. */
  lemma ParsedCarries(apci: Bytes -> ApciOutcome, raw: Bytes)
    requires LDataFromKnx(apci, raw).Ok?
    ensures Carries(apci, LDataFromKnx(apci, raw).value)
  {
    LowOctetOfWord(raw[0], raw[1]);
    ResolvedFits(raw[7..][0], raw[1] >= 128, Word(raw[4], raw[5]) == 0);
  }

  lemma ResolvedFits(octet: byte, toGroup: bool, toZero: bool)
    ensures Resolve(octet, toGroup, toZero).Ok? ==> Fits(Resolve(octet, toGroup, toZero).value, toGroup, toZero)
  {
  }

  /**
   An L_Data that serialises comes back, but for its Frame Type bit, exactly when it is of the
   standard format, its TPCI and the type in its flags fit its destination, and its APDU is accepted.
   */
  lemma LDataRoundTripIff(apci: Bytes -> ApciOutcome, d: LData)
    requires ValidLData(d) && LDataToKnx(d).Ok?
    ensures LDataFromKnx(apci, LDataToKnx(d).value) == Ok(d.(flags := WithFrameType(d.flags, |Tpdu(d).value| - 1)))
       <==> Carries(apci, d)
  {
    var raw := LDataToKnx(d).value;
    if Carries(apci, d) {
      SerialisedParses(apci, d);
    } else if LDataFromKnx(apci, raw) == Ok(d.(flags := WithFrameType(d.flags, |Tpdu(d).value| - 1))) {
      ParsedCarries(apci, raw);
      LowOctetOfFlags(d.flags, |Tpdu(d).value| - 1);
    }
  }

  /** What is refused as no cEMI at all, and what as a message that is not supported. */
  lemma RefusedIff(apci: Bytes -> ApciOutcome, raw: Bytes)
    ensures var tpci := if |raw| >= 8 then Resolve(raw[7], raw[1] >= 128, raw[4] == 0 && raw[5] == 0) else Err(ConversionError);
            var unsupported :=
              && |raw| >= 8
              && (raw[1] % 16 != 0
                  || (|raw| == 8 + raw[6] as nat
                      && (tpci.Err? || (raw[7] < 0x80 && |raw| > 8 && apci([raw[7] % 4] + raw[8..]).Unsupported?))));
            && (LDataFromKnx(apci, raw) == Err(UnsupportedCEMIMessage) <==> unsupported)
            && (LDataFromKnx(apci, raw).Err? && !unsupported ==> LDataFromKnx(apci, raw) == Err(CouldNotParseCEMI))
  {
    if |raw| >= 8 {
      ResolvedSerialises(raw[7], raw[1] >= 128, raw[4] == 0 && raw[5] == 0);
      assert raw[7..][1..] == raw[8..] && raw[7..][0] == raw[7];
      assert Word(raw[4], raw[5]) == 0 <==> raw[4] == 0 && raw[5] == 0;
    }
  }

  // ------------------------------------------------------------------ M_Prop

  /** The values of ResourceObjectType. */
  predicate KnownObjectType(t: nat) {
    t <= 0x13 && t != 0x0C
  }

  datatype PropInfo = PropInfo(objectType: nat, instance: nat, propertyId: nat, elements: nat, startIndex: nat)

  function PropInfoToKnx(p: PropInfo): (r: Result<Bytes>)
    requires KnownObjectType(p.objectType)
    ensures r.Ok? ==> |r.value| == 6
  {
    var word := p.elements * 0x1000 + p.startIndex;
    if p.instance > 255 || p.propertyId > 255 || word > 0xFFFF then Err(OverflowError)
    else Ok(U16(p.objectType) + [p.instance, p.propertyId] + U16(word))
  }

  function PropInfoFromKnx(raw: Bytes): (r: Result<PropInfo>)
    ensures r.Ok? ==> KnownObjectType(r.value.objectType)
  {
    if |raw| != 6 then Err(CouldNotParseCEMI)
    else if !KnownObjectType(Word(raw[0], raw[1])) then Err(UnsupportedCEMIMessage)
    else Ok(PropInfo(Word(raw[0], raw[1]), raw[2], raw[3], raw[4] / 16, Word(raw[4] % 16, raw[5])))
  }

  /** A property that serialises comes back exactly when its start index fits 12 bits. */
  lemma PropInfoRoundTripIff(p: PropInfo)
    requires KnownObjectType(p.objectType) && PropInfoToKnx(p).Ok?
    ensures PropInfoFromKnx(PropInfoToKnx(p).value) == Ok(p) <==> p.startIndex < 0x1000
  {
    var raw := PropInfoToKnx(p).value;
    assert raw[0] == U16(p.objectType)[0] && raw[1] == U16(p.objectType)[1];
    ElementsAndIndex(p.elements, p.startIndex);
    assert raw[4] == U16(p.elements * 0x1000 + p.startIndex)[0] && raw[5] == U16(p.elements * 0x1000 + p.startIndex)[1];
  }

  /** What comes back of the word for number of elements and start index. */
  lemma ElementsAndIndex(elements: nat, startIndex: nat)
    requires elements * 0x1000 + startIndex < 0x1_0000
    ensures var b := U16(elements * 0x1000 + startIndex);
            b[0] / 16 == elements && Word(b[0] % 16, b[1]) == startIndex <==> startIndex < 0x1000
  {
    var word := elements * 0x1000 + startIndex;
    var b := U16(word);
    assert Word(b[0], b[1]) == word && b[0] / 16 == word / 0x1000;
  }

  /** Six octets of a known object type come back always. */
  lemma PropInfoReserialises(raw: Bytes)
    requires PropInfoFromKnx(raw).Ok?
    ensures PropInfoToKnx(PropInfoFromKnx(raw).value) == Ok(raw)
  {
    var p := PropInfoFromKnx(raw).value;
    Nibbles(raw[4], raw[5]);
    assert p.elements * 0x1000 + p.startIndex == Word(raw[4], raw[5]);
    assert raw == [raw[0], raw[1]] + [raw[2], raw[3]] + [raw[4], raw[5]];
  }

  lemma Nibbles(hi: byte, lo: byte)
    ensures (hi / 16) as int * 0x1000 + Word(hi % 16, lo) == Word(hi, lo)
  {
    var h: int := hi;
    assert h == 16 * (h / 16) + h % 16;
  }

  /** CEMIErrorCode has the values up to 0x0A; `None` is no error code at all. */
  datatype Data =
    | LinkData(lData: LData)
    | ReadRequest(info: PropInfo)
    | ReadResponse(info: PropInfo, data: Bytes)
    | WriteRequest(info: PropInfo, data: Bytes)
    | WriteResponse(info: PropInfo, errorCode: Option<nat>)

  predicate ValidData(d: Data) {
    match d
    case LinkData(l) => ValidLData(l)
    case WriteResponse(info, code) => KnownObjectType(info.objectType) && (code.Some? ==> code.value <= 0x0A)
    case _ => KnownObjectType(d.info.objectType)
  }

  /** What follows the property in the octets; an error code of 0 is false and dropped. */
  function PropTail(d: Data): Bytes
    requires ValidData(d) && !d.LinkData?
  {
    match d
    case ReadRequest(_) => []
    case ReadResponse(_, data) => data
    case WriteRequest(_, data) => data
    case WriteResponse(_, code) => if code.Some? && code.value != 0 then [code.value] else []
  }

  function DataToKnx(d: Data): Result<Bytes>
    requires ValidData(d)
  {
    if d.LinkData? then LDataToKnx(d.lData)
    else
      var head :- PropInfoToKnx(d.info);
      Ok(head + PropTail(d))
  }

  function DataLength(d: Data): Result<nat>
    requires ValidData(d)
  {
    match d
    case LinkData(l) => LDataLength(l)
    case ReadRequest(_) => Ok(6)
    case ReadResponse(_, data) => Ok(6 + |data|)
    case WriteRequest(_, data) => Ok(6 + |data|)
    case WriteResponse(_, code) => Ok(6 + if code.Some? && code.value != 0 then 1 else 0)
  }

  function ReadResponseFromKnx(raw: Bytes): Result<Data> {
    if |raw| <= 6 then Err(CouldNotParseCEMI)
    else
      var info :- PropInfoFromKnx(raw[..6]);
      if info.elements == 0 && |raw| != 7 then Err(CouldNotParseCEMI) else Ok(ReadResponse(info, raw[6..]))
  }

  function WriteRequestFromKnx(raw: Bytes): Result<Data> {
    if |raw| <= 6 then Err(CouldNotParseCEMI)
    else
      var info :- PropInfoFromKnx(raw[..6]);
      Ok(WriteRequest(info, raw[6..]))
  }

  function WriteResponseFromKnx(raw: Bytes): Result<Data> {
    if |raw| < 6 then Err(CouldNotParseCEMI)
    else
      var info :- PropInfoFromKnx(raw[..6]);
      if info.elements == 0 then
        if |raw| != 7 then Err(CouldNotParseCEMI)
        else if raw[6] > 0x0A then Err(ValueError)
        else Ok(WriteResponse(info, Some(raw[6])))
      else if |raw| != 6 then Err(CouldNotParseCEMI)
      else Ok(WriteResponse(info, None))
  }

  function PropFromKnx(like: Data, raw: Bytes): Result<Data>
    requires !like.LinkData?
  {
    match like
    case ReadRequest(_) => (var info :- PropInfoFromKnx(raw); Ok(ReadRequest(info)))
    case ReadResponse(_, _) => ReadResponseFromKnx(raw)
    case WriteRequest(_, _) => WriteRequestFromKnx(raw)
    case WriteResponse(_, _) => WriteResponseFromKnx(raw)
  }

  /** When a message's own octets read back as itself. */
  predicate Restorable(d: Data)
    requires !d.LinkData?
  {
    && d.info.startIndex < 0x1000
    && match d
       case ReadRequest(_) => true
       case ReadResponse(info, data) => |data| > 0 && (info.elements == 0 ==> |data| == 1)
       case WriteRequest(_, data) => |data| > 0
       case WriteResponse(info, code) => (info.elements == 0 <==> code.Some?) && code != Some(0)
  }

  /**
   An M_Prop message round-trips exactly when its start index fits 12 bits and its data suits
   its kind; a write response must have an error code exactly with no elements, and the error
   code 0x00, which is sent as none, is the one code that does not come back.
   */
  lemma PropRoundTripIff(d: Data)
    requires ValidData(d) && !d.LinkData? && DataToKnx(d).Ok?
    ensures PropFromKnx(d, DataToKnx(d).value) == Ok(d) <==> Restorable(d)
  {
    var head := PropInfoToKnx(d.info).value;
    var raw := DataToKnx(d).value;
    assert raw == head + PropTail(d) && raw[6..] == PropTail(d) && raw[..6] == head;
    PropInfoRoundTripIff(d.info);
    if d.ReadRequest? {
      assert raw == head;
    }
  }

  /** Whatever is parsed as M_Prop serialises to the same octets, but for an error code of 0, which is dropped. */
  lemma PropReserialises(like: Data, raw: Bytes)
    requires !like.LinkData? && PropFromKnx(like, raw).Ok?
    ensures var d := PropFromKnx(like, raw).value;
            && ValidData(d) && !d.LinkData?
            && DataToKnx(d) == Ok(if d.WriteResponse? && d.errorCode == Some(0) then raw[..6] else raw)
            && (d.WriteResponse? && d.errorCode == Some(0) ==> |raw| == 7 && raw[6] == 0)
  {
    var d := PropFromKnx(like, raw).value;
    if d.ReadRequest? {
      PropInfoReserialises(raw);
      assert raw + [] == raw;
    } else {
      PropInfoReserialises(raw[..6]);
      assert raw == raw[..6] + raw[6..];
      if d.WriteResponse? {
        WriteResponseTail(raw);
      }
    }
  }

  /** What follows the six octets of a write response is its error code, unless that is 0 or there is none. */
  lemma WriteResponseTail(raw: Bytes)
    requires WriteResponseFromKnx(raw).Ok?
    ensures var d := WriteResponseFromKnx(raw).value;
            && ValidData(d)
            && PropTail(d) == if d.errorCode == Some(0) then [] else raw[6..]
    ensures raw[..6] + [] == raw[..6]
  {
    var tail := raw[6..];
    assert |tail| == 1 ==> tail == [raw[6]];
  }

  lemma DataLengthIsExact(d: Data)
    requires ValidData(d) && DataToKnx(d).Ok? && DataLength(d).Ok?
    ensures |DataToKnx(d).value| == DataLength(d).value
  {
    if d.LinkData? {
      LDataLengthIsExact(d.lData);
    }
  }

  // -------------------------------------------------------------------- frame

  predicate IsLData(code: byte) {
    code == 0x29 || code == 0x11 || code == 0x2E
  }

  /** The values of CEMIMessageCode. */
  predicate KnownCode(code: byte) {
    code in {0x10, 0x11, 0x13, 0x25, 0x29, 0x2B, 0x2D, 0x2E, 0x2F} || (0xF0 <= code <= 0xFC && code !in {0xF2, 0xF3, 0xF4})
  }

  predicate HasInfo(code: byte) {
    code < 0xF0
  }

  predicate HasData(code: byte) {
    code != 0xF0 && code != 0xF1
  }

  datatype Frame = Frame(code: byte, info: Bytes, data: Option<Data>)

  predicate ValidFrame(f: Frame) {
    KnownCode(f.code) && (f.data.Some? ==> ValidData(f.data.value))
  }

  function FrameLength(f: Frame): Result<nat>
    requires ValidFrame(f)
  {
    var head := 1 + if HasInfo(f.code) then 1 + |f.info| else 0;
    if !HasData(f.code) then Ok(head)
    else if f.data.None? then Err(UnsupportedCEMIMessage)
    else
      var length :- DataLength(f.data.value);
      Ok(head + length)
  }

  function FrameToKnx(f: Frame): Result<Bytes>
    requires ValidFrame(f)
  {
    if HasInfo(f.code) && |f.info| > 255 then Err(ValueError)
    else
      var head: Bytes := [f.code] + if HasInfo(f.code) then [|f.info|] + f.info else [];
      if !HasData(f.code) then Ok(head)
      else if f.data.None? then Err(UnsupportedCEMIMessage)
      else
        var data :- DataToKnx(f.data.value);
        Ok(head + data)
  }

  /** CEMIInfo.from_knx: slices do not mind a length beyond the end. */
  function SplitInfo(raw: Bytes): (r: (Bytes, Bytes))
    requires |raw| > 0
  {
    if raw[0] as int + 1 <= |raw| then (raw[1..raw[0] as int + 1], raw[raw[0] as int + 1..]) else (raw[1..], [])
  }

  function FrameFromKnx(apci: Bytes -> ApciOutcome, raw: Bytes): Result<Frame> {
    if |raw| == 0 then Err(IndexError)
    else if !KnownCode(raw[0]) then Err(UnsupportedCEMIMessage)
    else if IsLData(raw[0]) then
      if |raw| == 1 then Err(IndexError)
      else
        var (info, rest) := SplitInfo(raw[1..]);
        var l :- LDataFromKnx(apci, rest);
        Ok(Frame(raw[0], info, Some(LinkData(l))))
    else
      var data :-
        (if raw[0] == 0xFC then (var info :- PropInfoFromKnx(raw[1..]); Ok(ReadRequest(info)))
         else if raw[0] == 0xFB then ReadResponseFromKnx(raw[1..])
         else if raw[0] == 0xF6 then WriteRequestFromKnx(raw[1..])
         else if raw[0] == 0xF5 then WriteResponseFromKnx(raw[1..])
         else Err(UnsupportedCEMIMessage));
      Ok(Frame(raw[0], [], Some(data)))
  }

  /** Whatever serialises has the calculated length, where there is one. */
  lemma FrameLengthIsExact(f: Frame)
    requires ValidFrame(f)
    ensures FrameLength(f).Ok? <==> !HasData(f.code) || (f.data.Some? && DataLength(f.data.value).Ok?)
    ensures FrameToKnx(f).Ok? && FrameLength(f).Ok? ==> |FrameToKnx(f).value| == FrameLength(f).value
  {
    if HasData(f.code) && f.data.Some? && DataToKnx(f.data.value).Ok? && DataLength(f.data.value).Ok? {
      DataLengthIsExact(f.data.value);
    }
  }

  /** The octets in front of the L_Data of a parsed frame, and those of the L_Data. */
  function LDataStart(raw: Bytes): nat
    requires |raw| >= 2
  {
    raw[1] as int + 2
  }

  lemma ParsedFrameSplits(apci: Bytes -> ApciOutcome, raw: Bytes)
    requires FrameFromKnx(apci, raw).Ok? && IsLData(raw[0])
    ensures |raw| >= LDataStart(raw) + 8
    ensures var f := FrameFromKnx(apci, raw).value;
            var l := LDataFromKnx(apci, raw[LDataStart(raw)..]);
            && f == Frame(raw[0], raw[2..LDataStart(raw)], Some(LinkData(l.value))) && l.Ok?
  {
    var length: nat := raw[1];
    assert raw[1..][0] == raw[1];
    if length + 1 <= |raw[1..]| {
      assert raw[1..][1..length + 1] == raw[2..LDataStart(raw)];
      assert raw[1..][length + 1..] == raw[LDataStart(raw)..];
    }
  }

  /**
   Parsing and serialising a frame of L_Data keeps every octet up to the L_Data, and of the
   L_Data changes only what Normalised changes; NPDUs of 255 octets are refused.
   */
  lemma ReserialisedFrame(apci: Bytes -> ApciOutcome, raw: Bytes)
    requires FrameFromKnx(apci, raw).Ok? && IsLData(raw[0])
    ensures |raw| >= LDataStart(raw) + 8
    ensures FrameToKnx(FrameFromKnx(apci, raw).value) ==
            if raw[LDataStart(raw) + 6] > MAX_NPDU_LENGTH then Err(ConversionError)
            else Ok(raw[..LDataStart(raw)] + Normalised(raw[LDataStart(raw)..]))
  {
    ParsedFrameSplits(apci, raw);
    var rest := raw[LDataStart(raw)..];
    ReserialisedLData(apci, rest);
    var info := raw[2..LDataStart(raw)];
    var head: Bytes := [raw[0]] + ([|info|] + info);
    assert raw[..LDataStart(raw)] == head;
    assert rest[6] == raw[LDataStart(raw) + 6];
  }

  lemma InfoSplits(info: Bytes, rest: Bytes)
    requires |info| < 256
    ensures SplitInfo([|info|] + info + rest) == (info, rest)
  {
    var raw: Bytes := [|info|] + info + rest;
    assert raw[1..|info| + 1] == info && raw[|info| + 1..] == rest;
  }

  /** A frame of L_Data comes back, but for the Frame Type bit, exactly when its L_Data does. */
  lemma LinkFrameRoundTripIff(apci: Bytes -> ApciOutcome, f: Frame)
    requires ValidFrame(f) && IsLData(f.code) && f.data.Some? && f.data.value.LinkData? && FrameToKnx(f).Ok?
    ensures var l := f.data.value.lData;
            && LDataToKnx(l).Ok?
            && (FrameFromKnx(apci, FrameToKnx(f).value) ==
                  Ok(f.(data := Some(LinkData(l.(flags := WithFrameType(l.flags, |Tpdu(l).value| - 1))))))
                <==> Carries(apci, l))
  {
    var l := f.data.value.lData;
    var octets := LDataToKnx(l).value;
    var raw := FrameToKnx(f).value;
    InfoSplits(f.info, octets);
    assert raw[1..] == [|f.info|] + f.info + octets;
    LDataRoundTripIff(apci, l);
  }

  /** The message code of each kind of M_Prop message. */
  function PropCode(d: Data): byte
    requires !d.LinkData?
  {
    match d
    case ReadRequest(_) => 0xFC
    case ReadResponse(_, _) => 0xFB
    case WriteRequest(_, _) => 0xF6
    case WriteResponse(_, _) => 0xF5
  }

  /**
   A frame of an M_Prop message comes back exactly with its own code, no additional information and
   a restorable message.
   */
  lemma PropFrameRoundTripIff(apci: Bytes -> ApciOutcome, f: Frame)
    requires ValidFrame(f) && !HasInfo(f.code) && HasData(f.code) && f.data.Some? && !f.data.value.LinkData? && FrameToKnx(f).Ok?
    ensures FrameFromKnx(apci, FrameToKnx(f).value) == Ok(f)
       <==> f.info == [] && f.code == PropCode(f.data.value) && Restorable(f.data.value)
  {
    var octets, raw := DataToKnx(f.data.value).value, FrameToKnx(f).value;
    assert raw == [f.code] + octets && raw[1..] == octets;
    PropRoundTripIff(f.data.value);
  }

  /** Every message code but seven is refused as unsupported, known or not. */
  lemma OtherCodesAreRefused(apci: Bytes -> ApciOutcome, raw: Bytes)
    requires raw != [] && raw[0] !in {0x11, 0x29, 0x2E, 0xF5, 0xF6, 0xFB, 0xFC}
    ensures FrameFromKnx(apci, raw) == Err(UnsupportedCEMIMessage)
  {
  }

  // ------------------------------------------------------------------- object

  class CemiLData {
    var flags: nat
    var source: nat
    var destination: Address
    var tpci: Tpci
    var payload: Option<Bytes>

    function View(): LData
      reads this
    {
      LData(flags, source, destination, tpci, payload)
    }

    constructor (d: LData)
      ensures View() == d
    {
      flags, source, destination, tpci, payload := d.flags, d.source, d.destination, d.tpci, d.payload;
    }

    method SetHops(hops: nat)
      modifies this`flags
      ensures flags == WithHops(old(flags), hops)
    {
      flags := WithoutHops(flags);
      flags := Or(flags, hops * 16);
    }

    /** to_knx, with the TPCI put into the payload's first octet in place. */
    method Serialize() returns (r: Result<Bytes>)
      requires ValidLData(View())
      ensures r == LDataToKnx(View())
    {
      var npduLength := 0;
      var tpdu: array<byte>;
      if tpci.Control() {
        tpdu := new byte[][tpci.ToKnx()];
        assert tpdu[..] == [tpci.ToKnx()];
      } else {
        if payload.None? {
          return Err(ConversionError);
        }
        var apdu := payload.value;
        DataOctet(tpci, apdu[0]);
        tpdu := new byte[|apdu|](i requires 0 <= i < |apdu| => apdu[i]);
        tpdu[0] := tpdu[0] + tpci.ToKnx();
        assert tpdu[..] == [apdu[0] + tpci.ToKnx()] + apdu[1..];
        npduLength := |apdu| - 1;
      }
      if npduLength > MAX_NPDU_LENGTH {
        return Err(ConversionError);
      }
      var sent := WithFrameType(flags, npduLength);
      r := Ok(U16(sent) + U16(source) + U16(destination.raw) + [npduLength] + tpdu[..]);
    }
  }
}
