/** Transport layer control information: the first 6 bits of a data TPDU, the 8 bits of a control TPDU. */
module TransportControl {
  import opened Bytes

  /** Numbers are modulo 16. */
  datatype Tpci =
    | TDataConnected(number: nat)
    | TAck(number: nat)
    | TNak(number: nat)
    | TConnect
    | TDisconnect
    | TDataIndividual
    | TDataBroadcast
    | TDataGroup
    | TDataTagGroup
  {
    /** What the attribute sequence_number reads, which every kind of TPCI has. */
    function SequenceNumber(): nat {
      match this
      case TDataConnected(n) => n
      case TAck(n) => n
      case TNak(n) => n
      case TDataTagGroup => 1
      case _ => 0
    }

    predicate Control() {
      TAck? || TNak? || TConnect? || TDisconnect?
    }

    predicate Numbered() {
      TDataConnected? || TAck? || TNak?
    }

    predicate Valid() {
      SequenceNumber() < 16
    }

    function ControlFlags(): nat {
      match this
      case TDisconnect => 1
      case TAck(_) => 2
      case TNak(_) => 3
      case _ => 0
    }

    function ToKnx(): (raw: byte) {
      var high := (if Control() then 128 else 0) + (if Numbered() then 64 else 0);
      high + (SequenceNumber() % 16) * 4 + ControlFlags()
    }
  }

  /** TPCI.resolve */
  function Resolve(raw: byte, toGroup: bool, toZero: bool): (r: Result<Tpci>) {
    var control, numbered, number, flags := raw / 128 == 1, (raw / 64) % 2 == 1, (raw / 4) % 16, raw % 4;
    if toGroup && (control || numbered) then Err(ConversionError)
    else if toGroup && number == 0 then Ok(if toZero then TDataBroadcast else TDataGroup)
    else if toGroup && number == 1 then Ok(TDataTagGroup)
    else if !numbered && number != 0 then Err(ConversionError)
    else if !control then Ok(if numbered then TDataConnected(number) else TDataIndividual)
    else if !numbered && flags == 0 then Ok(TConnect)
    else if !numbered && flags == 1 then Ok(TDisconnect)
    else if flags == 2 then Ok(TAck(number))
    else if flags == 3 then Ok(TNak(number))
    else Err(ConversionError)
  }

  /** What a resolved octet becomes when it is serialised: a TAck or TNak is also read without its number bit. */
  function Canonical(raw: byte): byte {
    if raw == 0x82 || raw == 0x83 then raw + 0x40 else if raw < 0x80 then raw - raw % 4 else raw
  }

  /**
   Serialising what was resolved gives the octet again, but for the APCI bits of data and the
   octets 0x82 and 0x83.
   */
  lemma ResolvedSerialises(raw: byte, toGroup: bool, toZero: bool)
    ensures var r := Resolve(raw, toGroup, toZero);
            r.Ok? ==> r.value.Valid() && r.value.ToKnx() == Canonical(raw) && (r.value.Control() <==> raw >= 0x80)
  {
  }

  /** Resolving is stable: the serialised octet, with any APCI bits on data, means the same. */
  lemma SerialisedResolves(raw: byte, toGroup: bool, toZero: bool, apciBits: nat)
    requires Resolve(raw, toGroup, toZero).Ok? && apciBits < 4
    ensures var t := Resolve(raw, toGroup, toZero).value;
            var octet := t.ToKnx() + if t.Control() then 0 else apciBits;
            octet < 256 && Resolve(octet, toGroup, toZero) == Ok(t)
  {
    ResolvedSerialises(raw, toGroup, toZero);
  }

  /** The kinds of TPCI that go to groups, to everyone and to one device. */
  predicate Fits(t: Tpci, toGroup: bool, toZero: bool) {
    match t
    case TDataBroadcast => toGroup && toZero
    case TDataGroup => toGroup && !toZero
    case TDataTagGroup => toGroup
    case _ => !toGroup
  }

  /** A TPCI comes back from its octet, with any APCI bits on data, exactly when it fits the destination. */
  lemma ResolvesIff(t: Tpci, toGroup: bool, toZero: bool, apciBits: nat)
    requires t.Valid() && apciBits < 4
    ensures var octet := t.ToKnx() + if t.Control() then 0 else apciBits;
            octet < 256 && (Resolve(octet, toGroup, toZero) == Ok(t) <==> Fits(t, toGroup, toZero))
  {
    var n := t.SequenceNumber();
    var octet := t.ToKnx() + if t.Control() then 0 else apciBits;
    assert octet / 128 == (if t.Control() then 1 else 0) && (octet / 64) % 2 == (if t.Numbered() then 1 else 0);
    assert (octet / 4) % 16 == n && octet % 4 == if t.Control() then t.ControlFlags() else apciBits;
  }

  lemma CanonicalResolves(raw: byte, t: Tpci, toGroup: bool, toZero: bool)
    requires t.Valid() && Fits(t, toGroup, toZero) && t.ToKnx() == Canonical(raw)
    ensures Resolve(raw, toGroup, toZero).Ok?
  {
    ResolvesIff(t, toGroup, toZero, if t.Control() then 0 else raw % 4);
    CanonicalOf(raw);
  }

  /** An octet resolves exactly when it is, in its canonical form and but for APCI bits, that of a TPCI that fits. */
  lemma AcceptedIff(raw: byte, toGroup: bool, toZero: bool)
    ensures Resolve(raw, toGroup, toZero).Ok? <==>
              exists t: Tpci :: t.Valid() && Fits(t, toGroup, toZero) && t.ToKnx() == Canonical(raw)
  {
    ResolvedSerialises(raw, toGroup, toZero);
    if Resolve(raw, toGroup, toZero).Ok? {
      assert Fits(Resolve(raw, toGroup, toZero).value, toGroup, toZero);
    }
    forall t: Tpci | t.Valid() && Fits(t, toGroup, toZero) && t.ToKnx() == Canonical(raw)
      ensures Resolve(raw, toGroup, toZero).Ok?
    {
      CanonicalResolves(raw, t, toGroup, toZero);
    }
  }

  lemma CanonicalOf(raw: byte)
    ensures raw < 0x80 ==> Canonical(raw) == raw - raw % 4 && Canonical(raw) < 0x80
    ensures raw >= 0x80 ==> Canonical(raw) >= 0x80
  {
  }
}
