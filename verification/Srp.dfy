/** Search request parameters and the list of them in a SearchRequestExtended body. */
module SearchRequestParameters {
  import opened Bytes
  import opened ParseLoops

  const SRP_HEADER_SIZE := 2

  // SearchRequestParameterType
  const SELECT_BY_PROGRAMMING_MODE := 1
  const SELECT_BY_MAC_ADDRESS := 2
  const SELECT_BY_SERVICE := 3
  const REQUEST_DIBS := 4

  datatype Srp = Srp(srpType: nat, mandatory: bool, data: Bytes, payloadSize: nat)

  /** SRP.__init__: checks the payload length for the type, pads an odd DIB list. */
  function MakeSrp(srpType: nat, mandatory: bool, data: Bytes): (r: Result<Srp>)
    requires srpType <= REQUEST_DIBS
    ensures r.Ok? ==> SRP_HEADER_SIZE <= r.value.payloadSize <= SRP_HEADER_SIZE + |r.value.data|
    ensures r.Ok? ==> r.value.srpType == srpType && r.value.mandatory == mandatory && data <= r.value.data
  {
    if srpType == SELECT_BY_SERVICE then
      if |data| != 2 then Err(ConversionError) else Ok(Srp(srpType, mandatory, data, 4))
    else if srpType == SELECT_BY_MAC_ADDRESS then
      if |data| != 6 then Err(ConversionError) else Ok(Srp(srpType, mandatory, data, 8))
    else if srpType == REQUEST_DIBS then
      if data == [] then Err(ConversionError)
      else
        var padded := if |data| % 2 == 1 then data + [0] else data;
        Ok(Srp(srpType, mandatory, padded, SRP_HEADER_SIZE + |padded|))
    else Ok(Srp(srpType, mandatory, data, SRP_HEADER_SIZE))
  }

  /** Which arguments the constructor takes, and the size it gives them. */
  lemma MakeSrpIff(srpType: nat, mandatory: bool, data: Bytes)
    requires srpType <= REQUEST_DIBS
    ensures var r := MakeSrp(srpType, mandatory, data);
            && (r.Ok? <==> (srpType == 2 ==> |data| == 6) && (srpType == 3 ==> |data| == 2) && (srpType == 4 ==> |data| > 0))
            && (r.Err? ==> r.error == ConversionError)
            && (r.Ok? ==>
                  && r.value.payloadSize == 2 + (if srpType <= 1 then 0 else |data| + if srpType == 4 then |data| % 2 else 0)
                  && r.value.data == if srpType == 4 && |data| % 2 == 1 then data + [0] else data)
  {
  }

  /** SRP.__bytes__ */
  function SrpToBytes(s: Srp): (r: Result<Bytes>) {
    if s.payloadSize > 255 then Err(ValueError)
    else Ok([s.payloadSize, (if s.mandatory then 128 else 0) + s.srpType % 8] + s.data)
  }

  /** SRP.from_knx */
  function SrpFromKnx(data: Bytes): (r: Result<Srp>)
    ensures r.Ok? ==> r.value.payloadSize >= SRP_HEADER_SIZE
  {
    if |data| < SRP_HEADER_SIZE then Err(CouldNotParseKNXIP)
    else
      var size := data[0];
      if size > |data| then Err(CouldNotParseKNXIP)
      else if data[1] % 128 > REQUEST_DIBS then Err(ValueError)
      else MakeSrp(data[1] % 128, data[1] >= 128, if size < 2 then [] else data[2..size])
  }

  /** What the constructor can return and `bytes` can serialise with the announced length. */
  predicate Valid(s: Srp) {
    && s.srpType <= REQUEST_DIBS
    && MakeSrp(s.srpType, s.mandatory, s.data) == Ok(s)
    && s.payloadSize == SRP_HEADER_SIZE + |s.data| <= 255
  }

  /** One parameter parses back to itself whatever follows it. */
  lemma SrpRoundTrip(s: Srp, tail: Bytes)
    requires Valid(s)
    ensures SrpToBytes(s).Ok? && |SrpToBytes(s).value| == s.payloadSize
    ensures SrpFromKnx(SrpToBytes(s).value + tail) == Ok(s)
  {
    var all := SrpToBytes(s).value + tail;
    assert all[2..s.payloadSize] == s.data;
  }

  // ------------------------------------------------- SearchRequestExtended

  /** One pass of the loop of SearchRequestExtended.from_knx, which advances by len(srp). */
  function SrpItem(raw: Bytes): (r: Result<(Srp, nat)>)
    ensures r.Ok? ==> r.value.1 >= SRP_HEADER_SIZE
  {
    var srp :- SrpFromKnx(raw);
    Ok((srp, srp.payloadSize))
  }

  /** The parameter list of a SearchRequestExtended body after the HPAI. */
  function ParseSrps(raw: Bytes): Result<seq<Srp>> {
    ParseList(SrpItem, raw)
  }

  /** b"".join(bytes(srp) for srp in srps) */
  function SerializeSrps(srps: seq<Srp>): Result<Bytes> {
    if srps == [] then Ok([])
    else
      var first :- SrpToBytes(srps[0]);
      var rest :- SerializeSrps(srps[1..]);
      Ok(first + rest)
  }

  /** sum(srp.payload_size for srp in srps) */
  function PayloadSize(srps: seq<Srp>): nat {
    if srps == [] then 0 else srps[0].payloadSize + PayloadSize(srps[1..])
  }

  /** The loop ends on every input, since each pass raises or advances by at least two octets. */
  lemma SrpLoopTerminates(raw: Bytes)
    ensures LoopEnds(SrpItem, raw)
  {
    SrpItemsAdvance(raw);
    forall b
      ensures SrpItem(b) != Err(Diverges)
    {
    }
    TerminatesIffAlwaysAdvances(SrpItem, raw);
  }

  lemma {:induction false} SrpItemsAdvance(raw: Bytes)
    ensures AlwaysAdvances(SrpItem, raw)
    decreases |raw|
  {
    if raw != [] && SrpItem(raw).Ok? {
      SrpItemsAdvance(From(raw, SrpItem(raw).value.1));
    }
  }

  /** The octets of each parameter. */
  function Parts(srps: seq<Srp>): (parts: seq<Bytes>)
    requires forall s :: s in srps ==> Valid(s)
    ensures |parts| == |srps|
    ensures forall i :: 0 <= i < |srps| ==> SrpToBytes(srps[i]) == Ok(parts[i])
  {
    if srps == [] then []
    else
      assert Valid(srps[0]);
      [SrpToBytes(srps[0]).value] + Parts(srps[1..])
  }

  lemma {:induction false} SerializeIsConcat(srps: seq<Srp>)
    requires forall s :: s in srps ==> Valid(s)
    ensures SerializeSrps(srps) == Ok(Concat(Parts(srps)))
    ensures |Concat(Parts(srps))| == PayloadSize(srps)
  {
    if srps != [] {
      assert Valid(srps[0]);
      SerializeIsConcat(srps[1..]);
      assert Parts(srps)[1..] == Parts(srps[1..]);
    }
  }

  /** A list of valid parameters parses back to itself, and the computed length is the byte length. */
  lemma SrpListRoundTrip(srps: seq<Srp>)
    requires forall s :: s in srps ==> Valid(s)
    ensures SerializeSrps(srps).Ok?
    ensures |SerializeSrps(srps).value| == PayloadSize(srps)
    ensures ParseSrps(SerializeSrps(srps).value) == Ok(srps)
  {
    var parts := Parts(srps);
    SerializeIsConcat(srps);
    forall i | 0 <= i < |srps|
      ensures ParsesBack(SrpItem, srps[i], parts[i])
    {
      forall tail: Bytes
        ensures SrpItem(parts[i] + tail) == Ok((srps[i], |parts[i]|))
      {
        SrpRoundTrip(srps[i], tail);
      }
    }
    ListRoundTrip(SrpItem, srps, parts);
  }

  /**
   A constructed parameter comes back from its own octets exactly when it is valid: without
   surplus data, and short enough for its length octet.
   */
  lemma ConstructedRoundTripIff(srpType: nat, mandatory: bool, data: Bytes, tail: Bytes)
    requires srpType <= REQUEST_DIBS && MakeSrp(srpType, mandatory, data).Ok?
    ensures var s := MakeSrp(srpType, mandatory, data).value;
            && (SrpToBytes(s).Ok? && SrpFromKnx(SrpToBytes(s).value + tail) == Ok(s) <==> Valid(s))
            && (Valid(s) <==> (srpType <= SELECT_BY_PROGRAMMING_MODE ==> data == []) && (srpType == REQUEST_DIBS ==> |data| <= 252))
  {
    var s := MakeSrp(srpType, mandatory, data).value;
    if Valid(s) {
      SrpRoundTrip(s, tail);
    } else if SrpToBytes(s).Ok? {
      var all := SrpToBytes(s).value + tail;
      assert srpType <= SELECT_BY_PROGRAMMING_MODE && s.data != [] && all[0] == 2;
      assert all[2..2] == [];
    }
  }

  // ------------------------------------------------------- announced and taken length

  /** What the loop advances by, from the two header octets of a parameter that parses. */
  function Advance(raw: Bytes): nat
    requires |raw| >= 2
  {
    if raw[1] % 128 <= SELECT_BY_PROGRAMMING_MODE then SRP_HEADER_SIZE
    else if raw[1] % 128 == REQUEST_DIBS then raw[0] as int + raw[0] as int % 2
    else raw[0]
  }

  lemma AdvanceIsPayloadSize(raw: Bytes)
    requires SrpFromKnx(raw).Ok?
    ensures |raw| >= 2 && SrpFromKnx(raw).value.payloadSize == Advance(raw)
  {
  }

  /**
   The loop advances by the announced length exactly when a selection by programming mode (or
   the invalid type) announces no data, and a DIB request an even length; the other types have
   one length each.
   */
  lemma AdvanceIsAnnouncedIff(raw: Bytes)
    requires SrpFromKnx(raw).Ok?
    ensures |raw| >= 2
    ensures SrpFromKnx(raw).value.payloadSize == raw[0] <==>
              if raw[1] % 128 <= SELECT_BY_PROGRAMMING_MODE then raw[0] == 2
              else if raw[1] % 128 == REQUEST_DIBS then raw[0] % 2 == 0
              else true
  {
    AdvanceIsPayloadSize(raw);
  }

  /** The parameters behind the first one are read from its advance on, be that its end or not. */
  lemma RestIsReadFromAdvance(raw: Bytes)
    requires raw != [] && SrpFromKnx(raw).Ok?
    ensures |raw| >= 2 && ParseSrps(raw) == Prepend([SrpFromKnx(raw).value], ParseSrps(From(raw, Advance(raw))))
  {
    AdvanceIsPayloadSize(raw);
  }

  /**
   Surplus octets of a selection by programming mode are data of the parameter and are read again
   as the next parameters.
   */
  lemma SurplusDataIsReadAgain(mandatory: bool, surplus: Bytes, rest: Bytes)
    requires |surplus| <= 253
    ensures var raw := [|surplus| + 2, (if mandatory then 128 else 0) + SELECT_BY_PROGRAMMING_MODE] + surplus + rest;
            ParseSrps(raw) == Prepend([Srp(SELECT_BY_PROGRAMMING_MODE, mandatory, surplus, 2)], ParseSrps(surplus + rest))
  {
    var raw := [|surplus| + 2, (if mandatory then 128 else 0) + SELECT_BY_PROGRAMMING_MODE] + surplus + rest;
    assert raw[2..|surplus| + 2] == surplus;
    assert From(raw, 2) == surplus + rest;
    assert SrpFromKnx(raw) == Ok(Srp(SELECT_BY_PROGRAMMING_MODE, mandatory, surplus, 2));
    RestIsReadFromAdvance(raw);
  }

  /** For example, two surplus octets that look like a parameter become a second one. */
  lemma SurplusDataIsReadAsNextParameter()
    ensures ParseSrps([4, 1, 2, 1]) == Ok([Srp(1, false, [2, 1], 2), Srp(1, false, [], 2)])
  {
    SurplusDataIsReadAgain(false, [2, 1], []);
    SurplusDataIsReadAgain(false, [], []);
    var raw: Bytes := [4, 1, 2, 1];
    var second: Bytes := [2, 1];
    assert [4, 1] + second + [] == raw && second + [] == second && [2, 1] + [] + [] == second;
    assert ParseSrps([] + []) == Ok([]);
    assert [Srp(1, false, [], 2)] + [] == [Srp(1, false, [], 2)];
    assert [Srp(1, false, [2, 1], 2)] + [Srp(1, false, [], 2)] == [Srp(1, false, [2, 1], 2), Srp(1, false, [], 2)];
  }
}
