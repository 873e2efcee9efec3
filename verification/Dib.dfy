/** Description information blocks and the lists of them in search and description responses. */
module DescriptionInformationBlocks {
  import opened Bytes
  import opened ParseLoops

  const DIB_HEADER_LENGTH := 2

  // DIBTypeCode
  const DEVICE_INFO: byte := 0x01
  const SUPP_SVC_FAMILIES: byte := 0x02
  const SECURED_SERVICE_FAMILIES: byte := 0x06
  const TUNNELING_INFO: byte := 0x07

  predicate IsDibTypeCode(c: nat) {
    1 <= c <= 8 || c == 0xFE
  }

  predicate IsServiceFamily(c: nat) {
    2 <= c <= 9
  }

  predicate IsMedium(c: nat) {
    c == 0x02 || c == 0x04 || c == 0x10 || c == 0x20
  }

  datatype Family = Family(name: byte, version: byte)

  datatype Slot = Slot(address: nat, usable: bool, authorized: bool, free: bool)

  datatype Dib =
    | Generic(dtc: byte, data: Bytes)
    | DeviceInformation(medium: byte, programmingMode: bool, address: nat, installation: nat, project: nat,
                        serial: Bytes, multicast: Bytes, mac: Bytes, name: Bytes)
    | ServiceFamilies(secured: bool, families: seq<Family>)
      /** `slots` is the dictionary in its iteration order: first insertion of each address. */
    | TunnelingInfo(maxApdu: nat, slots: seq<Slot>)

  // ---------------------------------------------------------------- parsing

  /** The family loop: pairs of octets up to the announced length. */
  function ParseFamilies(body: Bytes): Result<seq<Family>>
    requires |body| % 2 == 0
  {
    if body == [] then Ok([])
    else if !IsServiceFamily(body[0]) then Err(ValueError)
    else Prepend([Family(body[0], body[1])], ParseFamilies(body[2..]))
  }

  function SlotAt(hi: byte, lo: byte, flags: byte): Slot {
    Slot(Word(hi, lo), flags / 4 % 2 == 1, flags / 2 % 2 == 1, flags % 2 == 1)
  }

  /** Assignment to a dictionary entry: an existing key keeps its place. */
  function Insert(slots: seq<Slot>, s: Slot): (r: seq<Slot>)
    ensures (forall i :: 0 <= i < |slots| ==> slots[i].address != s.address) ==> r == slots + [s]
  {
    if slots == [] then [s]
    else if slots[0].address == s.address then [s] + slots[1..]
    else
      var r := [slots[0]] + Insert(slots[1..], s);
      assert r[0] == slots[0] && r[1..] == Insert(slots[1..], s);
      assert slots == [slots[0]] + slots[1..];
      r
  }

  /** The slot records in the octets. */
  function SlotsIn(body: Bytes): seq<Slot>
    requires |body| % 4 == 0
  {
    if body == [] then [] else [SlotAt(body[0], body[1], body[3])] + SlotsIn(body[4..])
  }

  /** The dictionary after assigning one slot after the other. */
  function InsertAll(slots: seq<Slot>, more: seq<Slot>): seq<Slot>
    decreases |more|
  {
    if more == [] then slots else InsertAll(Insert(slots, more[0]), more[1..])
  }

  function ParseSlots(body: Bytes): seq<Slot>
    requires |body| % 4 == 0
  {
    InsertAll([], SlotsIn(body))
  }

  /** str.rstrip of NUL characters; latin-1 maps octets to characters one to one. */
  function StripNul(name: Bytes): (r: Bytes)
    ensures r <= name
  {
    if name != [] && name[|name| - 1] == 0 then StripNul(name[..|name| - 1]) else name
  }

  function DeviceInformationAt(raw: Bytes): Dib
    requires |raw| >= 54
  {
    var project := Word(raw[6], raw[7]);
    DeviceInformation(raw[2], raw[3] != 0, Word(raw[4], raw[5]), project % 16, project / 16,
                      raw[8..14], raw[14..18], raw[18..24], StripNul(raw[24..54]))
  }

  /** DIB.determine_dib followed by from_knx of the class it selects: the block and its length octet. */
  function DibFromKnx(raw: Bytes): (r: Result<(Dib, nat)>)
    ensures r.Ok? ==> |raw| >= 2 && r.value.1 == raw[0] as int <= |raw|
  {
    if |raw| < 2 then Err(CouldNotParseKNXIP)
    else if !IsDibTypeCode(raw[1]) then Err(ValueError)
    else if raw[1] == DEVICE_INFO then
      if |raw| < 54 || raw[0] != 54 then Err(CouldNotParseKNXIP)
      else if !IsMedium(raw[2]) then Err(ValueError)
      else Ok((DeviceInformationAt(raw), 54))
    else if raw[1] == SUPP_SVC_FAMILIES || raw[1] == SECURED_SERVICE_FAMILIES then
      if |raw| < raw[0] || raw[0] % 2 != 0 then Err(CouldNotParseKNXIP)
      else
        var families :- ParseFamilies(if raw[0] < 2 then [] else raw[2..raw[0]]);
        Ok((ServiceFamilies(raw[1] == SECURED_SERVICE_FAMILIES, families), raw[0]))
    else if raw[1] == TUNNELING_INFO then
      if |raw| < 4 || |raw| < raw[0] || raw[0] % 4 != 0 then Err(CouldNotParseKNXIP)
      else
        var slots := ParseSlots(if raw[0] < 4 then [] else raw[4..raw[0]]);
        Ok((TunnelingInfo(Word(raw[2], raw[3]), slots), raw[0]))
    else
      if |raw| < raw[0] then Err(CouldNotParseKNXIP)
      else Ok((Generic(raw[1], if raw[0] < 2 then [] else raw[2..raw[0]]), raw[0]))
  }

  // ---------------------------------------------------------- serialisation

  function CalculatedLength(d: Dib): nat {
    match d
    case Generic(_, data) => DIB_HEADER_LENGTH + |data| + |data| % 2
    case DeviceInformation(_, _, _, _, _, _, _, _, _) => 54
    case ServiceFamilies(_, families) => 2 * |families| + DIB_HEADER_LENGTH
    case TunnelingInfo(_, slots) => 2 + 2 + 4 * |slots|
  }

  function SerializeFamilies(families: seq<Family>): (r: Bytes)
    ensures |r| == 2 * |families|
  {
    if families == [] then [] else [families[0].name, families[0].version] + SerializeFamilies(families[1..])
  }

  function Bit(b: bool): nat { if b then 1 else 0 }

  function SerializeSlots(slots: seq<Slot>): (r: Bytes)
    requires forall s :: s in slots ==> s.address < 0x1_0000
    ensures |r| == 4 * |slots|
  {
    if slots == [] then []
    else
      var s := slots[0];
      U16(s.address) + [0, 4 * Bit(s.usable) + 2 * Bit(s.authorized) + Bit(s.free)] + SerializeSlots(slots[1..])
  }

  /** The field ranges of blocks that to_knx can serialise. */
  predicate Serializable(d: Dib) {
    && CalculatedLength(d) <= 255
    && match d
       case Generic(dtc, _) => IsDibTypeCode(dtc)
       case DeviceInformation(_, _, address, installation, project, serial, multicast, mac, name) =>
         && address < 0x1_0000 && 16 * project + installation < 0x1_0000
         && |serial| == 6 && |multicast| == 4 && |mac| == 6
       case ServiceFamilies(_, families) => true
       case TunnelingInfo(maxApdu, slots) => maxApdu < 0x1_0000 && forall s :: s in slots ==> s.address < 0x1_0000
  }

  function DeviceInformationToKnx(d: Dib): (r: Bytes)
    requires d.DeviceInformation? && Serializable(d)
    ensures |r| == 54 && r[..4] == [54, DEVICE_INFO, d.medium, Bit(d.programmingMode)]
  {
    var cut := if |d.name| > 30 then d.name[..30] else d.name;
    [54, DEVICE_INFO, d.medium, Bit(d.programmingMode)] + U16(d.address) + U16(16 * d.project + d.installation)
    + d.serial + d.multicast + d.mac + cut + Zeros(30 - |cut|)
  }

  /** to_knx */
  function DibToKnx(d: Dib): (r: Bytes)
    requires Serializable(d)
    ensures |r| == CalculatedLength(d) && r[0] == CalculatedLength(d)
  {
    match d
    case Generic(dtc, data) =>
      [CalculatedLength(d), dtc] + data + Zeros(|data| % 2)
    case DeviceInformation(_, _, _, _, _, _, _, _, _) =>
      DeviceInformationToKnx(d)
    case ServiceFamilies(secured, families) =>
      [CalculatedLength(d), if secured then SECURED_SERVICE_FAMILIES else SUPP_SVC_FAMILIES] + SerializeFamilies(families)
    case TunnelingInfo(maxApdu, slots) =>
      [CalculatedLength(d), TUNNELING_INFO] + U16(maxApdu) + SerializeSlots(slots)
  }

  // ------------------------------------------------------------- round trip

  predicate DistinctAddresses(slots: seq<Slot>) {
    forall i, j :: 0 <= i < j < |slots| ==> slots[i].address != slots[j].address
  }

  /** Blocks whose class is the one determine_dib selects and whose fields the wire can carry. */
  predicate Valid(d: Dib) {
    && Serializable(d)
    && match d
       case Generic(dtc, _) => dtc !in {DEVICE_INFO, SUPP_SVC_FAMILIES, SECURED_SERVICE_FAMILIES, TUNNELING_INFO}
       case DeviceInformation(medium, _, _, installation, _, _, _, _, name) =>
         IsMedium(medium) && installation < 16 && |name| <= 30 && StripNul(name) == name
       case ServiceFamilies(_, families) => forall f :: f in families ==> IsServiceFamily(f.name)
       case TunnelingInfo(_, slots) => DistinctAddresses(slots)
  }

  lemma {:induction false} FamiliesRoundTrip(families: seq<Family>)
    requires forall f :: f in families ==> IsServiceFamily(f.name)
    ensures ParseFamilies(SerializeFamilies(families)) == Ok(families)
  {
    if families != [] {
      FamiliesRoundTrip(families[1..]);
      assert SerializeFamilies(families)[2..] == SerializeFamilies(families[1..]);
      assert families == [families[0]] + families[1..];
    }
  }

  lemma SlotFlags(usable: bool, authorized: bool, free: bool)
    ensures var flags := 4 * Bit(usable) + 2 * Bit(authorized) + Bit(free);
            (flags / 4 % 2 == 1 <==> usable) && (flags / 2 % 2 == 1 <==> authorized) && (flags % 2 == 1 <==> free)
  {
  }

  lemma SlotRoundTrip(s: Slot, rest: seq<Slot>)
    requires s.address < 0x1_0000 && forall t :: t in rest ==> t.address < 0x1_0000
    ensures var all := SerializeSlots([s] + rest);
            all[4..] == SerializeSlots(rest) && SlotAt(all[0], all[1], all[3]) == s
  {
    assert ([s] + rest)[1..] == rest;
    SlotFlags(s.usable, s.authorized, s.free);
  }

  lemma {:induction false} SerializedSlotsAreIn(slots: seq<Slot>)
    requires forall i :: 0 <= i < |slots| ==> slots[i].address < 0x1_0000
    ensures SlotsIn(SerializeSlots(slots)) == slots
  {
    if slots != [] {
      SlotRoundTrip(slots[0], slots[1..]);
      assert slots == [slots[0]] + slots[1..];
      SerializedSlotsAreIn(slots[1..]);
    }
  }

  lemma {:induction false} DistinctSlotsAreKept(front: seq<Slot>, slots: seq<Slot>)
    requires DistinctAddresses(front + slots)
    ensures InsertAll(front, slots) == front + slots
    decreases |slots|
  {
    var all := front + slots;
    if slots == [] {
      assert all == front;
    } else {
      assert all[|front|] == slots[0] && forall i :: 0 <= i < |front| ==> all[i] == front[i];
      assert all == (front + [slots[0]]) + slots[1..];
      DistinctSlotsAreKept(front + [slots[0]], slots[1..]);
    }
  }

  lemma SlotsRoundTrip(slots: seq<Slot>)
    requires DistinctAddresses(slots) && forall s :: s in slots ==> s.address < 0x1_0000
    ensures ParseSlots(SerializeSlots(slots)) == slots
  {
    SerializedSlotsAreIn(slots);
    DistinctSlotsAreKept([], slots);
    assert [] + slots == slots;
  }

  lemma {:induction false} StripPadding(name: Bytes, n: nat)
    requires StripNul(name) == name
    ensures StripNul(name + Zeros(n)) == name
  {
    if n == 0 {
      assert name + Zeros(0) == name;
    } else {
      StripPadding(name, n - 1);
      assert (name + Zeros(n))[..|name| + n - 1] == name + Zeros(n - 1);
    }
  }

  lemma ProjectSplit(project: nat, installation: nat)
    requires installation < 16
    ensures (16 * project + installation) % 16 == installation && (16 * project + installation) / 16 == project
  {
  }

  lemma DeviceInformationOctets(d: Dib, tail: Bytes)
    requires d.DeviceInformation? && Serializable(d) && |d.name| <= 30
    ensures var raw := DeviceInformationToKnx(d) + tail;
            && raw[..4] == [54, DEVICE_INFO, d.medium, Bit(d.programmingMode)]
            && raw[4..6] == U16(d.address) && raw[6..8] == U16(16 * d.project + d.installation)
            && raw[8..14] == d.serial && raw[14..18] == d.multicast && raw[18..24] == d.mac
            && raw[24..54] == d.name + Zeros(30 - |d.name|)
  {
    var raw := DeviceInformationToKnx(d) + tail;
    var head: Bytes := [54, DEVICE_INFO, d.medium, Bit(d.programmingMode)];
    var ids := U16(d.address) + U16(16 * d.project + d.installation);
    var name := d.name + Zeros(30 - |d.name|);
    assert raw == head + ids + d.serial + d.multicast + d.mac + name + tail;
  }

  lemma DeviceInformationFields(d: Dib, tail: Bytes)
    requires d.DeviceInformation? && Valid(d)
    ensures DeviceInformationAt(DeviceInformationToKnx(d) + tail) == d
  {
    var raw := DeviceInformationToKnx(d) + tail;
    DeviceInformationOctets(d, tail);
    StripPadding(d.name, 30 - |d.name|);
    ProjectSplit(d.project, d.installation);
    assert raw[..4][2] == raw[2] && raw[..4][3] == raw[3];
    assert raw[4..6] == [raw[4], raw[5]] && raw[6..8] == [raw[6], raw[7]];
    assert Word(raw[4], raw[5]) == d.address && Word(raw[6], raw[7]) == 16 * d.project + d.installation;
  }

  lemma DeviceInformationHeader(d: Dib, tail: Bytes)
    requires d.DeviceInformation? && Valid(d)
    ensures var raw := DeviceInformationToKnx(d) + tail; raw[0] == 54 && raw[1] == DEVICE_INFO && raw[2] == d.medium
  {
    var own := DeviceInformationToKnx(d);
    assert own[0] == own[..4][0] && own[1] == own[..4][1] && own[2] == own[..4][2];
  }

  lemma DeviceInformationFromKnx(raw: Bytes)
    requires |raw| >= 54 && raw[0] == 54 && raw[1] == DEVICE_INFO && IsMedium(raw[2])
    ensures DibFromKnx(raw) == Ok((DeviceInformationAt(raw), 54))
  {
  }

  lemma GenericRoundTrip(d: Dib, tail: Bytes)
    requires d.Generic? && Valid(d)
    ensures DibFromKnx(DibToKnx(d) + tail) == Ok((Generic(d.dtc, d.data + Zeros(|d.data| % 2)), CalculatedLength(d)))
  {
    var raw := DibToKnx(d) + tail;
    assert raw[2..CalculatedLength(d)] == d.data + Zeros(|d.data| % 2);
  }

  lemma ServiceFamiliesRoundTrip(d: Dib, tail: Bytes)
    requires d.ServiceFamilies? && Valid(d)
    ensures DibFromKnx(DibToKnx(d) + tail) == Ok((d, CalculatedLength(d)))
  {
    var raw := DibToKnx(d) + tail;
    FamiliesRoundTrip(d.families);
    assert raw[2..CalculatedLength(d)] == SerializeFamilies(d.families);
  }

  lemma TunnelingInfoRoundTrip(d: Dib, tail: Bytes)
    requires d.TunnelingInfo? && Valid(d)
    ensures DibFromKnx(DibToKnx(d) + tail) == Ok((d, CalculatedLength(d)))
  {
    var raw := DibToKnx(d) + tail;
    SlotsRoundTrip(d.slots);
    assert raw[4..CalculatedLength(d)] == SerializeSlots(d.slots);
    assert [raw[2], raw[3]] == U16(d.maxApdu);
  }

  /**
   A block parses back to itself, whatever follows it, except that generic data of odd
   length comes back with the padding octet appended.
   */
  lemma DibRoundTrip(d: Dib, tail: Bytes)
    requires Valid(d)
    ensures DibFromKnx(DibToKnx(d) + tail)
         == Ok((if d.Generic? then Generic(d.dtc, d.data + Zeros(|d.data| % 2)) else d, CalculatedLength(d)))
  {
    match d
    case Generic(_, _) => GenericRoundTrip(d, tail);
    case DeviceInformation(_, _, _, _, _, _, _, _, _) =>
      DeviceInformationFields(d, tail);
      DeviceInformationHeader(d, tail);
      DeviceInformationFromKnx(DeviceInformationToKnx(d) + tail);
    case ServiceFamilies(_, _) => ServiceFamiliesRoundTrip(d, tail);
    case TunnelingInfo(_, _) => TunnelingInfoRoundTrip(d, tail);
  }

  /** The exact condition: a valid block is restored iff it is not generic data of odd length. */
  lemma DibRoundTripIff(d: Dib, tail: Bytes)
    requires Valid(d)
    ensures DibFromKnx(DibToKnx(d) + tail) == Ok((d, CalculatedLength(d)))
       <==> (d.Generic? ==> |d.data| % 2 == 0)
  {
    DibRoundTrip(d, tail);
    if d.Generic? {
      assert Zeros(0) == [] && d.data + [] == d.data;
      assert |d.data + Zeros(|d.data| % 2)| == |d.data| + |d.data| % 2;
    }
  }

  // ------------------------------------------------------------ lists of DIBs

  /** The list of blocks of a search response (after the HPAI) or a description response. */
  function ParseDibs(raw: Bytes): Result<seq<Dib>> {
    ParseList(DibFromKnx, raw)
  }

  /** b"".join(dib.to_knx() for dib in dibs) */
  function SerializeDibs(dibs: seq<Dib>): Bytes
    requires forall d :: d in dibs ==> Serializable(d)
  {
    if dibs == [] then [] else DibToKnx(dibs[0]) + SerializeDibs(dibs[1..])
  }

  /** sum(dib.calculated_length() for dib in dibs) */
  function TotalLength(dibs: seq<Dib>): nat {
    if dibs == [] then 0 else CalculatedLength(dibs[0]) + TotalLength(dibs[1..])
  }

  predicate Restorable(d: Dib) {
    Valid(d) && (d.Generic? ==> |d.data| % 2 == 0)
  }

  lemma {:induction false} SerializeIsConcat(dibs: seq<Dib>)
    requires forall d :: d in dibs ==> Serializable(d)
    ensures var parts := seq(|dibs|, i requires 0 <= i < |dibs| => DibToKnx(dibs[i]));
            SerializeDibs(dibs) == Concat(parts)
    ensures |SerializeDibs(dibs)| == TotalLength(dibs)
  {
    if dibs != [] {
      SerializeIsConcat(dibs[1..]);
      var parts := seq(|dibs|, i requires 0 <= i < |dibs| => DibToKnx(dibs[i]));
      assert parts[1..] == seq(|dibs| - 1, i requires 0 <= i < |dibs| - 1 => DibToKnx(dibs[1..][i]));
    }
  }

  function Parts(dibs: seq<Dib>): (parts: seq<Bytes>)
    requires forall d :: d in dibs ==> Restorable(d)
    ensures |parts| == |dibs|
  {
    seq(|dibs|, i requires 0 <= i < |dibs| => (assert Restorable(dibs[i]); DibToKnx(dibs[i])))
  }

  lemma PartsParseBack(dibs: seq<Dib>)
    requires forall d :: d in dibs ==> Restorable(d)
    ensures (forall d :: d in dibs ==> Serializable(d)) && SerializeDibs(dibs) == Concat(Parts(dibs))
    ensures |SerializeDibs(dibs)| == TotalLength(dibs)
    ensures forall i :: 0 <= i < |dibs| ==> ParsesBack(DibFromKnx, dibs[i], Parts(dibs)[i])
  {
    assert forall d :: d in dibs ==> Restorable(d) ==> Serializable(d);
    assert Parts(dibs) == seq(|dibs|, i requires 0 <= i < |dibs| => DibToKnx(dibs[i]));
    SerializeIsConcat(dibs);
    forall i | 0 <= i < |dibs|
      ensures ParsesBack(DibFromKnx, dibs[i], Parts(dibs)[i])
    {
      assert Restorable(dibs[i]);
      forall tail: Bytes
        ensures DibFromKnx(Parts(dibs)[i] + tail) == Ok((dibs[i], |Parts(dibs)[i]|))
      {
        DibRoundTripIff(dibs[i], tail);
      }
    }
  }

  /** A list of blocks parses back to itself, and the computed length is the byte length. */
  lemma DibListRoundTrip(dibs: seq<Dib>)
    requires forall d :: d in dibs ==> Restorable(d)
    ensures (forall d :: d in dibs ==> Serializable(d)) && |SerializeDibs(dibs)| == TotalLength(dibs)
    ensures ParseDibs(SerializeDibs(dibs)) == Ok(dibs)
  {
    PartsParseBack(dibs);
    ListRoundTrip(DibFromKnx, dibs, Parts(dibs));
  }

  /** No single block parser loops: only the list loop can. */
  lemma BlocksNeverDiverge(raw: Bytes)
    ensures DibFromKnx(raw) != Err(Diverges)
  {
    if |raw| >= 2 && (raw[1] == SUPP_SVC_FAMILIES || raw[1] == SECURED_SERVICE_FAMILIES) && raw[0] <= |raw| && raw[0] % 2 == 0 {
      FamiliesRaiseValueError(if raw[0] < 2 then [] else raw[2..raw[0]]);
    }
  }

  lemma {:induction false} FamiliesRaiseValueError(body: Bytes)
    requires |body| % 2 == 0
    ensures ParseFamilies(body).Ok? || ParseFamilies(body) == Err(ValueError)
  {
    if body != [] {
      FamiliesRaiseValueError(body[2..]);
    }
  }

  /**
   A block is generic exactly for the known type codes without a class of their own: an
   unknown code raises ValueError instead.
   */
  lemma GenericIff(raw: Bytes)
    requires |raw| >= 2
    ensures !IsDibTypeCode(raw[1]) ==> DibFromKnx(raw) == Err(ValueError)
    ensures DibFromKnx(raw).Ok? && DibFromKnx(raw).value.0.Generic? <==>
              && IsDibTypeCode(raw[1]) && raw[1] !in {DEVICE_INFO, SUPP_SVC_FAMILIES, SECURED_SERVICE_FAMILIES, TUNNELING_INFO}
              && raw[0] <= |raw|
  {
  }

  /** Every second octet from the first on is a service family. */
  predicate FamiliesAt(raw: Bytes, from: nat, to: nat) {
    forall k :: from <= k < to && 2 * k < |raw| ==> 2 <= raw[2 * k] <= 9
  }

  lemma {:induction false} FamiliesAcceptedIff(body: Bytes)
    requires |body| % 2 == 0
    ensures ParseFamilies(body).Ok? <==> FamiliesAt(body, 0, |body| / 2)
  {
    if body != [] {
      var rest := body[2..];
      FamiliesAcceptedIff(rest);
      FamiliesBehind(body, rest);
    }
  }

  lemma FamiliesBehind(raw: Bytes, rest: Bytes)
    requires |raw| >= 2 && |raw| % 2 == 0 && rest == raw[2..]
    ensures FamiliesAt(raw, 0, |raw| / 2) <==> 2 <= raw[0] <= 9 && FamiliesAt(rest, 0, |rest| / 2)
  {
    if FamiliesAt(raw, 0, |raw| / 2) {
      assert raw[2 * 0] == raw[0];
      forall k | 0 <= k < |rest| / 2
        ensures 2 <= rest[2 * k] <= 9
      {
        assert rest[2 * k] == raw[2 * (k + 1)];
      }
    }
    if 2 <= raw[0] <= 9 && FamiliesAt(rest, 0, |rest| / 2) {
      forall k | 0 <= k < |raw| / 2
        ensures 2 <= raw[2 * k] <= 9
      {
        assert k > 0 ==> raw[2 * k] == rest[2 * (k - 1)];
      }
    }
  }

  lemma {:induction false} ParsedFamilies(body: Bytes)
    requires |body| % 2 == 0 && ParseFamilies(body).Ok?
    ensures var families := ParseFamilies(body).value;
            SerializeFamilies(families) == body && forall f :: f in families ==> 2 <= f.name <= 9
  {
    if body != [] {
      var rest := body[2..];
      ParsedFamilies(rest);
      var f := Family(body[0], body[1]);
      assert ([f] + ParseFamilies(rest).value)[1..] == ParseFamilies(rest).value;
      assert body == [body[0], body[1]] + rest;
    }
  }

  /** Which octets are parsed as a block, in figures. */
  lemma AcceptedIff(raw: Bytes)
    ensures DibFromKnx(raw).Ok? <==>
            && |raw| >= 2 && raw[0] as int <= |raw|
            && raw[1] in {1, 2, 3, 4, 5, 6, 7, 8, 0xFE}
            && (raw[1] == 1 ==> raw[0] == 54 && raw[2] in {2, 4, 0x10, 0x20})
            && (raw[1] == 2 || raw[1] == 6 ==> raw[0] % 2 == 0 && FamiliesAt(raw, 1, raw[0] as int / 2))
            && (raw[1] == 7 ==> |raw| >= 4 && raw[0] % 4 == 0)
  {
    if |raw| >= 2 && raw[0] as int <= |raw| && raw[0] % 2 == 0 && raw[0] >= 2 {
      FamiliesAcceptedIff(raw[2..raw[0]]);
      FamiliesOfBlock(raw);
    }
  }

  lemma FamiliesOfBlock(raw: Bytes)
    requires |raw| >= 2 && 2 <= raw[0] as int <= |raw| && raw[0] % 2 == 0
    ensures var body := raw[2..raw[0]]; FamiliesAt(raw, 1, raw[0] as int / 2) <==> FamiliesAt(body, 0, |body| / 2)
  {
    var body := raw[2..raw[0]];
    assert forall k :: 0 <= k < |body| / 2 ==> body[2 * k] == raw[2 * (k + 1)];
    assert forall k :: 1 <= k < raw[0] as int / 2 ==> raw[2 * k] == body[2 * (k - 1)];
  }

  // ------------------------------------------------- the dictionary of slots

  /** The addresses in the order in which they first occur. */
  function Keys(slots: seq<Slot>): (keys: seq<nat>)
    ensures forall k :: k in keys <==> exists i :: 0 <= i < |slots| && slots[i].address == k
  {
    if slots == [] then []
    else
      var last := slots[|slots| - 1].address;
      var keys := Keys(slots[..|slots| - 1]);
      if last in keys then keys else keys + [last]
  }

  /** The last slot with the address. */
  function Latest(slots: seq<Slot>, address: nat): (s: Option<Slot>)
    ensures s.Some? <==> exists i :: 0 <= i < |slots| && slots[i].address == address
    ensures s.Some? ==> s.value.address == address
  {
    if slots == [] then None
    else if slots[|slots| - 1].address == address then Some(slots[|slots| - 1])
    else Latest(slots[..|slots| - 1], address)
  }

  /** The slots are those of a dictionary to which `all` were assigned one after the other. */
  predicate IsDictionaryOf(slots: seq<Slot>, all: seq<Slot>) {
    && |slots| == |Keys(all)|
    && forall i :: 0 <= i < |slots| ==> slots[i].address == Keys(all)[i] && Latest(all, Keys(all)[i]) == Some(slots[i])
  }

  predicate Distinct(keys: seq<nat>) {
    forall i, j :: 0 <= i < j < |keys| ==> keys[i] != keys[j]
  }

  lemma {:induction false} KeysAreDistinct(slots: seq<Slot>)
    ensures Distinct(Keys(slots))
  {
    if slots != [] {
      var before := Keys(slots[..|slots| - 1]);
      var last := slots[|slots| - 1].address;
      KeysAreDistinct(slots[..|slots| - 1]);
      assert Keys(slots) == if last in before then before else before + [last];
    }
  }

  lemma DictionaryHasDistinctAddresses(slots: seq<Slot>, all: seq<Slot>)
    requires IsDictionaryOf(slots, all)
    ensures DistinctAddresses(slots)
  {
    var keys := Keys(all);
    KeysAreDistinct(all);
    forall i, j | 0 <= i < j < |slots|
      ensures slots[i].address != slots[j].address
    {
      assert keys[i] != keys[j];
    }
  }

  /** An assignment replaces the slot of its address, or comes last. */
  lemma {:induction false} InsertReplaces(slots: seq<Slot>, s: Slot)
    requires DistinctAddresses(slots)
    ensures var r := Insert(slots, s);
            && |r| == |slots| + (if exists i :: 0 <= i < |slots| && slots[i].address == s.address then 0 else 1)
            && forall i :: 0 <= i < |slots| ==> r[i] == if slots[i].address == s.address then s else slots[i]
  {
    if slots == [] {
      assert Insert(slots, s) == [s];
    } else if slots[0].address == s.address {
      assert Insert(slots, s) == [s] + slots[1..];
    } else {
      var rest := slots[1..];
      InsertReplaces(rest, s);
      assert forall i :: 0 < i < |slots| ==> slots[i] == rest[i - 1];
      assert forall i :: 0 <= i < |rest| ==> rest[i] == slots[i + 1];
    }
  }

  lemma {:induction false} InsertAllLast(slots: seq<Slot>, more: seq<Slot>)
    requires more != []
    ensures InsertAll(slots, more) == Insert(InsertAll(slots, more[..|more| - 1]), more[|more| - 1])
    decreases |more|
  {
    if |more| > 1 {
      var next := Insert(slots, more[0]);
      InsertAllLast(next, more[1..]);
      assert more[1..][..|more| - 2] == more[..|more| - 1][1..];
    }
  }

  lemma {:induction false} AssignmentsMakeADictionary(all: seq<Slot>)
    ensures IsDictionaryOf(InsertAll([], all), all)
  {
    if all != [] {
      var before := all[..|all| - 1];
      AssignmentsMakeADictionary(before);
      DictionaryHasDistinctAddresses(InsertAll([], before), before);
      InsertAllLast([], all);
      InsertReplaces(InsertAll([], before), all[|all| - 1]);
    }
  }

  lemma LowBits(flags: byte)
    ensures 4 * Bit(flags / 4 % 2 == 1) + 2 * Bit(flags / 2 % 2 == 1) + Bit(flags % 2 == 1) == flags as int % 8
  {
  }

  lemma SlotReserialises(hi: byte, lo: byte, flags: byte, rest: seq<Slot>)
    requires forall s :: s in rest ==> s.address < 0x1_0000
    ensures var all := [SlotAt(hi, lo, flags)] + rest;
            && (forall s :: s in all ==> s.address < 0x1_0000)
            && SerializeSlots(all) == [hi, lo, 0, flags % 8] + SerializeSlots(rest)
  {
    var s := SlotAt(hi, lo, flags);
    assert ([s] + rest)[1..] == rest;
    assert U16(s.address) == [hi, lo];
    LowBits(flags);
  }

  /** Reading slots keeps their addresses and the three lowest status bits, and nothing else. */
  lemma {:induction false} SlotsReserialise(body: Bytes)
    requires |body| % 4 == 0
    ensures |SlotsIn(body)| == |body| / 4 && forall s :: s in SlotsIn(body) ==> s.address < 0x1_0000
    ensures var out := SerializeSlots(SlotsIn(body));
            forall k :: 0 <= k < |body| / 4 ==> out[4 * k..4 * k + 4] == [body[4 * k], body[4 * k + 1], 0, body[4 * k + 3] % 8]
  {
    if body != [] {
      var rest := body[4..];
      SlotsReserialise(rest);
      var behind := SerializeSlots(SlotsIn(rest));
      SlotReserialises(body[0], body[1], body[3], SlotsIn(rest));
      var out := SerializeSlots(SlotsIn(body));
      assert out == [body[0], body[1], 0, body[3] % 8] + behind;
      forall k | 0 <= k < |body| / 4
        ensures out[4 * k..4 * k + 4] == [body[4 * k], body[4 * k + 1], 0, body[4 * k + 3] % 8]
      {
        if k > 0 {
          assert out[4 * k..4 * k + 4] == behind[4 * (k - 1)..4 * (k - 1) + 4];
        }
      }
    }
  }

  /**
   The slots of a parsed block are the dictionary of its records: the addresses in order of their
   first record, each with the status of its last one.
   */
  lemma ParsedSlots(raw: Bytes)
    requires DibFromKnx(raw).Ok? && DibFromKnx(raw).value.0.TunnelingInfo?
    ensures |raw| >= 4 && raw[0] % 4 == 0 && raw[0] as int <= |raw|
    ensures var records := SlotsIn(if raw[0] < 4 then [] else raw[4..raw[0]]);
            var d := DibFromKnx(raw).value.0;
            d.maxApdu == Word(raw[2], raw[3]) && IsDictionaryOf(d.slots, records) && DistinctAddresses(d.slots)
  {
    var records := SlotsIn(if raw[0] < 4 then [] else raw[4..raw[0]]);
    AssignmentsMakeADictionary(records);
    DictionaryHasDistinctAddresses(InsertAll([], records), records);
    assert DibFromKnx(raw).value.0.slots == InsertAll([], records);
  }

  lemma {:induction false} StripNulTwice(name: Bytes)
    ensures StripNul(StripNul(name)) == StripNul(name)
  {
    if name != [] && name[|name| - 1] == 0 {
      StripNulTwice(name[..|name| - 1]);
    }
  }

  lemma DeviceInformationIsValid(raw: Bytes)
    requires |raw| >= 54 && IsMedium(raw[2])
    ensures Valid(DeviceInformationAt(raw))
  {
    StripNulTwice(raw[24..54]);
    var project := Word(raw[6], raw[7]);
    assert project == 16 * (project / 16) + project % 16;
  }

  lemma {:induction false} KeysAreNoMore(slots: seq<Slot>)
    ensures |Keys(slots)| <= |slots|
  {
    if slots != [] {
      KeysAreNoMore(slots[..|slots| - 1]);
    }
  }

  lemma InsertAllFits(all: seq<Slot>)
    requires forall s :: s in all ==> s.address < 0x1_0000
    ensures |InsertAll([], all)| <= |all| && forall s :: s in InsertAll([], all) ==> s.address < 0x1_0000
  {
    AssignmentsMakeADictionary(all);
    var r := InsertAll([], all);
    KeysAreNoMore(all);
    forall s | s in r
      ensures s.address < 0x1_0000
    {
      var i :| 0 <= i < |r| && r[i] == s;
      assert Keys(all)[i] in Keys(all);
    }
  }

  lemma SlotsFit(body: Bytes)
    requires |body| % 4 == 0
    ensures 4 * |ParseSlots(body)| <= |body| && forall s :: s in ParseSlots(body) ==> s.address < 0x1_0000
  {
    SlotsReserialise(body);
    InsertAllFits(SlotsIn(body));
  }

  lemma ParsedFamiliesAreValid(raw: Bytes)
    requires DibFromKnx(raw).Ok? && DibFromKnx(raw).value.0.ServiceFamilies?
    ensures Restorable(DibFromKnx(raw).value.0)
  {
    ParsedFamilies(if raw[0] < 2 then [] else raw[2..raw[0]]);
  }

  lemma ParsedSlotsAreValid(raw: Bytes)
    requires DibFromKnx(raw).Ok? && DibFromKnx(raw).value.0.TunnelingInfo?
    ensures Restorable(DibFromKnx(raw).value.0)
  {
    ParsedSlots(raw);
    SlotsFit(if raw[0] < 4 then [] else raw[4..raw[0]]);
  }

  /**
   Whatever is parsed is a block that its own octets restore, except generic data of odd length,
   which comes back padded, and the longest of which no length octet announces.
   */
  lemma ParsedIsRestorableIff(raw: Bytes)
    requires DibFromKnx(raw).Ok?
    ensures var d := DibFromKnx(raw).value.0;
            && (Restorable(d) <==> !(d.Generic? && raw[0] % 2 == 1 && raw[0] > 2))
            && (Serializable(d) <==> !(d.Generic? && raw[0] == 255))
  {
    var d := DibFromKnx(raw).value.0;
    if d.DeviceInformation? {
      DeviceInformationIsValid(raw);
    } else if d.ServiceFamilies? {
      ParsedFamiliesAreValid(raw);
    } else if d.TunnelingInfo? {
      ParsedSlotsAreValid(raw);
    }
  }

  /** One block of an unknown type behind any valid ones makes the whole list raise ValueError. */
  lemma UnknownTypeRefusesTheList(dibs: seq<Dib>, bad: Bytes)
    requires forall d :: d in dibs ==> Restorable(d)
    requires |bad| >= 2 && !IsDibTypeCode(bad[1])
    ensures (forall d :: d in dibs ==> Serializable(d)) && ParseDibs(SerializeDibs(dibs) + bad) == Err(ValueError)
  {
    PartsParseBack(dibs);
    GenericIff(bad);
    ErrorBehind(DibFromKnx, dibs, Parts(dibs), bad, ValueError);
  }

  /** At every block boundary that the loop reaches the length octet is not zero. */
  predicate LengthOctetsNonZero(raw: Bytes)
    decreases |raw|
  {
    raw != [] && DibFromKnx(raw).Ok? ==> raw[0] != 0 && LengthOctetsNonZero(raw[raw[0]..])
  }

  /** The list loop ends, by returning or raising, exactly when every length octet it reads is non-zero. */
  lemma DibLoopTerminatesIff(raw: Bytes)
    ensures LengthOctetsNonZero(raw) <==> LoopEnds(DibFromKnx, raw)
    ensures ParseDibs(raw) == Err(Diverges) <==> !LoopEnds(DibFromKnx, raw)
  {
    forall b
      ensures DibFromKnx(b) != Err(Diverges)
    {
      BlocksNeverDiverge(b);
    }
    AdvancesIffNonZero(raw);
    TerminatesIffAlwaysAdvances(DibFromKnx, raw);
  }

  /** A block that parses with a zero length octet behind any valid blocks keeps the loop busy for ever. */
  lemma ZeroLengthNeverEnds(dibs: seq<Dib>, bad: Bytes)
    requires forall d :: d in dibs ==> Restorable(d)
    requires |bad| >= 2 && bad[0] == 0 && DibFromKnx(bad).Ok?
    ensures (forall d :: d in dibs ==> Serializable(d)) && ParseDibs(SerializeDibs(dibs) + bad) == Err(Diverges)
    ensures !LoopEnds(DibFromKnx, SerializeDibs(dibs) + bad)
  {
    PartsParseBack(dibs);
    DibLoopTerminatesIff(bad);
    ErrorBehind(DibFromKnx, dibs, Parts(dibs), bad, Diverges);
    DibLoopTerminatesIff(SerializeDibs(dibs) + bad);
  }

  /** Manufacturer data that announces no octets at all is such a block. */
  lemma ZeroLengthManufacturerData()
    ensures !LoopEnds(DibFromKnx, [0, 0xFE])
  {
    assert SerializeDibs([]) + [0, 0xFE] == [0, 0xFE];
    ZeroLengthNeverEnds([], [0, 0xFE]);
  }

  lemma {:induction false} AdvancesIffNonZero(raw: Bytes)
    ensures LengthOctetsNonZero(raw) <==> AlwaysAdvances(DibFromKnx, raw)
    decreases |raw|
  {
    if raw != [] && DibFromKnx(raw).Ok? && raw[0] != 0 {
      assert From(raw, raw[0]) == raw[raw[0]..];
      AdvancesIffNonZero(raw[raw[0]..]);
    }
  }

  /** The loop of _DIBServiceFamilies.from_knx. */
  method FamiliesFromKnx(raw: Bytes, length: nat) returns (r: Result<seq<Family>>)
    requires length <= |raw| && length % 2 == 0
    ensures r == ParseFamilies(if length < 2 then [] else raw[2..length])
  {
    var families: seq<Family> := [];
    var pos := 2;
    if length < 2 {
      return Ok([]);
    }
    PrependNothing(ParseFamilies(raw[2..length]));
    while pos < length
      invariant 2 <= pos <= length && pos % 2 == 0
      invariant ParseFamilies(raw[2..length]) == Prepend(families, ParseFamilies(raw[pos..length]))
    {
      if !IsServiceFamily(raw[pos]) {
        return Err(ValueError);
      }
      assert raw[pos..length][2..] == raw[pos + 2..length];
      PrependPrepend(families, [Family(raw[pos], raw[pos + 1])], ParseFamilies(raw[pos + 2..length]));
      families := families + [Family(raw[pos], raw[pos + 1])];
      pos := pos + 2;
    }
    assert families + [] == families;
    r := Ok(families);
  }

  function SlotsBetween(raw: Bytes, from: nat, to: nat): seq<Slot>
    requires from <= to <= |raw| && (to - from) % 4 == 0
  {
    SlotsIn(raw[from..to])
  }

  lemma NextSlot(slots: seq<Slot>, raw: Bytes, pos: nat, length: nat)
    requires pos < length <= |raw| && (length - pos) % 4 == 0
    ensures pos + 4 <= length && (length - (pos + 4)) % 4 == 0
    ensures InsertAll(slots, SlotsBetween(raw, pos, length)) ==
            InsertAll(Insert(slots, SlotAt(raw[pos], raw[pos + 1], raw[pos + 3])), SlotsBetween(raw, pos + 4, length))
  {
    var rest := raw[pos..length];
    assert rest[4..] == raw[pos + 4..length];
    var here := SlotAt(raw[pos], raw[pos + 1], raw[pos + 3]);
    var behind := SlotsBetween(raw, pos + 4, length);
    assert SlotsIn(rest) == [here] + behind;
    assert ([here] + behind)[1..] == behind;
  }

  /** The loop of DIBTunnelingInfo.from_knx. */
  method SlotsFromKnx(raw: Bytes, length: nat) returns (slots: seq<Slot>)
    requires length <= |raw| && length % 4 == 0
    ensures slots == ParseSlots(if length < 4 then [] else raw[4..length])
  {
    slots := [];
    if length < 4 {
      return;
    }
    var pos := 4;
    ghost var wanted := ParseSlots(raw[4..length]);
    while pos < length
      invariant 4 <= pos <= length && (length - pos) % 4 == 0
      invariant wanted == InsertAll(slots, SlotsBetween(raw, pos, length))
    {
      NextSlot(slots, raw, pos, length);
      slots := Insert(slots, SlotAt(raw[pos], raw[pos + 1], raw[pos + 3]));
      pos := pos + 4;
    }
    assert SlotsBetween(raw, length, length) == [];
  }
}
