/** Bodies of the core services of KNXnet/IP: discovery, description and connection management. */
module CoreBodies {
  import opened Bytes
  import opened ParseLoops
  import Dibs = DescriptionInformationBlocks
  import Srps = SearchRequestParameters

  // KNXIPServiceType
  const SEARCH_REQUEST: nat := 0x0201
  const SEARCH_RESPONSE: nat := 0x0202
  const DESCRIPTION_REQUEST: nat := 0x0203
  const DESCRIPTION_RESPONSE: nat := 0x0204
  const CONNECT_REQUEST: nat := 0x0205
  const CONNECT_RESPONSE: nat := 0x0206
  const CONNECTIONSTATE_REQUEST: nat := 0x0207
  const CONNECTIONSTATE_RESPONSE: nat := 0x0208
  const DISCONNECT_REQUEST: nat := 0x0209
  const DISCONNECT_RESPONSE: nat := 0x020A
  const SEARCH_REQUEST_EXTENDED: nat := 0x020B
  const SEARCH_RESPONSE_EXTENDED: nat := 0x020C

  predicate IsErrorCode(c: nat) {
    c in {0x00, 0x01, 0x02, 0x04, 0x0F, 0x21, 0x22, 0x23, 0x24, 0x25, 0x26, 0x27, 0x28, 0x29, 0x2D, 0x2E}
  }

  const E_NO_ERROR: byte := 0

  // ---------------------------------------------------------------------- HPAI

  /** Host protocol address information; the address string is held as its four octets. */
  datatype Hpai = Hpai(protocol: byte, ip: Bytes, port: nat)

  predicate ValidHpai(h: Hpai) {
    1 <= h.protocol <= 2 && |h.ip| == 4 && h.port < 0x1_0000
  }

  function HpaiToKnx(h: Hpai): (r: Bytes)
    requires ValidHpai(h)
    ensures |r| == 8
  {
    [8, h.protocol] + h.ip + U16(h.port)
  }

  function HpaiFromKnx(raw: Bytes): (r: Result<Hpai>)
    ensures r.Ok? ==> |raw| >= 8
  {
    if |raw| < 8 || raw[0] != 8 then Err(CouldNotParseKNXIP)
    else if raw[1] < 1 || raw[1] > 2 then Err(CouldNotParseKNXIP)
    else Ok(Hpai(raw[1], raw[2..6], Word(raw[6], raw[7])))
  }

  lemma HpaiRoundTrip(h: Hpai, tail: Bytes)
    requires ValidHpai(h)
    ensures HpaiFromKnx(HpaiToKnx(h) + tail) == Ok(h) && (HpaiToKnx(h) + tail)[8..] == tail
  {
    var raw := HpaiToKnx(h) + tail;
    assert raw[2..6] == h.ip;
    assert [raw[6], raw[7]] == U16(h.port);
  }

  // ------------------------------------------------------------------ CRI and CRD

  const TUNNEL_CONNECTION: byte := 4
  const DATA_LINK_LAYER: byte := 2

  predicate IsConnectionType(c: nat) {
    c in {3, 4, 6, 7, 8}
  }

  predicate IsLayer(l: nat) {
    l in {0x02, 0x04, 0x80}
  }

  /** Connect request information; an individual address makes it an extended one. */
  datatype Cri = Cri(connectionType: byte, layer: byte, address: Option<nat>)

  /** Connect response data. */
  datatype Crd = Crd(connectionType: byte, address: Option<nat>)

  /** Layer and address belong to tunnels alone. */
  predicate ValidCri(c: Cri) {
    && IsConnectionType(c.connectionType)
    && if c.connectionType == TUNNEL_CONNECTION then IsLayer(c.layer) && (c.address.Some? ==> c.address.value < 0x1_0000)
       else c.layer == DATA_LINK_LAYER && c.address.None?
  }

  predicate ValidCrd(c: Crd) {
    && IsConnectionType(c.connectionType)
    && if c.connectionType == TUNNEL_CONNECTION then c.address.Some? && c.address.value < 0x1_0000 else c.address.None?
  }

  function CriLength(c: Cri): nat {
    if c.connectionType != TUNNEL_CONNECTION then 2 else if c.address.Some? then 6 else 4
  }

  function CrdLength(c: Crd): nat {
    if c.connectionType != TUNNEL_CONNECTION then 2 else 4
  }

  function CriToKnx(c: Cri): (r: Bytes)
    requires ValidCri(c)
    ensures |r| == CriLength(c)
  {
    [CriLength(c), c.connectionType]
    + (if c.connectionType == TUNNEL_CONNECTION then [c.layer, 0] else [])
    + (if c.address.Some? then U16(c.address.value) else [])
  }

  function CrdToKnx(c: Crd): (r: Bytes)
    requires ValidCrd(c)
    ensures |r| == CrdLength(c)
  {
    [CrdLength(c), c.connectionType] + (if c.address.Some? then U16(c.address.value) else [])
  }

  function CriFromKnx(raw: Bytes): Result<Cri> {
    if raw == [] then Err(IndexError)
    else if |raw| < raw[0] || raw[0] < 2 then Err(CouldNotParseKNXIP)
    else if !IsConnectionType(raw[1]) then Err(ValueError)
    else if raw[1] != TUNNEL_CONNECTION then
      if raw[0] != 2 then Err(CouldNotParseKNXIP) else Ok(Cri(raw[1], DATA_LINK_LAYER, None))
    else if raw[0] != 4 && raw[0] != 6 then Err(CouldNotParseKNXIP)
    else if !IsLayer(raw[2]) then Err(ValueError)
    else Ok(Cri(raw[1], raw[2], if raw[0] == 6 then Some(Word(raw[4], raw[5])) else None))
  }

  function CrdFromKnx(raw: Bytes): Result<Crd> {
    if raw == [] then Err(IndexError)
    else if |raw| < raw[0] || raw[0] < 2 then Err(CouldNotParseKNXIP)
    else if !IsConnectionType(raw[1]) then Err(ValueError)
    else if raw[1] != TUNNEL_CONNECTION then
      if raw[0] != 2 then Err(CouldNotParseKNXIP) else Ok(Crd(raw[1], None))
    else if raw[0] != 4 then Err(CouldNotParseKNXIP)
    else Ok(Crd(raw[1], Some(Word(raw[2], raw[3]))))
  }

  lemma CriRoundTrip(c: Cri)
    requires ValidCri(c)
    ensures CriFromKnx(CriToKnx(c)) == Ok(c)
  {
    var raw := CriToKnx(c);
    if c.address.Some? {
      assert [raw[4], raw[5]] == U16(c.address.value);
    }
  }

  lemma CrdRoundTrip(c: Crd)
    requires ValidCrd(c)
    ensures CrdFromKnx(CrdToKnx(c)) == Ok(c)
  {
    var raw := CrdToKnx(c);
    if c.address.Some? {
      assert [raw[2], raw[3]] == U16(c.address.value);
    }
  }

  // -------------------------------------------------------------------- bodies

  datatype CoreBody =
    | SearchRequest(endpoint: Hpai)
    | SearchResponse(extended: bool, control: Hpai, dibs: seq<Dibs.Dib>)
    | SearchRequestExtended(discovery: Hpai, srps: seq<Srps.Srp>)
    | DescriptionRequest(endpoint: Hpai)
    | DescriptionResponse(descriptions: seq<Dibs.Dib>)
    | ConnectRequest(control: Hpai, data: Hpai, cri: Cri)
    | ConnectResponse(channel: byte, status: byte, data: Hpai, crd: Crd)
    | ConnectionStateRequest(channel: byte, control: Hpai)
    | ConnectionStateResponse(channel: byte, status: byte)
    | DisconnectRequest(channel: byte, control: Hpai)
    | DisconnectResponse(channel: byte, status: byte)

  function ServiceTypeOf(b: CoreBody): (s: nat)
    ensures SEARCH_REQUEST <= s <= SEARCH_RESPONSE_EXTENDED
  {
    match b
    case SearchRequest(_) => SEARCH_REQUEST
    case SearchResponse(extended, _, _) => if extended then SEARCH_RESPONSE_EXTENDED else SEARCH_RESPONSE
    case SearchRequestExtended(_, _) => SEARCH_REQUEST_EXTENDED
    case DescriptionRequest(_) => DESCRIPTION_REQUEST
    case DescriptionResponse(_) => DESCRIPTION_RESPONSE
    case ConnectRequest(_, _, _) => CONNECT_REQUEST
    case ConnectResponse(_, _, _, _) => CONNECT_RESPONSE
    case ConnectionStateRequest(_, _) => CONNECTIONSTATE_REQUEST
    case ConnectionStateResponse(_, _) => CONNECTIONSTATE_RESPONSE
    case DisconnectRequest(_, _) => DISCONNECT_REQUEST
    case DisconnectResponse(_, _) => DISCONNECT_RESPONSE
  }

  function LengthOf(b: CoreBody): nat {
    match b
    case SearchRequest(_) => 8
    case SearchResponse(_, _, dibs) => 8 + Dibs.TotalLength(dibs)
    case SearchRequestExtended(_, srps) => 8 + Srps.PayloadSize(srps)
    case DescriptionRequest(_) => 8
    case DescriptionResponse(dibs) => Dibs.TotalLength(dibs)
    case ConnectRequest(_, _, cri) => 16 + CriLength(cri)
    case ConnectResponse(_, _, _, crd) => 10 + CrdLength(crd)
    case ConnectionStateRequest(_, _) => 10
    case ConnectionStateResponse(_, _) => 2
    case DisconnectRequest(_, _) => 10
    case DisconnectResponse(_, _) => 2
  }

  /** Bodies that `to_knx` can write. */
  predicate Writable(b: CoreBody) {
    match b
    case SearchRequest(h) => ValidHpai(h)
    case SearchResponse(_, h, dibs) => ValidHpai(h) && forall d :: d in dibs ==> Dibs.Restorable(d)
    case SearchRequestExtended(h, srps) => ValidHpai(h) && forall s :: s in srps ==> Srps.Valid(s)
    case DescriptionRequest(h) => ValidHpai(h)
    case DescriptionResponse(dibs) => forall d :: d in dibs ==> Dibs.Restorable(d)
    case ConnectRequest(control, data, cri) => ValidHpai(control) && ValidHpai(data) && ValidCri(cri)
    case ConnectResponse(_, status, data, crd) => IsErrorCode(status) && ValidHpai(data) && ValidCrd(crd)
    case ConnectionStateRequest(_, h) => ValidHpai(h)
    case ConnectionStateResponse(_, status) => IsErrorCode(status)
    case DisconnectRequest(_, h) => ValidHpai(h)
    case DisconnectResponse(_, status) => IsErrorCode(status)
  }

  /** Those of them that come back: a connect response with an error keeps nothing else. */
  predicate Valid(b: CoreBody) {
    Writable(b) && (b.ConnectResponse? ==> b.status == E_NO_ERROR)
  }

  lemma RestorableIsSerializable(dibs: seq<Dibs.Dib>)
    requires forall d :: d in dibs ==> Dibs.Restorable(d)
    ensures forall d :: d in dibs ==> Dibs.Serializable(d)
  {
    forall d | d in dibs
      ensures Dibs.Serializable(d)
    {
      assert Dibs.Restorable(d);
    }
  }

  function ToKnx(b: CoreBody): (r: Bytes)
    requires Writable(b)
    ensures |r| == LengthOf(b)
  {
    match b
    case SearchRequest(h) => HpaiToKnx(h)
    case SearchResponse(_, h, dibs) =>
      RestorableIsSerializable(dibs);
      Dibs.DibListRoundTrip(dibs);
      HpaiToKnx(h) + Dibs.SerializeDibs(dibs)
    case SearchRequestExtended(h, srps) =>
      Srps.SrpListRoundTrip(srps);
      HpaiToKnx(h) + Srps.SerializeSrps(srps).value
    case DescriptionRequest(h) => HpaiToKnx(h)
    case DescriptionResponse(dibs) =>
      RestorableIsSerializable(dibs);
      Dibs.DibListRoundTrip(dibs);
      Dibs.SerializeDibs(dibs)
    case ConnectRequest(control, data, cri) => HpaiToKnx(control) + (HpaiToKnx(data) + CriToKnx(cri))
    case ConnectResponse(channel, status, data, crd) => [channel, status] + (HpaiToKnx(data) + CrdToKnx(crd))
    case ConnectionStateRequest(channel, h) => [channel, 0] + HpaiToKnx(h)
    case ConnectionStateResponse(channel, status) => [channel, status]
    case DisconnectRequest(channel, h) => [channel, 0] + HpaiToKnx(h)
    case DisconnectResponse(channel, status) => [channel, status]
  }

  // ------------------------------------------------------------------- parsing

  function SearchResponseFromKnx(extended: bool, raw: Bytes): Result<CoreBody> {
    var h :- HpaiFromKnx(raw);
    var dibs :- Dibs.ParseDibs(raw[8..]);
    Ok(SearchResponse(extended, h, dibs))
  }

  function SearchRequestExtendedFromKnx(raw: Bytes): Result<CoreBody> {
    var h :- HpaiFromKnx(raw);
    var srps :- Srps.ParseSrps(raw[8..]);
    Ok(SearchRequestExtended(h, srps))
  }

  function DescriptionResponseFromKnx(raw: Bytes): Result<CoreBody> {
    var dibs :- Dibs.ParseDibs(raw);
    Ok(DescriptionResponse(dibs))
  }

  function ConnectRequestFromKnx(raw: Bytes): Result<CoreBody> {
    var control :- HpaiFromKnx(raw);
    var data :- HpaiFromKnx(raw[8..]);
    var cri :- CriFromKnx(raw[8..][8..]);
    Ok(ConnectRequest(control, data, cri))
  }

  /** With an error status neither endpoint nor data are read: they stay as the constructor made them. */
  function ConnectResponseFromKnx(raw: Bytes): Result<CoreBody> {
    if |raw| < 2 then Err(IndexError)
    else if !IsErrorCode(raw[1]) then Err(ValueError)
    else if raw[1] != E_NO_ERROR then Ok(ConnectResponse(raw[0], raw[1], Hpai(1, Zeros(4), 0), Crd(TUNNEL_CONNECTION, None)))
    else
      var data :- HpaiFromKnx(raw[2..]);
      var crd :- CrdFromKnx(raw[2..][8..]);
      Ok(ConnectResponse(raw[0], raw[1], data, crd))
  }

  /** Channel and control endpoint, of a connection state or a disconnect request. */
  function ChannelAndHpai(raw: Bytes): Result<(byte, Hpai)> {
    if |raw| < 2 then Err(CouldNotParseKNXIP)
    else
      var h :- HpaiFromKnx(raw[2..]);
      Ok((raw[0], h))
  }

  /** Channel and status, of the responses to them. */
  function ChannelAndStatus(raw: Bytes): Result<(byte, byte)> {
    if |raw| < 2 then Err(CouldNotParseKNXIP)
    else if !IsErrorCode(raw[1]) then Err(ValueError)
    else Ok((raw[0], raw[1]))
  }

  function FromKnx(service: nat, raw: Bytes): (r: Result<CoreBody>)
    requires SEARCH_REQUEST <= service <= SEARCH_RESPONSE_EXTENDED
    ensures r.Ok? ==> ServiceTypeOf(r.value) == service
  {
    if service == SEARCH_REQUEST then
      var h :- HpaiFromKnx(raw);
      Ok(SearchRequest(h))
    else if service == SEARCH_RESPONSE then SearchResponseFromKnx(false, raw)
    else if service == DESCRIPTION_REQUEST then
      var h :- HpaiFromKnx(raw);
      Ok(DescriptionRequest(h))
    else if service == DESCRIPTION_RESPONSE then DescriptionResponseFromKnx(raw)
    else if service == CONNECT_REQUEST then ConnectRequestFromKnx(raw)
    else if service == CONNECT_RESPONSE then ConnectResponseFromKnx(raw)
    else if service == CONNECTIONSTATE_REQUEST then
      var r :- ChannelAndHpai(raw);
      Ok(ConnectionStateRequest(r.0, r.1))
    else if service == CONNECTIONSTATE_RESPONSE then
      var r :- ChannelAndStatus(raw);
      Ok(ConnectionStateResponse(r.0, r.1))
    else if service == DISCONNECT_REQUEST then
      var r :- ChannelAndHpai(raw);
      Ok(DisconnectRequest(r.0, r.1))
    else if service == DISCONNECT_RESPONSE then
      var r :- ChannelAndStatus(raw);
      Ok(DisconnectResponse(r.0, r.1))
    else if service == SEARCH_REQUEST_EXTENDED then SearchRequestExtendedFromKnx(raw)
    else SearchResponseFromKnx(true, raw)
  }

  lemma HpaiAlone(h: Hpai)
    requires ValidHpai(h)
    ensures HpaiFromKnx(HpaiToKnx(h)) == Ok(h)
  {
    HpaiRoundTrip(h, []);
    assert HpaiToKnx(h) + [] == HpaiToKnx(h);
  }

  lemma ChannelAndHpaiRoundTrip(channel: byte, h: Hpai)
    requires ValidHpai(h)
    ensures ChannelAndHpai([channel, 0] + HpaiToKnx(h)) == Ok((channel, h))
  {
    HpaiAlone(h);
    assert ([channel, 0] + HpaiToKnx(h))[2..] == HpaiToKnx(h);
  }

  lemma ConnectRequestRoundTrip(control: Hpai, data: Hpai, cri: Cri)
    requires ValidHpai(control) && ValidHpai(data) && ValidCri(cri)
    ensures ConnectRequestFromKnx(HpaiToKnx(control) + (HpaiToKnx(data) + CriToKnx(cri))) == Ok(ConnectRequest(control, data, cri))
  {
    HpaiRoundTrip(control, HpaiToKnx(data) + CriToKnx(cri));
    HpaiRoundTrip(data, CriToKnx(cri));
    CriRoundTrip(cri);
  }

  /** A connect response comes back exactly when its status is no error. */
  lemma ConnectResponseRoundTripIff(channel: byte, status: byte, data: Hpai, crd: Crd)
    requires IsErrorCode(status) && ValidHpai(data) && ValidCrd(crd)
    ensures ConnectResponseFromKnx([channel, status] + (HpaiToKnx(data) + CrdToKnx(crd))) == Ok(ConnectResponse(channel, status, data, crd))
       <==> status == E_NO_ERROR
  {
    var raw := [channel, status] + (HpaiToKnx(data) + CrdToKnx(crd));
    assert raw[2..] == HpaiToKnx(data) + CrdToKnx(crd);
    HpaiRoundTrip(data, CrdToKnx(crd));
    CrdRoundTrip(crd);
  }

  /** With an error status nothing else is read, whatever follows. */
  lemma ErrorIsReadAlone(channel: byte, status: byte, rest: Bytes)
    requires IsErrorCode(status) && status != 0
    ensures FromKnx(CONNECT_RESPONSE, [channel, status] + rest) == Ok(ConnectResponse(channel, status, Hpai(1, [0, 0, 0, 0], 0), Crd(4, None)))
  {
    assert Zeros(4) == [0, 0, 0, 0];
  }

  lemma SearchResponseRoundTrip(extended: bool, h: Hpai, dibs: seq<Dibs.Dib>)
    requires ValidHpai(h) && forall d :: d in dibs ==> Dibs.Restorable(d)
    ensures forall d :: d in dibs ==> Dibs.Serializable(d)
    ensures SearchResponseFromKnx(extended, HpaiToKnx(h) + Dibs.SerializeDibs(dibs)) == Ok(SearchResponse(extended, h, dibs))
  {
    Dibs.DibListRoundTrip(dibs);
    HpaiRoundTrip(h, Dibs.SerializeDibs(dibs));
  }

  lemma SearchRequestExtendedRoundTrip(h: Hpai, srps: seq<Srps.Srp>)
    requires ValidHpai(h) && forall s :: s in srps ==> Srps.Valid(s)
    ensures Srps.SerializeSrps(srps).Ok?
    ensures SearchRequestExtendedFromKnx(HpaiToKnx(h) + Srps.SerializeSrps(srps).value) == Ok(SearchRequestExtended(h, srps))
  {
    Srps.SrpListRoundTrip(srps);
    HpaiRoundTrip(h, Srps.SerializeSrps(srps).value);
  }

  lemma RoundTrip(b: CoreBody)
    requires Valid(b)
    ensures FromKnx(ServiceTypeOf(b), ToKnx(b)) == Ok(b)
  {
    match b
    case SearchRequest(h) => HpaiAlone(h);
    case DescriptionRequest(h) => HpaiAlone(h);
    case ConnectRequest(control, data, cri) => ConnectRequestRoundTrip(control, data, cri);
    case ConnectResponse(channel, status, data, crd) => ConnectResponseRoundTripIff(channel, status, data, crd);
    case ConnectionStateRequest(channel, h) => ChannelAndHpaiRoundTrip(channel, h);
    case ConnectionStateResponse(_, _) =>
    case DisconnectRequest(channel, h) => ChannelAndHpaiRoundTrip(channel, h);
    case DisconnectResponse(_, _) =>
    case SearchResponse(extended, h, dibs) => SearchResponseRoundTrip(extended, h, dibs);
    case SearchRequestExtended(h, srps) => SearchRequestExtendedRoundTrip(h, srps);
    case DescriptionResponse(dibs) => Dibs.DibListRoundTrip(dibs);
  }

  // ---------------------------------------------------- only what fits is parsed

  /** An endpoint is read exactly where the octets of a valid one stand. */
  lemma HpaiAcceptedIff(raw: Bytes)
    ensures HpaiFromKnx(raw).Ok? <==> exists h: Hpai :: ValidHpai(h) && HpaiToKnx(h) <= raw
  {
    if HpaiFromKnx(raw).Ok? {
      var h := HpaiFromKnx(raw).value;
      assert HpaiToKnx(h) == raw[..8];
    }
    forall h: Hpai | ValidHpai(h) && HpaiToKnx(h) <= raw
      ensures HpaiFromKnx(raw).Ok?
    {
      HpaiRoundTrip(h, raw[8..]);
      assert raw == HpaiToKnx(h) + raw[8..];
    }
  }

  lemma ParsedHpai(raw: Bytes)
    ensures HpaiFromKnx(raw).Ok? ==> ValidHpai(HpaiFromKnx(raw).value)
  {
  }

  /**
   Connect request information and connect response data are read with a known type, the layer and
   address that go with it, and their own length.
   */
  lemma ParsedInformation(raw: Bytes)
    ensures CriFromKnx(raw).Ok? ==> ValidCri(CriFromKnx(raw).value) && raw[0] == CriLength(CriFromKnx(raw).value) <= |raw|
    ensures CrdFromKnx(raw).Ok? ==> ValidCrd(CrdFromKnx(raw).value) && raw[0] == CrdLength(CrdFromKnx(raw).value) <= |raw|
  {
  }

  /** Whatever is parsed has valid endpoints, a known status, and information that is valid where it was read. */
  lemma ParsedIsSound(service: nat, raw: Bytes)
    requires SEARCH_REQUEST <= service <= SEARCH_RESPONSE_EXTENDED && FromKnx(service, raw).Ok?
    ensures match FromKnx(service, raw).value
            case SearchRequest(h) => ValidHpai(h)
            case SearchResponse(_, h, _) => ValidHpai(h)
            case SearchRequestExtended(h, _) => ValidHpai(h)
            case DescriptionRequest(h) => ValidHpai(h)
            case DescriptionResponse(_) => true
            case ConnectRequest(control, data, cri) => ValidHpai(control) && ValidHpai(data) && ValidCri(cri)
            case ConnectResponse(_, status, data, crd) => IsErrorCode(status) && ValidHpai(data) && (status == 0 ==> ValidCrd(crd))
            case ConnectionStateRequest(_, h) => ValidHpai(h)
            case ConnectionStateResponse(_, status) => IsErrorCode(status)
            case DisconnectRequest(_, h) => ValidHpai(h)
            case DisconnectResponse(_, status) => IsErrorCode(status)
  {
    ParsedHpai(raw);
    if |raw| >= 2 {
      ParsedHpai(raw[2..]);
      if |raw| >= 8 {
        ParsedHpai(raw[8..]);
      }
      if |raw[2..]| >= 8 {
        ParsedInformation(raw[2..][8..]);
      }
    }
    if |raw| >= 16 {
      ParsedInformation(raw[8..][8..]);
    }
  }
}
