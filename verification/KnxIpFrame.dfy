/** KNXnet/IP frames: the header, the bodies of all 29 body classes, and their octet form. */
module KnxIpFrame {
  import opened Bytes
  import CoreBodies
  import TunnellingBodies
  import RoutingBodies
  import SecureBodies

  const HEADERLENGTH: byte := 0x06
  const PROTOCOLVERSION: byte := 0x10

  predicate IsServiceType(s: nat) {
    || 0x0201 <= s <= 0x020C
    || 0x0310 <= s <= 0x0311
    || 0x0420 <= s <= 0x0425
    || 0x0530 <= s <= 0x0533
    || 0x0740 <= s <= 0x0743
    || 0x0950 <= s <= 0x0955
  }

  /** Members of KNXIPServiceType for which KNXIPFrame.from_knx has no body class. */
  predicate WithoutBodyClass(s: nat) {
    s == 0x0533 || 0x0740 <= s <= 0x0743
  }

  // ------------------------------------------------------------------ header

  datatype Header = Header(serviceType: nat, totalLength: nat)

  function HeaderToKnx(h: Header): (r: Result<Bytes>)
    requires IsServiceType(h.serviceType)
    ensures r.Ok? ==> |r.value| == 6
  {
    if h.totalLength >= 0x1_0000 then Err(OverflowError)
    else Ok([HEADERLENGTH, PROTOCOLVERSION] + U16(h.serviceType) + U16(h.totalLength))
  }

  function ParseHeader(data: Bytes): (r: Result<Header>)
    ensures r.Ok? ==> |data| >= 6 && IsServiceType(r.value.serviceType) && r.value.totalLength < 0x1_0000
  {
    if |data| < 6 then Err(IncompleteKNXIPFrame)
    else if data[0] != HEADERLENGTH then Err(CouldNotParseKNXIP)
    else if data[1] != PROTOCOLVERSION then Err(CouldNotParseKNXIP)
    else if !IsServiceType(Word(data[2], data[3])) then Err(CouldNotParseKNXIP)
    else Ok(Header(Word(data[2], data[3]), Word(data[4], data[5])))
  }

  /** The header object, whose fields from_knx and set_length assign. */
  class KnxIpHeader {
    var serviceType: nat
    var totalLength: nat

    constructor ()
      ensures serviceType == RoutingBodies.ROUTING_INDICATION && totalLength == 0
    {
      serviceType, totalLength := RoutingBodies.ROUTING_INDICATION, 0;
    }

    /** total_length is stored before the version and the service type are checked. */
    method FromKnx(data: Bytes) returns (r: Result<nat>)
      modifies this
      ensures r.Ok? <==> ParseHeader(data).Ok?
      ensures r.Ok? ==> r.value == 6 && Header(serviceType, totalLength) == ParseHeader(data).value
      ensures r.Err? ==> r.error == ParseHeader(data).error && serviceType == old(serviceType)
      ensures totalLength == if |data| >= 6 && data[0] == HEADERLENGTH then Word(data[4], data[5]) else old(totalLength)
    {
      if |data| < 6 {
        return Err(IncompleteKNXIPFrame);
      }
      if data[0] != HEADERLENGTH {
        return Err(CouldNotParseKNXIP);
      }
      totalLength := Word(data[4], data[5]);
      if data[1] != PROTOCOLVERSION {
        return Err(CouldNotParseKNXIP);
      }
      if !IsServiceType(Word(data[2], data[3])) {
        return Err(CouldNotParseKNXIP);
      }
      serviceType := Word(data[2], data[3]);
      return Ok(6);
    }

    method SetLength(body: Body)
      modifies this
      ensures serviceType == old(serviceType)
      ensures totalLength == 6 + CalculatedLength(body)
    {
      totalLength := 6 + CalculatedLength(body);
    }
  }

  // ------------------------------------------------------------------ bodies

  /** Of the 29 body classes, one constructor for each group of services. */
  datatype Body =
    | Core(core: CoreBodies.CoreBody)
    | Channel(channel: TunnellingBodies.ChannelBody)
    | Routing(routing: RoutingBodies.RoutingBody)
    | Secured(secured: SecureBodies.SecureBody)

  function ServiceType(b: Body): (s: nat)
    ensures IsServiceType(s) && !WithoutBodyClass(s)
  {
    match b
    case Core(core) => CoreBodies.ServiceTypeOf(core)
    case Channel(channel) => TunnellingBodies.ServiceTypeOf(channel)
    case Routing(routing) => RoutingBodies.ServiceTypeOf(routing)
    case Secured(secured) => SecureBodies.ServiceTypeOf(secured)
  }

  function CalculatedLength(b: Body): nat {
    match b
    case Core(core) => CoreBodies.LengthOf(core)
    case Channel(channel) => TunnellingBodies.LengthOf(channel)
    case Routing(routing) => RoutingBodies.LengthOf(routing)
    case Secured(secured) => SecureBodies.LengthOf(secured)
  }

  /** Bodies that fit their wire fields and that their own from_knx accepts and restores. */
  predicate ValidBody(b: Body) {
    match b
    case Core(core) => CoreBodies.Valid(core)
    case Channel(channel) => TunnellingBodies.Valid(channel)
    case Routing(routing) => RoutingBodies.Valid(routing)
    case Secured(secured) => SecureBodies.Valid(secured)
  }

  function BodyToKnx(b: Body): (r: Bytes)
    requires ValidBody(b)
    ensures |r| == CalculatedLength(b)
  {
    match b
    case Core(core) => CoreBodies.ToKnx(core)
    case Channel(channel) => TunnellingBodies.ToKnx(channel)
    case Routing(routing) => RoutingBodies.ToKnx(routing)
    case Secured(secured) => SecureBodies.ToKnx(secured)
  }

  /** from_knx of the body class that the service type selects. */
  function BodyFromKnx(service: nat, raw: Bytes): (r: Result<Body>)
    requires IsServiceType(service)
    ensures r.Ok? ==> ServiceType(r.value) == service
  {
    if WithoutBodyClass(service) then Err(CouldNotParseKNXIP)
    else if service <= CoreBodies.SEARCH_RESPONSE_EXTENDED then
      var core :- CoreBodies.FromKnx(service, raw);
      Ok(Core(core))
    else if TunnellingBodies.IsChannelService(service) then
      var channel :- TunnellingBodies.FromKnx(service, raw);
      Ok(Channel(channel))
    else if service <= RoutingBodies.ROUTING_BUSY then
      var routing :- RoutingBodies.FromKnx(service, raw);
      Ok(Routing(routing))
    else
      var secured :- SecureBodies.FromKnx(service, raw);
      Ok(Secured(secured))
  }

  lemma BodyRoundTrip(b: Body)
    requires ValidBody(b)
    ensures BodyFromKnx(ServiceType(b), BodyToKnx(b)) == Ok(b)
  {
    match b
    case Core(core) => CoreBodies.RoundTrip(core);
    case Channel(channel) => TunnellingBodies.RoundTripIff(channel);
    case Routing(routing) => RoutingBodies.RoundTrip(routing);
    case Secured(secured) => SecureBodies.RoundTrip(secured);
  }

  // ------------------------------------------------------------------ frames

  datatype Frame = Frame(header: Header, body: Body)

  /** KNXIPFrame.init_from_body */
  function InitFromBody(b: Body): (f: Frame)
    ensures f.body == b && f.header.totalLength == 6 + CalculatedLength(b)
  {
    Frame(Header(ServiceType(b), 6 + CalculatedLength(b)), b)
  }

  /** Frames made by init_from_body whose length fits the header. */
  predicate ValidFrame(f: Frame) {
    f == InitFromBody(f.body) && ValidBody(f.body) && f.header.totalLength < 0x1_0000
  }

  /** KNXIPFrame.to_knx */
  function FrameToKnx(f: Frame): (r: Bytes)
    requires ValidFrame(f)
    ensures |r| == f.header.totalLength >= 6
  {
    HeaderToKnx(f.header).value + BodyToKnx(f.body)
  }

  // ---------------------------------------------------------- the octets, class by class

  /** The service type identifier of each class, by the numbers of the standard. */
  function Code(b: Body): nat {
    match b
    case Core(SearchRequest(_)) => 0x0201
    case Core(SearchResponse(extended, _, _)) => if extended then 0x020C else 0x0202
    case Core(DescriptionRequest(_)) => 0x0203
    case Core(DescriptionResponse(_)) => 0x0204
    case Core(ConnectRequest(_, _, _)) => 0x0205
    case Core(ConnectResponse(_, _, _, _)) => 0x0206
    case Core(ConnectionStateRequest(_, _)) => 0x0207
    case Core(ConnectionStateResponse(_, _)) => 0x0208
    case Core(DisconnectRequest(_, _)) => 0x0209
    case Core(DisconnectResponse(_, _)) => 0x020A
    case Core(SearchRequestExtended(_, _)) => 0x020B
    case Channel(DeviceConfigurationRequest(_, _, _)) => 0x0310
    case Channel(DeviceConfigurationAck(_, _, _)) => 0x0311
    case Channel(TunnellingRequest(_, _, _)) => 0x0420
    case Channel(TunnellingAck(_, _, _)) => 0x0421
    case Channel(FeatureGet(_, _, _, _)) => 0x0422
    case Channel(FeatureResponse(_, _, _, _, _, _)) => 0x0423
    case Channel(FeatureSet(_, _, _, _, _)) => 0x0424
    case Channel(FeatureInfo(_, _, _, _, _)) => 0x0425
    case Routing(RoutingIndication(_)) => 0x0530
    case Routing(RoutingLostMessage(_, _)) => 0x0531
    case Routing(RoutingBusy(_, _, _)) => 0x0532
    case Secured(Wrapper(_)) => 0x0950
    case Secured(SessionRequest(_, _)) => 0x0951
    case Secured(SessionResponse(_, _, _)) => 0x0952
    case Secured(SessionAuthenticate(_, _)) => 0x0953
    case Secured(SessionStatus(_)) => 0x0954
    case Secured(TimerNotify(_, _, _, _)) => 0x0955
  }

  /** The service types that are known, all codes of classes among them, and the five of them that no class reads. */
  lemma KnownServices(s: nat, b: Body)
    ensures IsServiceType(s) <==>
              s in {0x0201, 0x0202, 0x0203, 0x0204, 0x0205, 0x0206, 0x0207, 0x0208, 0x0209, 0x020A, 0x020B, 0x020C, 0x0310, 0x0311,
                    0x0420, 0x0421, 0x0422, 0x0423, 0x0424, 0x0425, 0x0530, 0x0531, 0x0532, 0x0533,
                    0x0740, 0x0741, 0x0742, 0x0743, 0x0950, 0x0951, 0x0952, 0x0953, 0x0954, 0x0955}
    ensures WithoutBodyClass(s) <==> s in {0x0533, 0x0740, 0x0741, 0x0742, 0x0743}
    ensures IsServiceType(Code(b)) && !WithoutBodyClass(Code(b))
  {
  }

  /** An endpoint: its length, protocol, address and port. */
  function Endpoint(h: CoreBodies.Hpai): Bytes
    requires CoreBodies.ValidHpai(h)
  {
    [8, h.protocol, h.ip[0], h.ip[1], h.ip[2], h.ip[3], h.port / 256, h.port % 256]
  }

  /** The octets behind the header; the lists of blocks and parameters have files of their own. */
  function Layout(b: Body): Bytes
    requires ValidBody(b)
  {
    match b
    case Core(core) =>
      (match core
       case SearchRequest(h) => Endpoint(h)
       case SearchResponse(_, h, _) => Endpoint(h) + CoreBodies.ToKnx(core)[8..]
       case DescriptionRequest(h) => Endpoint(h)
       case DescriptionResponse(_) => CoreBodies.ToKnx(core)
       case ConnectRequest(control, data, cri) =>
         Endpoint(control) + Endpoint(data)
         + if cri.connectionType != 4 then [2, cri.connectionType]
           else if cri.address.None? then [4, 4, cri.layer, 0]
           else [6, 4, cri.layer, 0, cri.address.value / 256, cri.address.value % 256]
       case ConnectResponse(channel, status, data, crd) =>
         [channel, status] + Endpoint(data)
         + if crd.connectionType != 4 then [2, crd.connectionType] else [4, 4, crd.address.value / 256, crd.address.value % 256]
       case ConnectionStateRequest(channel, h) => [channel, 0] + Endpoint(h)
       case ConnectionStateResponse(channel, status) => [channel, status]
       case DisconnectRequest(channel, h) => [channel, 0] + Endpoint(h)
       case DisconnectResponse(channel, status) => [channel, status]
       case SearchRequestExtended(h, _) => Endpoint(h) + CoreBodies.ToKnx(core)[8..])
    case Channel(channel) =>
      (match channel
       case DeviceConfigurationRequest(id, counter, cemi) => [4, id, counter, 0] + cemi
       case DeviceConfigurationAck(id, counter, status) => [4, id, counter, status]
       case TunnellingRequest(id, counter, cemi) => [4, id, counter, 0] + cemi
       case TunnellingAck(id, counter, status) => [4, id, counter, status]
       case FeatureGet(id, counter, status, feature) => [4, id, counter, status, feature, 0]
       case FeatureResponse(id, counter, status, feature, code, data) => [4, id, counter, status, feature, code] + data
       case FeatureSet(id, counter, status, feature, data) => [4, id, counter, status, feature, 0] + data
       case FeatureInfo(id, counter, status, feature, data) => [4, id, counter, status, feature, 0] + data)
    case Routing(routing) =>
      (match routing
       case RoutingIndication(cemi) => cemi
       case RoutingLostMessage(state, lost) => [4, state, lost / 256, lost % 256]
       case RoutingBusy(state, wait, control) => [6, state, wait / 256, wait % 256, control / 256, control % 256])
    case Secured(secured) =>
      (match secured
       case Wrapper(w) => [w.sessionId / 256, w.sessionId % 256] + w.sequence + w.serial + w.tag + w.data + w.mac
       case SessionRequest(h, key) => Endpoint(h) + key
       case SessionResponse(id, key, mac) => [id / 256, id % 256] + key + mac
       case SessionAuthenticate(user, mac) => [0, user] + mac
       case SessionStatus(status) => [status, 0]
       case TimerNotify(timer, serial, tag, mac) => timer + serial + tag + mac)
  }

  lemma EndpointOctets(h: CoreBodies.Hpai)
    requires CoreBodies.ValidHpai(h)
    ensures CoreBodies.HpaiToKnx(h) == Endpoint(h)
  {
  }

  lemma ConnectOctets(b: Body)
    requires b.Core? && ValidBody(b) && (b.core.ConnectRequest? || b.core.ConnectResponse?)
    ensures ServiceType(b) == Code(b) && BodyToKnx(b) == Layout(b)
  {
    EndpointOctets(b.core.data);
    if b.core.ConnectRequest? {
      EndpointOctets(b.core.control);
    }
  }

  lemma ListOctets(b: Body)
    requires b.Core? && ValidBody(b) && (b.core.SearchResponse? || b.core.SearchRequestExtended? || b.core.DescriptionResponse?)
    ensures ServiceType(b) == Code(b) && BodyToKnx(b) == Layout(b)
  {
    if b.core.SearchResponse? {
      EndpointOctets(b.core.control);
    } else if b.core.SearchRequestExtended? {
      EndpointOctets(b.core.discovery);
    }
  }

  lemma CoreOctets(b: Body)
    requires b.Core? && ValidBody(b)
    ensures ServiceType(b) == Code(b) && BodyToKnx(b) == Layout(b)
  {
    if b.core.ConnectRequest? || b.core.ConnectResponse? {
      ConnectOctets(b);
    } else if b.core.SearchResponse? || b.core.SearchRequestExtended? || b.core.DescriptionResponse? {
      ListOctets(b);
    } else if b.core.SearchRequest? || b.core.DescriptionRequest? {
      EndpointOctets(b.core.endpoint);
    } else if b.core.ConnectionStateRequest? || b.core.DisconnectRequest? {
      EndpointOctets(b.core.control);
    }
  }

  lemma OtherOctets(b: Body)
    requires !b.Core? && ValidBody(b)
    ensures ServiceType(b) == Code(b) && BodyToKnx(b) == Layout(b)
  {
  }

  /**
   Every frame that fits its header, octet by octet: the header with the code of its class and the
   total length, and the body's layout.
   */
  lemma FrameOctets(b: Body)
    requires ValidBody(b) && |Layout(b)| < 0x1_0000 - 6
    ensures ValidFrame(InitFromBody(b))
    ensures FrameToKnx(InitFromBody(b)) == [0x06, 0x10] + U16(Code(b)) + U16(6 + |Layout(b)|) + Layout(b)
  {
    if b.Core? {
      CoreOctets(b);
    } else {
      OtherOctets(b);
    }
  }

  /** KNXIPFrame.from_knx: the frame and the rest of the data. */
  function FrameFromKnx(data: Bytes): (r: Result<(Frame, Bytes)>)
    ensures r.Ok? ==> r.value.0.header.totalLength <= |data| && r.value.1 == data[r.value.0.header.totalLength..]
  {
    var header :- ParseHeader(data);
    if |data| < header.totalLength then Err(IncompleteKNXIPFrame)
    else
      var body :- BodyFromKnx(header.serviceType, if header.totalLength < 6 then [] else data[6..header.totalLength]);
      Ok((Frame(header, body), data[header.totalLength..]))
  }

  lemma HeaderRoundTrip(h: Header, tail: Bytes)
    requires IsServiceType(h.serviceType) && h.totalLength < 0x1_0000
    ensures ParseHeader(HeaderToKnx(h).value + tail) == Ok(h)
  {
    var raw := HeaderToKnx(h).value + tail;
    assert [raw[2], raw[3]] == U16(h.serviceType) && [raw[4], raw[5]] == U16(h.totalLength);
  }

  /** A frame parses back to itself and leaves what follows it untouched. */
  lemma FrameRoundTrip(f: Frame, tail: Bytes)
    requires ValidFrame(f)
    ensures FrameFromKnx(FrameToKnx(f) + tail) == Ok((f, tail))
  {
    var head, body := HeaderToKnx(f.header).value, BodyToKnx(f.body);
    var data := FrameToKnx(f) + tail;
    assert data == head + (body + tail);
    HeaderRoundTrip(f.header, body + tail);
    assert data[6..f.header.totalLength] == body;
    assert data[f.header.totalLength..] == tail;
    BodyRoundTrip(f.body);
  }

  /** Every proper beginning of a frame is reported as incomplete. */
  lemma ProperPrefixIsIncomplete(f: Frame, n: nat)
    requires ValidFrame(f) && n < f.header.totalLength
    ensures FrameFromKnx(FrameToKnx(f)[..n]) == Err(IncompleteKNXIPFrame)
  {
    if n >= 6 {
      var head, body := HeaderToKnx(f.header).value, BodyToKnx(f.body);
      assert FrameToKnx(f)[..n] == head + body[..n - 6];
      HeaderRoundTrip(f.header, body[..n - 6]);
    }
  }

  /** Octets that arrive later do not change a frame that was already complete. */
  lemma ParsedFrameIsStable(data: Bytes, more: Bytes)
    requires FrameFromKnx(data).Ok?
    ensures FrameFromKnx(data + more) == Ok((FrameFromKnx(data).value.0, FrameFromKnx(data).value.1 + more))
  {
    var total := ParseHeader(data).value.totalLength;
    assert ParseHeader(data + more) == ParseHeader(data);
    if total >= 6 {
      assert (data + more)[6..total] == data[6..total];
    }
    assert (data + more)[total..] == data[total..] + more;
  }

  /** A failure other than an incomplete frame is final. */
  lemma FailureIsStable(data: Bytes, more: Bytes)
    requires FrameFromKnx(data).Err? && FrameFromKnx(data) != Err(IncompleteKNXIPFrame)
    requires data != []
    ensures FrameFromKnx(data + more) == FrameFromKnx(data)
  {
    assert |data| >= 6;
    assert ParseHeader(data + more) == ParseHeader(data);
    if ParseHeader(data).Ok? {
      var total := ParseHeader(data).value.totalLength;
      if 6 <= total <= |data| {
        assert (data + more)[6..total] == data[6..total];
      }
    }
  }

  /** The rest is strictly shorter exactly when the length octets of the header are not both zero. */
  lemma RestShrinksIff(data: Bytes)
    requires FrameFromKnx(data).Ok?
    ensures |FrameFromKnx(data).value.1| < |data| <==> !(data[4] == 0 && data[5] == 0)
  {
    var h := ParseHeader(data).value;
    assert U16(h.totalLength) == [data[4], data[5]];
  }
}
