/** Bodies of the services on an established channel: device management, tunnelling and its features. */
module TunnellingBodies {
  import opened Bytes
  import opened CoreBodies

  const DEVICE_CONFIGURATION_REQUEST: nat := 0x0310
  const DEVICE_CONFIGURATION_ACK: nat := 0x0311
  const TUNNELLING_REQUEST: nat := 0x0420
  const TUNNELLING_ACK: nat := 0x0421
  const TUNNELLING_FEATURE_GET: nat := 0x0422
  const TUNNELLING_FEATURE_RESPONSE: nat := 0x0423
  const TUNNELLING_FEATURE_SET: nat := 0x0424
  const TUNNELLING_FEATURE_INFO: nat := 0x0425

  predicate IsChannelService(s: nat) {
    s == DEVICE_CONFIGURATION_REQUEST || s == DEVICE_CONFIGURATION_ACK || TUNNELLING_REQUEST <= s <= TUNNELLING_FEATURE_INFO
  }

  predicate IsReturnCode(c: nat) {
    c == 0 || 0xF1 <= c <= 0xFF
  }

  predicate IsFeature(f: nat) {
    1 <= f <= 8
  }

  /** The body starts with the connection header: its length, the channel, the counter, and 0 or a status. */
  datatype ChannelBody =
    | DeviceConfigurationRequest(channel: byte, counter: byte, rawCemi: Bytes)
    | DeviceConfigurationAck(channel: byte, counter: byte, status: byte)
    | TunnellingRequest(channel: byte, counter: byte, rawCemi: Bytes)
    | TunnellingAck(channel: byte, counter: byte, status: byte)
    | FeatureGet(channel: byte, counter: byte, status: byte, feature: byte)
    | FeatureResponse(channel: byte, counter: byte, status: byte, feature: byte, returnCode: byte, data: Bytes)
    | FeatureSet(channel: byte, counter: byte, status: byte, feature: byte, data: Bytes)
    | FeatureInfo(channel: byte, counter: byte, status: byte, feature: byte, data: Bytes)

  function ServiceTypeOf(b: ChannelBody): (s: nat)
    ensures IsChannelService(s)
  {
    match b
    case DeviceConfigurationRequest(_, _, _) => DEVICE_CONFIGURATION_REQUEST
    case DeviceConfigurationAck(_, _, _) => DEVICE_CONFIGURATION_ACK
    case TunnellingRequest(_, _, _) => TUNNELLING_REQUEST
    case TunnellingAck(_, _, _) => TUNNELLING_ACK
    case FeatureGet(_, _, _, _) => TUNNELLING_FEATURE_GET
    case FeatureResponse(_, _, _, _, _, _) => TUNNELLING_FEATURE_RESPONSE
    case FeatureSet(_, _, _, _, _) => TUNNELLING_FEATURE_SET
    case FeatureInfo(_, _, _, _, _) => TUNNELLING_FEATURE_INFO
  }

  function Padded(data: Bytes): (r: Bytes)
    ensures |r| == |data| + |data| % 2
  {
    data + Zeros(|data| % 2)
  }

  function LengthOf(b: ChannelBody): nat {
    match b
    case DeviceConfigurationRequest(_, _, cemi) => 4 + |cemi|
    case DeviceConfigurationAck(_, _, _) => 4
    case TunnellingRequest(_, _, cemi) => 4 + |cemi|
    case TunnellingAck(_, _, _) => 4
    case FeatureGet(_, _, _, _) => 6
    case FeatureResponse(_, _, _, _, _, data) => 6 + |data| + |data| % 2
    case FeatureSet(_, _, _, _, data) => 6 + |data| + |data| % 2
    case FeatureInfo(_, _, _, _, data) => 6 + |data| + |data| % 2
  }

  /** Bodies whose own from_knx accepts them, but for the padding of their data. */
  predicate Writable(b: ChannelBody) {
    match b
    case DeviceConfigurationRequest(_, _, _) => true
    case DeviceConfigurationAck(_, _, status) => IsErrorCode(status)
    case TunnellingRequest(_, _, _) => true
    case TunnellingAck(_, _, status) => IsErrorCode(status)
    case FeatureGet(_, _, status, feature) => IsErrorCode(status) && IsFeature(feature)
    case FeatureResponse(_, _, status, feature, code, data) =>
      IsErrorCode(status) && IsFeature(feature) && IsReturnCode(code) && (code == 0 ==> data != [])
    case FeatureSet(_, _, status, feature, data) => IsErrorCode(status) && IsFeature(feature) && data != []
    case FeatureInfo(_, _, status, feature, data) => IsErrorCode(status) && IsFeature(feature) && data != []
  }

  function DataOf(b: ChannelBody): Bytes {
    if b.FeatureResponse? || b.FeatureSet? || b.FeatureInfo? then b.data else []
  }

  predicate Valid(b: ChannelBody) {
    Writable(b) && |DataOf(b)| % 2 == 0
  }

  function ToKnx(b: ChannelBody): (r: Bytes)
    requires Writable(b)
    ensures |r| == LengthOf(b)
  {
    match b
    case DeviceConfigurationRequest(channel, counter, cemi) => [4, channel, counter, 0] + cemi
    case DeviceConfigurationAck(channel, counter, status) => [4, channel, counter, status]
    case TunnellingRequest(channel, counter, cemi) => [4, channel, counter, 0] + cemi
    case TunnellingAck(channel, counter, status) => [4, channel, counter, status]
    case FeatureGet(channel, counter, status, feature) => [4, channel, counter, status, feature, 0]
    case FeatureResponse(channel, counter, status, feature, code, data) => [4, channel, counter, status, feature, code] + Padded(data)
    case FeatureSet(channel, counter, status, feature, data) => [4, channel, counter, status, feature, 0] + Padded(data)
    case FeatureInfo(channel, counter, status, feature, data) => [4, channel, counter, status, feature, 0] + Padded(data)
  }

  // ------------------------------------------------------------------- parsing

  /** Channel, counter and the octets behind the connection header, of a request. */
  function RequestFromKnx(raw: Bytes): Result<(byte, byte, Bytes)> {
    if raw == [] then Err(IndexError)
    else if raw[0] != 4 || |raw| < 4 then Err(CouldNotParseKNXIP)
    else Ok((raw[1], raw[2], raw[4..]))
  }

  /** Channel, counter and status, of an ack. */
  function AckFromKnx(raw: Bytes): Result<(byte, byte, byte)> {
    if raw == [] then Err(IndexError)
    else if raw[0] != 4 || |raw| != 4 then Err(CouldNotParseKNXIP)
    else if !IsErrorCode(raw[3]) then Err(ValueError)
    else Ok((raw[1], raw[2], raw[3]))
  }

  /** The checks that all features begin with, in the order in which they are made. */
  function FeatureHeader(raw: Bytes): (r: Result<()>)
    ensures r.Ok? ==> |raw| >= 5
  {
    if raw == [] then Err(IndexError)
    else if raw[0] != 4 then Err(CouldNotParseKNXIP)
    else if |raw| < 4 then Err(IndexError)
    else if !IsErrorCode(raw[3]) then Err(ValueError)
    else if |raw| < 5 then Err(IndexError)
    else if !IsFeature(raw[4]) then Err(ValueError)
    else Ok(())
  }

  function FeatureGetFromKnx(raw: Bytes): Result<ChannelBody> {
    var _ :- FeatureHeader(raw);
    if |raw| > 6 then Err(CouldNotParseKNXIP) else Ok(FeatureGet(raw[1], raw[2], raw[3], raw[4]))
  }

  function FeatureResponseFromKnx(raw: Bytes): Result<ChannelBody> {
    var _ :- FeatureHeader(raw);
    if |raw| < 6 then Err(IndexError)
    else if !IsReturnCode(raw[5]) || (raw[5] == 0 && |raw| == 6) then Err(CouldNotParseKNXIP)
    else Ok(FeatureResponse(raw[1], raw[2], raw[3], raw[4], raw[5], raw[6..]))
  }

  function FeatureDataFromKnx(isSet: bool, raw: Bytes): Result<ChannelBody> {
    var _ :- FeatureHeader(raw);
    if |raw| <= 6 then Err(CouldNotParseKNXIP)
    else Ok(if isSet then FeatureSet(raw[1], raw[2], raw[3], raw[4], raw[6..]) else FeatureInfo(raw[1], raw[2], raw[3], raw[4], raw[6..]))
  }

  function FromKnx(service: nat, raw: Bytes): (r: Result<ChannelBody>)
    requires IsChannelService(service)
    ensures r.Ok? ==> ServiceTypeOf(r.value) == service
  {
    if service == DEVICE_CONFIGURATION_REQUEST then
      var r :- RequestFromKnx(raw);
      Ok(DeviceConfigurationRequest(r.0, r.1, r.2))
    else if service == DEVICE_CONFIGURATION_ACK then
      var r :- AckFromKnx(raw);
      Ok(DeviceConfigurationAck(r.0, r.1, r.2))
    else if service == TUNNELLING_REQUEST then
      var r :- RequestFromKnx(raw);
      Ok(TunnellingRequest(r.0, r.1, r.2))
    else if service == TUNNELLING_ACK then
      var r :- AckFromKnx(raw);
      Ok(TunnellingAck(r.0, r.1, r.2))
    else if service == TUNNELLING_FEATURE_GET then FeatureGetFromKnx(raw)
    else if service == TUNNELLING_FEATURE_RESPONSE then FeatureResponseFromKnx(raw)
    else FeatureDataFromKnx(service == TUNNELLING_FEATURE_SET, raw)
  }

  /** A body comes back exactly when its feature data is of even length; odd data comes back padded. */
  lemma RoundTripIff(b: ChannelBody)
    requires Writable(b)
    ensures FromKnx(ServiceTypeOf(b), ToKnx(b)) == Ok(b) <==> |DataOf(b)| % 2 == 0
  {
    var raw := ToKnx(b);
    if DataOf(b) != [] {
      assert raw[6..] == Padded(DataOf(b));
      assert |DataOf(b)| % 2 == 0 ==> Padded(DataOf(b)) == DataOf(b);
    } else if b.FeatureResponse? {
      assert raw[6..] == [];
    } else if b.DeviceConfigurationRequest? || b.TunnellingRequest? {
      assert raw[4..] == b.rawCemi;
    }
  }

  /**
   Which octets are parsed: a connection header of length 4, behind an ack exactly nothing, and
   behind a feature with a known status at least what it carries.  A response may go without
   data exactly with a negative return code.
   */
  lemma AcceptedIff(service: nat, raw: Bytes)
    requires IsChannelService(service)
    ensures FromKnx(service, raw).Ok? <==>
            && |raw| >= 4 && raw[0] == 4
            && (service == 0x0311 || service == 0x0421 ==> |raw| == 4)
            && (service != 0x0310 && service != 0x0420 ==> IsErrorCode(raw[3]))
            && (service >= 0x0422 ==> |raw| >= 5 && raw[4] in {1, 2, 3, 4, 5, 6, 7, 8})
            && (service == 0x0422 ==> |raw| <= 6)
            && (service == 0x0423 ==> |raw| >= 6 && (raw[5] > 0xF0 || (raw[5] == 0 && |raw| > 6)))
            && (service > 0x0423 ==> |raw| > 6)
  {
  }

  /**
   What is parsed could have been written, and gives the octets it was read from, with reserved
   ones zero and data padded.
   */
  lemma ParsedReserialises(service: nat, raw: Bytes)
    requires IsChannelService(service) && FromKnx(service, raw).Ok?
    ensures |raw| >= 4
    ensures var b := FromKnx(service, raw).value;
            && Writable(b)
            && (service == 0x0310 || service == 0x0420 ==> ToKnx(b) == raw[3 := 0])
            && (service == 0x0311 || service == 0x0421 ==> ToKnx(b) == raw)
            && (service == 0x0422 ==> |raw| >= 5 && ToKnx(b) == raw[..5] + [0])
            && (service == 0x0423 ==> ToKnx(b) == Padded(raw))
            && (service > 0x0423 ==> |raw| > 6 && ToKnx(b) == Padded(raw[5 := 0]))
  {
    var b := FromKnx(service, raw).value;
    if b.FeatureResponse? {
      assert raw == [4, b.channel, b.counter, b.status, b.feature, b.returnCode] + b.data;
    } else if b.FeatureSet? || b.FeatureInfo? {
      assert raw[5 := 0] == [4, b.channel, b.counter, b.status, b.feature, 0] + b.data;
    }
  }
}
