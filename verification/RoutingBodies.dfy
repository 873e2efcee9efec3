/** Bodies of the routing services. */
module RoutingBodies {
  import opened Bytes

  const ROUTING_INDICATION: nat := 0x0530
  const ROUTING_LOST_MESSAGE: nat := 0x0531
  const ROUTING_BUSY: nat := 0x0532

  datatype RoutingBody =
    | RoutingIndication(cemi: Bytes)
    | RoutingLostMessage(deviceState: byte, lostMessages: nat)
    | RoutingBusy(deviceState: byte, waitTime: nat, controlField: nat)

  function ServiceTypeOf(b: RoutingBody): (s: nat)
    ensures ROUTING_INDICATION <= s <= ROUTING_BUSY
  {
    match b
    case RoutingIndication(_) => ROUTING_INDICATION
    case RoutingLostMessage(_, _) => ROUTING_LOST_MESSAGE
    case RoutingBusy(_, _, _) => ROUTING_BUSY
  }

  function LengthOf(b: RoutingBody): nat {
    match b
    case RoutingIndication(cemi) => |cemi|
    case RoutingLostMessage(_, _) => 4
    case RoutingBusy(_, _, _) => 6
  }

  predicate Valid(b: RoutingBody) {
    match b
    case RoutingIndication(_) => true
    case RoutingLostMessage(_, lost) => lost < 0x1_0000
    case RoutingBusy(_, wait, control) => wait < 0x1_0000 && control < 0x1_0000
  }

  function ToKnx(b: RoutingBody): (r: Bytes)
    requires Valid(b)
    ensures |r| == LengthOf(b)
  {
    match b
    case RoutingIndication(cemi) => cemi
    case RoutingLostMessage(state, lost) => [4, state] + U16(lost)
    case RoutingBusy(state, wait, control) => [6, state] + U16(wait) + U16(control)
  }

  function FromKnx(service: nat, raw: Bytes): (r: Result<RoutingBody>)
    requires ROUTING_INDICATION <= service <= ROUTING_BUSY
    ensures r.Ok? ==> ServiceTypeOf(r.value) == service
  {
    if service == ROUTING_INDICATION then Ok(RoutingIndication(raw))
    else if raw == [] then Err(IndexError)
    else if service == ROUTING_LOST_MESSAGE then
      if raw[0] != 4 || |raw| != 4 then Err(CouldNotParseKNXIP) else Ok(RoutingLostMessage(raw[1], Word(raw[2], raw[3])))
    else if raw[0] != 6 || |raw| != 6 then Err(CouldNotParseKNXIP)
    else Ok(RoutingBusy(raw[1], Word(raw[2], raw[3]), Word(raw[4], raw[5])))
  }

  lemma RoundTrip(b: RoutingBody)
    requires Valid(b)
    ensures FromKnx(ServiceTypeOf(b), ToKnx(b)) == Ok(b)
  {
    var raw := ToKnx(b);
    match b
    case RoutingIndication(_) =>
    case RoutingLostMessage(_, lost) =>
      assert [raw[2], raw[3]] == U16(lost);
    case RoutingBusy(_, wait, control) =>
      assert [raw[2], raw[3]] == U16(wait) && [raw[4], raw[5]] == U16(control);
  }

  /** Whatever is parsed serialises to the same octets. */
  lemma ParsedSerialises(service: nat, raw: Bytes)
    requires ROUTING_INDICATION <= service <= ROUTING_BUSY && FromKnx(service, raw).Ok?
    ensures Valid(FromKnx(service, raw).value) && ToKnx(FromKnx(service, raw).value) == raw
  {
  }
}
