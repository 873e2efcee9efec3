/** Bodies of the security services. */
module SecureBodies {
  import opened Bytes
  import opened CoreBodies

  const SECURE_WRAPPER: nat := 0x0950
  const SESSION_REQUEST: nat := 0x0951
  const SESSION_RESPONSE: nat := 0x0952
  const SESSION_AUTHENTICATE: nat := 0x0953
  const SESSION_STATUS: nat := 0x0954
  const TIMER_NOTIFY: nat := 0x0955

  datatype SecureWrapper = SecureWrapper(sessionId: nat, sequence: Bytes, serial: Bytes, tag: Bytes, data: Bytes, mac: Bytes)

  datatype SecureBody =
    | Wrapper(wrapper: SecureWrapper)
    | SessionRequest(control: Hpai, clientKey: Bytes)
    | SessionResponse(sessionId: nat, serverKey: Bytes, mac: Bytes)
    | SessionAuthenticate(userId: byte, mac: Bytes)
    | SessionStatus(status: byte)
    | TimerNotify(timer: Bytes, serial: Bytes, tag: Bytes, mac: Bytes)

  function ServiceTypeOf(b: SecureBody): (s: nat)
    ensures SECURE_WRAPPER <= s <= TIMER_NOTIFY
  {
    match b
    case Wrapper(_) => SECURE_WRAPPER
    case SessionRequest(_, _) => SESSION_REQUEST
    case SessionResponse(_, _, _) => SESSION_RESPONSE
    case SessionAuthenticate(_, _) => SESSION_AUTHENTICATE
    case SessionStatus(_) => SESSION_STATUS
    case TimerNotify(_, _, _, _) => TIMER_NOTIFY
  }

  function LengthOf(b: SecureBody): nat {
    match b
    case Wrapper(w) => 16 + |w.data| + 16
    case SessionRequest(_, _) => 40
    case SessionResponse(_, _, _) => 50
    case SessionAuthenticate(_, _) => 18
    case SessionStatus(_) => 2
    case TimerNotify(_, _, _, _) => 30
  }

  predicate ValidWrapper(w: SecureWrapper) {
    w.sessionId < 0x1_0000 && |w.sequence| == 6 && |w.serial| == 6 && |w.tag| == 2 && |w.mac| == 16
  }

  predicate Valid(b: SecureBody) {
    match b
    case Wrapper(w) => ValidWrapper(w) && |w.data| >= 2
    case SessionRequest(h, key) => ValidHpai(h) && |key| == 32
    case SessionResponse(id, key, mac) => id < 0x1_0000 && |key| == 32 && |mac| == 16
    case SessionAuthenticate(_, mac) => |mac| == 16
    case SessionStatus(status) => status <= 5
    case TimerNotify(timer, serial, tag, mac) => |timer| == 6 && |serial| == 6 && |tag| == 2 && |mac| == 16
  }

  function WrapperToKnx(w: SecureWrapper): (r: Bytes)
    requires ValidWrapper(w)
    ensures |r| == 32 + |w.data|
  {
    U16(w.sessionId) + w.sequence + w.serial + w.tag + w.data + w.mac
  }

  function WrapperFromKnx(raw: Bytes): Result<SecureWrapper> {
    if |raw| < 34 then Err(CouldNotParseKNXIP)
    else Ok(SecureWrapper(Word(raw[0], raw[1]), raw[2..8], raw[8..14], raw[14..16], raw[16..|raw| - 16], raw[|raw| - 16..]))
  }

  function ToKnx(b: SecureBody): (r: Bytes)
    requires Valid(b)
    ensures |r| == LengthOf(b)
  {
    match b
    case Wrapper(w) => WrapperToKnx(w)
    case SessionRequest(h, key) => HpaiToKnx(h) + key
    case SessionResponse(id, key, mac) => U16(id) + key + mac
    case SessionAuthenticate(user, mac) => [0, user] + mac
    case SessionStatus(status) => [status, 0]
    case TimerNotify(timer, serial, tag, mac) => timer + serial + tag + mac
  }

  function FromKnx(service: nat, raw: Bytes): (r: Result<SecureBody>)
    requires SECURE_WRAPPER <= service <= TIMER_NOTIFY
    ensures r.Ok? ==> ServiceTypeOf(r.value) == service
  {
    if service == SECURE_WRAPPER then
      var w :- WrapperFromKnx(raw);
      Ok(Wrapper(w))
    else if service == SESSION_REQUEST then
      if |raw| != 40 then Err(CouldNotParseKNXIP)
      else
        var h :- HpaiFromKnx(raw);
        Ok(SessionRequest(h, raw[8..]))
    else if service == SESSION_RESPONSE then
      if |raw| != 50 then Err(CouldNotParseKNXIP) else Ok(SessionResponse(Word(raw[0], raw[1]), raw[2..34], raw[34..]))
    else if service == SESSION_AUTHENTICATE then
      if |raw| != 18 then Err(CouldNotParseKNXIP) else Ok(SessionAuthenticate(raw[1], raw[2..]))
    else if service == SESSION_STATUS then
      if |raw| != 2 || raw[0] > 5 then Err(CouldNotParseKNXIP) else Ok(SessionStatus(raw[0]))
    else if |raw| != 30 then Err(CouldNotParseKNXIP)
    else Ok(TimerNotify(raw[..6], raw[6..12], raw[12..14], raw[14..]))
  }

  lemma WrapperRoundTrip(w: SecureWrapper)
    requires ValidWrapper(w) && |w.data| >= 2
    ensures WrapperFromKnx(WrapperToKnx(w)) == Ok(w)
  {
    var raw := WrapperToKnx(w);
    assert [raw[0], raw[1]] == U16(w.sessionId);
    assert raw[2..8] == w.sequence && raw[8..14] == w.serial && raw[14..16] == w.tag;
    assert raw[16..|raw| - 16] == w.data && raw[|raw| - 16..] == w.mac;
  }

  lemma RoundTrip(b: SecureBody)
    requires Valid(b)
    ensures FromKnx(ServiceTypeOf(b), ToKnx(b)) == Ok(b)
  {
    var raw := ToKnx(b);
    match b
    case Wrapper(w) =>
      WrapperRoundTrip(w);
    case SessionRequest(h, key) =>
      HpaiRoundTrip(h, key);
    case SessionResponse(id, key, mac) =>
      assert [raw[0], raw[1]] == U16(id) && raw[2..34] == key && raw[34..] == mac;
    case SessionAuthenticate(_, mac) =>
      assert raw[2..] == mac;
    case SessionStatus(_) =>
    case TimerNotify(timer, serial, tag, mac) =>
      assert raw[..6] == timer && raw[6..12] == serial && raw[12..14] == tag && raw[14..] == mac;
  }

  /** Whatever is parsed is valid, and serialises to the same octets but for the two reserved ones. */
  lemma ParsedSerialises(service: nat, raw: Bytes)
    requires SECURE_WRAPPER <= service <= TIMER_NOTIFY && FromKnx(service, raw).Ok?
    ensures var b := FromKnx(service, raw).value;
            && Valid(b) && |raw| == |ToKnx(b)|
            && (if b.SessionAuthenticate? then raw[1..] == ToKnx(b)[1..] else if b.SessionStatus? then raw[0] == b.status else raw == ToKnx(b))
  {
    var b := FromKnx(service, raw).value;
    if b.SessionRequest? {
      assert HpaiToKnx(b.control) == raw[..8];
      assert raw == raw[..8] + raw[8..];
    } else if b.Wrapper? {
      var w := b.wrapper;
      assert U16(w.sessionId) == [raw[0], raw[1]];
      assert raw == [raw[0], raw[1]] + raw[2..8] + raw[8..14] + raw[14..16] + raw[16..|raw| - 16] + raw[|raw| - 16..];
    } else if b.SessionResponse? {
      assert raw == [raw[0], raw[1]] + raw[2..34] + raw[34..];
    } else if b.TimerNotify? {
      assert raw == raw[..6] + raw[6..12] + raw[12..14] + raw[14..];
    } else if b.SessionAuthenticate? {
      assert ToKnx(b)[1..] == [raw[1]] + raw[2..] == raw[1..];
    }
  }
}
