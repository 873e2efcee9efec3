/** SecureSession: sequence numbers of a secure tunnelling session, on both ends of a hostile channel. */
module SecureTunnellingSession {
  import opened Bytes
  import opened SecurityPrimitives
  import opened KnxIpFrame
  import opened SecureBodies
  import opened SecureLayer

  const SEQUENCE_LIMIT := 0x1_0000_0000_0000

  // ------------------------------------------------------------------ sending

  /** The numbers that n calls of get_sequence_information return, and the counter afterwards. */
  function TakeSequenceNumbers(next: nat, n: nat): (r: (seq<Result<Bytes>>, nat))
    ensures |r.0| == n
    decreases n
  {
    if n == 0 then ([], next)
    else
      var (front, counter) := TakeSequenceNumbers(next, n - 1);
      (front + [SequenceBytes(counter)], Increment(counter))
  }

  /** self._sequence_number.to_bytes(6, "big") */
  function SequenceBytes(counter: nat): Result<Bytes> {
    if counter >= SEQUENCE_LIMIT then Err(OverflowError)
    else
      Pow256Values();
      Ok(ToBE(counter, 6))
  }

  /** The counter is incremented only when the conversion did not raise. */
  function Increment(counter: nat): nat {
    if counter >= SEQUENCE_LIMIT then counter else counter + 1
  }

  /** Six octets of the number, while it fits them. */
  predicate IsNumber(r: Result<Bytes>, number: nat) {
    if number >= 0x1_0000_0000_0000 then r == Err(OverflowError)
    else r.Ok? && |r.value| == 6 && FromBE(r.value) == number
  }

  /** The i-th number is next + i, in six octets, while that fits them; from then on every call raises. */
  lemma {:induction false} SequenceNumbersCount(next: nat, n: nat)
    requires next <= SEQUENCE_LIMIT
    ensures var (taken, counter) := TakeSequenceNumbers(next, n);
            && counter == (if next + n <= SEQUENCE_LIMIT then next + n else SEQUENCE_LIMIT)
            && forall i :: 0 <= i < n ==> IsNumber(taken[i], next + i)
    decreases n
  {
    if n > 0 {
      SequenceNumbersCount(next, n - 1);
    }
  }

  /** No sequence number is ever used for two frames of a session. */
  lemma NeverReused(next: nat, n: nat, i: nat, j: nat)
    requires next <= SEQUENCE_LIMIT && i < j < n
    requires TakeSequenceNumbers(next, n).0[i].Ok?
    ensures TakeSequenceNumbers(next, n).0[i] != TakeSequenceNumbers(next, n).0[j]
  {
    SequenceNumbersCount(next, n);
    var taken := TakeSequenceNumbers(next, n).0;
    assert IsNumber(taken[i], next + i) && IsNumber(taken[j], next + j);
  }

  // ---------------------------------------------------------------- receiving

  predicate IsWrapper(f: Frame) {
    IsWrapped(f) && ValidNonce(NonceOf(WrapperOf(f))) && IsServiceType(f.header.serviceType)
  }

  /** A frame whose body is a SecureWrapper; from_knx always fills its fields to their full width. */
  type WrapperFrame = f: Frame | IsWrapper(f)
    witness InitFromBody(Secured(Wrapper(SecureWrapper(0, Zeros(6), Zeros(6), Zeros(2), [], Zeros(16)))))

  /** decrypt_frame of a transport layer whose key and session are fixed. */
  type Opener = WrapperFrame -> Result<Frame>

  function OpenerOf(E: BlockCipher, key: Bytes, sessionId: nat): Opener {
    (f: WrapperFrame) => DecryptFrame(E, key, sessionId, f)
  }

  function SequenceOf(f: WrapperFrame): nat {
    FromBE(WrapperOf(f).sequence)
  }

  /** What handle_knxipframe does with one wrapper. */
  datatype Handled = Forwarded(frame: Frame) | Discarded | Raised(error: Error)

  /** The session as far as receiving is concerned. */
  datatype Receiver = Receiver(initialized: bool, received: int)

  function Handle(open: Opener, s: Receiver, f: WrapperFrame): (Receiver, Handled) {
    if !s.initialized then (s, Raised(CouldNotParseKNXIP))
    else if SequenceOf(f) <= s.received then (s, Discarded)
    else
      match open(f)
      case Ok(inner) => (s.(received := SequenceOf(f)), Forwarded(inner))
      case Err(e) => (s, if CaughtAsUnparsable(e) then Discarded else Raised(e))
  }

  /** KNXSecureValidationError and IncompleteKNXIPFrame are subclasses of CouldNotParseKNXIP. */
  predicate CaughtAsUnparsable(e: Error) {
    e == KNXSecureValidationError || e == CouldNotParseKNXIP || e == IncompleteKNXIPFrame
  }

  // ---------------------------------------------------------------- handshake

  type PublicKey = b: Bytes | |b| == 32 witness Zeros(32)

  /** A SessionResponse as from_knx fills it. */
  type Response = b: SecureBody | b.SessionResponse? && SecureBodies.Valid(b) witness SessionResponse(0, Zeros(32), Zeros(16))

  const STATUS_AUTHENTICATION_SUCCESS: byte := 0

  const COUNTER_0_HANDSHAKE: Block := Zeros(14) + [0xFF, 0]

  /** What the MAC of a SessionResponse covers: its literal header, the session and both public keys. */
  function ResponseData(ownKey: PublicKey, r: Response): (data: Bytes)
    ensures |data| == 40
  {
    [6, 16, 9, 0x52, 0, 0x38] + U16(r.sessionId) + BytesXor(ownKey, r.serverKey).value
  }

  /** What the MAC of a SessionAuthenticate covers. */
  function AuthenticateData(userId: byte, ownKey: PublicKey, serverKey: PublicKey): (data: Bytes)
    ensures |data| == 40
  {
    [6, 16, 9, 0x53, 0, 0x18] + [0, userId] + BytesXor(ownKey, serverKey).value
  }

  /** The encrypted MAC over some data under a key, as either end of the handshake makes it. */
  function HandshakeMac(E: BlockCipher, key: Bytes, data: Bytes): (mac: Bytes)
    requires |data| < 0x1_0000
    ensures |mac| == 16
  {
    EncryptDataCtr(E, key, COUNTER_0_HANDSHAKE, CalculateMacCbc(E, key, data, [], Zeros(16)).value, []).1
  }

  /** The MAC of a device with this authentication code. */
  function DeviceMac(E: BlockCipher, code: Bytes, ownKey: PublicKey, r: Response): Bytes {
    HandshakeMac(E, code, ResponseData(ownKey, r))
  }

  /** The MAC of the user with this password. */
  function UserMac(E: BlockCipher, password: Bytes, userId: byte, ownKey: PublicKey, serverKey: PublicKey): Bytes {
    HandshakeMac(E, password, AuthenticateData(userId, ownKey, serverKey))
  }

  /** A MAC decrypts to the calculated one exactly when it was made under the same key over the same data. */
  lemma MacVerifiesIff(E: BlockCipher, key: Bytes, data: Bytes, mac: Block)
    requires |data| < 0x1_0000
    ensures DecryptCtr(E, key, COUNTER_0_HANDSHAKE, mac, []).1 == CalculateMacCbc(E, key, data, [], Zeros(16)).value
       <==> mac == HandshakeMac(E, key, data)
  {
    var cbc := CalculateMacCbc(E, key, data, [], Zeros(16)).value;
    CtrInvolutive(E, key, COUNTER_0_HANDSHAKE, 0, cbc);
    CtrInvolutive(E, key, COUNTER_0_HANDSHAKE, 0, mac);
  }

  /**
   A session response passes exactly when a device with the same code made its MAC for these keys
   and this session.
   */
  lemma ResponseAcceptedIff(E: BlockCipher, code: Bytes, ownKey: PublicKey, r: Response)
    ensures DecryptCtr(E, code, COUNTER_0_HANDSHAKE, r.mac, []).1 == CalculateMacCbc(E, code, ResponseData(ownKey, r), [], Zeros(16)).value
       <==> r.mac == DeviceMac(E, code, ownKey, r)
  {
    MacVerifiesIff(E, code, ResponseData(ownKey, r), r.mac);
  }

  /** The MAC of 40 octets without a nonce, as AN159 defines it. */
  function GenuineHandshakeMac(E: BlockCipher, key: Bytes, data: Bytes): Bytes
    requires |data| == 40
  {
    XorBytes(MacFold(E, key, E(key, Zeros(16)), BytePad([0, 40] + data, 16)), E(key, Zeros(14) + [0xff, 0x00]))
  }

  lemma HandshakeMacIsGenuine(E: BlockCipher, key: Bytes, data: Bytes)
    requires |data| == 40
    ensures HandshakeMac(E, key, data) == GenuineHandshakeMac(E, key, data)
  {
    MacStartsWithBlock0(E, key, data, [], Zeros(16));
    assert U16(40) == [0, 40];
    assert U16(|data|) + data + [] == [0, 40] + data;
    MacTakesBlock0PayloadTheRest(E, key, COUNTER_0_HANDSHAKE, CalculateMacCbc(E, key, data, [], Zeros(16)).value, []);
  }

  /**
   What the two MACs of the handshake cover: the header of the message, the session or the user,
   and both public keys, octet by octet; and how they are made.
   */
  lemma HandshakeOctets(E: BlockCipher, code: Bytes, password: Bytes, userId: byte, ownKey: PublicKey, r: Response)
    ensures |XorBytes(ownKey, r.serverKey)| == 32 && r.sessionId < 0x1_0000
    ensures DeviceMac(E, code, ownKey, r) ==
              GenuineHandshakeMac(E, code, [0x06, 0x10, 0x09, 0x52, 0x00, 0x38] + U16(r.sessionId) + XorBytes(ownKey, r.serverKey))
    ensures UserMac(E, password, userId, ownKey, r.serverKey) ==
              GenuineHandshakeMac(E, password, [0x06, 0x10, 0x09, 0x53, 0x00, 0x18, 0x00, userId] + XorBytes(ownKey, r.serverKey))
  {
    IntegerXorIsPointwise(ownKey, r.serverKey);
    HandshakeMacIsGenuine(E, code, ResponseData(ownKey, r));
    HandshakeMacIsGenuine(E, password, AuthenticateData(userId, ownKey, r.serverKey));
    assert [6, 16, 9, 0x53, 0, 0x18] + [0, userId] == [0x06, 0x10, 0x09, 0x53, 0x00, 0x18, 0x00, userId];
  }

  class SecureSession {
    const cipher: BlockCipher
    var key: Bytes
    var sessionId: nat
    var initialized: bool
    var sequenceNumber: nat
    var sequenceNumberReceived: int
    /** Frames handed to the registered callbacks. */
    var forwarded: seq<Frame>

    function View(): Receiver
      reads this
    {
      Receiver(initialized, sequenceNumberReceived)
    }

    constructor (cipher: BlockCipher)
      ensures View() == Receiver(false, -1) && sequenceNumber == 0 && forwarded == []
      ensures this.cipher == cipher
    {
      this.cipher := cipher;
      key, sessionId, initialized := [], 0, false;
      sequenceNumber, sequenceNumberReceived, forwarded := 0, -1, [];
    }

    /** connect() up to the session request. */
    method BeginConnect()
      modifies this`sequenceNumber, this`sequenceNumberReceived
      ensures sequenceNumber == 0 && sequenceNumberReceived == -1
    {
      sequenceNumber, sequenceNumberReceived := 0, -1;
    }

    /**
     connect() with the answer to its session request, up to the authentication request: the
     MAC to authenticate with, or what is raised. `sessionKey` is derived from both key pairs.
     */
    method SessionAnswered(response: Option<Response>, ownKey: PublicKey, sessionKey: Bytes,
                           deviceCode: Option<Bytes>, password: Bytes, userId: nat) returns (r: Result<Bytes>)
      modifies this`key, this`sessionId, this`initialized
      ensures response.None? ==> r == Err(CommunicationError) && key == old(key) && sessionId == old(sessionId)
      ensures response.Some? ==> sessionId == response.value.sessionId
      ensures response.Some? && deviceCode.Some? && response.value.mac != DeviceMac(cipher, deviceCode.value, ownKey, response.value) ==>
                r == Err(IPSecureError) && key == old(key)
      ensures response.Some? && (deviceCode.Some? ==> response.value.mac == DeviceMac(cipher, deviceCode.value, ownKey, response.value)) ==>
                && key == sessionKey
                && r == if userId < 256 then Ok(UserMac(cipher, password, userId, ownKey, response.value.serverKey)) else Err(OverflowError)
      ensures initialized == (old(initialized) || r.Ok?)
    {
      if response.None? {
        return Err(CommunicationError);
      }
      var serverKey := response.value.serverKey;
      sessionId := response.value.sessionId;
      if deviceCode.Some? {
        var expected := CalculateMacCbc(cipher, deviceCode.value, ResponseData(ownKey, response.value), [], Zeros(16));
        var (_, macTr) := DecryptCtr(cipher, deviceCode.value, COUNTER_0_HANDSHAKE, response.value.mac, []);
        ResponseAcceptedIff(cipher, deviceCode.value, ownKey, response.value);
        if macTr != expected.value {
          return Err(IPSecureError);
        }
      }
      key := sessionKey;
      if userId >= 256 {
        return Err(OverflowError);
      }
      r := Ok(UserMac(cipher, password, userId, ownKey, serverKey));
      initialized := true;
    }

    /** connect() with the answer to its authentication request; the session stays initialized even when it raises. */
    method AuthenticationAnswered(status: Option<byte>) returns (raised: Option<Error>)
      ensures raised == None <==> status == Some(STATUS_AUTHENTICATION_SUCCESS)
      ensures raised == Some(CommunicationError) <==> status.None?
      ensures raised in {None, Some(CommunicationError), Some(IPSecureError)}
    {
      if status.None? {
        return Some(CommunicationError);
      }
      if status.value != STATUS_AUTHENTICATION_SUCCESS {
        return Some(IPSecureError);
      }
      return None;
    }

    method GetSequenceInformation() returns (r: Result<Bytes>)
      modifies this`sequenceNumber
      ensures r == SequenceBytes(old(sequenceNumber))
      ensures sequenceNumber == Increment(old(sequenceNumber))
    {
      if sequenceNumber >= SEQUENCE_LIMIT {
        return Err(OverflowError);
      }
      Pow256Values();
      r := Ok(ToBE(sequenceNumber, 6));
      sequenceNumber := sequenceNumber + 1;
    }

    /** encrypt_frame of an initialized session. */
    method Encrypt(plain: Frame) returns (r: Result<Frame>)
      requires ValidFrame(plain)
      modifies this`sequenceNumber
      ensures old(sequenceNumber) >= SEQUENCE_LIMIT ==> r == Err(IPSecureError) && sequenceNumber == old(sequenceNumber)
      ensures old(sequenceNumber) < SEQUENCE_LIMIT ==>
                && old(sequenceNumber) < Pow256(6) && sequenceNumber == old(sequenceNumber) + 1
                && r == EncryptFrame(cipher, key, sessionId, TunnelNonce(old(sequenceNumber)), plain)
    {
      Pow256Values();
      var sequenceInformation := GetSequenceInformation();
      if sequenceInformation.Err? {
        return Err(IPSecureError);
      }
      r := EncryptFrame(cipher, key, sessionId,
                        Nonce(sequenceInformation.value, XKNX_SERIAL_NUMBER, MESSAGE_TAG_TUNNELLING), plain);
    }

    /** handle_knxipframe: frames that are not wrapped are forwarded as they are. */
    method HandleKnxIpFrame(f: Frame) returns (raised: Option<Error>)
      requires IsWrapped(f) ==> IsWrapper(f)
      modifies this`sequenceNumberReceived, this`forwarded
      ensures !IsWrapped(f) ==> View() == old(View()) && forwarded == old(forwarded) + [f] && raised == None
      ensures IsWrapped(f) ==> View() == Handle(OpenerOf(cipher, key, sessionId), old(View()), f).0
      ensures IsWrapped(f) ==>
                var h := Handle(OpenerOf(cipher, key, sessionId), old(View()), f).1;
                && forwarded == old(forwarded) + (if h.Forwarded? then [h.frame] else [])
                && raised == if h.Raised? then Some(h.error) else None
    {
      var frame := f;
      if IsWrapped(f) {
        if !initialized {
          return Some(CouldNotParseKNXIP);
        }
        var newSequenceNumber := FromBE(WrapperOf(f).sequence);
        if newSequenceNumber <= sequenceNumberReceived {
          return None;
        }
        var decrypted := DecryptFrame(cipher, key, sessionId, f);
        if decrypted.Err? {
          return if CaughtAsUnparsable(decrypted.error) then None else Some(decrypted.error);
        }
        frame := decrypted.value;
        sequenceNumberReceived := newSequenceNumber;
      }
      forwarded := forwarded + [frame];
      return None;
    }
  }

  // ----------------------------------------------------- a hostile channel

  /**
   What a session peer sent: wrapped[i] carries sequence number i and unwraps to plain[i].
   PeerTransmits below shows that encrypt_frame produces this.
   */
  ghost predicate IsTransmission(open: Opener, plain: seq<Frame>, wrapped: seq<WrapperFrame>) {
    && |plain| == |wrapped|
    && forall i :: 0 <= i < |wrapped| ==> SequenceOf(wrapped[i]) == i && open(wrapped[i]) == Ok(plain[i])
  }

  /**
   The assumption on the cryptography: among the wrappers that arrive, only those made by the
   peer's encrypt_frame pass the session and MAC check. Anything else may arrive too, and the
   peer's wrappers may arrive late, twice, in any order or not at all.
   */
  ghost predicate OnlySentWrappersVerify(open: Opener, wrapped: seq<WrapperFrame>, arriving: seq<WrapperFrame>) {
    forall f :: f in arriving && open(f) != Err(KNXSecureValidationError) ==> f in wrapped
  }

  /** The frames forwarded while `arriving` is handled in order. */
  function Deliver(open: Opener, s: Receiver, arriving: seq<WrapperFrame>): (Receiver, seq<Frame>)
    decreases |arriving|
  {
    if arriving == [] then (s, [])
    else
      var (s1, h) := Handle(open, s, arriving[0]);
      var (s2, out) := Deliver(open, s1, arriving[1..]);
      (s2, (if h.Forwarded? then [h.frame] else []) + out)
  }

  /** Strictly increasing indices between `above` and `limit`. */
  predicate Increasing(idx: seq<nat>, above: int, limit: nat) {
    && (forall j :: 0 <= j < |idx| ==> above < idx[j] < limit)
    && (forall j, k :: 0 <= j < k < |idx| ==> idx[j] < idx[k])
  }

  /** The frames with the given indices. */
  function Pick(plain: seq<Frame>, idx: seq<nat>): seq<Frame>
    requires forall j :: 0 <= j < |idx| ==> idx[j] < |plain|
  {
    seq(|idx|, j requires 0 <= j < |idx| => plain[idx[j]])
  }

  /**
   A wrapper that is not forwarded leaves the receive counter as it was; a forwarded one has a
   higher number than every one before and is the peer's frame of that number.
   */
  lemma OneArrival(open: Opener, s: Receiver, plain: seq<Frame>, wrapped: seq<WrapperFrame>, f: WrapperFrame)
    requires IsTransmission(open, plain, wrapped)
    requires open(f) != Err(KNXSecureValidationError) ==> f in wrapped
    ensures var (s', h) := Handle(open, s, f);
            if h.Forwarded? then
              s.received < SequenceOf(f) < |plain| && h.frame == plain[SequenceOf(f)] && s' == s.(received := SequenceOf(f))
            else s' == s
  {
    if f in wrapped {
      var i :| 0 <= i < |wrapped| && wrapped[i] == f;
      assert SequenceOf(wrapped[i]) == i;
    }
  }

  /**
   What becomes of a wrapper, in every state of every session: forwarded exactly when the session
   is initialized, its number is higher than any before and it unwraps; dropped without a word
   when the number is not, or when MAC or contents are wrong; raised otherwise.
   */
  lemma HandledIff(open: Opener, s: Receiver, arriving: seq<WrapperFrame>, f: WrapperFrame)
    ensures var now := Deliver(open, s, arriving).0;
            var h := Handle(open, now, f).1;
            && now.initialized == s.initialized
            && (h.Forwarded? <==> s.initialized && FromBE(WrapperOf(f).sequence) > now.received && open(f).Ok?)
            && (h.Forwarded? ==> open(f) == Ok(h.frame))
            && (h.Discarded? <==>
                  && s.initialized
                  && (FromBE(WrapperOf(f).sequence) <= now.received ||
                      open(f) in {Err(KNXSecureValidationError), Err(CouldNotParseKNXIP), Err(IncompleteKNXIPFrame)}))
            && (h.Raised? ==> h.error == if s.initialized then open(f).error else CouldNotParseKNXIP)
  {
    StaysInitialized(open, s, arriving);
  }

  lemma {:induction false} StaysInitialized(open: Opener, s: Receiver, arriving: seq<WrapperFrame>)
    ensures Deliver(open, s, arriving).0.initialized == s.initialized
    decreases |arriving|
  {
    if arriving != [] {
      StaysInitialized(open, Handle(open, s, arriving[0]).0, arriving[1..]);
    }
  }

  lemma IncreasingMore(i: nat, idx: seq<nat>, above: int, limit: nat)
    requires above < i < limit && Increasing(idx, i, limit)
    ensures Increasing([i] + idx, above, limit)
  {
    var all := [i] + idx;
    forall j, k | 0 <= j < k < |all| ensures all[j] < all[k] {
      assert all[k] == idx[k - 1];
      assert j > 0 ==> all[j] == idx[j - 1];
    }
  }

  lemma PickMore(plain: seq<Frame>, i: nat, idx: seq<nat>)
    requires i < |plain| && forall j :: 0 <= j < |idx| ==> idx[j] < |plain|
    ensures forall j :: 0 <= j < |[i] + idx| ==> ([i] + idx)[j] < |plain|
    ensures Pick(plain, [i] + idx) == [plain[i]] + Pick(plain, idx)
  {
    var all := [i] + idx;
    var picked := [plain[i]] + Pick(plain, idx);
    forall j | 0 <= j < |all| ensures all[j] < |plain| && picked[j] == plain[all[j]] {
      assert j > 0 ==> all[j] == idx[j - 1];
    }
  }

  /**
   Whatever the channel does, the forwarded frames are plain frames of the peer with strictly
   increasing indices: in order, without duplicates, each as it was sent.
   */
  lemma {:induction false} ForwardedIsSubsequence(
    open: Opener, s: Receiver, plain: seq<Frame>, wrapped: seq<WrapperFrame>, arriving: seq<WrapperFrame>)
    returns (idx: seq<nat>)
    requires IsTransmission(open, plain, wrapped)
    requires OnlySentWrappersVerify(open, wrapped, arriving)
    ensures Increasing(idx, s.received, |plain|)
    ensures Deliver(open, s, arriving).1 == Pick(plain, idx)
    ensures Deliver(open, s, arriving).0.received == if idx == [] then s.received else idx[|idx| - 1]
    decreases |arriving|
  {
    if arriving == [] {
      idx := [];
    } else {
      var f := arriving[0];
      assert f in arriving;
      OneArrival(open, s, plain, wrapped, f);
      var (s1, h) := Handle(open, s, f);
      var rest := ForwardedIsSubsequence(open, s1, plain, wrapped, arriving[1..]);
      if h.Forwarded? {
        IncreasingMore(SequenceOf(f), rest, s.received, |plain|);
        PickMore(plain, SequenceOf(f), rest);
        idx := [SequenceOf(f)] + rest;
      } else {
        idx := rest;
        assert [] + Pick(plain, rest) == Pick(plain, rest);
      }
    }
  }

  /** An undisturbed channel forwards everything. */
  lemma {:induction false} FaithfulChannelForwardsAll(
    open: Opener, s: Receiver, plain: seq<Frame>, wrapped: seq<WrapperFrame>, from: nat)
    requires IsTransmission(open, plain, wrapped) && s.initialized
    requires from <= |plain| && s.received == from - 1
    ensures Deliver(open, s, wrapped[from..]).1 == plain[from..]
    decreases |plain| - from
  {
    if from < |plain| {
      assert SequenceOf(wrapped[from]) == from && open(wrapped[from]) == Ok(plain[from]);
      var s1 := s.(received := from);
      FaithfulChannelForwardsAll(open, s1, plain, wrapped, from + 1);
      assert wrapped[from..][1..] == wrapped[from + 1..];
      assert plain[from..] == [plain[from]] + plain[from + 1..];
    }
  }

  // ------------------------------------------------ what encrypt_frame sends

  /** The octets of the frame with number `number` of a session: its serial number is 00 00 "xknx", its tag 00 00. */
  lemma SessionOctets(E: BlockCipher, key: Bytes, sessionId: nat, number: nat, plain: Frame)
    requires number < Pow256(6) && ValidFrame(plain) && sessionId < 0x1_0000 && plain.header.totalLength <= LONGEST_FRAME
    ensures var r, p := EncryptFrame(E, key, sessionId, TunnelNonce(number), plain), FrameToKnx(plain);
            var header := [0x06, 0x10, 0x09, 0x50] + U16(38 + |p|);
            var nonce := ToBE(number, 6) + [0x00, 0x00, 0x78, 0x6b, 0x6e, 0x78, 0x00, 0x00];
            && r.Ok? && ValidFrame(r.value)
            && FrameToKnx(r.value) ==
                 header + U16(sessionId) + nonce + GenuineData(E, key, nonce, p) + GenuineMac(E, key, header, sessionId, nonce, p)
  {
    var n := TunnelNonce(number);
    EncryptSucceedsIff(E, key, sessionId, n, plain);
    WrapperOctets(E, key, sessionId, n, plain);
    assert n.sequence + n.serial + n.tag == ToBE(number, 6) + [0x00, 0x00, 0x78, 0x6b, 0x6e, 0x78, 0x00, 0x00];
  }

  /** The wrappers of a peer that starts a session and sends `plain`, with its own serial and tag. */
  ghost predicate Encrypted(E: BlockCipher, key: Bytes, sessionId: nat, serial: Bytes, tag: Bytes, plain: seq<Frame>, wrapped: seq<Frame>) {
    && |serial| == 6 && |tag| == 2
    && |plain| == |wrapped| <= Pow256(6)
    && forall i :: 0 <= i < |plain| ==>
         && ValidFrame(plain[i])
         && EncryptFrame(E, key, sessionId, Nonce(ToBE(i, 6), serial, tag), plain[i]) == Ok(wrapped[i])
  }

  /** A session peer's wrappers are a transmission for the opener with the same key and session. */
  lemma PeerTransmits(E: BlockCipher, key: Bytes, sessionId: nat, serial: Bytes, tag: Bytes, plain: seq<Frame>, wrapped: seq<Frame>)
    requires Encrypted(E, key, sessionId, serial, tag, plain, wrapped)
    ensures forall i :: 0 <= i < |wrapped| ==> IsWrapper(wrapped[i])
    ensures IsTransmission(OpenerOf(E, key, sessionId), plain, wrapped)
  {
    forall i | 0 <= i < |wrapped|
      ensures IsWrapper(wrapped[i]) && SequenceOf(wrapped[i]) == i
      ensures OpenerOf(E, key, sessionId)(wrapped[i]) == Ok(plain[i])
    {
      OneTransmission(E, key, sessionId, serial, tag, plain[i], wrapped[i], i);
    }
  }

  lemma OneTransmission(E: BlockCipher, key: Bytes, sessionId: nat, serial: Bytes, tag: Bytes, plain: Frame, wrapped: Frame, i: nat)
    requires |serial| == 6 && |tag| == 2 && i < Pow256(6) && ValidFrame(plain)
    requires EncryptFrame(E, key, sessionId, Nonce(ToBE(i, 6), serial, tag), plain) == Ok(wrapped)
    ensures IsWrapper(wrapped) && SequenceOf(wrapped) == i && OpenerOf(E, key, sessionId)(wrapped) == Ok(plain)
  {
    DecryptUndoesWrap(E, key, sessionId, Nonce(ToBE(i, 6), serial, tag), plain);
    LiteralHeaderAgrees(E, key, sessionId, Nonce(ToBE(i, 6), serial, tag), plain);
  }
}
