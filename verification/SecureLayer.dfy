/** _IPSecureTransportLayer: wrapping a KNX/IP frame in a SecureWrapper and unwrapping it again. */
module SecureLayer {
  import opened Bytes
  import opened SecurityPrimitives
  import opened KnxIpFrame
  import opened SecureBodies

  /** 00 00 "xknx" */
  const XKNX_SERIAL_NUMBER: Bytes := [0x00, 0x00, 0x78, 0x6b, 0x6e, 0x78]
  const MESSAGE_TAG_TUNNELLING: Bytes := [0x00, 0x00]

  /** Sequence information, serial number and message tag: the first 14 octets of both blocks. */
  datatype Nonce = Nonce(sequence: Bytes, serial: Bytes, tag: Bytes)

  predicate ValidNonce(n: Nonce) {
    |n.sequence| == 6 && |n.serial| == 6 && |n.tag| == 2
  }

  /** The counter block of the MAC. */
  function Counter0(n: Nonce): Block
    requires ValidNonce(n)
  {
    n.sequence + n.serial + n.tag + [0xff, 0x00]
  }

  /** Block B_0 of the MAC computation. */
  function Block0(n: Nonce, payloadLength: nat): Block
    requires ValidNonce(n) && payloadLength < 0x1_0000
  {
    n.sequence + n.serial + n.tag + U16(payloadLength)
  }

  /** The body is a SecureWrapper. */
  predicate IsWrapped(f: Frame) {
    f.body.Secured? && f.body.secured.Wrapper?
  }

  function WrapperOf(f: Frame): SecureWrapper
    requires IsWrapped(f)
  {
    f.body.secured.wrapper
  }

  function NonceOf(w: SecureWrapper): Nonce {
    Nonce(w.sequence, w.serial, w.tag)
  }

  /** encrypt_frame, for sequence information and message tag already obtained. */
  function EncryptFrame(E: BlockCipher, key: Bytes, sessionId: nat, n: Nonce, plain: Frame): (r: Result<Frame>)
    requires ValidNonce(n) && ValidFrame(plain)
    ensures r.Ok? ==> IsWrapped(r.value) && NonceOf(WrapperOf(r.value)) == n
  {
    var payload := FrameToKnx(plain);
    var totalLength := 38 + |payload|;
    if totalLength >= 0x1_0000 || sessionId >= 0x1_0000 then Err(OverflowError)
    else
      var wrapperHeader := [0x06, 0x10, 0x09, 0x50] + U16(totalLength);
      var macCbc := CalculateMacCbc(E, key, wrapperHeader + U16(sessionId), payload, Block0(n, |payload|)).value;
      var (data, mac) := EncryptDataCtr(E, key, Counter0(n), macCbc, payload);
      Ok(InitFromBody(Secured(Wrapper(SecureWrapper(sessionId, n.sequence, n.serial, n.tag, data, mac)))))
  }

  /** decrypt_frame. The assertion on the body class is the precondition. */
  function DecryptFrame(E: BlockCipher, key: Bytes, sessionId: nat, f: Frame): (r: Result<Frame>)
    requires IsWrapped(f) && ValidNonce(NonceOf(WrapperOf(f))) && IsServiceType(f.header.serviceType)
  {
    var w := WrapperOf(f);
    if w.sessionId != sessionId then Err(KNXSecureValidationError)
    else if w.sessionId >= 0x1_0000 || |w.data| >= 0x1_0000 then Err(OverflowError)
    else
      var wrapperHeader :- HeaderToKnx(f.header);
      var n := NonceOf(w);
      var (payload, macTr) := DecryptCtr(E, key, Counter0(n), w.mac, w.data);
      var macCbc := CalculateMacCbc(E, key, wrapperHeader + U16(w.sessionId), payload, Block0(n, |payload|)).value;
      if macCbc != macTr then Err(KNXSecureValidationError)
      else
        var (inner, _) :- FrameFromKnx(payload);
        Ok(inner)
  }

  /** The literal header and the literal 38 of encrypt_frame are what the wrapper frame itself carries. */
  lemma LiteralHeaderAgrees(E: BlockCipher, key: Bytes, sessionId: nat, n: Nonce, plain: Frame)
    requires ValidNonce(n) && ValidFrame(plain) && EncryptFrame(E, key, sessionId, n, plain).Ok?
    ensures var f := EncryptFrame(E, key, sessionId, n, plain).value;
            && ValidFrame(f)
            && |FrameToKnx(f)| == 38 + |FrameToKnx(plain)|
            && HeaderToKnx(f.header) == Ok([0x06, 0x10, 0x09, 0x50] + U16(38 + |FrameToKnx(plain)|))
  {
    var f := EncryptFrame(E, key, sessionId, n, plain).value;
    assert U16(SECURE_WRAPPER) == [0x09, 0x50];
    assert f.header == Header(SECURE_WRAPPER, 38 + |FrameToKnx(plain)|);
    assert [HEADERLENGTH, PROTOCOLVERSION] + [0x09, 0x50] == [0x06, 0x10, 0x09, 0x50];
  }

  // ----------------------------------------------------- the octets on the wire

  /** The MAC of a wrapper with this header, session and nonce around the frame `p`, as AN159 defines it. */
  function GenuineMac(E: BlockCipher, key: Bytes, header: Bytes, sessionId: nat, nonce: Bytes, p: Bytes): Bytes
    requires |header| == 6 && sessionId < 0x1_0000 && |nonce| == 14 && |p| < 0x1_0000
  {
    var chain := MacFold(E, key, E(key, nonce + U16(|p|)), BytePad([0, 8] + header + U16(sessionId) + p, 16));
    XorBytes(chain, E(key, nonce + [0xff, 0x00]))
  }

  /** The encrypted form of `p`: the counter starts one block after that of the MAC. */
  function GenuineData(E: BlockCipher, key: Bytes, nonce: Bytes, p: Bytes): Bytes
    requires |nonce| == 14
  {
    CtrByBlocks(E, key, AddCounter(nonce + [0xff, 0x00], 1), p)
  }

  lemma MacOctets(E: BlockCipher, key: Bytes, header: Bytes, sessionId: nat, n: Nonce, p: Bytes)
    requires ValidNonce(n) && |header| == 6 && sessionId < 0x1_0000 && |p| < 0x1_0000
    ensures var macCbc := CalculateMacCbc(E, key, header + U16(sessionId), p, Block0(n, |p|)).value;
            var nonce := n.sequence + n.serial + n.tag;
            && XorBytes(macCbc, E(key, Counter0(n))) == GenuineMac(E, key, header, sessionId, nonce, p)
            && Counter0(n) == nonce + [0xff, 0x00]
  {
    var nonce := n.sequence + n.serial + n.tag;
    MacStartsWithBlock0(E, key, header + U16(sessionId), p, Block0(n, |p|));
    assert U16(8) == [0, 8];
    assert U16(8) + (header + U16(sessionId)) + p == [0, 8] + header + U16(sessionId) + p;
    assert Block0(n, |p|) == nonce + U16(|p|);
    assert Counter0(n) == nonce + [0xff, 0x00];
  }

  /** The data and the MAC of a wrapper are what any other implementation of the standard computes. */
  lemma WrapperParts(E: BlockCipher, key: Bytes, sessionId: nat, n: Nonce, plain: Frame)
    requires ValidNonce(n) && ValidFrame(plain) && EncryptFrame(E, key, sessionId, n, plain).Ok?
    ensures var p, nonce := FrameToKnx(plain), n.sequence + n.serial + n.tag;
            var w := WrapperOf(EncryptFrame(E, key, sessionId, n, plain).value);
            && sessionId < 0x1_0000 && 38 + |p| < 0x1_0000
            && w.data == GenuineData(E, key, nonce, p)
            && w.mac == GenuineMac(E, key, [0x06, 0x10, 0x09, 0x50] + U16(38 + |p|), sessionId, nonce, p)
  {
    var p := FrameToKnx(plain);
    var header := [0x06, 0x10, 0x09, 0x50] + U16(38 + |p|);
    MacOctets(E, key, header, sessionId, n, p);
    var macCbc := CalculateMacCbc(E, key, header + U16(sessionId), p, Block0(n, |p|)).value;
    MacTakesBlock0PayloadTheRest(E, key, Counter0(n), macCbc, p);
  }

  /**
   For every frame that fits, the octets that go out: the literal header with the total length,
   the session, sequence information, serial number and tag, and the encrypted frame and MAC.
   */
  lemma WrapperOctets(E: BlockCipher, key: Bytes, sessionId: nat, n: Nonce, plain: Frame)
    requires ValidNonce(n) && ValidFrame(plain) && EncryptFrame(E, key, sessionId, n, plain).Ok?
    ensures var p, nonce := FrameToKnx(plain), n.sequence + n.serial + n.tag;
            && sessionId < 0x1_0000 && 38 + |p| < 0x1_0000
            && ValidFrame(EncryptFrame(E, key, sessionId, n, plain).value)
            && var header := [0x06, 0x10, 0x09, 0x50] + U16(38 + |p|);
               FrameToKnx(EncryptFrame(E, key, sessionId, n, plain).value) ==
                 header + U16(sessionId) + nonce + GenuineData(E, key, nonce, p) + GenuineMac(E, key, header, sessionId, nonce, p)
  {
    LiteralHeaderAgrees(E, key, sessionId, n, plain);
    WrapperParts(E, key, sessionId, n, plain);
    var f := EncryptFrame(E, key, sessionId, n, plain).value;
    OctetsOfWrapped(f);
    var w := WrapperOf(f);
    assert w.sequence + w.serial + w.tag == n.sequence + n.serial + n.tag;
  }

  lemma OctetsOfWrapped(f: Frame)
    requires IsWrapped(f) && ValidFrame(f)
    ensures var w := WrapperOf(f);
            && w.sessionId < 0x1_0000 && HeaderToKnx(f.header).Ok?
            && FrameToKnx(f) == HeaderToKnx(f.header).value + U16(w.sessionId) + (w.sequence + w.serial + w.tag) + w.data + w.mac
  {
    var w := WrapperOf(f);
    assert FrameToKnx(f) == HeaderToKnx(f.header).value + WrapperToKnx(w);
    assert WrapperToKnx(w) == U16(w.sessionId) + (w.sequence + w.serial + w.tag) + w.data + w.mac;
  }

  lemma XorBack(E: BlockCipher, key: Bytes, counter: Block, mac: Bytes, macCbc: Bytes)
    requires |mac| == 16 && |macCbc| == 16
    ensures CtrUpdate(E, key, counter, 0, mac) == macCbc <==> mac == XorBytes(macCbc, E(key, counter))
  {
    CtrInvolutive(E, key, counter, 0, mac);
    CtrInvolutive(E, key, counter, 0, macCbc);
    CtrIsBlockwise(E, key, counter, 0, macCbc);
    AddCounterZero(counter);
    assert E(key, counter)[..16] == E(key, counter);
  }

  /**
   A wrapper passes exactly when it is of this session and its MAC is the genuine one of what its
   data decrypts to.
   */
  lemma MacPassesIff(E: BlockCipher, key: Bytes, sessionId: nat, f: Frame)
    requires IsWrapped(f) && ValidNonce(NonceOf(WrapperOf(f))) && IsServiceType(f.header.serviceType) && f.header.totalLength < 0x1_0000
    requires var w := WrapperOf(f); |w.mac| == 16 && |w.data| < 0x1_0000 && w.sessionId < 0x1_0000
    ensures var w := WrapperOf(f);
            var nonce := w.sequence + w.serial + w.tag;
            var p := GenuineData(E, key, nonce, w.data);
            var header := [0x06, 0x10] + U16(f.header.serviceType) + U16(f.header.totalLength);
            && |p| == |w.data|
            && DecryptFrame(E, key, sessionId, f) ==
                 if w.sessionId != sessionId || w.mac != GenuineMac(E, key, header, sessionId, nonce, p) then Err(KNXSecureValidationError)
                 else if FrameFromKnx(p).Ok? then Ok(FrameFromKnx(p).value.0) else Err(FrameFromKnx(p).error)
  {
    var w := WrapperOf(f);
    var n := NonceOf(w);
    var header := [0x06, 0x10] + U16(f.header.serviceType) + U16(f.header.totalLength);
    CtrIsBlockwise(E, key, Counter0(n), 1, w.data);
    var p := CtrUpdate(E, key, Counter0(n), 16, w.data);
    MacOctets(E, key, header, w.sessionId, n, p);
    XorBack(E, key, Counter0(n), w.mac, CalculateMacCbc(E, key, header + U16(w.sessionId), p, Block0(n, |p|)).value);
    assert HeaderToKnx(f.header) == Ok(header);
  }

  // ------------------------------------------------------------- timer notifies

  const TIMER_NOTIFY_HEADER: Bytes := [0x06, 0x10, 0x09, 0x55, 0x00, 0x24]

  /** The MAC that send_timer_notify makes; `n.sequence` is the timer value. */
  function TimerNotifyMac(E: BlockCipher, key: Bytes, n: Nonce): (mac: Bytes)
    requires ValidNonce(n)
    ensures |mac| == 16
  {
    var macCbc := CalculateMacCbc(E, key, TIMER_NOTIFY_HEADER, [], Block0(n, 0)).value;
    EncryptDataCtr(E, key, Counter0(n), macCbc, []).1
  }

  /** verify_timer_notify_mac */
  predicate TimerNotifyVerifies(E: BlockCipher, key: Bytes, n: Nonce, mac: Bytes)
    requires ValidNonce(n) && |mac| == 16
  {
    var (_, macTr) := DecryptCtr(E, key, Counter0(n), mac, []);
    CalculateMacCbc(E, key, TIMER_NOTIFY_HEADER, [], Block0(n, 0)).value == macTr
  }

  /** A timer notify verifies exactly with the MAC that any member of the group with this key makes, octet by octet. */
  lemma TimerNotifyVerifiesIff(E: BlockCipher, key: Bytes, n: Nonce, mac: Bytes)
    requires ValidNonce(n) && |mac| == 16
    ensures TimerNotifyVerifies(E, key, n, mac) <==> mac == TimerNotifyMac(E, key, n)
    ensures var nonce := n.sequence + n.serial + n.tag;
            TimerNotifyMac(E, key, n) ==
              XorBytes(MacFold(E, key, E(key, nonce + [0x00, 0x00]), BytePad([0x00, 0x06, 0x06, 0x10, 0x09, 0x55, 0x00, 0x24], 16)),
                       E(key, nonce + [0xff, 0x00]))
  {
    var macCbc := CalculateMacCbc(E, key, TIMER_NOTIFY_HEADER, [], Block0(n, 0)).value;
    XorBack(E, key, Counter0(n), mac, macCbc);
    MacTakesBlock0PayloadTheRest(E, key, Counter0(n), macCbc, []);
    MacStartsWithBlock0(E, key, TIMER_NOTIFY_HEADER, [], Block0(n, 0));
    assert U16(6) + TIMER_NOTIFY_HEADER + [] == [0x00, 0x06, 0x06, 0x10, 0x09, 0x55, 0x00, 0x24];
    assert Block0(n, 0) == n.sequence + n.serial + n.tag + [0x00, 0x00];
    assert Counter0(n) == n.sequence + n.serial + n.tag + [0xff, 0x00];
  }

  /** The longest frame that encrypt_frame can wrap. */
  const LONGEST_FRAME := 65497

  /** A frame is wrapped exactly when the wrapper still fits the two-octet length field. */
  lemma EncryptSucceedsIff(E: BlockCipher, key: Bytes, sessionId: nat, n: Nonce, plain: Frame)
    requires ValidNonce(n) && ValidFrame(plain) && sessionId < 0x1_0000
    ensures EncryptFrame(E, key, sessionId, n, plain).Ok? <==> plain.header.totalLength <= LONGEST_FRAME
    ensures EncryptFrame(E, key, sessionId, n, plain).Err? ==> EncryptFrame(E, key, sessionId, n, plain) == Err(OverflowError)
  {
  }

  /** Unwrapping a wrapped frame gives the frame back. */
  lemma DecryptUndoesWrap(E: BlockCipher, key: Bytes, sessionId: nat, n: Nonce, plain: Frame)
    requires ValidNonce(n) && ValidFrame(plain) && EncryptFrame(E, key, sessionId, n, plain).Ok?
    ensures DecryptFrame(E, key, sessionId, EncryptFrame(E, key, sessionId, n, plain).value) == Ok(plain)
  {
    var f := EncryptFrame(E, key, sessionId, n, plain).value;
    var payload := FrameToKnx(plain);
    var header := [0x06, 0x10, 0x09, 0x50] + U16(38 + |payload|);
    LiteralHeaderAgrees(E, key, sessionId, n, plain);
    var macCbc := CalculateMacCbc(E, key, header + U16(sessionId), payload, Block0(n, |payload|)).value;
    DecryptUndoesEncrypt(E, key, Counter0(n), macCbc, payload);
    FrameRoundTrip(plain, []);
    assert payload + [] == payload;
  }

  /**
   For every key, session, sequence number, tag and frame that fits: the wrapper serialises,
   parses back to itself in front of any further octets, and unwraps to the original frame.
   */
  lemma WrapRoundTrip(E: BlockCipher, key: Bytes, sessionId: nat, n: Nonce, plain: Frame, tail: Bytes)
    requires ValidNonce(n) && ValidFrame(plain) && sessionId < 0x1_0000 && plain.header.totalLength <= LONGEST_FRAME
    ensures EncryptFrame(E, key, sessionId, n, plain).Ok?
    ensures var f := EncryptFrame(E, key, sessionId, n, plain).value;
            && ValidFrame(f)
            && FrameFromKnx(FrameToKnx(f) + tail) == Ok((f, tail))
            && DecryptFrame(E, key, sessionId, f) == Ok(plain)
  {
    EncryptSucceedsIff(E, key, sessionId, n, plain);
    LiteralHeaderAgrees(E, key, sessionId, n, plain);
    FrameRoundTrip(EncryptFrame(E, key, sessionId, n, plain).value, tail);
    DecryptUndoesWrap(E, key, sessionId, n, plain);
  }

  // ------------------------------------------------- no counter block is used twice

  lemma {:induction false} FromBEOfConcat(a: Bytes, b: Bytes)
    ensures FromBE(a + b) == FromBE(a) * Pow256(|b|) + FromBE(b)
  {
    if b == [] {
      assert a + b == a;
      assert FromBE(a) * 1 == FromBE(a);
    } else {
      var init := b[..|b| - 1];
      FromBEOfConcat(a, init);
      assert (a + b)[..|a + b| - 1] == a + init;
      ScaleBy256(FromBE(a), Pow256(|init|), FromBE(init));
    }
  }

  lemma ScaleBy256(x: nat, p: nat, y: nat)
    ensures 256 * (x * p + y) == x * (256 * p) + 256 * y
  {
  }

  /** The highest counter block that a frame can reach: MAC first, then payload. */
  const LAST_COUNTER := 4094

  /** The counter block that encrypts octet `pos` of the MAC and payload of a tunnelling frame. */
  function CounterAt(sequenceNumber: nat, pos: nat): Block
    requires sequenceNumber < Pow256(6)
  {
    AddCounter(Counter0(TunnelNonce(sequenceNumber)), pos / 16)
  }

  lemma FrameStaysBelowLastCounter(length: nat, pos: nat)
    requires length <= LONGEST_FRAME && pos < 16 + length
    ensures pos / 16 <= LAST_COUNTER
  {
  }

  /** The rest of the counter block of tunnelling frames after the sequence information. */
  const COUNTER_TAIL: Bytes := XKNX_SERIAL_NUMBER + MESSAGE_TAG_TUNNELLING + [0xff, 0x00]

  function TunnelNonce(sequenceNumber: nat): (n: Nonce)
    requires sequenceNumber < Pow256(6)
    ensures ValidNonce(n)
  {
    Nonce(ToBE(sequenceNumber, 6), XKNX_SERIAL_NUMBER, MESSAGE_TAG_TUNNELLING)
  }

  /** The counter tail leaves room for every block of a frame without reaching the sequence information. */
  lemma TailLeavesRoom(k: nat)
    requires k <= LAST_COUNTER
    ensures FromBE(COUNTER_TAIL) + k < Pow256(10)
  {
    var rest := COUNTER_TAIL[1..];
    assert COUNTER_TAIL == [0] + rest;
    FromBEOfConcat([0], rest);
    assert FromBE([0]) == 0 by { assert [0][..0] == []; }
    assert Pow256(10) == 256 * Pow256(9) && Pow256(9) == 256 * Pow256(8) && Pow256(8) == 256 * Pow256(7);
    assert |rest| == 9;
  }

  /** The counter of block k of a tunnelling frame as a number: nothing wraps, nothing carries upwards. */
  lemma CounterValue(s: nat, k: nat)
    requires s < Pow256(6) && k <= LAST_COUNTER
    ensures FromBE(AddCounter(Counter0(TunnelNonce(s)), k)) == s * Pow256(10) + (FromBE(COUNTER_TAIL) + k)
  {
    var c := Counter0(TunnelNonce(s));
    assert c == ToBE(s, 6) + COUNTER_TAIL;
    FromBEOfConcat(ToBE(s, 6), COUNTER_TAIL);
    TailLeavesRoom(k);
    PowerOfSum(6, 10);
    ProductBelow(s, Pow256(6), Pow256(10), FromBE(COUNTER_TAIL) + k);
  }

  lemma {:induction false} PowerOfSum(a: nat, b: nat)
    ensures Pow256(a + b) == Pow256(a) * Pow256(b)
  {
    if a == 0 {
      assert Pow256(b) == 1 * Pow256(b);
    } else {
      PowerOfSum(a - 1, b);
      ScaleProduct(Pow256(a - 1), Pow256(b));
    }
  }

  lemma ScaleProduct(p: nat, q: nat)
    ensures 256 * (p * q) == (256 * p) * q
  {
  }

  lemma ProductBelow(s: nat, m: nat, p: nat, r: nat)
    requires s < m && r < p
    ensures s * p + r < m * p
  {
    assert (s + 1) * p == s * p + p;
    assert (m - (s + 1)) * p >= 0;
    assert m * p == (m - (s + 1)) * p + (s + 1) * p;
  }

  /**
   In a tunnelling session no two 16-octet blocks are encrypted under one counter block: within
   the MAC and payload of a frame of any length that can be wrapped, and between frames with
   different sequence numbers.
   */
  lemma CounterBlocksDistinct(s1: nat, length1: nat, pos1: nat, s2: nat, length2: nat, pos2: nat)
    requires s1 < Pow256(6) && s2 < Pow256(6) && length1 <= LONGEST_FRAME && length2 <= LONGEST_FRAME
    requires pos1 < 16 + length1 && pos2 < 16 + length2
    ensures CounterAt(s1, pos1) == CounterAt(s2, pos2) <==> s1 == s2 && pos1 / 16 == pos2 / 16
  {
    var k1, k2 := pos1 / 16, pos2 / 16;
    FrameStaysBelowLastCounter(length1, pos1);
    FrameStaysBelowLastCounter(length2, pos2);
    CounterValue(s1, k1);
    CounterValue(s2, k2);
    TailLeavesRoom(k1);
    TailLeavesRoom(k2);
    if CounterAt(s1, pos1) == CounterAt(s2, pos2) {
      SameQuotient(s1, FromBE(COUNTER_TAIL) + k1, s2, FromBE(COUNTER_TAIL) + k2, Pow256(10));
    }
  }

  lemma SameQuotient(q1: nat, r1: nat, q2: nat, r2: nat, p: nat)
    requires r1 < p && r2 < p && q1 * p + r1 == q2 * p + r2
    ensures q1 == q2 && r1 == r2
  {
    assert p * q1 + r1 == q1 * p + r1 && p * q2 + r2 == q2 * p + r2;
    ModUnique(q1 * p + r1, q1, r1, p);
    ModUnique(q1 * p + r1, q2, r2, p);
  }
}
