/**
 CBC-MAC and CTR mode over an arbitrary block function, as used by KNX IP Secure.
 The block function stands for AES; nothing is assumed of it except that it maps
 a key and a 16-octet block to a 16-octet block.
 */
module SecurityPrimitives {
  import opened Bytes

  const BLOCK_SIZE := 16

  type Block = b: Bytes | |b| == 16 witness Zeros(16)

  type BlockCipher = (Bytes, Block) -> Block

  /** Pad with zero octets up to a multiple of blockSize. */
  function BytePad(data: Bytes, blockSize: nat): (r: Bytes)
    requires blockSize > 0
    ensures |r| % blockSize == 0
    ensures data <= r && |r| < |data| + blockSize
    ensures forall i :: |data| <= i < |r| ==> r[i] == 0
  {
    var remainder := |data| % blockSize;
    if remainder != 0 then
      PadLength(|data|, blockSize);
      data + Zeros(blockSize - remainder)
    else data
  }

  lemma PadLength(n: nat, m: nat)
    requires m > 0 && n % m != 0
    ensures (n + (m - n % m)) % m == 0
  {
    var q := n / m;
    Distribute(q, m);
    ModUnique(n + (m - n % m), q + 1, 0, m);
  }

  lemma Distribute(q: nat, m: nat)
    ensures m * (q + 1) == m * q + m
  {
  }

  lemma ModUnique(n: nat, q: nat, r: nat, m: nat)
    requires m > 0 && r < m && n == m * q + r
    ensures n % m == r && n / m == q
  {
    var d := q - n / m;
    assert m * d == m * q - m * (n / m);
    MultipleIsFar(m, d);
  }

  lemma MultipleIsFar(m: nat, d: int)
    requires m > 0
    ensures d > 0 ==> m * d >= m
    ensures d < 0 ==> m * d <= 0 - m
  {
  }

  /** bytes_xor: exclusive or taken on the big-endian integers of the operands. */
  function BytesXor(a: Bytes, b: Bytes): (r: Result<Bytes>)
    ensures r.Ok? <==> |a| == |b|
  {
    if |a| != |b| then Err(ValueError)
    else
      IntegerXorIsPointwise(a, b);
      Ok(ToBE(Xor(FromBE(a), FromBE(b)), |a|))
  }

  /** The integer exclusive or is the octet-wise one, so leading zero octets are kept. */
  lemma {:induction false} IntegerXorIsPointwise(a: Bytes, b: Bytes)
    requires |a| == |b|
    ensures Xor(FromBE(a), FromBE(b)) == FromBE(XorBytes(a, b))
    ensures ToBE(FromBE(XorBytes(a, b)), |a|) == XorBytes(a, b)
  {
    var x := XorBytes(a, b);
    if a != [] {
      var n := |a| - 1;
      IntegerXorIsPointwise(a[..n], b[..n]);
      assert XorBytes(a[..n], b[..n]) == x[..n];
      FromBEIsJoin(a);
      FromBEIsJoin(b);
      FromBEIsJoin(x);
      XorSplit(FromBE(a[..n]), a[n], FromBE(b[..n]), b[n], 8);
    }
    ToBEOfFromBE(x);
  }

  lemma FromBEIsJoin(a: Bytes)
    requires a != []
    ensures FromBE(a) == Join(FromBE(a[..|a| - 1]), a[|a| - 1], 8)
    ensures Pow2(8) == 256
  {
    assert Pow2(8) == 256 by { assert Pow2(4) == 16; }
  }

  // ---------------------------------------------------------------- CBC-MAC

  /** CBC encryption of a whole number of blocks. */
  function CbcEncrypt(E: BlockCipher, key: Bytes, iv: Block, data: Bytes): (r: Bytes)
    requires |data| % BLOCK_SIZE == 0
    ensures |r| == |data|
    decreases |data|
  {
    if data == [] then []
    else
      var c: Bytes := E(key, XorBytes(iv, data[..BLOCK_SIZE]));
      c + CbcEncrypt(E, key, c, data[BLOCK_SIZE..])
  }

  /** calculate_message_authentication_code_cbc */
  function CalculateMacCbc(E: BlockCipher, key: Bytes, additionalData: Bytes, payload: Bytes, block0: Block): (r: Result<Bytes>)
    ensures r.Ok? <==> |additionalData| < 0x1_0000
    ensures r.Ok? ==> |r.value| == 16
  {
    if |additionalData| >= 0x1_0000 then Err(OverflowError)
    else
      var blocks := block0 + U16(|additionalData|) + additionalData + payload;
      var y := CbcEncrypt(E, key, Zeros(16), BytePad(blocks, BLOCK_SIZE));
      Ok(y[|y| - 16..])
  }

  /** The MAC written as the fold that defines CBC-MAC. */
  function MacFold(E: BlockCipher, key: Bytes, y: Block, data: Bytes): Block
    requires |data| % BLOCK_SIZE == 0
    decreases |data|
  {
    if data == [] then y
    else MacFold(E, key, E(key, XorBytes(y, data[..BLOCK_SIZE])), data[BLOCK_SIZE..])
  }

  /** The last ciphertext block of CBC encryption is the CBC-MAC fold. */
  lemma {:induction false} CbcLastBlockIsFold(E: BlockCipher, key: Bytes, iv: Block, data: Bytes)
    requires |data| % BLOCK_SIZE == 0 && data != []
    ensures CbcEncrypt(E, key, iv, data)[|data| - 16..] == MacFold(E, key, iv, data)
    decreases |data|
  {
    var c: Bytes := E(key, XorBytes(iv, data[..BLOCK_SIZE]));
    var rest := data[BLOCK_SIZE..];
    if rest == [] {
      assert CbcEncrypt(E, key, iv, data) == c;
    } else {
      CbcLastBlockIsFold(E, key, c, rest);
      var y: Bytes := CbcEncrypt(E, key, c, rest);
      assert (c + y)[|data| - 16..] == y[|rest| - 16..];
    }
  }

  /**
   Section 2.2.1 of AN159: the MAC is the chain over block B_0 first, then over the
   length-prefixed associated data and the payload, zero padded. B_0 is authenticated
   through the first cipher call.
   */
  lemma MacStartsWithBlock0(E: BlockCipher, key: Bytes, additionalData: Bytes, payload: Bytes, block0: Block)
    requires |additionalData| < 0x1_0000
    ensures CalculateMacCbc(E, key, additionalData, payload, block0)
         == Ok(MacFold(E, key, E(key, block0), BytePad(U16(|additionalData|) + additionalData + payload, BLOCK_SIZE)))
  {
    var rest := U16(|additionalData|) + additionalData + payload;
    var blocks := block0 + U16(|additionalData|) + additionalData + payload;
    var padded := BytePad(blocks, BLOCK_SIZE);
    assert blocks == block0 + rest;
    assert |blocks| % BLOCK_SIZE == |rest| % BLOCK_SIZE;
    assert padded[BLOCK_SIZE..] == BytePad(rest, BLOCK_SIZE);
    assert padded[..BLOCK_SIZE] == block0;
    CbcLastBlockIsFold(E, key, Zeros(16), padded);
    forall i | 0 <= i < 16
      ensures XorByte(0, block0[i]) == block0[i]
    {
      XorInvolutive(block0[i], 0);
      XorCommutes(0, block0[i]);
      XorZero(block0[i]);
    }
    assert XorBytes(Zeros(16), block0) == block0;
  }

  lemma {:induction false} XorCommutes(a: nat, b: nat)
    ensures Xor(a, b) == Xor(b, a)
    decreases a + b
  {
    if a != 0 || b != 0 {
      XorCommutes(a / 2, b / 2);
    }
  }

  lemma {:induction false} XorZero(a: nat)
    ensures Xor(a, 0) == a
  {
    if a != 0 {
      XorZero(a / 2);
    }
  }

  // ---------------------------------------------------------------- CTR mode

  /** The counter with the given number modulo p. */
  function Wrap(n: nat, p: nat): (r: nat)
    requires p > 0
    ensures r < p
    ensures n < p ==> r == n
  {
    n % p
  }

  /** The 128-bit counter block `blocks` steps after counter0; it wraps at 2^128. */
  function AddCounter(counter0: Block, blocks: nat): (c: Block)
    ensures FromBE(c) == Wrap(FromBE(counter0) + blocks, Pow256(|counter0|))
  {
    ToBE(Wrap(FromBE(counter0) + blocks, Pow256(|counter0|)), |counter0|)
  }

  function KeystreamByte(E: BlockCipher, key: Bytes, counter0: Block, pos: nat): byte {
    E(key, AddCounter(counter0, pos / 16))[pos % 16]
  }

  /** What a CTR context returns for `data` after it has already consumed `pos` octets. */
  function CtrUpdate(E: BlockCipher, key: Bytes, counter0: Block, pos: nat, data: Bytes): (r: Bytes)
    ensures |r| == |data|
  {
    seq(|data|, i requires 0 <= i < |data| => XorByte(data[i], KeystreamByte(E, key, counter0, pos + i)))
  }

  /** encrypt_data_ctr: encrypted data and encrypted MAC. */
  function EncryptDataCtr(E: BlockCipher, key: Bytes, counter0: Block, macCbc: Bytes, payload: Bytes): (r: (Bytes, Bytes))
    ensures |r.0| == |payload| && |r.1| == |macCbc|
  {
    var mac := CtrUpdate(E, key, counter0, 0, macCbc);
    (CtrUpdate(E, key, counter0, |macCbc|, payload), mac)
  }

  /** decrypt_ctr: decrypted data and decrypted MAC. */
  function DecryptCtr(E: BlockCipher, key: Bytes, counter0: Block, mac: Bytes, payload: Bytes): (r: (Bytes, Bytes))
    ensures |r.0| == |payload| && |r.1| == |mac|
  {
    var macTr := CtrUpdate(E, key, counter0, 0, mac);
    (CtrUpdate(E, key, counter0, |mac|, payload), macTr)
  }

  lemma CtrInvolutive(E: BlockCipher, key: Bytes, counter0: Block, pos: nat, data: Bytes)
    ensures CtrUpdate(E, key, counter0, pos, CtrUpdate(E, key, counter0, pos, data)) == data
  {
    var once := CtrUpdate(E, key, counter0, pos, data);
    var twice := CtrUpdate(E, key, counter0, pos, once);
    forall i | 0 <= i < |data|
      ensures twice[i] == data[i]
    {
      var k := KeystreamByte(E, key, counter0, pos + i);
      assert once[i] == XorByte(data[i], k) && twice[i] == XorByte(once[i], k);
      XorByteInvolutive(data[i], k);
    }
  }

  /** Decryption undoes encryption for every key, counter, MAC and payload. */
  lemma DecryptUndoesEncrypt(E: BlockCipher, key: Bytes, counter0: Block, macCbc: Bytes, payload: Bytes)
    ensures var (data, mac) := EncryptDataCtr(E, key, counter0, macCbc, payload);
            DecryptCtr(E, key, counter0, mac, data) == (payload, macCbc)
  {
    CtrInvolutive(E, key, counter0, 0, macCbc);
    CtrInvolutive(E, key, counter0, |macCbc|, payload);
  }

  /** CTR as the mode defines it: whole blocks, the counter block going up by one each time. */
  function CtrByBlocks(E: BlockCipher, key: Bytes, counter: Block, data: Bytes): (r: Bytes)
    ensures |r| == |data|
    decreases |data|
  {
    if |data| <= 16 then
      var k := E(key, counter);
      XorBytes(data, k[..|data|])
    else
      XorBytes(data[..16], E(key, counter)) + CtrByBlocks(E, key, AddCounter(counter, 1), data[16..])
  }

  lemma AddCounterComposes(counter0: Block, j: nat, k: nat)
    ensures AddCounter(AddCounter(counter0, j), k) == AddCounter(counter0, j + k)
  {
    WrapOfSum(FromBE(counter0) + j, k, Pow256(|counter0|));
  }

  lemma AddCounterZero(counter0: Block)
    ensures AddCounter(counter0, 0) == counter0
  {
    ToBEOfFromBE(counter0);
  }

  lemma WrapOfSum(a: nat, k: nat, m: nat)
    requires m > 0
    ensures Wrap(Wrap(a, m) + k, m) == Wrap(a + k, m)
  {
    ModOfSum(a, k, m);
  }

  lemma ModOfSum(a: nat, k: nat, m: nat)
    requires m > 0
    ensures (a % m + k) % m == (a + k) % m
  {
    var b := a % m + k;
    var q, p := a / m, b / m;
    assert m * (q + p) == m * q + m * p;
    ModUnique(a + k, q + p, b % m, m);
  }

  /** Within one counter block the keystream is that block's cipher output. */
  lemma KeystreamInBlock(E: BlockCipher, key: Bytes, counter0: Block, block: nat, i: nat)
    requires i < 16
    ensures KeystreamByte(E, key, counter0, 16 * block + i) == E(key, AddCounter(counter0, block))[i]
  {
    assert (16 * block + i) / 16 == block && (16 * block + i) % 16 == i;
  }

  lemma CtrHead(E: BlockCipher, key: Bytes, counter0: Block, block: nat, data: Bytes)
    requires |data| <= 16
    ensures CtrUpdate(E, key, counter0, 16 * block, data) == XorBytes(data, E(key, AddCounter(counter0, block))[..|data|])
  {
    var k := E(key, AddCounter(counter0, block));
    var r := CtrUpdate(E, key, counter0, 16 * block, data);
    forall i | 0 <= i < |data|
      ensures r[i] == XorByte(data[i], k[i])
    {
      KeystreamInBlock(E, key, counter0, block, i);
    }
  }

  /** A context at a block boundary continues exactly like a fresh one started at that block. */
  lemma {:induction false} CtrIsBlockwise(E: BlockCipher, key: Bytes, counter0: Block, block: nat, data: Bytes)
    ensures CtrUpdate(E, key, counter0, 16 * block, data) == CtrByBlocks(E, key, AddCounter(counter0, block), data)
    decreases |data|
  {
    if |data| <= 16 {
      CtrHead(E, key, counter0, block, data);
    } else {
      CtrIsBlockwise(E, key, counter0, block + 1, data[16..]);
      AddCounterComposes(counter0, block, 1);
      CtrTail(E, key, counter0, block, data);
      CtrHead(E, key, counter0, block, data[..16]);
      var r := CtrUpdate(E, key, counter0, 16 * block, data);
      assert r[..16] == CtrUpdate(E, key, counter0, 16 * block, data[..16]);
      var k := E(key, AddCounter(counter0, block));
      assert k[..16] == k;
      assert r == r[..16] + r[16..];
    }
  }

  lemma CtrTail(E: BlockCipher, key: Bytes, counter0: Block, block: nat, data: Bytes)
    requires |data| > 16
    ensures CtrUpdate(E, key, counter0, 16 * block, data)[16..] == CtrUpdate(E, key, counter0, 16 * (block + 1), data[16..])
  {
    var r := CtrUpdate(E, key, counter0, 16 * block, data);
    var tail := CtrUpdate(E, key, counter0, 16 * (block + 1), data[16..]);
    forall i | 0 <= i < |data| - 16
      ensures r[16..][i] == tail[i]
    {
      assert 16 * block + (16 + i) == 16 * (block + 1) + i;
    }
  }

  /**
   The block alignment that KNX IP Secure asks for: a 16-octet MAC takes exactly
   counter block 0 and the payload starts at counter block 1.
   */
  lemma MacTakesBlock0PayloadTheRest(E: BlockCipher, key: Bytes, counter0: Block, macCbc: Block, payload: Bytes)
    ensures var (data, mac) := EncryptDataCtr(E, key, counter0, macCbc, payload);
            mac == XorBytes(macCbc, E(key, counter0)) && data == CtrByBlocks(E, key, AddCounter(counter0, 1), payload)
  {
    CtrIsBlockwise(E, key, counter0, 0, macCbc);
    CtrIsBlockwise(E, key, counter0, 1, payload);
    AddCounterZero(counter0);
    assert E(key, counter0)[..16] == E(key, counter0);
  }
}
