// Cipher feedback mode with a 128-bit segment (Bouncy Castle's
// CFBBlockCipher(engine, 128)) over an abstract block cipher.  AES itself is
// not modelled: it is the `BlockCipher` parameter, the forward (encrypting)
// direction of the block function, which is all CFB ever uses.
//
// The mode is written as the byte-at-a-time state machine Bouncy Castle runs,
// so that a stream that decrypts byte by byte can be specified by it.
module Cfb {
  import opened Types

  const BlockSize: nat := 16

  type Block = b: seq<byte> | |b| == BlockSize witness seq(16, _ => 0)

  /** The forward block function of the underlying cipher, keyed by its first argument. */
  type BlockCipher = (seq<byte>, Block) -> Block

  /**
   * The feedback register (the previous ciphertext block, initially the
   * all-zero IV) and the ciphertext bytes of the current block seen so far.
   */
  datatype RawState = State(register: Block, segment: seq<byte>)
  type State = s: RawState | |s.segment| < BlockSize witness State(seq(16, _ => 0), [])

  /** No IV is supplied, so the register starts as the all-zero block. */
  function Initial(): State {
    State(seq(16, _ => 0), [])
  }

  /** Feeds one ciphertext byte; a completed block becomes the next register. */
  function Feed(s: State, c: byte): State {
    var seg := s.segment + [c];
    if |seg| == BlockSize then State(seg, []) else State(s.register, seg)
  }

  /** The state once the ciphertext `c` has gone through the cipher. */
  function StateAfter(c: seq<byte>): State {
    if c == [] then Initial() else Feed(StateAfter(c[..|c| - 1]), c[|c| - 1])
  }

  /** The keystream byte that the next ciphertext byte is combined with. */
  function KeyByte(aes: BlockCipher, key: seq<byte>, s: State): byte {
    aes(key, s.register)[|s.segment|]
  }

  /** CFB-128 decryption of `c`, one byte after another. */
  function Decrypt(aes: BlockCipher, key: seq<byte>, c: seq<byte>): (p: seq<byte>)
    ensures |p| == |c|
  {
    if c == [] then []
    else
      var n := |c| - 1;
      Decrypt(aes, key, c[..n]) + [KeyByte(aes, key, StateAfter(c[..n])) ^ c[n]]
  }

  /** CFB-128 encryption of `p`: the feedback is the ciphertext produced so far. */
  function Encrypt(aes: BlockCipher, key: seq<byte>, p: seq<byte>): (c: seq<byte>)
    ensures |c| == |p|
  {
    if p == [] then []
    else
      var n := |p| - 1;
      var c0 := Encrypt(aes, key, p[..n]);
      c0 + [KeyByte(aes, key, StateAfter(c0)) ^ p[n]]
  }

  /** Decrypting one more ciphertext byte appends exactly one plaintext byte (streaming). */
  lemma {:induction false} DecryptAppend(aes: BlockCipher, key: seq<byte>, c: seq<byte>, x: byte)
    ensures StateAfter(c + [x]) == Feed(StateAfter(c), x)
    ensures Decrypt(aes, key, c + [x]) == Decrypt(aes, key, c) + [KeyByte(aes, key, StateAfter(c)) ^ x]
  {
    assert (c + [x])[..|c|] == c;
  }

  /** Decrypting a prefix of the ciphertext yields the same prefix of the plaintext. */
  lemma {:induction false} DecryptPrefix(aes: BlockCipher, key: seq<byte>, c: seq<byte>, k: nat)
    requires k <= |c|
    ensures Decrypt(aes, key, c[..k]) == Decrypt(aes, key, c)[..k]
    decreases |c|
  {
    if k < |c| {
      var n := |c| - 1;
      assert c[..n][..k] == c[..k];
      DecryptPrefix(aes, key, c[..n], k);
    } else {
      assert c[..k] == c;
    }
  }

  /** Encrypting one more plaintext byte appends exactly one ciphertext byte. */
  lemma {:induction false} EncryptAppend(aes: BlockCipher, key: seq<byte>, p: seq<byte>, x: byte)
    ensures Encrypt(aes, key, p + [x]) == Encrypt(aes, key, p) + [KeyByte(aes, key, StateAfter(Encrypt(aes, key, p))) ^ x]
  {
    assert (p + [x])[..|p|] == p;
  }

  lemma {:induction false} SplitLast(s: seq<byte>)
    requires s != []
    ensures s == s[..|s| - 1] + [s[|s| - 1]]
  {
  }

  lemma {:induction false} XorTwice(k: byte, x: byte)
    ensures k ^ (k ^ x) == x
  {
  }

  /** The induction step of the round trips: one more byte keeps them. */
  lemma {:induction false} DecryptEncryptStep(aes: BlockCipher, key: seq<byte>, q: seq<byte>, x: byte)
    requires Decrypt(aes, key, Encrypt(aes, key, q)) == q
    ensures Decrypt(aes, key, Encrypt(aes, key, q + [x])) == q + [x]
  {
    var c0 := Encrypt(aes, key, q);
    var kb := KeyByte(aes, key, StateAfter(c0));
    EncryptAppend(aes, key, q, x);
    assert Encrypt(aes, key, q + [x]) == c0 + [kb ^ x];
    DecryptAppend(aes, key, c0, kb ^ x);
    assert Decrypt(aes, key, c0 + [kb ^ x]) == q + [kb ^ (kb ^ x)];
    XorTwice(kb, x);
    assert q + [kb ^ (kb ^ x)] == q + [x];
    assert Decrypt(aes, key, Encrypt(aes, key, q + [x])) == Decrypt(aes, key, c0 + [kb ^ x]);
  }

  lemma {:induction false} EncryptDecryptStep(aes: BlockCipher, key: seq<byte>, q: seq<byte>, x: byte)
    requires Encrypt(aes, key, Decrypt(aes, key, q)) == q
    ensures Encrypt(aes, key, Decrypt(aes, key, q + [x])) == q + [x]
  {
    var p0 := Decrypt(aes, key, q);
    var kb := KeyByte(aes, key, StateAfter(q));
    DecryptAppend(aes, key, q, x);
    assert Decrypt(aes, key, q + [x]) == p0 + [kb ^ x];
    EncryptAppend(aes, key, p0, kb ^ x);
    assert Encrypt(aes, key, p0 + [kb ^ x]) == q + [kb ^ (kb ^ x)];
    XorTwice(kb, x);
    assert q + [kb ^ (kb ^ x)] == q + [x];
    assert Encrypt(aes, key, Decrypt(aes, key, q + [x])) == Encrypt(aes, key, p0 + [kb ^ x]);
  }

  /** Decryption undoes encryption, whatever the block function and the key. */
  lemma {:induction false} DecryptEncrypt(aes: BlockCipher, key: seq<byte>, p: seq<byte>)
    ensures Decrypt(aes, key, Encrypt(aes, key, p)) == p
    decreases |p|
  {
    if p != [] {
      var n := |p| - 1;
      DecryptEncrypt(aes, key, p[..n]);
      DecryptEncryptStep(aes, key, p[..n], p[n]);
      SplitLast(p);
    }
  }

  /** Encryption undoes decryption: the mode is a bijection on sequences of each length. */
  lemma {:induction false} EncryptDecrypt(aes: BlockCipher, key: seq<byte>, c: seq<byte>)
    ensures Encrypt(aes, key, Decrypt(aes, key, c)) == c
    decreases |c|
  {
    if c != [] {
      var n := |c| - 1;
      EncryptDecrypt(aes, key, c[..n]);
      EncryptDecryptStep(aes, key, c[..n], c[n]);
      SplitLast(c);
    }
  }
}
