/**
 * The message envelope of WeCom callbacks (app/crypto/wecom_crypto.py): a frame of 16 random bytes, a 4-byte
 * big-endian length, the message and the receive id, padded to 32 bytes, encrypted in CBC mode (section 6.2 of NIST
 * SP 800-38A) with the first half of the key as initialization vector, and written in base64.
 *
 * The block cipher is a parameter: any pair of functions on 16-byte blocks of which one undoes the other.
 */
module WecomCrypto {
  import opened Wrappers
  import opened Utf8
  import Base64

  type Bytes = seq<byte>

  const BLOCK := 16
  const PAD_BLOCK := 32
  const MAX_LENGTH := 0x1_0000_0000

  type BlockFunction = (Bytes, Bytes) -> Bytes

  /** `dec` undoes `enc` under every key. */
  ghost predicate IsCipher(enc: BlockFunction, dec: BlockFunction) {
    forall key, b | |b| == BLOCK :: |enc(key, b)| == BLOCK && dec(key, enc(key, b)) == b
  }

  // ---------------------------------------------------------------------
  // CBC
  // ---------------------------------------------------------------------

  function XorBits(a: nat, b: nat, bits: nat): nat {
    if bits == 0 then 0 else (a % 2 + b % 2) % 2 + 2 * XorBits(a / 2, b / 2, bits - 1)
  }

  lemma {:induction false} XorRange(a: nat, b: nat, bits: nat, bound: nat)
    requires bound == Pow2(bits)
    ensures XorBits(a, b, bits) < bound
    decreases bits
  {
    if bits > 0 {
      XorRange(a / 2, b / 2, bits - 1, bound / 2);
    }
  }

  function Pow2(n: nat): nat {
    if n == 0 then 1 else 2 * Pow2(n - 1)
  }

  lemma LowBit(low: nat, high: nat)
    requires low < 2
    ensures (low + 2 * high) % 2 == low && (low + 2 * high) / 2 == high
  {
    assert (low + 2 * high) / 2 == high;
  }

  lemma {:induction false} XorTwice(a: nat, b: nat, bits: nat)
    requires a < Pow2(bits)
    ensures XorBits(XorBits(a, b, bits), b, bits) == a
    decreases bits
  {
    if bits > 0 {
      XorTwice(a / 2, b / 2, bits - 1);
      var low, high := (a % 2 + b % 2) % 2, XorBits(a / 2, b / 2, bits - 1);
      LowBit(low, high);
      assert (low + b % 2) % 2 == a % 2;
      assert a == a % 2 + 2 * (a / 2);
    }
  }

  /** The bit of weight 2^j. */
  function Bit(n: nat, j: nat): nat {
    if j == 0 then n % 2 else Bit(n / 2, j - 1)
  }

  /** Each bit of the result is set exactly when the two bits differ. */
  lemma {:induction false} XorBit(a: nat, b: nat, bits: nat, j: nat)
    requires j < bits
    ensures Bit(XorBits(a, b, bits), j) == 1 <==> Bit(a, j) != Bit(b, j)
    ensures Bit(XorBits(a, b, bits), j) < 2
    decreases bits
  {
    var low, high := (a % 2 + b % 2) % 2, XorBits(a / 2, b / 2, bits - 1);
    LowBit(low, high);
    if j > 0 {
      XorBit(a / 2, b / 2, bits - 1, j - 1);
    }
  }

  function Xor(a: byte, b: byte): byte {
    assert Pow2(8) == 256;
    XorRange(a, b, 8, 256);
    XorBits(a, b, 8)
  }

  function XorBlock(a: Bytes, b: Bytes): (r: Bytes)
    requires |a| == |b|
    ensures |r| == |a|
  {
    seq(|a|, k requires 0 <= k < |a| => Xor(a[k], b[k]))
  }

  lemma XorBlockTwice(a: Bytes, b: Bytes)
    requires |a| == |b|
    ensures XorBlock(XorBlock(a, b), b) == a
  {
    assert Pow2(8) == 256;
    forall k | 0 <= k < |a|
      ensures XorBlock(XorBlock(a, b), b)[k] == a[k]
    {
      XorTwice(a[k], b[k], 8);
    }
  }

  predicate Whole(data: Bytes) {
    |data| % BLOCK == 0
  }

  function CbcEncrypt(enc: BlockFunction, key: Bytes, iv: Bytes, data: Bytes): Bytes
    requires |iv| == BLOCK && Whole(data)
    decreases |data|
  {
    if data == [] then []
    else
      var c := enc(key, XorBlock(data[..BLOCK], iv));
      if |c| != BLOCK then [] else c + CbcEncrypt(enc, key, c, data[BLOCK..])
  }

  function CbcDecrypt(dec: BlockFunction, key: Bytes, iv: Bytes, data: Bytes): Bytes
    requires |iv| == BLOCK && Whole(data)
    decreases |data|
  {
    if data == [] then []
    else
      var p := dec(key, data[..BLOCK]);
      (if |p| == BLOCK then XorBlock(p, iv) else []) + CbcDecrypt(dec, key, data[..BLOCK], data[BLOCK..])
  }

  /** CBC decryption undoes CBC encryption, and keeps the length. */
  lemma {:induction false} CbcRoundTrip(enc: BlockFunction, dec: BlockFunction, key: Bytes, iv: Bytes, data: Bytes)
    requires IsCipher(enc, dec) && |iv| == BLOCK && Whole(data)
    ensures |CbcEncrypt(enc, key, iv, data)| == |data|
    ensures CbcDecrypt(dec, key, iv, CbcEncrypt(enc, key, iv, data)) == data
    decreases |data|
  {
    if data != [] {
      var x := XorBlock(data[..BLOCK], iv);
      var c := enc(key, x);
      assert |c| == BLOCK && dec(key, c) == x;
      CbcRoundTrip(enc, dec, key, c, data[BLOCK..]);
      var all := CbcEncrypt(enc, key, iv, data);
      assert all[..BLOCK] == c && all[BLOCK..] == CbcEncrypt(enc, key, c, data[BLOCK..]);
      XorBlockTwice(data[..BLOCK], iv);
      assert data == data[..BLOCK] + data[BLOCK..];
    }
  }

  /** The `k`th block of 16 bytes. */
  function Block(data: Bytes, k: nat): (b: Bytes)
    requires Whole(data) && BLOCK * k < |data|
    ensures |b| == BLOCK
  {
    data[BLOCK * k..BLOCK * k + BLOCK]
  }

  /** Every block is the encryption of the plain block combined with the cipher block before it, the first with the vector. */
  ghost predicate Chained(enc: BlockFunction, key: Bytes, iv: Bytes, plain: Bytes, data: Bytes)
    requires |iv| == BLOCK
  {
    && Whole(plain) && |data| == |plain|
    && forall k: nat | BLOCK * k < |data| ::
         Block(data, k) == enc(key, XorBlock(Block(plain, k), if k == 0 then iv else Block(data, k - 1)))
  }

  lemma LaterBlock(first: Bytes, rest: Bytes, k: nat)
    requires |first| == BLOCK && Whole(rest) && BLOCK * k < |rest|
    ensures Whole(first + rest) && Block(first + rest, k + 1) == Block(rest, k)
  {
  }

  lemma {:induction false} CbcChains(enc: BlockFunction, dec: BlockFunction, key: Bytes, iv: Bytes, plain: Bytes)
    requires IsCipher(enc, dec) && |iv| == BLOCK && Whole(plain)
    ensures Chained(enc, key, iv, plain, CbcEncrypt(enc, key, iv, plain))
    decreases |plain|
  {
    CbcRoundTrip(enc, dec, key, iv, plain);
    var data := CbcEncrypt(enc, key, iv, plain);
    if plain != [] {
      var c, left := enc(key, XorBlock(plain[..BLOCK], iv)), plain[BLOCK..];
      var rest := CbcEncrypt(enc, key, c, left);
      CbcChains(enc, dec, key, c, left);
      assert data == c + rest && plain == plain[..BLOCK] + left;
      assert Block(data, 0) == c && Block(plain, 0) == plain[..BLOCK];
      forall k: nat | 0 < k && BLOCK * k < |data|
        ensures Block(data, k) == enc(key, XorBlock(Block(plain, k), Block(data, k - 1)))
      {
        LaterBlock(c, rest, k - 1);
        LaterBlock(plain[..BLOCK], left, k - 1);
        if k > 1 {
          LaterBlock(c, rest, k - 2);
        }
      }
    }
  }

  // ---------------------------------------------------------------------
  // Padding and length
  // ---------------------------------------------------------------------

  function PadLength(n: nat): (r: nat)
    ensures 1 <= r <= PAD_BLOCK && (n + r) % PAD_BLOCK == 0
  {
    PAD_BLOCK - n % PAD_BLOCK
  }

  function Pad(body: Bytes): Bytes {
    body + seq(PadLength(|body|), _ => PadLength(|body|) as byte)
  }

  /** Drops as many bytes as the last one says; an impossible count leaves the data as it is. */
  function Unpad(data: Bytes): Bytes {
    if data == [] then data
    else
      var pad := data[|data| - 1];
      if 1 <= pad <= 32 then data[..if pad <= |data| then |data| - pad else 0] else data
  }

  /** Padding fills whole blocks with at most 32 bytes that each say how many they are, and comes off again. */
  lemma PadRoundTrip(body: Bytes)
    ensures |Pad(body)| % PAD_BLOCK == 0 && |body| < |Pad(body)| <= |body| + 32 && Unpad(Pad(body)) == body
    ensures body <= Pad(body) && forall k | |body| <= k < |Pad(body)| :: Pad(body)[k] == |Pad(body)| - |body|
    ensures Whole(Pad(body))
  {
    var n := |Pad(body)|;
    assert n == PAD_BLOCK * (n / PAD_BLOCK) == BLOCK * (2 * (n / PAD_BLOCK));
  }

  /** Only a last byte from 1 to 32 is taken for padding; what it counts is dropped, all of the data if it counts more. */
  lemma UnpadMeans(data: Bytes)
    ensures Unpad(data) <= data
    ensures data == [] || !(1 <= data[|data| - 1] <= 32) ==> Unpad(data) == data
    ensures data != [] && 1 <= data[|data| - 1] <= 32 ==>
      |Unpad(data)| == if data[|data| - 1] <= |data| then |data| - data[|data| - 1] as int else 0
  {
  }

  /** struct.pack(">I", n) */
  function BigEndian(n: nat): Bytes
    requires n < MAX_LENGTH
  {
    [n / 0x100_0000, n / 0x1_0000 % 256, n / 256 % 256, n % 256]
  }

  function FromBigEndian(b: Bytes): nat
    requires |b| == 4
  {
    b[0] as int * 0x100_0000 + b[1] as int * 0x1_0000 + b[2] as int * 256 + b[3]
  }

  lemma LengthRoundTrip(n: nat)
    requires n < MAX_LENGTH
    ensures FromBigEndian(BigEndian(n)) == n
    ensures var b := BigEndian(n);
      |b| == 4 && n == b[0] as int * 0x100_0000 + b[1] as int * 0x1_0000 + b[2] as int * 0x100 + b[3] as int
  {
    assert n == n / 256 * 256 + n % 256;
    assert n / 256 == n / 0x1_0000 * 256 + n / 256 % 256;
    assert n / 0x1_0000 == n / 0x100_0000 * 256 + n / 0x1_0000 % 256;
  }

  // ---------------------------------------------------------------------
  // Frame
  // ---------------------------------------------------------------------

  function Frame(rand: Bytes, message: Bytes, receiveId: Bytes): Bytes
    requires |rand| == 16 && |message| < MAX_LENGTH
  {
    rand + BigEndian(|message|) + message + receiveId
  }

  /** A message that parses, or the bytes handed to the search for an <xml> fragment. */
  datatype Plain = Message(text: string) | Fallback(data: Bytes)

  function Parse(data: Bytes): Plain {
    if |data| < 20 || 20 + FromBigEndian(data[16..20]) > |data| then Fallback(data)
    else
      var n := FromBigEndian(data[16..20]);
      match (Utf8.Decode(data[20..20 + n]), Utf8.Decode(data[20 + n..]))
      case (Some(text), Some(_)) => Message(text)
      case _ => Fallback(data)
  }

  /** Where everything is in a frame: the random bytes, the length with its high byte first, the message and the id. */
  lemma FrameLayout(rand: Bytes, message: Bytes, receiveId: Bytes)
    requires |rand| == 16 && |message| < MAX_LENGTH
    ensures var f := Frame(rand, message, receiveId);
      var n := |message|;
      && |f| == 20 + n + |receiveId|
      && f[..16] == rand && f[20..20 + n] == message && f[20 + n..] == receiveId
      && n == f[16] as int * 0x100_0000 + f[17] as int * 0x1_0000 + f[18] as int * 0x100 + f[19] as int
  {
    LengthRoundTrip(|message|);
    var f := Frame(rand, message, receiveId);
    assert f[16..20] == BigEndian(|message|);
    assert f[16] == f[16..20][0] && f[17] == f[16..20][1] && f[18] == f[16..20][2] && f[19] == f[16..20][3];
  }

  /**
   * Exactly which bytes are read as a message: 20 bytes or more whose length field does not reach past the end, then
   * the text, and then some text as receive id, any one at all. Everything else is searched for a fragment.
   */
  lemma ParseMeans(data: Bytes, text: string)
    ensures Parse(data) == Message(text) <==>
      && |data| >= 20
      && var n := data[16] as int * 0x100_0000 + data[17] as int * 0x1_0000 + data[18] as int * 0x100 + data[19] as int;
         20 + n <= |data| && data[20..20 + n] == Utf8.Encode(text) && Utf8.Decode(data[20 + n..]).Some?
    ensures Parse(data).Message? || Parse(data) == Fallback(data)
  {
    if |data| >= 20 {
      var n := FromBigEndian(data[16..20]);
      if 20 + n <= |data| {
        if Utf8.Decode(data[20..20 + n]).Some? {
          Utf8.Canonical(data[20..20 + n]);
        }
        Utf8.RoundTrip(text);
      }
    }
  }

  lemma FrameRoundTrip(rand: Bytes, text: string, receiveId: string)
    requires |rand| == 16 && |Utf8.Encode(text)| < MAX_LENGTH
    ensures Parse(Frame(rand, Utf8.Encode(text), Utf8.Encode(receiveId))) == Message(text)
  {
    var message, id := Utf8.Encode(text), Utf8.Encode(receiveId);
    var n := |message|;
    var data := Frame(rand, message, id);
    LengthRoundTrip(n);
    assert data[16..20] == BigEndian(n);
    assert data[20..20 + n] == message && data[20 + n..] == id;
    Utf8.RoundTrip(text);
    Utf8.RoundTrip(receiveId);
  }

  // ---------------------------------------------------------------------
  // Messages
  // ---------------------------------------------------------------------

  datatype Error = BadKeyLength | BadKey | BadBase64 | BadBlockLength | MessageTooLong

  datatype Result<T> = Ok(value: T) | Err(error: Error)

  /** The 32-byte key and its first half, the initialization vector. */
  function KeyOf(encodingAesKey: string): Result<Bytes> {
    if |encodingAesKey| != 43 then Err(BadKeyLength)
    else
      match Base64.Decode(encodingAesKey + "=")
      case None => Err(BadKey)
      case Some(key) => if |key| == 32 then Ok(key) else Err(BadKey)
  }

  /** The <Encrypt> field of the reply; `rand` is what the random source gave. */
  function Encrypt(enc: BlockFunction, text: string, encodingAesKey: string, receiveId: string, rand: Bytes): Result<string>
    requires |rand| == 16
  {
    match KeyOf(encodingAesKey)
    case Err(e) => Err(e)
    case Ok(key) =>
      var message := Utf8.Encode(text);
      if |message| >= MAX_LENGTH then Err(MessageTooLong)
      else
        var padded := Pad(Frame(rand, message, Utf8.Encode(receiveId)));
        if Whole(padded) then Ok(Base64.Encode(CbcEncrypt(enc, key, key[..16], padded))) else Err(BadBlockLength)
  }

  function Decrypt(dec: BlockFunction, encrypted: string, encodingAesKey: string, receiveId: string): Result<Plain> {
    match KeyOf(encodingAesKey)
    case Err(e) => Err(e)
    case Ok(key) =>
      match Base64.Decode(encrypted)
      case None => Err(BadBase64)
      case Some(data) =>
        if !Whole(data) then Err(BadBlockLength)
        else Ok(Parse(Unpad(CbcDecrypt(dec, key, key[..16], data))))
  }

  predicate Alphabetic(s: string) {
    forall k :: 0 <= k < |s| ==> Base64.InAlphabet(s[k])
  }

  /** Every key of 43 alphabet characters is a 32-byte key, whatever the unused bits of its last character. */
  lemma KeyAccepted(encodingAesKey: string)
    requires Alphabetic(encodingAesKey)
    ensures KeyOf(encodingAesKey).Ok? <==> |encodingAesKey| == 43
    ensures KeyOf(encodingAesKey).Ok? ==> |KeyOf(encodingAesKey).value| == 32
  {
    if |encodingAesKey| == 43 {
      Base64.DecodesPadded(encodingAesKey);
    }
  }

  lemma EncryptIs(enc: BlockFunction, text: string, encodingAesKey: string, receiveId: string, rand: Bytes)
    requires |rand| == 16 && KeyOf(encodingAesKey).Ok? && |Utf8.Encode(text)| < MAX_LENGTH
    ensures var key := KeyOf(encodingAesKey).value;
      var padded := Pad(Frame(rand, Utf8.Encode(text), Utf8.Encode(receiveId)));
      && Whole(padded)
      && Encrypt(enc, text, encodingAesKey, receiveId, rand) == Ok(Base64.Encode(CbcEncrypt(enc, key, key[..16], padded)))
  {
    PadRoundTrip(Frame(rand, Utf8.Encode(text), Utf8.Encode(receiveId)));
  }

  /** Encryption fails exactly on a key of another length or a message whose length does not fit 32 bits. */
  lemma EncryptFails(enc: BlockFunction, text: string, encodingAesKey: string, receiveId: string, rand: Bytes)
    requires |rand| == 16 && Alphabetic(encodingAesKey)
    ensures Encrypt(enc, text, encodingAesKey, receiveId, rand).Err? <==>
      |encodingAesKey| != 43 || |Utf8.Encode(text)| >= MAX_LENGTH
  {
    KeyAccepted(encodingAesKey);
    if |encodingAesKey| == 43 && |Utf8.Encode(text)| < MAX_LENGTH {
      EncryptIs(enc, text, encodingAesKey, receiveId, rand);
    }
  }

  /** Decryption fails exactly on a key of another length, on text that is no base64, or on data that is no whole blocks. */
  lemma DecryptFails(dec: BlockFunction, encrypted: string, encodingAesKey: string, receiveId: string)
    requires Alphabetic(encodingAesKey)
    ensures var r := Decrypt(dec, encrypted, encodingAesKey, receiveId);
      && (r == Err(BadKeyLength) <==> |encodingAesKey| != 43)
      && (r == Err(BadBase64) <==> |encodingAesKey| == 43 && Base64.Decode(encrypted).None?)
      && (r == Err(BadBlockLength) <==>
            |encodingAesKey| == 43 && Base64.Decode(encrypted).Some? && |Base64.Decode(encrypted).value| % 16 != 0)
      && (r.Err? ==> r.error in {BadKeyLength, BadBase64, BadBlockLength})
  {
    KeyAccepted(encodingAesKey);
  }

  /** Decrypting the encryption of a padded frame gives back what the frame parses to. */
  lemma DecryptIs(enc: BlockFunction, dec: BlockFunction, encodingAesKey: string, frame: Bytes, expected: string)
    requires IsCipher(enc, dec) && KeyOf(encodingAesKey).Ok? && Whole(Pad(frame))
    ensures var key := KeyOf(encodingAesKey).value;
      Decrypt(dec, Base64.Encode(CbcEncrypt(enc, key, key[..16], Pad(frame))), encodingAesKey, expected) == Ok(Parse(frame))
  {
    var key := KeyOf(encodingAesKey).value;
    CbcRoundTrip(enc, dec, key, key[..16], Pad(frame));
    Base64.RoundTrip(CbcEncrypt(enc, key, key[..16], Pad(frame)));
    PadRoundTrip(frame);
  }

  /**
   * What is encrypted for one receive id decrypts, with any receive id, to the same text, and never by way of the
   * <xml> fallback.
   */
  lemma RoundTrip(
    enc: BlockFunction, dec: BlockFunction, text: string, encodingAesKey: string, sent: string, expected: string, rand: Bytes)
    requires IsCipher(enc, dec) && |rand| == 16 && |Utf8.Encode(text)| < MAX_LENGTH
    requires Alphabetic(encodingAesKey) && |encodingAesKey| == 43
    ensures Encrypt(enc, text, encodingAesKey, sent, rand).Ok?
    ensures Decrypt(dec, Encrypt(enc, text, encodingAesKey, sent, rand).value, encodingAesKey, expected) == Ok(Message(text))
  {
    KeyAccepted(encodingAesKey);
    EncryptIs(enc, text, encodingAesKey, sent, rand);
    DecryptIs(enc, dec, encodingAesKey, Frame(rand, Utf8.Encode(text), Utf8.Encode(sent)), expected);
    FrameRoundTrip(rand, text, sent);
  }

  /**
   * The format of what is sent: base64 of the padded frame, encrypted block by block in CBC mode under the 32 bytes
   * that the key and one padding character decode to, with the first 16 of them as initialization vector.
   */
  lemma CiphertextFormat(
    enc: BlockFunction, dec: BlockFunction, text: string, encodingAesKey: string, receiveId: string, rand: Bytes)
    requires IsCipher(enc, dec) && |rand| == 16 && |Utf8.Encode(text)| < MAX_LENGTH
    requires Alphabetic(encodingAesKey) && |encodingAesKey| == 43
    ensures var key := Base64.Decode(encodingAesKey + "=");
      var sent := Encrypt(enc, text, encodingAesKey, receiveId, rand);
      && key.Some? && |key.value| == 32 && sent.Ok?
      && var data := Base64.Decode(sent.value);
         data.Some? && Chained(enc, key.value, key.value[..16], Pad(Frame(rand, Utf8.Encode(text), Utf8.Encode(receiveId))), data.value)
  {
    KeyAccepted(encodingAesKey);
    EncryptIs(enc, text, encodingAesKey, receiveId, rand);
    var key := KeyOf(encodingAesKey).value;
    var padded := Pad(Frame(rand, Utf8.Encode(text), Utf8.Encode(receiveId)));
    CbcChains(enc, dec, key, key[..16], padded);
    Base64.RoundTrip(CbcEncrypt(enc, key, key[..16], padded));
  }

  /** The ciphertext cannot end the CDATA section it is put in: it has only base64 characters. */
  lemma CiphertextIsPlain(enc: BlockFunction, text: string, encodingAesKey: string, receiveId: string, rand: Bytes)
    requires |rand| == 16 && Encrypt(enc, text, encodingAesKey, receiveId, rand).Ok?
    ensures forall x :: x in Encrypt(enc, text, encodingAesKey, receiveId, rand).value ==> Base64.InAlphabet(x) || x == '='
  {
    var key := KeyOf(encodingAesKey).value;
    EncryptIs(enc, text, encodingAesKey, receiveId, rand);
    Base64.EncodedChars(CbcEncrypt(enc, key, key[..16], Pad(Frame(rand, Utf8.Encode(text), Utf8.Encode(receiveId)))));
  }
}
