/**
 Message bodies at rest (src/storage.rs, `message_aad`, `encrypt_body`, `decrypt_body`). The cipher itself is ideal: a
 sealed box opens to its text under exactly the key, nonce and associated data it was sealed with, and no other box
 exists. The associated data is the concrete byte string the source builds.
 */
module BodyCipher {
  import opened Wrappers

  type Byte = b: int | 0 <= b < 256

  const ENCRYPTED_BODY_VERSION: Byte := 1
  const SEQUENCE_LIMIT := 0x1_0000_0000_0000_0000

  /** Where a message is stored. Identifiers are 16 bytes; a room id is any string of bytes. */
  datatype Coordinates = Coordinates(group: seq<Byte>, room: seq<Byte>, message: seq<Byte>, sequence: nat)

  predicate WellFormed(c: Coordinates) {
    |c.group| == 16 && |c.message| == 16 && c.sequence < SEQUENCE_LIMIT
  }

  /** The `width` low bytes of `n`, most significant first. */
  function BigEndian(n: nat, width: nat): seq<Byte> {
    if width == 0 then [] else BigEndian(n / 256, width - 1) + [n % 256]
  }

  function FromBigEndian(bytes: seq<Byte>): nat {
    if bytes == [] then 0 else 256 * FromBigEndian(bytes[..|bytes| - 1]) + bytes[|bytes| - 1]
  }

  function Power256(width: nat): nat {
    if width == 0 then 1 else 256 * Power256(width - 1)
  }

  lemma {:induction false} BigEndianLength(n: nat, width: nat)
    ensures |BigEndian(n, width)| == width
  {
    if width > 0 {
      BigEndianLength(n / 256, width - 1);
    }
  }

  /** Reading back what was written: a number below 256^width survives the trip. */
  lemma {:induction false} BigEndianRoundTrip(n: nat, width: nat)
    requires n < Power256(width)
    ensures FromBigEndian(BigEndian(n, width)) == n
  {
    if width > 0 {
      BigEndianRoundTrip(n / 256, width - 1);
      var front := BigEndian(n / 256, width - 1);
      assert (front + [n % 256])[..|front|] == front;
    }
  }

  lemma SequenceFitsEightBytes()
    ensures Power256(8) == SEQUENCE_LIMIT
  {
  }

  function Aad(c: Coordinates): seq<Byte> {
    c.group + c.room + c.message + BigEndian(c.sequence, 8)
  }

  method MessageAad(c: Coordinates) returns (aad: seq<Byte>)
    ensures aad == Aad(c)
  {
    aad := [];
    aad := aad + c.group;
    aad := aad + c.room;
    aad := aad + c.message;
    aad := aad + BigEndian(c.sequence, 8);
  }

  /**
   The associated data determines the coordinates, although the room id has no length prefix and no separator: all
   that follows it has a fixed width.
   */
  lemma AadIsInjective(c: Coordinates, d: Coordinates)
    requires WellFormed(c) && WellFormed(d)
    requires Aad(c) == Aad(d)
    ensures c == d
  {
    BigEndianLength(c.sequence, 8);
    BigEndianLength(d.sequence, 8);
    var a := Aad(c);
    var n := |a|;
    assert |c.room| == |d.room| == n - 40;
    assert c.group == a[..16] == d.group;
    assert c.room == a[16..n - 24] == d.room;
    assert c.message == a[n - 24..n - 8] == d.message;
    assert BigEndian(c.sequence, 8) == a[n - 8..] == BigEndian(d.sequence, 8);
    SequenceFitsEightBytes();
    BigEndianRoundTrip(c.sequence, 8);
    BigEndianRoundTrip(d.sequence, 8);
  }

  // ---------- encryption ----------

  datatype SealedBox = SealedBox(key: nat, nonce: seq<Byte>, aad: seq<Byte>, plaintext: string)

  /** A stored body: too short to hold a version, a nonce and a box, or the three of them. */
  datatype Body = Truncated | Body(version: Byte, nonce: seq<Byte>, box: SealedBox)

  datatype CipherError = UnsupportedFormat | AuthenticationFailed

  method EncryptBody(key: nat, c: Coordinates, nonce: seq<Byte>, plaintext: string) returns (body: Body)
    ensures body == Encrypted(key, c, nonce, plaintext)
    ensures Decrypted(key, c, body) == Ok(plaintext)
  {
    var aad := MessageAad(c);
    body := Body(ENCRYPTED_BODY_VERSION, nonce, SealedBox(key, nonce, aad, plaintext));
  }

  method DecryptBody(key: nat, c: Coordinates, body: Body) returns (r: Result<string, CipherError>)
    ensures r == Decrypted(key, c, body)
    ensures forall text :: r == Ok(text) <==> body.Body? && body == Encrypted(key, c, body.nonce, text)
  {
    if body.Truncated? || body.version != ENCRYPTED_BODY_VERSION {
      return Err(UnsupportedFormat);
    }
    var aad := MessageAad(c);
    if body.box.key != key || body.box.nonce != body.nonce || body.box.aad != aad {
      return Err(AuthenticationFailed);
    }
    return Ok(body.box.plaintext);
  }

  function Encrypted(key: nat, c: Coordinates, nonce: seq<Byte>, plaintext: string): Body {
    Body(ENCRYPTED_BODY_VERSION, nonce, SealedBox(key, nonce, Aad(c), plaintext))
  }

  function Decrypted(key: nat, c: Coordinates, body: Body): Result<string, CipherError> {
    if body.Truncated? || body.version != ENCRYPTED_BODY_VERSION then Err(UnsupportedFormat)
    else if body.box != SealedBox(key, body.nonce, Aad(c), body.box.plaintext) then Err(AuthenticationFailed)
    else Ok(body.box.plaintext)
  }

  /** A stored body opens under its own coordinates and under no other row's: bodies cannot be moved between rows. */
  lemma BodyOpensOnlyWhereItWasStored(key: nat, c: Coordinates, d: Coordinates, nonce: seq<Byte>, plaintext: string)
    requires WellFormed(c) && WellFormed(d)
    ensures Decrypted(key, d, Encrypted(key, c, nonce, plaintext)) ==
            if c == d then Ok(plaintext) else Err(AuthenticationFailed)
  {
    if Aad(c) == Aad(d) {
      AadIsInjective(c, d);
    }
  }
}
