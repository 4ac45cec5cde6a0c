/**
 The encrypted backup file of desktop/src/crypto-envelope.js:

   [4 magic "SNBK"] [1 version] [1 kdf] [16 salt] [12 iv] <ciphertext> [16 tag]

 The authenticated cipher is a parameter. All that is asked of it is what
 sections 7.1 and 7.2 of NIST SP 800-38D give: encryption keeps the length and
 makes a 16-byte tag, and decryption returns a plaintext exactly when encrypting
 that plaintext gives back the same ciphertext and tag.
 */
module Envelope {
  import opened Common

  newtype byte = b: int | 0 <= b < 256

  type Bytes = seq<byte>

  datatype Aead = Aead(
    derive: (string, Bytes) -> Bytes,
    seal: (Bytes, Bytes, Bytes) -> (Bytes, Bytes),
    open: (Bytes, Bytes, Bytes, Bytes) -> Option<Bytes>)

  ghost predicate Lawful(a: Aead) {
    && (forall key, iv, plain :: |a.seal(key, iv, plain).0| == |plain| && |a.seal(key, iv, plain).1| == TAG_LEN)
    && (forall key, iv, cipher, tag, plain ::
          a.open(key, iv, cipher, tag) == Some(plain) <==> a.seal(key, iv, plain) == (cipher, tag))
  }

  const MAGIC: Bytes := [0x53, 0x4E, 0x42, 0x4B]  // "SNBK"
  const VERSION: byte := 1
  const KDF_SCRYPT: byte := 1
  const SALT_LEN: nat := 16
  const IV_LEN: nat := 12
  const TAG_LEN: nat := 16
  const HEADER_LEN: nat := |MAGIC| + 1 + 1 + SALT_LEN + IV_LEN

  datatype Refusal = TooSmall | BadMagic | UnsupportedVersion | NotAuthentic

  function Header(salt: Bytes, iv: Bytes): Bytes {
    MAGIC + [VERSION, KDF_SCRYPT] + salt + iv
  }

  // The file encryptFile writes.
  function Print(a: Aead, password: string, salt: Bytes, iv: Bytes, plain: Bytes): Bytes {
    var sealed := a.seal(a.derive(password, salt), iv, plain);
    Header(salt, iv) + sealed.0 + sealed.1
  }

  function SaltOf(file: Bytes): Bytes
    requires |file| >= HEADER_LEN
  {
    file[6..6 + SALT_LEN]
  }

  function IvOf(file: Bytes): Bytes
    requires |file| >= HEADER_LEN
  {
    file[6 + SALT_LEN..6 + SALT_LEN + IV_LEN]
  }

  function BodyOf(file: Bytes): Bytes
    requires |file| >= HEADER_LEN + TAG_LEN
  {
    file[HEADER_LEN..|file| - TAG_LEN]
  }

  function TagOf(file: Bytes): Bytes
    requires |file| >= TAG_LEN
  {
    file[|file| - TAG_LEN..]
  }

  // What decryptFile makes of a file.
  function Parse(a: Aead, password: string, file: Bytes): Result<Bytes, Refusal> {
    if |file| < HEADER_LEN + TAG_LEN then Err(TooSmall)
    else if file[..4] != MAGIC then Err(BadMagic)
    else if file[4] != VERSION || file[5] != KDF_SCRYPT then Err(UnsupportedVersion)
    else
      match a.open(a.derive(password, SaltOf(file)), IvOf(file), BodyOf(file), TagOf(file))
      case Some(plain) => Ok(plain)
      case None => Err(NotAuthentic)
  }

  // The ranges the reader uses cut a printed file back into the parts it was made of.
  lemma PrintedRanges(a: Aead, password: string, salt: Bytes, iv: Bytes, plain: Bytes)
    requires Lawful(a) && |salt| == SALT_LEN && |iv| == IV_LEN
    ensures var file := Print(a, password, salt, iv, plain);
            var sealed := a.seal(a.derive(password, salt), iv, plain);
            |file| == HEADER_LEN + |plain| + TAG_LEN &&
            file[..4] == MAGIC && file[4] == VERSION && file[5] == KDF_SCRYPT &&
            SaltOf(file) == salt && IvOf(file) == iv && BodyOf(file) == sealed.0 && TagOf(file) == sealed.1
  {
  }

  // The layout, byte by byte.
  lemma LayoutIs(a: Aead, password: string, salt: Bytes, iv: Bytes, plain: Bytes)
    requires Lawful(a) && |salt| == 16 && |iv| == 12
    ensures var sealed := a.seal(a.derive(password, salt), iv, plain);
            Print(a, password, salt, iv, plain) == [0x53, 0x4E, 0x42, 0x4B, 1, 1] + salt + iv + sealed.0 + sealed.1
            && |sealed.0| == |plain| && |sealed.1| == 16
  {
    assert MAGIC + [VERSION, KDF_SCRYPT] == [0x53, 0x4E, 0x42, 0x4B, 1, 1];
  }

  lemma RangesPartition(file: Bytes)
    requires |file| >= HEADER_LEN + TAG_LEN
    ensures file == file[..4] + [file[4], file[5]] + SaltOf(file) + IvOf(file) + BodyOf(file) + TagOf(file)
    ensures |SaltOf(file)| == SALT_LEN && |IvOf(file)| == IV_LEN && |TagOf(file)| == TAG_LEN
    ensures |BodyOf(file)| == |file| - 50
  {
  }

  lemma DecryptInvertsEncrypt(a: Aead, password: string, salt: Bytes, iv: Bytes, plain: Bytes)
    requires Lawful(a) && |salt| == SALT_LEN && |iv| == IV_LEN
    ensures Parse(a, password, Print(a, password, salt, iv, plain)) == Ok(plain)
  {
    PrintedRanges(a, password, salt, iv, plain);
    var key := a.derive(password, salt);
    var sealed := a.seal(key, iv, plain);
    assert a.open(key, iv, sealed.0, sealed.1) == Some(plain);
  }

  // A file decrypts to `plain` if and only if it is an envelope of `plain`,
  // made with the salt and iv in its own header. Nothing else is accepted.
  lemma AcceptsExactlyEnvelopes(a: Aead, password: string, file: Bytes, plain: Bytes)
    requires Lawful(a)
    ensures Parse(a, password, file) == Ok(plain) <==>
              |file| >= HEADER_LEN + TAG_LEN && file == Print(a, password, SaltOf(file), IvOf(file), plain)
  {
    if |file| >= HEADER_LEN + TAG_LEN {
      RangesPartition(file);
      if Parse(a, password, file) == Ok(plain) {
        var sealed := a.seal(a.derive(password, SaltOf(file)), IvOf(file), plain);
        assert sealed == (BodyOf(file), TagOf(file));
      } else if file == Print(a, password, SaltOf(file), IvOf(file), plain) {
        DecryptInvertsEncrypt(a, password, SaltOf(file), IvOf(file), plain);
      }
    }
  }

  lemma RefusesForeignFiles(a: Aead, password: string, file: Bytes)
    requires Lawful(a)
    requires |file| < 50 || file[..4] != MAGIC || file[4] != VERSION || file[5] != KDF_SCRYPT
    ensures Parse(a, password, file).Err? && Parse(a, password, file).error != NotAuthentic
    ensures !exists salt, iv, plain :: |salt| == SALT_LEN && |iv| == IV_LEN && file == Print(a, password, salt, iv, plain)
  {
    forall salt: Bytes, iv: Bytes, plain | |salt| == SALT_LEN && |iv| == IV_LEN
      ensures file != Print(a, password, salt, iv, plain)
    {
      PrintedRanges(a, password, salt, iv, plain);
    }
  }

  lemma PrefixSlice(s: Bytes, n: nat, i: nat, j: nat)
    requires i <= j <= n <= |s|
    ensures s[..n][i..j] == s[i..j]
  {
  }

  lemma SameHeader(file: Bytes, other: Bytes)
    requires |file| >= HEADER_LEN && |other| >= HEADER_LEN && other[..HEADER_LEN] == file[..HEADER_LEN]
    ensures SaltOf(other) == SaltOf(file) && IvOf(other) == IvOf(file)
    ensures other[..4] == file[..4] && other[4] == file[4] && other[5] == file[5]
  {
    PrefixSlice(file, HEADER_LEN, 6, 22);
    PrefixSlice(other, HEADER_LEN, 6, 22);
    PrefixSlice(file, HEADER_LEN, 22, 34);
    PrefixSlice(other, HEADER_LEN, 22, 34);
    PrefixSlice(file, HEADER_LEN, 0, 4);
    PrefixSlice(other, HEADER_LEN, 0, 4);
    assert file[..HEADER_LEN][4] == file[4] && file[..HEADER_LEN][5] == file[5];
  }

  // A file changed anywhere behind its header never decrypts to the same plaintext again.
  lemma TamperingIsNoticed(a: Aead, password: string, file: Bytes, other: Bytes)
    requires Lawful(a) && Parse(a, password, file).Ok?
    requires |other| == |file| && other != file && other[..HEADER_LEN] == file[..HEADER_LEN]
    ensures Parse(a, password, other) != Parse(a, password, file)
  {
    var plain := Parse(a, password, file).value;
    AcceptsExactlyEnvelopes(a, password, file, plain);
    AcceptsExactlyEnvelopes(a, password, other, plain);
    SameHeader(file, other);
  }

  // In counter mode one key and iv never give two plaintexts the same ciphertext.
  ghost predicate CounterMode(a: Aead) {
    forall key, iv, p, q :: a.seal(key, iv, p).0 == a.seal(key, iv, q).0 ==> p == q
  }

  lemma OnlyOneTag(a: Aead, key: Bytes, iv: Bytes, cipher: Bytes, tag: Bytes, other: Bytes, plain: Bytes)
    requires Lawful(a) && CounterMode(a) && other != tag
    requires a.open(key, iv, cipher, tag) == Some(plain)
    ensures a.open(key, iv, cipher, other) == None
  {
    assert a.seal(key, iv, plain) == (cipher, tag);
    assert forall q :: a.open(key, iv, cipher, other) == Some(q) ==> a.seal(key, iv, q) == (cipher, other);
  }

  // Then a file whose tag alone was changed is refused outright.
  lemma ChangedTagIsRefused(a: Aead, password: string, file: Bytes, other: Bytes)
    requires Lawful(a) && CounterMode(a) && Parse(a, password, file).Ok?
    requires |other| == |file| && other != file && other[..|file| - TAG_LEN] == file[..|file| - TAG_LEN]
    ensures Parse(a, password, other) == Err(NotAuthentic)
  {
    var n := |file| - TAG_LEN;
    assert file == file[..n] + TagOf(file) && other == other[..n] + TagOf(other);
    PrefixSlice(file, n, 0, HEADER_LEN);
    PrefixSlice(other, n, 0, HEADER_LEN);
    PrefixSlice(file, n, HEADER_LEN, n);
    PrefixSlice(other, n, HEADER_LEN, n);
    SameHeader(file, other);
    var plain := Parse(a, password, file).value;
    var key := a.derive(password, SaltOf(file));
    OnlyOneTag(a, key, IvOf(file), BodyOf(file), TagOf(file), TagOf(other), plain);
  }

  // The laws are satisfiable: the cipher that changes nothing and tags with zeros meets them.
  lemma LawsAreConsistent()
    ensures exists a :: Lawful(a) && CounterMode(a)
  {
    var zeros := seq(TAG_LEN, i => 0 as byte);
    var a := Aead(
      (password, salt) => salt,
      (key, iv, plain) => (plain, zeros),
      (key, iv, cipher, tag) => if tag == zeros then Some(cipher) else None);
    assert Lawful(a) && CounterMode(a);
  }

  // A file on disk, written in order and read at an offset.
  class File {
    var data: Bytes

    constructor (data: Bytes)
      ensures this.data == data
    {
      this.data := data;
    }

    method Write(bytes: Bytes)
      modifies this
      ensures data == old(data) + bytes
    {
      data := data + bytes;
    }

    method Read(buffer: array<byte>, position: nat)
      requires position + buffer.Length <= |data|
      modifies buffer
      ensures buffer[..] == data[position..position + buffer.Length]
    {
      for i := 0 to buffer.Length
        invariant buffer[..i] == data[position..position + i]
      {
        buffer[i] := data[position + i];
        assert buffer[..i + 1] == buffer[..i] + [data[position + i]];
      }
    }
  }

  method EncryptFile(a: Aead, input: File, output: File, password: string, salt: Bytes, iv: Bytes)
    requires input != output
    modifies output
    ensures output.data == Print(a, password, salt, iv, input.data)
  {
    var key := a.derive(password, salt);
    output.data := [];
    output.Write(Header(salt, iv));
    var sealed := a.seal(key, iv, input.data);
    output.Write(sealed.0);
    output.Write(sealed.1);
  }

  // On a refusal nothing is promised about the output file.
  method DecryptFile(a: Aead, input: File, output: File, password: string) returns (refusal: Option<Refusal>)
    requires input != output
    modifies output
    ensures match Parse(a, password, input.data)
            case Ok(plain) => refusal == None && output.data == plain
            case Err(error) => refusal == Some(error)
  {
    var size := |input.data|;
    if size < HEADER_LEN + TAG_LEN {
      return Some(TooSmall);
    }
    var header := new byte[HEADER_LEN];
    input.Read(header, 0);
    if header[..4] != MAGIC {
      return Some(BadMagic);
    }
    if header[4] != VERSION || header[5] != KDF_SCRYPT {
      return Some(UnsupportedVersion);
    }
    var salt := header[6..6 + SALT_LEN];
    var iv := header[6 + SALT_LEN..6 + SALT_LEN + IV_LEN];
    assert header[..] == input.data[..HEADER_LEN];
    PrefixSlice(input.data, HEADER_LEN, 6, 22);
    PrefixSlice(input.data, HEADER_LEN, 22, 34);
    assert salt == header[..][6..22] && iv == header[..][22..34];
    var tag := new byte[TAG_LEN];
    input.Read(tag, size - TAG_LEN);
    assert tag[..] == TagOf(input.data);
    var key := a.derive(password, salt);
    var bodyLength := size - HEADER_LEN - TAG_LEN;
    output.data := [];
    var body := [];
    if bodyLength > 0 {
      body := input.data[HEADER_LEN..HEADER_LEN + bodyLength];
    }
    assert body == BodyOf(input.data);
    match a.open(key, iv, body, tag[..]) {
      case None =>
        return Some(NotAuthentic);
      case Some(plain) =>
        output.Write(plain);
        return None;
    }
  }
}
