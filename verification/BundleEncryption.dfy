/** The encrypted bundle file: magic, header length, header, ciphertext, authentication tag. The
    cipher works byte by byte at its position, so files are processed in chunks of any size. */
module BundleEncryption {
  import opened Prelude
  import opened Framing

  const MAGIC: Octets := "WEBFAPB1"
  const FORMAT := "webfa-profile-bundle-encrypted"
  const FORMAT_VERSION: nat := 1
  const CIPHER := "AES-256-GCM"
  const HEADER_MAX_BYTES: nat := 16 * 1024
  const MAX_PLAINTEXT_BYTES: nat := 50 * 1024 * 1024 * 1024
  const MAX_ENCRYPTED_BYTES: nat := 52 * 1024 * 1024 * 1024
  const TAG_BYTES: nat := 16
  const CHUNK_BYTES: nat := 1024 * 1024

  datatype Kdf = Kdf(name: string, salt: Octets, n: nat, r: nat, p: nat, length: nat)

  datatype Header = Header(format: string, version: nat, cipher: string, nonce: Octets, kdf: Kdf, plaintextBytes: int)

  datatype Key = Key(passphrase: string, salt: Octets, nonce: Octets)

  datatype BundleError = LimitExceeded | FormatInvalid | PassphraseInvalid | IntegrityFailed

  /** What is left to libraries: the header's text form, the keystream and the tag. */
  datatype Crypto = Crypto(
    encode: Header -> Octets,
    decode: Octets -> Option<Header>,
    mask: (Key, nat, char) -> char,
    unmask: (Key, nat, char) -> char,
    tag: (Key, Octets, Octets) -> Octets)

  /** The cipher undoes itself, tags have their fixed length. */
  ghost predicate Lawful(c: Crypto) {
    && (forall k, i, x :: c.unmask(k, i, c.mask(k, i, x)) == x)
    && (forall k, i, x :: c.mask(k, i, c.unmask(k, i, x)) == x)
    && (forall k, aad, text :: |c.tag(k, aad, text)| == TAG_BYTES)
  }

  /** The header at hand is read back as it was written. */
  predicate ReadsBack(c: Crypto, h: Header) {
    c.decode(c.encode(h)) == Some(h) && |c.encode(h)| >= 2
  }

  predicate ValidPassphrase(passphrase: string) {
    12 <= |passphrase| <= 1024 && (0 as char) !in passphrase
  }

  function HeaderError(h: Header): Option<BundleError> {
    if h.format != FORMAT || h.version != FORMAT_VERSION || h.cipher != CIPHER then Some(FormatInvalid)
    else if h.kdf.name != "scrypt" || h.kdf.n != 32768 || h.kdf.r != 8 || h.kdf.p != 1 || h.kdf.length != 32 then Some(FormatInvalid)
    else if |h.kdf.salt| != 16 || |h.nonce| != 12 then Some(FormatInvalid)
    else if h.plaintextBytes < 0 || h.plaintextBytes > MAX_PLAINTEXT_BYTES then Some(LimitExceeded)
    else None
  }

  function KeyFor(passphrase: string, h: Header): Key {
    Key(passphrase, h.kdf.salt, h.nonce)
  }

  function Masked(c: Crypto, key: Key, plain: Octets): (r: Octets)
    ensures |r| == |plain|
  {
    seq(|plain|, i requires 0 <= i < |plain| => c.mask(key, i, plain[i]))
  }

  function Unmasked(c: Crypto, key: Key, text: Octets): (r: Octets)
    ensures |r| == |text|
  {
    seq(|text|, i requires 0 <= i < |text| => c.unmask(key, i, text[i]))
  }

  /** What is authenticated besides the ciphertext: everything in front of it. */
  function Preamble(headerBytes: Octets): Octets
    requires |headerBytes| <= HEADER_MAX_BYTES
  {
    MAGIC + Pack4(|headerBytes|) + headerBytes
  }

  function Frame(c: Crypto, key: Key, headerBytes: Octets, text: Octets): Octets
    requires |headerBytes| <= HEADER_MAX_BYTES
  {
    Preamble(headerBytes) + text + c.tag(key, Preamble(headerBytes), text)
  }

  function NewHeader(salt: Octets, nonce: Octets, plain: Octets): Header {
    Header(FORMAT, FORMAT_VERSION, CIPHER, nonce, Kdf("scrypt", salt, 32768, 8, 1, 32), |plain|)
  }

  function Sealed(c: Crypto, plain: Octets, passphrase: string, salt: Octets, nonce: Octets): Result<Octets, BundleError> {
    var h := NewHeader(salt, nonce, plain);
    if |plain| > MAX_PLAINTEXT_BYTES then Err(LimitExceeded)
    else if |c.encode(h)| > HEADER_MAX_BYTES then Err(FormatInvalid)
    else if !ValidPassphrase(passphrase) then Err(PassphraseInvalid)
    else Ok(Frame(c, KeyFor(passphrase, h), c.encode(h), Masked(c, KeyFor(passphrase, h), plain)))
  }

  /** One encryption call: the bytes of `chunk` at their place in the file. */
  function Update(c: Crypto, key: Key, offset: nat, chunk: Octets): (r: Octets)
    ensures |r| == |chunk|
  {
    seq(|chunk|, i requires 0 <= i < |chunk| => c.mask(key, offset + i, chunk[i]))
  }

  function Downdate(c: Crypto, key: Key, offset: nat, chunk: Octets): (r: Octets)
    ensures |r| == |chunk|
  {
    seq(|chunk|, i requires 0 <= i < |chunk| => c.unmask(key, offset + i, chunk[i]))
  }

  lemma MaskedChunk(c: Crypto, key: Key, plain: Octets, a: nat, b: nat)
    requires a <= b <= |plain|
    ensures Masked(c, key, plain[..b]) == Masked(c, key, plain[..a]) + Update(c, key, a, plain[a..b])
  {
  }

  lemma UnmaskedChunk(c: Crypto, key: Key, text: Octets, a: nat, b: nat)
    requires a <= b <= |text|
    ensures Unmasked(c, key, text[..b]) == Unmasked(c, key, text[..a]) + Downdate(c, key, a, text[a..b])
  {
  }

  /** Encrypts a file; every read returns some bytes, however many up to a chunk. */
  method EncryptBundle(c: Crypto, plain: Octets, passphrase: string, salt: Octets, nonce: Octets)
    returns (answer: Result<Octets, BundleError>)
    ensures answer == Sealed(c, plain, passphrase, salt, nonce)
    ensures answer.Ok? <==>
      && |plain| <= MAX_PLAINTEXT_BYTES && |c.encode(NewHeader(salt, nonce, plain))| <= HEADER_MAX_BYTES
      && 12 <= |passphrase| <= 1024 && forall i :: 0 <= i < |passphrase| ==> passphrase[i] as int != 0
  {
    hide Masked, Update, Pack4;
    if |plain| > MAX_PLAINTEXT_BYTES {
      return Err(LimitExceeded);
    }
    var h := NewHeader(salt, nonce, plain);
    var headerBytes := c.encode(h);
    if |headerBytes| > HEADER_MAX_BYTES {
      return Err(FormatInvalid);
    }
    var aad := MAGIC + Pack4(|headerBytes|) + headerBytes;
    if !ValidPassphrase(passphrase) {
      return Err(PassphraseInvalid);
    }
    var key := KeyFor(passphrase, h);
    var text: Octets := [];
    var offset := 0;
    NothingMasked(c, key, plain);
    while offset < |plain|
      invariant offset <= |plain| && text == Masked(c, key, plain[..offset])
    {
      var limit := if |plain| - offset < CHUNK_BYTES then |plain| - offset else CHUNK_BYTES;
      var n: nat :| 1 <= n <= limit;
      MaskedChunk(c, key, plain, offset, offset + n);
      text := text + Update(c, key, offset, plain[offset..offset + n]);
      offset := offset + n;
    }
    assert plain[..|plain|] == plain;
    answer := Ok(aad + text + c.tag(key, aad, text));
  }

  lemma NothingMasked(c: Crypto, key: Key, plain: Octets)
    ensures Masked(c, key, plain[..0]) == []
  {
  }

  lemma NothingUnmasked(c: Crypto, key: Key, text: Octets)
    ensures Unmasked(c, key, text[..0]) == []
  {
  }

  /** Where the parts of a file lie, once its size and header length make sense. */
  function HeaderSize(file: Octets): nat
    requires |file| >= 12
  {
    Length4(file[8..12])
  }

  function Opened(c: Crypto, file: Octets, passphrase: string): Result<Octets, BundleError> {
    if !ValidPassphrase(passphrase) then Err(PassphraseInvalid)
    else if |file| > MAX_ENCRYPTED_BYTES then Err(LimitExceeded)
    else if |file| < |MAGIC| + 4 + 2 + TAG_BYTES then Err(FormatInvalid)
    else if file[..8] != MAGIC then Err(FormatInvalid)
    else
      var size := HeaderSize(file);
      if size == 0 || size > HEADER_MAX_BYTES || 12 + size > |file| then Err(FormatInvalid)
      else OpenedBody(c, file, size, passphrase)
  }

  function OpenedBody(c: Crypto, file: Octets, size: nat, passphrase: string): Result<Octets, BundleError>
    requires 12 + size <= |file| && size <= HEADER_MAX_BYTES
  {
    var headerBytes := file[12..12 + size];
    match c.decode(headerBytes)
    case None => Err(FormatInvalid)
    case Some(h) =>
      if HeaderError(h).Some? then Err(HeaderError(h).value)
      else
        var textBytes := |file| - 12 - size - TAG_BYTES;
        if textBytes < 0 || textBytes != h.plaintextBytes then Err(FormatInvalid)
        else
          var text, tag := file[12 + size..|file| - TAG_BYTES], file[|file| - TAG_BYTES..];
          if tag != c.tag(KeyFor(passphrase, h), file[..12 + size], text) then Err(PassphraseInvalid)
          else Ok(Unmasked(c, KeyFor(passphrase, h), text))
  }

  method DecryptBundle(c: Crypto, file: Octets, passphrase: string) returns (answer: Result<Octets, BundleError>)
    ensures answer == Opened(c, file, passphrase)
    ensures |passphrase| < 12 || |passphrase| > 1024 || (exists i :: 0 <= i < |passphrase| && passphrase[i] as int == 0) ==>
      answer == Err(PassphraseInvalid)
  {
    hide Unmasked, Downdate;
    if !ValidPassphrase(passphrase) {
      return Err(PassphraseInvalid);
    }
    if |file| > MAX_ENCRYPTED_BYTES {
      return Err(LimitExceeded);
    }
    if |file| < |MAGIC| + 4 + 2 + TAG_BYTES {
      return Err(FormatInvalid);
    }
    if file[..8] != MAGIC {
      return Err(FormatInvalid);
    }
    var size := Length4(file[8..12]);
    if size == 0 || size > HEADER_MAX_BYTES || 12 + size > |file| {
      return Err(FormatInvalid);
    }
    var decoded := c.decode(file[12..12 + size]);
    if decoded.None? {
      return Err(FormatInvalid);
    }
    var h := decoded.value;
    var error := HeaderError(h);
    if error.Some? {
      return Err(error.value);
    }
    var textBytes := |file| - 12 - size - TAG_BYTES;
    if textBytes < 0 || textBytes != h.plaintextBytes {
      return Err(FormatInvalid);
    }
    var text, tag := file[12 + size..|file| - TAG_BYTES], file[|file| - TAG_BYTES..];
    var key := KeyFor(passphrase, h);
    var plain: Octets := [];
    var offset := 0;
    NothingUnmasked(c, key, text);
    while offset < |text|
      invariant offset <= |text| && plain == Unmasked(c, key, text[..offset])
    {
      var limit := if |text| - offset < CHUNK_BYTES then |text| - offset else CHUNK_BYTES;
      var n: nat :| 1 <= n <= limit;
      UnmaskedChunk(c, key, text, offset, offset + n);
      plain := plain + Downdate(c, key, offset, text[offset..offset + n]);
      offset := offset + n;
    }
    assert text[..|text|] == text;
    if tag != c.tag(key, file[..12 + size], text) {
      return Err(PassphraseInvalid);
    }
    answer := Ok(plain);
  }

  // ---------------------------------------------------------------------------
  // Round trip, and what opens at all
  // ---------------------------------------------------------------------------

  lemma MaskInverse(c: Crypto, key: Key, plain: Octets)
    requires Lawful(c)
    ensures Unmasked(c, key, Masked(c, key, plain)) == plain
    ensures Masked(c, key, Unmasked(c, key, plain)) == plain
  {
    assert forall i :: 0 <= i < |plain| ==> Unmasked(c, key, Masked(c, key, plain))[i] == plain[i];
    assert forall i :: 0 <= i < |plain| ==> Masked(c, key, Unmasked(c, key, plain))[i] == plain[i];
  }

  /** The parts of a framed file are found where they were put. */
  lemma FrameParts(headerBytes: Octets, text: Octets, tag: Octets)
    requires |headerBytes| <= HEADER_MAX_BYTES && |tag| == TAG_BYTES
    ensures var file := Preamble(headerBytes) + text + tag;
      && |file| == 12 + |headerBytes| + |text| + TAG_BYTES
      && file[..8] == MAGIC && HeaderSize(file) == |headerBytes|
      && file[..12 + |headerBytes|] == Preamble(headerBytes)
      && file[12..12 + |headerBytes|] == headerBytes
      && file[12 + |headerBytes|..|file| - TAG_BYTES] == text
      && file[|file| - TAG_BYTES..] == tag
  {
    hide Pack4, Length4;
    var packed := Pack4(|headerBytes|);
    var p := Preamble(headerBytes);
    var file := p + text + tag;
    TakeDrop(MAGIC, packed, headerBytes);
    TakeDrop(p, text, tag);
    assert |p| == 12 + |headerBytes|;
    assert file[..8] == p[..8] && file[8..12] == p[8..12] && file[12..12 + |headerBytes|] == p[12..];
    assert file[|p|..|file| - TAG_BYTES] == text;
    assert file[|file| - TAG_BYTES..] == file[|p| + |text|..];
  }

  /** A framed file with a sound header opens exactly to its unmasked text. */
  lemma FrameOpens(c: Crypto, h: Header, headerBytes: Octets, text: Octets, passphrase: string)
    requires Lawful(c) && ValidPassphrase(passphrase)
    requires 2 <= |headerBytes| <= HEADER_MAX_BYTES && c.decode(headerBytes) == Some(h)
    requires HeaderError(h).None? && h.plaintextBytes == |text|
    ensures var key := KeyFor(passphrase, h);
      Opened(c, Frame(c, key, headerBytes, text), passphrase) == Ok(Unmasked(c, key, text))
  {
    hide Unmasked, Preamble, HeaderSize;
    var key := KeyFor(passphrase, h);
    FrameParts(headerBytes, text, c.tag(key, Preamble(headerBytes), text));
  }

  /** Decrypting what was encrypted returns the same plaintext, however either side's reads split
      the file. */
  lemma DecryptInvertsEncrypt(c: Crypto, plain: Octets, passphrase: string, salt: Octets, nonce: Octets)
    requires Lawful(c) && ReadsBack(c, NewHeader(salt, nonce, plain)) && |salt| == 16 && |nonce| == 12
    ensures Sealed(c, plain, passphrase, salt, nonce).Ok? ==>
      Opened(c, Sealed(c, plain, passphrase, salt, nonce).value, passphrase) == Ok(plain)
  {
    hide Opened, Frame, Masked, Unmasked;
    var h := NewHeader(salt, nonce, plain);
    if Sealed(c, plain, passphrase, salt, nonce).Ok? {
      var key := KeyFor(passphrase, h);
      FrameOpens(c, h, c.encode(h), Masked(c, key, plain), passphrase);
      MaskInverse(c, key, plain);
    }
  }

  /** A file opens to a plaintext exactly when it is the frame of that plaintext under the header such a
      bundle is written with, for some salt and nonce: its tag covers every other byte. */
  ghost predicate IsFrameOf(c: Crypto, file: Octets, passphrase: string, plain: Octets, headerBytes: Octets, h: Header) {
    && 2 <= |headerBytes| <= HEADER_MAX_BYTES && c.decode(headerBytes) == Some(h)
    && h == NewHeader(h.kdf.salt, h.nonce, plain) && |h.kdf.salt| == 16 && |h.nonce| == 12 && |plain| <= MAX_PLAINTEXT_BYTES
    && file == Frame(c, KeyFor(passphrase, h), headerBytes, Masked(c, KeyFor(passphrase, h), plain))
  }

  lemma OpensExactly(c: Crypto, file: Octets, passphrase: string, plain: Octets)
    requires Lawful(c) && ValidPassphrase(passphrase) && |file| <= MAX_ENCRYPTED_BYTES && IsBytes(file)
    requires forall bytes :: |bytes| < 2 ==> c.decode(bytes) == None
    ensures Opened(c, file, passphrase) == Ok(plain) <==>
      exists headerBytes, h :: IsFrameOf(c, file, passphrase, plain, headerBytes, h)
  {
    if Opened(c, file, passphrase) == Ok(plain) {
      OpenedIsFrame(c, file, passphrase, plain);
    }
    if headerBytes, h :| IsFrameOf(c, file, passphrase, plain, headerBytes, h) {
      FrameOpens(c, h, headerBytes, Masked(c, KeyFor(passphrase, h), plain), passphrase);
      MaskInverse(c, KeyFor(passphrase, h), plain);
    }
  }

  lemma OpenedIsFrame(c: Crypto, file: Octets, passphrase: string, plain: Octets)
    requires Lawful(c) && Opened(c, file, passphrase) == Ok(plain) && IsBytes(file)
    requires forall bytes :: |bytes| < 2 ==> c.decode(bytes) == None
    ensures exists headerBytes, h :: IsFrameOf(c, file, passphrase, plain, headerBytes, h)
  {
    hide Masked, Unmasked, Pack4, Length4;
    SliceIsBytes(file, 8, 12);
    var size := HeaderSize(file);
    var headerBytes := file[12..12 + size];
    var h := c.decode(headerBytes).value;
    var key := KeyFor(passphrase, h);
    var text := file[12 + size..|file| - TAG_BYTES];
    MaskInverse(c, key, text);
    PackUnique(file[8..12]);
    assert file[..12 + size] == file[..8] + file[8..12] + headerBytes;
    assert file == file[..12 + size] + text + file[|file| - TAG_BYTES..];
    assert IsFrameOf(c, file, passphrase, plain, headerBytes, h);
  }
}
