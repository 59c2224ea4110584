/** Attachment blobs: bucket padding, PKCS#7 (section 6.3 of RFC 5652), CBC (section 6.2 of NIST
    SP 800-38A), encrypt-then-MAC, and the checks in front of decryption. The block cipher, the MAC and
    the hash are parameters. */
module Attachments {
  import opened Wrappers
  import opened Buckets

  type u8 = bv8

  const KEY_LEN := 64
  const AES_KEY_LEN := 32
  const IV_LEN := 16
  const BLOCK := 16
  const MAC_LEN := 32

  type Block = b: seq<u8> | |b| == BLOCK witness seq(16, _ => 0)
  type Tag = t: seq<u8> | |t| == MAC_LEN witness seq(32, _ => 0)

  /** AES-256 on one block, HMAC-SHA-256 and SHA-256. */
  datatype Primitives = Primitives(
    encryptBlock: (seq<u8>, Block) -> Block,
    decryptBlock: (seq<u8>, Block) -> Block,
    hmac: (seq<u8>, seq<u8>) -> Tag,
    sha256: seq<u8> -> Tag)
  {
    /** For each key the block cipher permutes the blocks. */
    ghost predicate IsCipher() {
      && (forall k, b: Block :: decryptBlock(k, encryptBlock(k, b)) == b)
      && (forall k, b: Block :: encryptBlock(k, decryptBlock(k, b)) == b)
    }
  }

  // ---- PKCS#7 ----

  /** `n` bytes of value `n`. */
  function Padding(n: nat): (tail: seq<u8>)
    requires n <= BLOCK
    ensures |tail| == n
  {
    seq(n, _ => n as u8)
  }

  function PadLength(size: nat): (n: nat)
    ensures 1 <= n <= BLOCK && size + n == BLOCK * (size / BLOCK + 1)
  {
    BLOCK - size % BLOCK
  }

  function Pad(data: seq<u8>): (padded: seq<u8>)
    ensures |padded| == BLOCK * (|data| / BLOCK + 1)
  {
    data + Padding(PadLength(|data|))
  }

  function Unpad(padded: seq<u8>): Option<seq<u8>>
    requires |padded| > 0 && |padded| % BLOCK == 0
  {
    var n := padded[|padded| - 1] as nat;
    if 1 <= n <= BLOCK && padded[|padded| - n..] == Padding(n)
    then Some(padded[..|padded| - n])
    else None
  }

  lemma LastOfPadding(n: nat)
    requires 1 <= n <= BLOCK
    ensures Padding(n)[n - 1] as nat == n
  {
  }

  /** Up to sixteen bytes are added, each telling how many. */
  lemma PadThenUnpad(data: seq<u8>)
    ensures var n := 16 - |data| % 16;
            && |Pad(data)| == |data| + n && |Pad(data)| % 16 == 0 && data <= Pad(data)
            && forall i | |data| <= i < |data| + n :: Pad(data)[i] as nat == n
    ensures Unpad(Pad(data)) == Some(data)
  {
    var n := PadLength(|data|);
    LastOfPadding(n);
    assert Pad(data)[|data|..] == Padding(n);
    assert Pad(data)[..|data|] == data;
  }

  lemma RestOfBlocks(total: nat, n: nat)
    requires total % BLOCK == 0 && 1 <= n <= BLOCK && n <= total
    ensures PadLength(total - n) == n
  {
    var blocks := total / BLOCK;
    assert total - n == BLOCK * (blocks - 1) + (BLOCK - n);
    if n < BLOCK {
      assert (total - n) / BLOCK == blocks - 1;
    }
  }

  lemma UnpadThenPad(padded: seq<u8>)
    requires |padded| > 0 && |padded| % BLOCK == 0
    requires Unpad(padded).Some?
    ensures Pad(Unpad(padded).value) == padded
  {
    var n := padded[|padded| - 1] as nat;
    RestOfBlocks(|padded|, n);
    assert padded == padded[..|padded| - n] + padded[|padded| - n..];
  }

  // ---- CBC ----

  function Xor(a: Block, b: Block): Block {
    seq(BLOCK, i requires 0 <= i < BLOCK => a[i] ^ b[i])
  }

  lemma XorTwice(a: Block, b: Block)
    ensures Xor(Xor(a, b), b) == a
  {
    forall i | 0 <= i < BLOCK ensures Xor(Xor(a, b), b)[i] == a[i] {
      assert (a[i] ^ b[i]) ^ b[i] == a[i];
    }
  }

  function CbcEncrypt(p: Primitives, key: seq<u8>, iv: Block, data: seq<u8>): (c: seq<u8>)
    requires |data| % BLOCK == 0
    ensures |c| == |data|
    decreases data
  {
    if data == [] then []
    else
      var block := p.encryptBlock(key, Xor(data[..BLOCK], iv));
      block + CbcEncrypt(p, key, block, data[BLOCK..])
  }

  function CbcDecrypt(p: Primitives, key: seq<u8>, iv: Block, c: seq<u8>): (data: seq<u8>)
    requires |c| % BLOCK == 0
    ensures |data| == |c|
    decreases c
  {
    if c == [] then []
    else Xor(p.decryptBlock(key, c[..BLOCK]), iv) + CbcDecrypt(p, key, c[..BLOCK], c[BLOCK..])
  }

  /** Each block of the ciphertext is the cipher's answer to the plaintext's block XORed with the block of
      ciphertext before, the first with the IV. */
  lemma {:induction false} CbcBlocks(p: Primitives, key: seq<u8>, iv: Block, data: seq<u8>, i: nat)
    returns (input: Block)
    requires |data| % 16 == 0 && 16 * i < |data|
    ensures var c := CbcEncrypt(p, key, iv, data);
            && 16 * i + 16 <= |data| == |c|
            && c[16 * i..16 * i + 16] == p.encryptBlock(key, input)
            && forall j | 0 <= j < 16 ::
                 input[j] == data[16 * i + j] ^ if i == 0 then iv[j] else c[16 * (i - 1) + j]
    decreases i
  {
    var block := p.encryptBlock(key, Xor(data[..BLOCK], iv));
    var rest: seq<u8> := CbcEncrypt(p, key, block, data[BLOCK..]);
    var c := CbcEncrypt(p, key, iv, data);
    if i == 0 {
      input := Xor(data[..BLOCK], iv);
    } else {
      input := CbcBlocks(p, key, block, data[BLOCK..], i - 1);
      assert c[16 * i..16 * i + 16] == rest[16 * (i - 1)..16 * (i - 1) + 16];
    }
  }

  lemma {:induction false} CbcEncryptThenDecrypt(p: Primitives, key: seq<u8>, iv: Block, data: seq<u8>)
    requires p.IsCipher() && |data| % BLOCK == 0
    ensures CbcDecrypt(p, key, iv, CbcEncrypt(p, key, iv, data)) == data
    decreases data
  {
    if data != [] {
      var block := p.encryptBlock(key, Xor(data[..BLOCK], iv));
      var rest: seq<u8> := CbcEncrypt(p, key, block, data[BLOCK..]);
      CbcEncryptThenDecrypt(p, key, block, data[BLOCK..]);
      XorTwice(data[..BLOCK], iv);
      var whole: seq<u8> := block + rest;
      assert whole[..BLOCK] == block && whole[BLOCK..] == rest;
    }
  }

  lemma {:induction false} CbcDecryptThenEncrypt(p: Primitives, key: seq<u8>, iv: Block, c: seq<u8>)
    requires p.IsCipher() && |c| % BLOCK == 0
    ensures CbcEncrypt(p, key, iv, CbcDecrypt(p, key, iv, c)) == c
    decreases c
  {
    if c != [] {
      var front := Xor(p.decryptBlock(key, c[..BLOCK]), iv);
      var rest: seq<u8> := CbcDecrypt(p, key, c[..BLOCK], c[BLOCK..]);
      CbcDecryptThenEncrypt(p, key, c[..BLOCK], c[BLOCK..]);
      XorTwice(p.decryptBlock(key, c[..BLOCK]), iv);
      var whole: seq<u8> := front + rest;
      assert whole[..BLOCK] == front && whole[BLOCK..] == rest;
    }
  }

  function AesCbcEncrypt(p: Primitives, key: seq<u8>, iv: Block, data: seq<u8>): (c: seq<u8>)
    ensures |c| == BLOCK * (|data| / BLOCK + 1)
  {
    CbcEncrypt(p, key, iv, Pad(data))
  }

  function AesCbcDecrypt(p: Primitives, key: seq<u8>, iv: Block, c: seq<u8>): Option<seq<u8>> {
    if c == [] || |c| % BLOCK != 0 then None else Unpad(CbcDecrypt(p, key, iv, c))
  }

  /** A ciphertext decrypts to `data` exactly when it is the encryption of `data`. */
  lemma AesCbcExact(p: Primitives, key: seq<u8>, iv: Block, c: seq<u8>, data: seq<u8>)
    requires p.IsCipher()
    ensures AesCbcDecrypt(p, key, iv, c) == Some(data) <==> c == AesCbcEncrypt(p, key, iv, data)
  {
    PadThenUnpad(data);
    CbcEncryptThenDecrypt(p, key, iv, Pad(data));
    if AesCbcDecrypt(p, key, iv, c) == Some(data) {
      CbcDecryptThenEncrypt(p, key, iv, c);
      UnpadThenPad(CbcDecrypt(p, key, iv, c));
    }
  }

  /** The ciphertext is CBC over the data and its padding, block by block. */
  lemma CiphertextBlocks(p: Primitives, key: seq<u8>, iv: Block, data: seq<u8>, i: nat) returns (input: Block)
    requires i <= |data| / 16
    ensures var c, padded := AesCbcEncrypt(p, key, iv, data), Pad(data);
            && |c| == |padded| && 16 * i + 16 <= |c|
            && c[16 * i..16 * i + 16] == p.encryptBlock(key, input)
            && forall j | 0 <= j < 16 ::
                 input[j] == padded[16 * i + j] ^ if i == 0 then iv[j] else c[16 * (i - 1) + j]
  {
    PadThenUnpad(data);
    input := CbcBlocks(p, key, iv, Pad(data), i);
  }

  // ---- The blob ----

  datatype Error = InvalidKey | MalformedBlob | DigestMismatch | MacMismatch | BadLength | CipherError

  datatype Encrypted = Encrypted(blob: seq<u8>, digest: seq<u8>)

  /** IV, ciphertext of the padded plaintext, and the tag over both. */
  function Seal(p: Primitives, key: seq<u8>, iv: Block, padded: seq<u8>): seq<u8>
    requires |key| == KEY_LEN
  {
    var c := AesCbcEncrypt(p, key[..AES_KEY_LEN], iv, padded);
    iv + c + p.hmac(key[AES_KEY_LEN..], iv + c)
  }

  function ToBucket(plaintext: seq<u8>): (padded: seq<u8>)
    ensures |padded| == PaddedSize(|plaintext|) && plaintext <= padded
  {
    PaddedSizeBounds(|plaintext|);
    plaintext + seq(PaddedSize(|plaintext|) - |plaintext|, _ => 0)
  }

  function EncryptAttachment(p: Primitives, plaintext: seq<u8>, key: seq<u8>, iv: Block): Result<Encrypted, Error> {
    if |key| != KEY_LEN then Err(InvalidKey)
    else
      var blob := Seal(p, key, iv, ToBucket(plaintext));
      Ok(Encrypted(blob, p.sha256(blob)))
  }

  function DecryptAttachment(p: Primitives, blob: seq<u8>, key: seq<u8>, digest: seq<u8>, length: nat)
    : Result<seq<u8>, Error>
  {
    if |key| != KEY_LEN then Err(InvalidKey)
    else if |blob| < IV_LEN + BLOCK + MAC_LEN then Err(MalformedBlob)
    else if p.sha256(blob) != digest then Err(DigestMismatch)
    else
      var front := blob[..|blob| - MAC_LEN];
      if p.hmac(key[AES_KEY_LEN..], front) != blob[|blob| - MAC_LEN..] then Err(MacMismatch)
      else match AesCbcDecrypt(p, key[..AES_KEY_LEN], blob[..IV_LEN], front[IV_LEN..])
        case None => Err(CipherError)
        case Some(padded) => if length > |padded| then Err(BadLength) else Ok(padded[..length])
  }

  /** decrypt answers Ok exactly on blobs sealed under this key, with the digest of the whole blob and a
      length inside the padded plaintext, and the answer is that many of its bytes. */
  lemma DecryptsExactly(p: Primitives, blob: seq<u8>, key: seq<u8>, digest: seq<u8>, length: nat, r: seq<u8>)
    requires p.IsCipher()
    ensures DecryptAttachment(p, blob, key, digest, length) == Ok(r) <==>
            && |key| == KEY_LEN && digest == p.sha256(blob)
            && exists iv: Block, padded: seq<u8> ::
                 blob == Seal(p, key, iv, padded) && length <= |padded| && r == padded[..length]
  {
    if |key| == KEY_LEN {
      forall iv: Block, padded: seq<u8> | blob == Seal(p, key, iv, padded) && length <= |padded|
        ensures digest == p.sha256(blob) ==> DecryptAttachment(p, blob, key, digest, length) == Ok(padded[..length])
      {
        SealedIsAccepted(p, key, iv, padded, digest, length);
      }
      if DecryptAttachment(p, blob, key, digest, length) == Ok(r) {
        var padded := AcceptedIsSealed(p, blob, key, digest, length);
      }
    }
  }

  lemma SealedIsAccepted(p: Primitives, key: seq<u8>, iv: Block, padded: seq<u8>, digest: seq<u8>, length: nat)
    requires p.IsCipher() && |key| == KEY_LEN && length <= |padded|
    ensures var blob := Seal(p, key, iv, padded);
            digest == p.sha256(blob) ==> DecryptAttachment(p, blob, key, digest, length) == Ok(padded[..length])
  {
    var c := AesCbcEncrypt(p, key[..AES_KEY_LEN], iv, padded);
    var blob := Seal(p, key, iv, padded);
    assert blob[..|blob| - MAC_LEN] == iv + c;
    assert blob[..IV_LEN] == iv && (iv + c)[IV_LEN..] == c;
    AesCbcExact(p, key[..AES_KEY_LEN], iv, c, padded);
  }

  lemma AcceptedIsSealed(p: Primitives, blob: seq<u8>, key: seq<u8>, digest: seq<u8>, length: nat)
    returns (padded: seq<u8>)
    requires p.IsCipher()
    requires DecryptAttachment(p, blob, key, digest, length).Ok?
    ensures blob == Seal(p, key, blob[..IV_LEN], padded) && length <= |padded|
    ensures DecryptAttachment(p, blob, key, digest, length) == Ok(padded[..length])
  {
    var front := blob[..|blob| - MAC_LEN];
    var c := front[IV_LEN..];
    padded := AesCbcDecrypt(p, key[..AES_KEY_LEN], blob[..IV_LEN], c).value;
    AesCbcExact(p, key[..AES_KEY_LEN], blob[..IV_LEN], c, padded);
    assert front == blob[..IV_LEN] + c;
    assert blob == front + blob[|blob| - MAC_LEN..];
  }

  lemma EncryptThenDecrypt(p: Primitives, plaintext: seq<u8>, key: seq<u8>, iv: Block)
    requires p.IsCipher() && |key| == KEY_LEN
    ensures var e := EncryptAttachment(p, plaintext, key, iv).value;
            DecryptAttachment(p, e.blob, key, e.digest, |plaintext|) == Ok(plaintext)
  {
    var blob := Seal(p, key, iv, ToBucket(plaintext));
    SealedIsAccepted(p, key, iv, ToBucket(plaintext), p.sha256(blob), |plaintext|);
  }

  /** The stored length tells the bucket and nothing more. */
  lemma BlobLength(p: Primitives, plaintext: seq<u8>, key: seq<u8>, iv: Block)
    requires |key| == KEY_LEN
    ensures |EncryptAttachment(p, plaintext, key, iv).value.blob|
         == 16 + 16 * (PaddedSize(|plaintext|) / 16 + 1) + 32
  {
  }

  // ---- The code ----

  method ConstantTimeEq(a: seq<u8>, b: seq<u8>) returns (eq: bool)
    ensures eq <==> a == b
  {
    if |a| != |b| {
      return false;
    }
    var diff: u8 := 0;
    for i := 0 to |a|
      invariant diff == 0 <==> a[..i] == b[..i]
    {
      OrXorZero(diff, a[i], b[i]);
      diff := diff | (a[i] ^ b[i]);
      assert a[..i + 1] == a[..i] + [a[i]] && b[..i + 1] == b[..i] + [b[i]];
    }
    assert a[..|a|] == a && b[..|b|] == b;
    return diff == 0;
  }

  lemma OrXorZero(diff: u8, x: u8, y: u8)
    ensures diff | (x ^ y) == 0 <==> diff == 0 && x == y
  {
  }

  method Encrypt(p: Primitives, plaintext: seq<u8>, key: seq<u8>, iv: Block) returns (r: Result<Encrypted, Error>)
    ensures r == EncryptAttachment(p, plaintext, key, iv)
    ensures |key| != 64 ==> r == Err(InvalidKey)
    ensures |key| == 64 ==>
              var padded := plaintext + seq(PaddedSize(|plaintext|) - |plaintext|, _ => 0);
              var sealed := iv + AesCbcEncrypt(p, key[..32], iv, padded);
              var blob := sealed + p.hmac(key[32..], sealed);
              r == Ok(Encrypted(blob, p.sha256(blob)))
  {
    if |key| != KEY_LEN {
      return Err(InvalidKey);
    }
    var aesKey, hmacKey := key[..AES_KEY_LEN], key[AES_KEY_LEN..];
    var target := PaddedSize(|plaintext|);
    PaddedSizeBounds(|plaintext|);
    var padded := plaintext;
    while |padded| < target
      invariant |padded| <= target
      invariant padded == plaintext + seq(|padded| - |plaintext|, _ => 0)
    {
      padded := padded + [0];
    }
    var ciphertext := AesCbcEncrypt(p, aesKey, iv, padded);
    var tag := p.hmac(hmacKey, iv + ciphertext);
    var blob := iv;
    blob := blob + ciphertext;
    blob := blob + tag;
    r := Ok(Encrypted(blob, p.sha256(blob)));
  }

  method Decrypt(p: Primitives, blob: seq<u8>, key: seq<u8>, digest: seq<u8>, length: nat)
    returns (r: Result<seq<u8>, Error>)
    ensures r == DecryptAttachment(p, blob, key, digest, length)
    ensures |key| != 64 ==> r == Err(InvalidKey)
    ensures |key| == 64 && |blob| < 64 ==> r == Err(MalformedBlob)
    ensures |key| == 64 && |blob| >= 64 && p.sha256(blob) != digest ==> r == Err(DigestMismatch)
    ensures |key| == 64 && |blob| >= 64 && p.sha256(blob) == digest ==>
              if p.hmac(key[32..], blob[..|blob| - 32]) != blob[|blob| - 32..] then r == Err(MacMismatch)
              else match AesCbcDecrypt(p, key[..32], blob[..16], blob[16..|blob| - 32])
                case None => r == Err(CipherError)
                case Some(padded) => r == if length > |padded| then Err(BadLength) else Ok(padded[..length])
  {
    if |key| != KEY_LEN {
      return Err(InvalidKey);
    }
    var aesKey, hmacKey := key[..AES_KEY_LEN], key[AES_KEY_LEN..];
    if |blob| < IV_LEN + BLOCK + MAC_LEN {
      return Err(MalformedBlob);
    }
    var sameDigest := ConstantTimeEq(p.sha256(blob), digest);
    if !sameDigest {
      return Err(DigestMismatch);
    }
    var iv, rest := blob[..IV_LEN], blob[IV_LEN..];
    var ciphertext, tag := rest[..|rest| - MAC_LEN], rest[|rest| - MAC_LEN..];
    assert iv + ciphertext == blob[..|blob| - MAC_LEN];
    assert tag == blob[|blob| - MAC_LEN..];
    assert ciphertext == blob[..|blob| - MAC_LEN][IV_LEN..];
    var sameTag := ConstantTimeEq(p.hmac(hmacKey, iv + ciphertext), tag);
    if !sameTag {
      return Err(MacMismatch);
    }
    match AesCbcDecrypt(p, aesKey, iv, ciphertext) {
      case None => return Err(CipherError);
      case Some(padded) =>
        if length > |padded| {
          return Err(BadLength);
        }
        return Ok(padded[..length]);
    }
  }
}
