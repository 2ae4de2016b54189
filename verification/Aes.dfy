/** AES-128-ECB with PKCS#7 padding over an arbitrary invertible block function
    (the cipher itself is not part of this model). */
module Aes {
  import opened Seqs
  type Byte = x: int | 0 <= x < 0x100

  type Bytes = seq<Byte>

  const BlockSize: nat := 16

  type Cipher = Bytes -> Bytes

  datatype Result = Ok(bytes: Bytes) | Err

  /** Each block is mapped to a block. */
  ghost predicate BlockFunction(f: Cipher) { forall b: Bytes :: |b| == BlockSize ==> |f(b)| == BlockSize }

  ghost predicate Inverse(encrypt: Cipher, decrypt: Cipher) {
    forall b: Bytes :: |b| == BlockSize ==> decrypt(encrypt(b)) == b
  }

  // ----- padding (section 6.3 of RFC 5652) -----

  function Padding(length: nat): (p: Byte)
    ensures 1 <= p <= BlockSize && (length + p) % BlockSize == 0
  {
    BlockSize - length % BlockSize
  }

  function Pad(data: Bytes): Bytes { data + seq(Padding(|data|), _ => Padding(|data|)) }

  function Unpad(data: Bytes): Result {
    if data == [] then Err
    else
      var padding := data[|data| - 1];
      if padding > |data| || padding == 0 then Err else Ok(data[..|data| - padding])
  }

  lemma UnpadPad(data: Bytes)
    ensures Unpad(Pad(data)) == Ok(data)
    ensures |Pad(data)| % BlockSize == 0 && |data| < |Pad(data)| <= |data| + BlockSize
  {
    var p := Padding(|data|);
    assert Pad(data)[..|Pad(data)| - p] == data;
  }

  // ----- electronic code book -----

  /** f applied block by block. */
  function Blockwise(f: Cipher, data: Bytes): Bytes
    requires |data| % BlockSize == 0
  {
    if data == [] then [] else f(data[..BlockSize]) + Blockwise(f, data[BlockSize..])
  }

  lemma {:induction false} BlockwiseLength(f: Cipher, data: Bytes)
    requires BlockFunction(f) && |data| % BlockSize == 0
    ensures |Blockwise(f, data)| == |data|
  {
    if data != [] {
      BlockwiseLength(f, data[BlockSize..]);
    }
  }

  lemma BlockwiseCons(f: Cipher, first: Bytes, rest: Bytes)
    requires |first| == BlockSize && |rest| % BlockSize == 0
    ensures Blockwise(f, first + rest) == f(first) + Blockwise(f, rest)
  {
    assert (first + rest)[..BlockSize] == first && (first + rest)[BlockSize..] == rest;
  }

  lemma InverseStep(encrypt: Cipher, decrypt: Cipher, first: Bytes, rest: Bytes)
    requires |first| == BlockSize && |rest| % BlockSize == 0
    requires |encrypt(first)| == BlockSize && decrypt(encrypt(first)) == first
    requires |Blockwise(encrypt, rest)| == |rest| && Blockwise(decrypt, Blockwise(encrypt, rest)) == rest
    ensures |Blockwise(encrypt, first + rest)| == |first + rest|
    ensures Blockwise(decrypt, Blockwise(encrypt, first + rest)) == first + rest
  {
    BlockwiseCons(encrypt, first, rest);
    BlockwiseCons(decrypt, encrypt(first), Blockwise(encrypt, rest));
  }

  lemma {:induction false} BlockwiseInverse(encrypt: Cipher, decrypt: Cipher, data: Bytes)
    requires BlockFunction(encrypt) && Inverse(encrypt, decrypt) && |data| % BlockSize == 0
    ensures |Blockwise(encrypt, data)| == |data| && Blockwise(decrypt, Blockwise(encrypt, data)) == data
  {
    if data != [] {
      WholeBlocks(0, |data|);
      var first, rest := data[..BlockSize], data[BlockSize..];
      assert data == first + rest;
      BlockwiseInverse(encrypt, decrypt, rest);
      InverseStep(encrypt, decrypt, first, rest);
    }
  }

  lemma WholeBlocks(i: nat, n: nat)
    requires n % BlockSize == 0 && i % BlockSize == 0 && i < n
    ensures i + BlockSize <= n && (n - i) % BlockSize == 0 && (n - i - BlockSize) % BlockSize == 0
  {
  }

  function Encrypted(encrypt: Cipher, plaintext: Bytes, key: Bytes): Result {
    if |key| != 16 then Err
    else
      UnpadPad(plaintext);
      Ok(Blockwise(encrypt, Pad(plaintext)))
  }

  function Decrypted(decrypt: Cipher, ciphertext: Bytes, key: Bytes): Result {
    if |key| != 16 || |ciphertext| % BlockSize != 0 then Err else Unpad(Blockwise(decrypt, ciphertext))
  }

  /** Go's integer division truncates toward zero. */
  function Quotient(a: int, b: int): int
    requires b > 0
  {
    if a >= 0 then a / b else -(-a / b)
  }

  function EncryptedSize(rawSize: int): int { Quotient(rawSize + 1 + BlockSize - 1, BlockSize) * BlockSize }

  /** Decryption undoes encryption under any 16-byte key. */
  lemma DecryptEncrypt(encrypt: Cipher, decrypt: Cipher, plaintext: Bytes, key: Bytes)
    requires BlockFunction(encrypt) && Inverse(encrypt, decrypt) && |key| == 16
    ensures var c := Encrypted(encrypt, plaintext, key);
      c.Ok? && Decrypted(decrypt, c.bytes, key) == Ok(plaintext)
  {
    UnpadPad(plaintext);
    BlockwiseInverse(encrypt, decrypt, Pad(plaintext));
  }

  /** Between one and sixteen bytes are added, each of which is their number. */
  lemma PadsWithCount(data: Bytes)
    ensures var p := |Pad(data)| - |data|;
      && 1 <= p <= BlockSize && Pad(data)[..|data|] == data
      && forall j :: |data| <= j < |Pad(data)| ==> Pad(data)[j] == p
  {
  }

  /** Block k of the result is f of block k, and of nothing else. */
  lemma {:induction false} BlocksApart(f: Cipher, data: Bytes, k: nat)
    requires BlockFunction(f) && |data| % BlockSize == 0 && (k + 1) * BlockSize <= |data|
    ensures |Blockwise(f, data)| == |data|
    ensures Blockwise(f, data)[k * BlockSize..(k + 1) * BlockSize] == f(data[k * BlockSize..(k + 1) * BlockSize])
    decreases k
  {
    var first, rest := data[..BlockSize], data[BlockSize..];
    BlockwiseLength(f, data);
    assert data == first + rest;
    BlockwiseCons(f, first, rest);
    if k > 0 {
      BlocksApart(f, rest, k - 1);
      assert data[k * BlockSize..(k + 1) * BlockSize] == rest[(k - 1) * BlockSize..k * BlockSize];
      assert (f(first) + Blockwise(f, rest))[k * BlockSize..(k + 1) * BlockSize] == Blockwise(f, rest)[(k - 1) * BlockSize..k * BlockSize];
    }
  }

  lemma LastByte(f: Cipher, text: Bytes)
    requires BlockFunction(f) && text != [] && |text| % BlockSize == 0
    ensures |text| >= BlockSize && |Blockwise(f, text)| == |text|
    ensures Blockwise(f, text)[|text| - 1] == f(text[|text| - BlockSize..])[BlockSize - 1]
  {
    var k := |text| / BlockSize - 1;
    assert (k + 1) * BlockSize == |text|;
    BlocksApart(f, text, k);
    assert text[k * BlockSize..(k + 1) * BlockSize] == text[|text| - BlockSize..];
    assert Blockwise(f, text)[|text| - 1] == Blockwise(f, text)[k * BlockSize..(k + 1) * BlockSize][BlockSize - 1];
  }

  /** What is refused: a key of another length; on the way back also a text that
      is no whole number of blocks, is empty, or whose last byte is no padding. */
  lemma RefusedIff(f: Cipher, text: Bytes, key: Bytes)
    requires BlockFunction(f)
    ensures Encrypted(f, text, key).Err? <==> |key| != 16
    ensures Decrypted(f, text, key).Err? <==>
      || |key| != 16 || |text| % BlockSize != 0 || text == []
      || (var last := f(text[|text| - BlockSize..])[BlockSize - 1]; last == 0 || last > |text|)
  {
    if |text| % BlockSize == 0 && text != [] {
      LastByte(f, text);
    }
  }

  /** The ciphertext has the announced size: the next multiple of the block
      size above the plaintext's. */
  lemma EncryptedLength(encrypt: Cipher, plaintext: Bytes, key: Bytes)
    requires BlockFunction(encrypt) && |key| == 16
    ensures |Encrypted(encrypt, plaintext, key).bytes| == EncryptedSize(|plaintext|)
  {
    UnpadPad(plaintext);
    BlockwiseLength(encrypt, Pad(plaintext));
    var n, q := |plaintext|, |Pad(plaintext)| / BlockSize;
    assert |Pad(plaintext)| == q * BlockSize;
  }

  // ----- the loops -----

  method Pkcs7Pad(data: Bytes) returns (padded: Bytes)
    ensures padded == Pad(data)
  {
    var padding := BlockSize - |data| % BlockSize;
    var pad := new Byte[padding](_ => 0);
    for i := 0 to padding
      invariant forall k :: 0 <= k < i ==> pad[k] == padding
    {
      pad[i] := padding;
    }
    padded := data + pad[..];
    assert pad[..] == seq(padding, _ => Padding(|data|));
  }

  lemma BlockStep(f: Cipher, src: Bytes, i: nat, done: Bytes)
    requires |src| % BlockSize == 0 && i % BlockSize == 0 && i < |src|
    requires done + Blockwise(f, src[i..]) == Blockwise(f, src)
    ensures i + BlockSize <= |src|
    ensures (done + f(src[i..i + BlockSize])) + Blockwise(f, src[i + BlockSize..]) == Blockwise(f, src)
  {
    WholeBlocks(i, |src|);
    var block, rest := src[i..i + BlockSize], src[i + BlockSize..];
    assert src[i..] == block + rest;
    BlockwiseCons(f, block, rest);
    Associate(done, f(block), Blockwise(f, rest));
  }

  /** Fills dst with f applied to the blocks of src. */
  method BlockLoop(f: Cipher, src: Bytes) returns (dst: array<Byte>)
    requires BlockFunction(f) && |src| % BlockSize == 0
    ensures fresh(dst) && dst[..] == Blockwise(f, src)
  {
    dst := new Byte[|src|](_ => 0);
    var i := 0;
    BlockwiseLength(f, src);
    assert src[0..] == src;
    while i < |src|
      invariant 0 <= i <= |src| && i % BlockSize == 0
      invariant dst[..i] + Blockwise(f, src[i..]) == Blockwise(f, src)
    {
      BlockStep(f, src, i, dst[..i]);
      PutBlock(dst, i, f(src[i..i + BlockSize]));
      i := i + BlockSize;
    }
    assert dst[..] == dst[..i];
  }

  /** A block written in place at i. */
  method PutBlock(dst: array<Byte>, i: nat, block: Bytes)
    requires |block| == BlockSize && i + BlockSize <= dst.Length
    modifies dst
    ensures dst[..i + BlockSize] == old(dst[..i]) + block
    ensures forall k :: i + BlockSize <= k < dst.Length ==> dst[k] == old(dst[k])
  {
    for k := 0 to BlockSize
      invariant dst[..i + k] == old(dst[..i]) + block[..k]
      invariant forall m :: i + BlockSize <= m < dst.Length ==> dst[m] == old(dst[m])
    {
      dst[i + k] := block[k];
    }
  }

  method EncryptAesEcb(encrypt: Cipher, plaintext: Bytes, key: Bytes) returns (r: Result)
    requires BlockFunction(encrypt)
    ensures r == Encrypted(encrypt, plaintext, key)
  {
    if |key| != 16 {
      return Err;
    }
    var padded := Pkcs7Pad(plaintext);
    UnpadPad(plaintext);
    var ciphertext := BlockLoop(encrypt, padded);
    return Ok(ciphertext[..]);
  }

  method DecryptAesEcb(decrypt: Cipher, ciphertext: Bytes, key: Bytes) returns (r: Result)
    requires BlockFunction(decrypt)
    ensures r == Decrypted(decrypt, ciphertext, key)
  {
    if |key| != 16 || |ciphertext| % BlockSize != 0 {
      return Err;
    }
    var plaintext := BlockLoop(decrypt, ciphertext);
    return Unpad(plaintext[..]);
  }
}
