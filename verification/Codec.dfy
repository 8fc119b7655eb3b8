/** What one block of a file is turned into, and back (internal/service/file_management.go:185-239
    and 405-431). The cryptographic libraries appear as functions of a `Crypto` value, of which
    only the laws in `Lawful` are known; module PolynomialCodes supplies a value that meets them.
    The splitting, padding and framing around the libraries is concrete. */
module Codec {
  import opened Types
  import opened Placement
  import Blocks

  datatype Crypto = Crypto(
    k: nat,                                               // data shards, and parts needed
    n: nat,                                               // all shards
    seal: (Bytes, Bytes, Bytes) -> Bytes,                 // AES-GCM: key, nonce, plaintext
    open: (Bytes, Bytes, Bytes) -> Option<Bytes>,         // key, nonce, ciphertext and tag
    lock: (nat, Bytes, nat) -> Bytes,                     // tlock: round, message, coins
    unlock: (Bytes, nat) -> Option<Bytes>,                // ciphertext, round reached
    encode: seq<Bytes> -> seq<Bytes>,                     // Reed-Solomon: data shards
    reconstruct: seq<Option<Bytes>> -> Option<seq<Bytes>>,
    share: (Bytes, nat) -> map<nat, Bytes>,               // Shamir: secret, coins
    combine: map<nat, Bytes> -> Option<Bytes>)

  const NONCE_SIZE: nat := 12
  const TAG_SIZE: nat := 16

  // ---- Laws ----

  ghost predicate CipherLaws(c: Crypto) {
    forall key, nonce, data ::
      && |c.seal(key, nonce, data)| == |data| + TAG_SIZE
      && c.open(key, nonce, c.seal(key, nonce, data)) == Some(data)
  }

  /** A time lock opens when its round is reached, and not before. */
  ghost predicate LockLaws(c: Crypto) {
    forall round, message, coins, now ::
      c.unlock(c.lock(round, message, coins), now) == if now >= round then Some(message) else None
  }

  ghost predicate EqualSizes(shards: seq<Bytes>) {
    forall i, j :: 0 <= i < |shards| && 0 <= j < |shards| ==> |shards[i]| == |shards[j]|
  }

  /** The positions that hold a shard. */
  ghost function Present(some: seq<Option<Bytes>>): set<nat> {
    set i: nat | i < |some| && some[i].Some?
  }

  /** `some` is `all` with some shards missing. */
  ghost predicate PartOf(some: seq<Option<Bytes>>, all: seq<Bytes>) {
    && |some| == |all|
    && forall i :: 0 <= i < |some| && some[i].Some? ==> some[i].value == all[i]
  }

  /** Systematic erasure code: n shards of one size, any k of which give back all of them. */
  ghost predicate ErasureLaws(c: Crypto) {
    forall data :: |data| == c.k && EqualSizes(data) ==>
      && |c.encode(data)| == c.n
      && data <= c.encode(data) && EqualSizes(c.encode(data))
      && forall some :: PartOf(some, c.encode(data)) && |Present(some)| >= c.k ==>
           c.reconstruct(some) == Some(c.encode(data))
  }

  ghost predicate SubMap(some: map<nat, Bytes>, all: map<nat, Bytes>) {
    forall i :: i in some ==> i in all && some[i] == all[i]
  }

  /** Secret sharing: any k of the n parts give back the secret. */
  ghost predicate SharingLaws(c: Crypto) {
    forall secret, coins ::
      && |c.share(secret, coins)| == c.n
      && forall some :: SubMap(some, c.share(secret, coins)) && |some| >= c.k ==>
           c.combine(some) == Some(secret)
  }

  ghost predicate Lawful(c: Crypto) {
    && 0 < c.k <= c.n
    && CipherLaws(c) && LockLaws(c) && ErasureLaws(c) && SharingLaws(c)
  }

  lemma LawfulSizes(c: Crypto)
    requires Lawful(c)
    ensures 0 < c.k <= c.n
  {
  }

  // ---- Splitting into shards ----

  function Zeros(n: nat): Bytes {
    seq(n, _ => 0)
  }

  /** enc.Split: k equal pieces, the end filled up with zeros. */
  function Split(data: Bytes, k: nat): seq<Bytes>
    requires k > 0 && data != []
  {
    var per := CeilDiv(|data|, k);
    Padding(|data|, k);
    Blocks.Cut(data + Zeros(per * k - |data|), per)
  }

  /** enc.Join: the first k shards, cut to the wanted size. */
  function Join(shards: seq<Bytes>, k: nat, size: nat): Option<Bytes> {
    if |shards| < k || |Blocks.Join(shards[..k])| < size then None
    else Some(Blocks.Join(shards[..k])[..size])
  }

  lemma Padding(size: nat, k: nat)
    requires k > 0 && size > 0
    ensures 0 < CeilDiv(size, k) && size <= CeilDiv(size, k) * k
  {
    var per := CeilDiv(size, k);
    assert size + k - 1 == per * k + (size + k - 1) % k;
    Blocks.MulOrder(1, per, k);
    Blocks.Quotient(k, k, 1, 0);
  }

  /** Splitting gives k shards of one size, and joining them undoes it. */
  lemma SplitJoin(data: Bytes, k: nat)
    requires k > 0 && data != []
    ensures |Split(data, k)| == k && EqualSizes(Split(data, k))
    ensures Join(Split(data, k), k, |data|) == Some(data)
  {
    var per := CeilDiv(|data|, k);
    Padding(|data|, k);
    var padded := data + Zeros(per * k - |data|);
    Blocks.CutCount(padded, per);
    Blocks.Quotient(per * k + per - 1, per, k, per - 1);
    var shards := Split(data, k);
    forall i | 0 <= i < |shards|
      ensures |shards[i]| == per
    {
      Blocks.CutAt(padded, per, i);
      Blocks.MulOrder(i + 1, k, per);
      Blocks.MulOrder(i, i, per);
    }
    Blocks.CutJoin(padded, per);
    assert shards[..k] == shards;
    assert padded[..|data|] == data;
  }

  // ---- Authenticated encryption, framed as nonce, ciphertext, tag ----

  function EncryptGCM(c: Crypto, data: Bytes, key: Bytes, nonce: Bytes): Bytes {
    nonce + c.seal(key, nonce, data)
  }

  function DecryptGCM(c: Crypto, data: Bytes, key: Bytes): Option<Bytes> {
    if |data| < NONCE_SIZE then None
    else c.open(key, data[..NONCE_SIZE], data[NONCE_SIZE..])
  }

  lemma GcmRoundTrip(c: Crypto, data: Bytes, key: Bytes, nonce: Bytes)
    requires CipherLaws(c) && |nonce| == 12
    ensures DecryptGCM(c, EncryptGCM(c, data, key, nonce), key) == Some(data)
    ensures |EncryptGCM(c, data, key, nonce)| == |data| + 28
  {
    var framed := EncryptGCM(c, data, key, nonce);
    assert framed[..NONCE_SIZE] == nonce && framed[NONCE_SIZE..] == c.seal(key, nonce, data);
  }

  // ---- One block ----

  /** The random choices made for one block. */
  datatype Coins = Coins(key: Bytes, nonce: Bytes, lock: nat, share: nat)

  datatype Sealed = Sealed(size: nat, shards: seq<Bytes>, parts: map<nat, Bytes>)

  datatype ReadError =
    | Insufficient(block: nat)
    | ReconstructionFailed
    | JoinFailed
    | CombineFailed
    | Locked
    | DecryptionFailed
    | WriteFailed

  datatype Result<+T> = Ok(value: T) | Err(error: ReadError)

  ghost predicate GoodCoins(coins: Coins) {
    |coins.nonce| == NONCE_SIZE
  }

  /** The crypto worker: encrypt, lock the key, shard the ciphertext, share the locked key. */
  function SealBlock(c: Crypto, round: nat, data: Bytes, coins: Coins): Sealed {
    var encryptedKey := c.lock(round, coins.key, coins.lock);
    var encryptedBlock := EncryptGCM(c, data, coins.key, coins.nonce);
    // enc.Split refuses an empty block, and reedsolomon.New a code without data shards
    var dataShards := if c.k == 0 || encryptedBlock == [] then [] else Split(encryptedBlock, c.k);
    Sealed(|encryptedBlock|, c.encode(dataShards), c.share(encryptedKey, coins.share))
  }

  /** The reader: from the collected shards and key parts back to the block. */
  function OpenBlock(c: Crypto, shards: seq<Option<Bytes>>, parts: map<nat, Bytes>, size: nat, now: nat)
    : Result<Bytes>
  {
    var full := c.reconstruct(shards);
    if full.None? then Err(ReconstructionFailed) else
    var encryptedBlock := Join(full.value, c.k, size);
    if encryptedBlock.None? then Err(JoinFailed) else
    var encryptedKey := c.combine(parts);
    if encryptedKey.None? then Err(CombineFailed) else
    var key := c.unlock(encryptedKey.value, now);
    if key.None? then Err(Locked) else
    var data := DecryptGCM(c, encryptedBlock.value, key.value);
    if data.None? then Err(DecryptionFailed) else Ok(data.value)
  }

  /** The ciphertext that the collected shards give. */
  function JoinedText(c: Crypto, shards: seq<Option<Bytes>>, size: nat): Option<Bytes> {
    var full := c.reconstruct(shards);
    if full.None? then None else Join(full.value, c.k, size)
  }

  /** The key that the collected parts give at round `now`. */
  function UnlockedKey(c: Crypto, parts: map<nat, Bytes>, now: nat): Option<Bytes> {
    var encryptedKey := c.combine(parts);
    if encryptedKey.None? then None else c.unlock(encryptedKey.value, now)
  }

  /** A block opens to exactly what its joined text decrypts to under its unlocked key. It fails otherwise, and
      the error tells the first stage that failed. */
  lemma OpensOnlyDecrypted(c: Crypto, shards: seq<Option<Bytes>>, parts: map<nat, Bytes>, size: nat, now: nat)
    ensures var r, text, key := OpenBlock(c, shards, parts, size, now), JoinedText(c, shards, size), UnlockedKey(c, parts, now);
      && (forall data :: r == Ok(data) <==> text.Some? && key.Some? && DecryptGCM(c, text.value, key.value) == Some(data))
      && (r == Err(DecryptionFailed) <==> text.Some? && key.Some? && DecryptGCM(c, text.value, key.value).None?)
      && (r == Err(Locked) <==> text.Some? && key.None? && c.combine(parts).Some?)
      && (r == Err(CombineFailed) <==> text.Some? && c.combine(parts).None?)
      && (r == Err(JoinFailed) <==> text.None? && c.reconstruct(shards).Some?)
      && (r == Err(ReconstructionFailed) <==> c.reconstruct(shards).None?)
  {
  }

  /** Any k shards of a sealed block give its ciphertext, and any k key parts give its key, from its round on. */
  lemma SealedComesBack(c: Crypto, round: nat, data: Bytes, coins: Coins,
                        shards: seq<Option<Bytes>>, parts: map<nat, Bytes>, now: nat)
    requires Lawful(c) && GoodCoins(coins)
    requires PartOf(shards, SealBlock(c, round, data, coins).shards) && |Present(shards)| >= c.k
    requires SubMap(parts, SealBlock(c, round, data, coins).parts) && |parts| >= c.k
    ensures JoinedText(c, shards, SealBlock(c, round, data, coins).size) == Some(EncryptGCM(c, data, coins.key, coins.nonce))
    ensures UnlockedKey(c, parts, now) == if now >= round then Some(coins.key) else None
  {
    var encryptedBlock := EncryptGCM(c, data, coins.key, coins.nonce);
    GcmRoundTrip(c, data, coins.key, coins.nonce);
    SplitJoin(encryptedBlock, c.k);
    var dataShards := Split(encryptedBlock, c.k);
    var full := c.encode(dataShards);
    assert c.reconstruct(shards) == Some(full);
    assert full[..c.k] == dataShards == dataShards[..c.k];
    assert c.combine(parts) == Some(c.lock(round, coins.key, coins.lock));
  }

  /** Any k shards and any k key parts of a sealed block open it, once the round is reached; before
      that the failure is the time lock and nothing else. */
  lemma OpenSealed(c: Crypto, round: nat, data: Bytes, coins: Coins,
                   shards: seq<Option<Bytes>>, parts: map<nat, Bytes>, now: nat)
    requires Lawful(c) && GoodCoins(coins)
    requires PartOf(shards, SealBlock(c, round, data, coins).shards) && |Present(shards)| >= c.k
    requires SubMap(parts, SealBlock(c, round, data, coins).parts) && |parts| >= c.k
    ensures OpenBlock(c, shards, parts, SealBlock(c, round, data, coins).size, now)
         == if now >= round then Ok(data) else Err(Locked)
  {
    SealedComesBack(c, round, data, coins, shards, parts, now);
    GcmRoundTrip(c, data, coins.key, coins.nonce);
    var size := SealBlock(c, round, data, coins).size;
    OpensOnlyDecrypted(c, shards, parts, size, now);
    KeyCombines(c, round, data, coins, parts);
    hide *;
  }

  lemma KeyCombines(c: Crypto, round: nat, data: Bytes, coins: Coins, parts: map<nat, Bytes>)
    requires Lawful(c) && SubMap(parts, SealBlock(c, round, data, coins).parts) && |parts| >= c.k
    ensures c.combine(parts).Some?
  {
    assert c.combine(parts) == Some(c.lock(round, coins.key, coins.lock));
  }

  /** A lawful sealing has one shard and one key part for each of the n chunks. */
  lemma SealedShape(c: Crypto, round: nat, data: Bytes, coins: Coins)
    requires Lawful(c) && GoodCoins(coins)
    ensures |SealBlock(c, round, data, coins).shards| == c.n
    ensures |SealBlock(c, round, data, coins).parts| == c.n
    ensures SealBlock(c, round, data, coins).size == |data| + 28
  {
    GcmRoundTrip(c, data, coins.key, coins.nonce);
    SplitJoin(EncryptGCM(c, data, coins.key, coins.nonce), c.k);
  }
}
