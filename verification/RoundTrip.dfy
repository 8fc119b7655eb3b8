/** End to end: what an upload stored, a download writes back. */
module RoundTrip {
  import opened Types
  import opened Placement
  import opened Codec
  import opened Pipeline
  import opened PipelineControl
  import opened PipelineContent
  import opened Reconstruct
  import opened Upload
  import Blocks

  /** The records that the network yields are among those the nodes hold. */
  ghost predicate Honest(net: Net, store: map<Place, ChunkRecord>) {
    forall place :: place in net ==> place in store && net[place] == store[place]
  }

  lemma HonestIsTagged(p: Params, s: State, net: Net)
    requires ValidParams(p) && Content(p, s) && Honest(net, s.store)
    ensures Tagged(net)
  {
    hide Lawful, BlocksKept, JobsKept, OnceInFlight, LostKept, Recorded, Pending, Picked;
    forall a, id | (a, id) in net
      ensures net[(a, id)].chunkId == id
    {
      assert CopyOk(p, s, (a, id));
      assert id in s.issued ==> IssuedOk(p, s, id);
    }
  }

  /** A collected slot holds the shard that the sealing has there. */
  lemma ShardsMatch(p: Params, s: State, b: nat, coins: Coins, chunks: seq<Chunk>, net: Net, r: Progress)
    requires StoreKept(p, s) && Honest(net, s.store) && b < |p.blocks|
    requires ChunksOk(p, s.issued, b, SealedOf(p, b, coins), chunks)
    requires Explained(r, chunks, net) && |r.shards| == |SealedOf(p, b, coins).shards|
    ensures PartOf(r.shards, SealedOf(p, b, coins).shards)
    ensures SubMap(r.parts, SealedOf(p, b, coins).parts)
  {
    hide SealedOf, Picked;
    var sealed := SealedOf(p, b, coins);
    forall i | 0 <= i < |r.shards| && r.shards[i].Some?
      ensures r.shards[i].value == sealed.shards[i]
    {
      var c :| c in chunks && c.shardIndex == i && HasShard(r, c, net);
      var j :| 0 <= j < |chunks| && chunks[j] == c;
      assert ChunkOk(p, s.issued, b, sealed, chunks[j], j);
      var a :| a in c.nodes && (a, c.id) in net && r.shards[i] == Some(net[(a, c.id)].shard);
      assert CopyOk(p, s, (a, c.id));
    }
    forall k | k in r.parts
      ensures k in sealed.parts && r.parts[k] == sealed.parts[k]
    {
      var c :| c in chunks && c.keyIndex == k && HasPart(r, c);
      var j :| 0 <= j < |chunks| && chunks[j] == c;
      assert ChunkOk(p, s.issued, b, sealed, chunks[j], j);
    }
  }

  /** The exact outcome of reading block `b` of a successful upload. */
  function Expected(p: Params, s: State, b: nat, net: Net, now: nat): Result<Bytes>
    requires b in s.split && b < |p.blocks|
  {
    if CountRetrievable(s.split[b].chunks, 0, net) < p.crypto.k then Err(Insufficient(b))
    else if now >= p.round then Ok(p.blocks[b])
    else Err(Locked)
  }

  lemma ManifestRange(p: Params, s: State)
    requires ValidParams(p) && Content(p, s)
    ensures ManifestInRange(ManifestOf(p, s))
  {
    hide Lawful, AllIssuedOk, JobsKept, OnceInFlight, LostKept, StoreKept;
    assert 0 < p.crypto.k <= p.crypto.n by {
      LawfulSizes(p.crypto);
    }
    forall b | b in s.split
      ensures InRange(s.split[b].chunks, p.crypto.n)
    {
      BlockIsUnambiguous(p, s.issued, b, s.secrets[b], s.split[b]);
    }
  }

  /** For every run of the upload: reading a block yields its octets if and only if at least k of its
      chunks can be had from some listed node and the round is reached. */
  lemma BlockReads(p: Params, s: State, b: nat, net: Net, now: nat)
    requires ValidParams(p) && Content(p, s) && Honest(net, s.store) && b in s.split
    ensures ManifestInRange(ManifestOf(p, s)) && b < |p.blocks|
    ensures BlockResult(p.crypto, ManifestOf(p, s), net, b, now) == Expected(p, s, b, net, now)
  {
    ManifestRange(p, s);
    LawfulSizes(p.crypto);
    var r := BlockCollects(p, s, b, net);
    OpenCollected(p, b, s.secrets[b], r, now);
    hide Content, Honest, Lawful, ValidParams, SealedOf, PartOf, SubMap, GoodCoins, ManifestInRange;
    ResultOf(p, s, b, net, now, r);
  }

  /** The outcome of a block in terms of its collection. */
  lemma ResultOf(p: Params, s: State, b: nat, net: Net, now: nat, r: Progress)
    requires 0 < p.crypto.k <= p.crypto.n && b in s.split && ManifestInRange(ManifestOf(p, s))
    requires InfoInRange(Info(s.split[b].chunks), p.crypto.n)
    requires r == Collect(s.split[b].chunks, 0, Info(s.split[b].chunks), p.crypto.k, net, Start(p.crypto.n))
    ensures BlockResult(p.crypto, ManifestOf(p, s), net, b, now)
      == if r.received < p.crypto.k then Err(Insufficient(b))
         else OpenBlock(p.crypto, r.shards, r.parts, s.split[b].encryptedSize, now)
  {
    hide Collect, Info, OpenBlock;
  }

  /** The collection of block `b`: as many shards and key parts as can be had, up to k, all right. */
  lemma BlockCollects(p: Params, s: State, b: nat, net: Net) returns (r: Progress)
    requires ValidParams(p) && Content(p, s) && Honest(net, s.store) && b in s.split
    ensures b < |p.blocks| && b in s.secrets && GoodCoins(s.secrets[b])
    ensures s.split[b].encryptedSize == SealedOf(p, b, s.secrets[b]).size
    ensures InRange(s.split[b].chunks, p.crypto.n) && InfoInRange(Info(s.split[b].chunks), p.crypto.n)
    ensures r == Collect(s.split[b].chunks, 0, Info(s.split[b].chunks), p.crypto.k, net, Start(p.crypto.n))
    ensures PartOf(r.shards, SealedOf(p, b, s.secrets[b]).shards) && SubMap(r.parts, SealedOf(p, b, s.secrets[b]).parts)
    ensures r.received == |Present(r.shards)| == |r.parts| == Min(p.crypto.k, CountRetrievable(s.split[b].chunks, 0, net))
  {
    HonestIsTagged(p, s, net);
    ManifestRange(p, s);
    hide AllIssuedOk, JobsKept, OnceInFlight, LostKept, StoreKept, Honest, Tagged, SealedOf, ChunksOk, SliceOk, BlockKept;
    var coins, fb := s.secrets[b], s.split[b];
    assert BlockOk(p, s.issued, b, coins, fb);
    BlockIsUnambiguous(p, s.issued, b, coins, fb);
    hide BlockOk, BlocksKept, Unambiguous;
    CollectIsExact(fb.chunks, p.crypto.k, p.crypto.n, net);
    r := Collect(fb.chunks, 0, Info(fb.chunks), p.crypto.k, net, Start(p.crypto.n));
    ShapeOf(p, b, coins);
    ShardsMatch(p, s, b, coins, fb.chunks, net, r);
  }

  lemma ShapeOf(p: Params, b: nat, coins: Coins)
    requires ValidParams(p) && b < |p.blocks| && GoodCoins(coins)
    ensures |SealedOf(p, b, coins).shards| == p.crypto.n
  {
    SealedShape(p.crypto, p.round, p.blocks[b], coins);
  }

  lemma OpenCollected(p: Params, b: nat, coins: Coins, r: Progress, now: nat)
    requires ValidParams(p) && b < |p.blocks| && GoodCoins(coins)
    requires PartOf(r.shards, SealedOf(p, b, coins).shards) && SubMap(r.parts, SealedOf(p, b, coins).parts)
    requires r.received == |Present(r.shards)| == |r.parts|
    ensures r.received >= p.crypto.k ==>
      OpenBlock(p.crypto, r.shards, r.parts, SealedOf(p, b, coins).size, now)
      == if now >= p.round then Ok(p.blocks[b]) else Err(Locked)
  {
    if r.received >= p.crypto.k {
      hide Lawful, SealBlock, OpenBlock;
      OpenSealed(p.crypto, p.round, p.blocks[b], coins, r.shards, r.parts, now);
    }
  }

  // ---- The whole file ----

  /** What a download of the upload's manifest writes. */
  ghost function Download(p: Params, s: State, net: Net, clock: nat -> nat, writes: nat): (seq<Bytes>, Option<ReadError>)
    requires ManifestInRange(ManifestOf(p, s))
  {
    Stream(Outcomes(p.crypto, ManifestOf(p, s), net, clock), writes, 0)
  }

  /** At least k chunks of block `b` can be had, and the round is reached. */
  predicate Readable(p: Params, s: State, net: Net, clock: nat -> nat, b: nat) {
    && b in s.split && b < |p.blocks|
    && CountRetrievable(s.split[b].chunks, 0, net) >= p.crypto.k
    && clock(b) >= p.round
  }

  /** Outcomes of the blocks of a successful upload; an empty file has one block and no entry for it. */
  lemma OutcomesOf(p: Params, s: State, net: Net, clock: nat -> nat)
    requires ValidParams(p) && Reachable(p, s) && s.main == Returned(Success) && Honest(net, s.store)
    ensures ManifestInRange(ManifestOf(p, s))
    ensures var out := Outcomes(p.crypto, ManifestOf(p, s), net, clock);
      && |out| == (if p.blocks == [] then 1 else |p.blocks|)
      && (p.blocks == [] ==> out[0] == Err(Insufficient(0)))
      && (forall b :: 0 <= b < |p.blocks| ==> BlockIs(p, s, net, clock, b, out[b]))
  {
    ReachableKeeps(p, s);
    ManifestRange(p, s);
    AllRecorded(p, s);
    hide Content, Control, Lawful, BlockResult, ManifestInRange, BlockIs;
    var out := Outcomes(p.crypto, ManifestOf(p, s), net, clock);
    forall b: nat | b < |p.blocks|
      ensures BlockIs(p, s, net, clock, b, out[b])
    {
      BlockReads(p, s, b, net, clock(b));
      ExpectedIs(p, s, net, clock, b);
    }
    if p.blocks == [] {
      LawfulSizes(p.crypto);
      NoBlock(p, s, net, clock(0));
    }
  }

  /** The outcome of a block is its octets if it is readable, and an error otherwise. */
  ghost predicate BlockIs(p: Params, s: State, net: Net, clock: nat -> nat, b: nat, r: Result<Bytes>) {
    if Readable(p, s, net, clock, b) then r == Ok(p.blocks[b]) else r.Err?
  }

  lemma ExpectedIs(p: Params, s: State, net: Net, clock: nat -> nat, b: nat)
    requires b in s.split && b < |p.blocks|
    ensures BlockIs(p, s, net, clock, b, Expected(p, s, b, net, clock(b)))
  {
  }

  lemma NoBlock(p: Params, s: State, net: Net, now: nat)
    requires 0 < p.crypto.k && 0 !in s.split && ManifestInRange(ManifestOf(p, s))
    ensures BlockResult(p.crypto, ManifestOf(p, s), net, 0, now) == Err(Insufficient(0))
  {
  }

  /** A stream over outcomes that are right where they are Ok writes a prefix of the blocks. */
  lemma StreamOfBlocks(out: seq<Result<Bytes>>, blocks: seq<Bytes>, writes: nat)
    requires if blocks == [] then |out| == 1 && out[0].Err? else |out| == |blocks|
    requires forall b :: 0 <= b < |blocks| && out[b].Ok? ==> out[b].value == blocks[b]
    ensures var (written, error) := Stream(out, writes, 0);
      && written <= blocks
      && |written| <= writes && (forall b :: 0 <= b < |written| ==> out[b].Ok?)
      && (error.None? <==> |written| == |blocks| && blocks != [])
      && (|written| < |blocks| ==> (out[|written|].Err? || |written| >= writes))
  {
    StreamIsPrefix(out, writes, 0);
    var written := Stream(out, writes, 0).0;
    forall b | 0 <= b < |written|
      ensures b < writes && b < |blocks| && out[b] == Ok(written[b]) && written[b] == blocks[b]
    {
      assert WrittenAt(out, writes, 0, written, b);
    }
    assert |written| > 0 ==> written[|written| - 1] == blocks[|written| - 1];
  }

  lemma StreamOfReadable(p: Params, s: State, net: Net, clock: nat -> nat, writes: nat, out: seq<Result<Bytes>>)
    requires |out| == if p.blocks == [] then 1 else |p.blocks|
    requires p.blocks == [] ==> out[0] == Err(Insufficient(0))
    requires forall b :: 0 <= b < |p.blocks| ==> BlockIs(p, s, net, clock, b, out[b])
    ensures var (written, error) := Stream(out, writes, 0);
      && written <= p.blocks
      && |written| <= writes && (forall b: nat :: b < |written| ==> Readable(p, s, net, clock, b))
      && (error.None? <==> |written| == |p.blocks| && p.blocks != [])
      && (|written| < |p.blocks| ==> !Readable(p, s, net, clock, |written|) || |written| >= writes)
  {
    hide Readable, Stream;
    StreamOfBlocks(out, p.blocks, writes);
    var written := Stream(out, writes, 0).0;
    forall b: nat | b < |written|
      ensures Readable(p, s, net, clock, b)
    {
      assert out[b].Ok? && BlockIs(p, s, net, clock, b, out[b]);
    }
    if |written| < |p.blocks| {
      assert BlockIs(p, s, net, clock, |written|, out[|written|]);
    }
  }

  /** Whatever the network still yields, a download writes a prefix of the file's blocks, and it stops
      exactly at the first block that is not readable, or when the client is gone. */
  lemma DownloadIsPrefix(p: Params, s: State, net: Net, clock: nat -> nat, writes: nat)
    requires ValidParams(p) && Reachable(p, s) && s.main == Returned(Success) && Honest(net, s.store)
    ensures ManifestInRange(ManifestOf(p, s))
    ensures var (written, error) := Download(p, s, net, clock, writes);
      && written <= p.blocks
      && |written| <= writes && (forall b: nat :: b < |written| ==> Readable(p, s, net, clock, b))
      && (error.None? <==> |written| == |p.blocks| && p.blocks != [])
      && (|written| < |p.blocks| ==> !Readable(p, s, net, clock, |written|) || |written| >= writes)
  {
    hide Reachable, Honest, ValidParams, ManifestInRange, Readable, Stream, Outcomes, BlockIs, ManifestOf;
    OutcomesOf(p, s, net, clock);
    StreamOfReadable(p, s, net, clock, writes, Outcomes(p.crypto, ManifestOf(p, s), net, clock));
  }

  /** The round trip: for every file, every interleaving of the upload's workers and every order of
      the key parts, if the upload succeeded, each block has k retrievable chunks, the round is reached
      and the client stays, then the download ends without error and writes exactly the file, if and
      only if the file is not empty. */
  lemma RoundTripIff(p: Params, s: State, file: Bytes, net: Net, clock: nat -> nat, writes: nat)
    requires ValidParams(p) && Reachable(p, s) && s.main == Returned(Success) && Honest(net, s.store)
    requires p.blocks == Blocks.Cut(file, p.blockSize)
    requires forall b :: b in s.split ==> CountRetrievable(s.split[b].chunks, 0, net) >= p.crypto.k
    requires forall b: nat :: b < |p.blocks| ==> clock(b) >= p.round
    requires writes >= |p.blocks|
    ensures ManifestInRange(ManifestOf(p, s))
    ensures var (written, error) := Download(p, s, net, clock, writes);
      error.None? && Blocks.Join(written) == file <==> file != []
  {
    DownloadIsPrefix(p, s, net, clock, writes);
    hide Reachable, Honest, Lawful, ManifestInRange, CountRetrievable, Download;
    Blocks.CutJoin(file, p.blockSize);
    var written := Download(p, s, net, clock, writes).0;
    if file != [] {
      AllBlocksListed(p, s);
      forall b: nat | b < |p.blocks|
        ensures Readable(p, s, net, clock, b)
      {
      }
      assert written == p.blocks;
    }
  }

  lemma AllBlocksListed(p: Params, s: State)
    requires ValidParams(p) && Reachable(p, s) && s.main == Returned(Success)
    ensures forall b: nat :: b < |p.blocks| ==> b in s.split
  {
    ReachableKeeps(p, s);
    AllRecorded(p, s);
  }

  /** A download that ends before the release round writes nothing, however much it collects. */
  lemma NothingBeforeRelease(p: Params, s: State, net: Net, clock: nat -> nat, writes: nat)
    requires ValidParams(p) && Reachable(p, s) && s.main == Returned(Success) && Honest(net, s.store)
    requires clock(0) < p.round
    ensures ManifestInRange(ManifestOf(p, s))
    ensures Download(p, s, net, clock, writes).0 == [] && Download(p, s, net, clock, writes).1.Some?
  {
    DownloadIsPrefix(p, s, net, clock, writes);
    hide Reachable, Honest, Lawful, ManifestInRange, CountRetrievable, Download;
    var written := Download(p, s, net, clock, writes).0;
    assert |written| > 0 ==> Readable(p, s, net, clock, 0);
  }

  // ---- Nodes that answer anything ----

  /** Block `b` is in the manifest, with the secrets of its sealing. */
  ghost predicate BlockKnown(p: Params, s: State, b: nat) {
    b in s.split && b < |p.blocks| && b in s.secrets && InfoInRange(Info(s.split[b].chunks), p.crypto.n)
  }

  /** What the answers in `net` give for block `b`. */
  ghost function CollectionOf(p: Params, s: State, b: nat, net: Net): Progress
    requires BlockKnown(p, s, b)
  {
    Collect(s.split[b].chunks, 0, Info(s.split[b].chunks), p.crypto.k, net, Start(p.crypto.n))
  }

  /** The ciphertext that they join to. */
  ghost function JoinedFrom(p: Params, s: State, b: nat, net: Net): Option<Bytes>
    requires BlockKnown(p, s, b)
  {
    JoinedText(p.crypto, CollectionOf(p, s, b, net).shards, s.split[b].encryptedSize)
  }

  /** The ciphertext of block `b` as it was sealed. */
  ghost function TextOf(p: Params, s: State, b: nat): Bytes
    requires BlockKnown(p, s, b)
  {
    EncryptGCM(p.crypto, p.blocks[b], s.secrets[b].key, s.secrets[b].nonce)
  }

  /** Of the texts and keys that the answers can give for a block, only its own text decrypts, and only under
      its own key. This is what authenticated encryption promises against nodes that do not know the key. */
  ghost predicate Genuine(p: Params, s: State, b: nat, net: Net, now: nat)
    requires BlockKnown(p, s, b)
  {
    var r, text := CollectionOf(p, s, b, net), JoinedFrom(p, s, b, net);
    var key := UnlockedKey(p.crypto, r.parts, now);
    r.received >= p.crypto.k && text.Some? && key.Some? && DecryptGCM(p.crypto, text.value, key.value).Some? ==>
      text.value == TextOf(p, s, b) && key.value == s.secrets[b].key
  }

  lemma BlockShape(p: Params, s: State, b: nat)
    requires ValidParams(p) && Content(p, s) && b in s.split
    ensures ManifestInRange(ManifestOf(p, s)) && BlockKnown(p, s, b) && GoodCoins(s.secrets[b])
    ensures 0 < p.crypto.k <= p.crypto.n
  {
    ManifestRange(p, s);
    LawfulSizes(p.crypto);
    RangeOf(p, s, b);
    InfoRange(s.split[b].chunks, p.crypto.n);
    hide SealedOf, ChunksOk, SliceOk, BlockKept, AllIssuedOk, JobsKept, OnceInFlight, LostKept, StoreKept;
    assert BlockOk(p, s.issued, b, s.secrets[b], s.split[b]);
  }

  lemma RangeOf(p: Params, s: State, b: nat)
    requires ValidParams(p) && Content(p, s) && b in s.split
    ensures InRange(s.split[b].chunks, p.crypto.n)
  {
    LawfulSizes(p.crypto);
    hide Lawful, AllIssuedOk, JobsKept, OnceInFlight, LostKept, StoreKept;
    BlockIsUnambiguous(p, s.issued, b, s.secrets[b], s.split[b]);
  }

  /** Honest answers are genuine. */
  lemma HonestIsGenuine(p: Params, s: State, b: nat, net: Net, now: nat)
    requires ValidParams(p) && Content(p, s) && Honest(net, s.store) && b in s.split
    ensures BlockKnown(p, s, b) && Genuine(p, s, b, net, now)
  {
    BlockShape(p, s, b);
    var r := BlockCollects(p, s, b, net);
    GenuineFrom(p, s, b, net, now, r);
  }

  lemma GenuineFrom(p: Params, s: State, b: nat, net: Net, now: nat, r: Progress)
    requires ValidParams(p) && BlockKnown(p, s, b) && GoodCoins(s.secrets[b]) && r == CollectionOf(p, s, b, net)
    requires s.split[b].encryptedSize == SealedOf(p, b, s.secrets[b]).size
    requires PartOf(r.shards, SealedOf(p, b, s.secrets[b]).shards) && SubMap(r.parts, SealedOf(p, b, s.secrets[b]).parts)
    requires r.received == |Present(r.shards)| == |r.parts|
    ensures Genuine(p, s, b, net, now)
  {
    if r.received >= p.crypto.k {
      hide Lawful, SealBlock, Collect, JoinedText, UnlockedKey, EncryptGCM, DecryptGCM, BlockKnown;
      SealedComesBack(p.crypto, p.round, p.blocks[b], s.secrets[b], r.shards, r.parts, now);
    }
  }

  /** The block is opened to its own octets, from its own ciphertext, or not at all. */
  ghost predicate OwnOrFails(p: Params, s: State, b: nat, net: Net, r: Result<Bytes>) {
    r.Ok? ==> b < |p.blocks| && r.value == p.blocks[b] && BlockKnown(p, s, b) && JoinedFrom(p, s, b, net) == Some(TextOf(p, s, b))
  }

  /** Whatever the nodes answered, a block opens only to its own octets, and only from its own ciphertext. */
  lemma ForgedBlockFails(p: Params, s: State, b: nat, net: Net, now: nat)
    requires ValidParams(p) && Content(p, s) && BlockKnown(p, s, b) && Genuine(p, s, b, net, now)
    ensures ManifestInRange(ManifestOf(p, s)) && OwnOrFails(p, s, b, net, BlockResult(p.crypto, ManifestOf(p, s), net, b, now))
  {
    BlockShape(p, s, b);
    var r := CollectionOf(p, s, b, net);
    if r.received >= p.crypto.k {
      OpenedIsOwn(p, s, b, net, now);
    }
    hide Content, ValidParams, ManifestInRange, Genuine, OpenBlock, BlockResult, Collect, JoinedFrom, TextOf, Info;
    ResultOf(p, s, b, net, now, r);
  }

  lemma OpenedIsOwn(p: Params, s: State, b: nat, net: Net, now: nat)
    requires ValidParams(p) && BlockKnown(p, s, b) && GoodCoins(s.secrets[b]) && Genuine(p, s, b, net, now)
    requires CollectionOf(p, s, b, net).received >= p.crypto.k
    ensures var r := CollectionOf(p, s, b, net);
      OwnOrFails(p, s, b, net, OpenBlock(p.crypto, r.shards, r.parts, s.split[b].encryptedSize, now))
  {
    var r := CollectionOf(p, s, b, net);
    GcmRoundTrip(p.crypto, p.blocks[b], s.secrets[b].key, s.secrets[b].nonce);
    OpensOnlyDecrypted(p.crypto, r.shards, r.parts, s.split[b].encryptedSize, now);
    hide Lawful, CollectionOf, BlockKnown, JoinedText, UnlockedKey, EncryptGCM, DecryptGCM, OpenBlock;
  }

  /** Prefix safety without honest nodes: whatever records they return, the download of a successful upload
      writes a prefix of the file's blocks, and a block whose joined text is not its own ciphertext ends it with
      an error before that block. */
  lemma ForgedDownloadIsPrefix(p: Params, s: State, net: Net, clock: nat -> nat, writes: nat)
    requires ValidParams(p) && Reachable(p, s) && s.main == Returned(Success)
    requires forall b: nat :: BlockKnown(p, s, b) ==> Genuine(p, s, b, net, clock(b))
    ensures ManifestInRange(ManifestOf(p, s))
    ensures forall b: nat :: b < |p.blocks| ==> BlockKnown(p, s, b)
    ensures var (written, error) := Download(p, s, net, clock, writes);
      && written <= p.blocks && |written| <= writes
      && (error.None? <==> |written| == |p.blocks| && p.blocks != [])
      && (forall b :: 0 <= b < |written| ==> JoinedFrom(p, s, b, net) == Some(TextOf(p, s, b)))
  {
    ForgedOutcomes(p, s, net, clock);
    hide ValidParams, Reachable, Genuine, BlockKnown, OwnOrFails, ManifestInRange, Outcomes, ManifestOf, JoinedFrom, TextOf, Stream;
    StreamOfOwn(p, s, net, writes, Outcomes(p.crypto, ManifestOf(p, s), net, clock));
  }

  lemma ForgedOutcomes(p: Params, s: State, net: Net, clock: nat -> nat)
    requires ValidParams(p) && Reachable(p, s) && s.main == Returned(Success)
    requires forall b: nat :: BlockKnown(p, s, b) ==> Genuine(p, s, b, net, clock(b))
    ensures ManifestInRange(ManifestOf(p, s))
    ensures var out := Outcomes(p.crypto, ManifestOf(p, s), net, clock);
      && |out| == (if p.blocks == [] then 1 else |p.blocks|)
      && (p.blocks == [] ==> out[0].Err?)
      && (forall b: nat :: b < |p.blocks| ==> BlockKnown(p, s, b) && OwnOrFails(p, s, b, net, out[b]))
  {
    ReachableKeeps(p, s);
    AllRecorded(p, s);
    ManifestRange(p, s);
    hide *;
    var m := ManifestOf(p, s);
    var out := Outcomes(p.crypto, m, net, clock);
    assert m.blocks == if p.blocks == [] then 1 else |p.blocks| by {
      BlocksOf(p, s);
    }
    forall b: nat | b < |p.blocks|
      ensures BlockKnown(p, s, b) && OwnOrFails(p, s, b, net, out[b])
    {
      BlockShape(p, s, b);
      ForgedBlockFails(p, s, b, net, clock(b));
    }
    if p.blocks == [] {
      NothingToOpen(p, s, net, clock(0));
    }
  }

  lemma BlocksOf(p: Params, s: State)
    ensures ManifestOf(p, s).blocks == if p.blocks == [] then 1 else |p.blocks|
  {
  }

  lemma NothingToOpen(p: Params, s: State, net: Net, now: nat)
    requires ValidParams(p) && Content(p, s) && p.blocks == []
    ensures ManifestInRange(ManifestOf(p, s)) && BlockResult(p.crypto, ManifestOf(p, s), net, 0, now).Err?
  {
    ManifestRange(p, s);
    LawfulSizes(p.crypto);
    hide Lawful;
    NoBlock(p, s, net, now);
  }

  lemma StreamOfOwn(p: Params, s: State, net: Net, writes: nat, out: seq<Result<Bytes>>)
    requires |out| == if p.blocks == [] then 1 else |p.blocks|
    requires p.blocks == [] ==> out[0].Err?
    requires forall b: nat :: b < |p.blocks| ==> BlockKnown(p, s, b) && OwnOrFails(p, s, b, net, out[b])
    ensures var (written, error) := Stream(out, writes, 0);
      && written <= p.blocks && |written| <= writes
      && (error.None? <==> |written| == |p.blocks| && p.blocks != [])
      && (forall b :: 0 <= b < |written| ==> JoinedFrom(p, s, b, net) == Some(TextOf(p, s, b)))
  {
    hide BlockKnown, Stream, JoinedFrom, TextOf;
    forall b: nat | b < |p.blocks| && out[b].Ok?
      ensures out[b].value == p.blocks[b] && JoinedFrom(p, s, b, net) == Some(TextOf(p, s, b))
    {
      assert OwnOrFails(p, s, b, net, out[b]);
    }
    StreamOfBlocks(out, p.blocks, writes);
  }

  /** ... so a block whose joined text is not its own ciphertext is not written, nor is any after it. */
  lemma ForgeryEndsDownload(p: Params, s: State, net: Net, clock: nat -> nat, writes: nat, b: nat)
    requires ValidParams(p) && Reachable(p, s) && s.main == Returned(Success)
    requires forall d: nat :: BlockKnown(p, s, d) ==> Genuine(p, s, d, net, clock(d))
    requires BlockKnown(p, s, b) && JoinedFrom(p, s, b, net) != Some(TextOf(p, s, b))
    ensures ManifestInRange(ManifestOf(p, s))
    ensures var (written, error) := Download(p, s, net, clock, writes);
      written <= p.blocks[..b] && error.Some?
  {
    assert b < |p.blocks|;
    ForgedDownloadIsPrefix(p, s, net, clock, writes);
    hide ValidParams, Reachable, Genuine, BlockKnown, JoinedFrom, TextOf, Download, ManifestInRange, ManifestOf;
    var written := Download(p, s, net, clock, writes).0;
    assert |written| <= b;
    assert p.blocks[..b][..|written|] == p.blocks[..|written|];
  }
}
