/** The values that travel between the nodes and the bootstrap servers
    (internal/models/model.go), with JSON taken as the identity. */
module Types {

  datatype Option<+T> = None | Some(value: T)

  /** Octets. No bound on their values is needed anywhere, and so none is stated. */
  type Bytes = seq<nat>

  /** A network address, `host:port`. */
  type Addr = string

  type ChunkId = string

  type FileId = string

  /** A place where a copy of a chunk may be stored. */
  type Place = (Addr, ChunkId)

  /** Manifest entry of one shard. */
  datatype Chunk = Chunk(id: ChunkId, shardIndex: nat, keyIndex: nat, keyPart: Bytes, nodes: seq<Addr>)

  datatype FileBlock = FileBlock(encryptedSize: nat, chunks: seq<Chunk>)

  /** `release` is the release date in seconds, None when the stored text is not a date. */
  datatype FileManifest = FileManifest(
    fileId: FileId,
    release: Option<int>,
    blocks: nat,
    dataShards: nat,
    parityShards: nat,
    split: map<nat, FileBlock>)

  /** What a storage node keeps under a chunk id. */
  datatype ChunkRecord = ChunkRecord(
    chunkId: ChunkId,
    fileId: FileId,
    createdAt: int,
    shard: Bytes,
    release: Option<int>)

  datatype NodeRecord = NodeRecord(publicKey: Bytes, timestamp: int)

  /** A stored database value. Decoding it as the wrong kind fails, as JSON decoding would. */
  datatype Blob =
    | NodeBlob(node: NodeRecord)
    | ManifestBlob(manifest: FileManifest)
    | ChunkBlob(chunk: ChunkRecord)
    | StatusBlob(status: string)

  const SECOND: int := 1_000_000_000
  const WEEK: int := 7 * 24 * 3600
  const ORPHAN_AGE: int := 7200
  const HEARTBEAT_TIMEOUT: int := 120 * SECOND

  /** Whole seconds of a clock that counts nanoseconds. */
  function Unix(now: nat): int {
    now / SECOND
  }

  /** The retention rule of both collectors: a readable release date lies more than 7 days back. */
  predicate Expired(release: Option<int>, now: nat) {
    release.Some? && now > (release.value + WEEK) * SECOND
  }

  function Min(a: nat, b: nat): nat {
    if a <= b then a else b
  }

  /** Every listed place of a manifest. */
  ghost function Places(m: FileManifest): set<Place> {
    set b, i, j | b in m.split && 0 <= i < |m.split[b].chunks| && 0 <= j < |m.split[b].chunks[i].nodes|
      :: (m.split[b].chunks[i].nodes[j], m.split[b].chunks[i].id)
  }
}
