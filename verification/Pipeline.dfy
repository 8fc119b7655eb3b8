/** The upload pipeline StreamAndUploadFile (internal/service/file_management.go:33-346) as a step
    system: the reading goroutine, the crypto workers and the upload workers, joined by two bounded
    channels, an error latch of capacity 1, a shared manifest map and the map of successful
    uploads. Every interleaving of the steps is a run. */
module Pipeline {
  import opened Types
  import opened Placement
  import opened Codec

  /** What one upload is started with: the file's blocks of `blockSize` octets (module Blocks), the
      allocated nodes, the capacities and worker counts. `rsOk[w]` says whether reedsolomon.New succeeds in crypto
      worker w; `mute` are the nodes that may take a SaveChunk call and never answer it, for the calls have no
      deadline; `used` are the chunk ids of earlier uploads and `before` their stored copies. */
  datatype Params = Params(
    crypto: Crypto,
    fileId: FileId,
    blocks: seq<Bytes>,
    blockSize: nat,
    round: nat,
    release: Option<int>,
    nodes: seq<Addr>,
    tolerance: nat,
    cryptoCapacity: nat,
    uploadCapacity: nat,
    uploaders: nat,
    rsOk: seq<bool>,
    mute: set<Addr>,
    used: set<ChunkId>,
    before: map<Place, ChunkRecord>)

  ghost predicate ValidParams(p: Params) {
    && Lawful(p.crypto)
    && p.blockSize > 0 && p.uploaders > 0 && |p.rsOk| > 0
    && p.cryptoCapacity > 0 && p.uploadCapacity > 0
    && forall place :: place in p.before ==> place.1 in p.used && p.before[place].chunkId == place.1
  }

  datatype Job = Job(block: nat, chunk: Chunk, shard: Bytes, createdAt: int)

  datatype Failure = CryptoFailure | UploadFailure(id: ChunkId)

  datatype Outcome = Success | PipelineFailed | ManifestFailed | ReadFailed

  datatype Main =
    | Reading(next: nat) | Pushing(next: nat)
    | AwaitCrypto | AwaitUploads | Deciding | Publishing
    | Returned(outcome: Outcome)

  datatype CryptoWorker =
    | Booting
    | Idle
    | Slicing(block: nat, coins: Coins, sealed: Sealed, order: seq<nat>, createdAt: int, chunks: seq<Chunk>)
    | Exited

  /** A worker is hung when its call will never return. */
  datatype Uploader = Waiting | Sending(job: Job, tried: nat, hung: bool) | Gone

  /** The last group of fields is history: it never enables or changes a step. */
  datatype State = State(
    main: Main,
    cryptoQ: seq<nat>,
    cryptoClosed: bool,
    crypto: seq<CryptoWorker>,
    uploadQ: seq<Job>,
    uploadClosed: bool,
    uploads: seq<Uploader>,
    latch: Option<Failure>,
    split: map<nat, FileBlock>,
    successful: map<ChunkId, Addr>,
    store: map<Place, ChunkRecord>,
    deletions: set<Place>,
    manifestStored: bool,
    panicked: bool,
    pushed: nat,
    taken: nat,
    issued: map<ChunkId, Job>,
    secrets: map<nat, Coins>,
    skipped: set<ChunkId>,
    unacked: set<Place>,
    reported: bool)

  function Init(p: Params): State {
    State(Reading(0), [], false, seq(|p.rsOk|, _ => Booting), [], false, seq(p.uploaders, _ => Waiting),
          None, map[], map[], p.before, {}, false, false,
          0, 0, map[], map[], {}, {}, false)
  }

  datatype Action =
    | ReadBlock | PushBlock | FinishReading | ReadFails
    | CloseUploads | JoinUploads | CheckErrors | PublishManifest(stored: bool, confirmed: bool)
    | Boot(w: nat) | CryptoFails(w: nat)
    | StartBlock(w: nat, coins: Coins, order: seq<nat>, createdAt: int)
    | SliceChunk(w: nat, id: ChunkId, targets: seq<Addr>)
    | RecordBlock(w: nat) | CryptoExit(w: nat)
    | TakeJob(u: nat) | SkipJob(u: nat) | TrySave(u: nat, stored: bool, acked: bool, returned: bool)
    | GiveUp(u: nat) | UploadExit(u: nat)

  /** What is stored for a job. */
  function RecordOf(p: Params, job: Job): ChunkRecord {
    ChunkRecord(job.chunk.id, p.fileId, job.createdAt, job.shard, p.release)
  }

  function SealedOf(p: Params, b: nat, coins: Coins): Sealed
    requires b < |p.blocks|
  {
    SealBlock(p.crypto, p.round, p.blocks[b], coins)
  }

  /** The map iteration order of the key parts: each index once. */
  ghost predicate IsOrder(p: Params, sealed: Sealed, order: seq<nat>) {
    && |sealed.shards| == |order| == p.crypto.n
    && Distinct(order)
    && forall i :: 0 <= i < |order| ==> order[i] in sealed.parts
  }

  ghost predicate Enabled(p: Params, s: State, a: Action)
  {
    match a
    case ReadBlock =>
      s.main.Reading? && s.main.next < |p.blocks|
    case PushBlock =>
      s.main.Pushing? && (s.cryptoClosed || |s.cryptoQ| < p.cryptoCapacity)
    case FinishReading =>
      s.main == Reading(|p.blocks|)
    case ReadFails =>
      // a further read happens at the start and after every full block
      s.main.Reading? && s.main.next <= |p.blocks|
      && (s.main.next == 0 || |p.blocks[s.main.next - 1]| == p.blockSize)
    case CloseUploads =>
      s.main.AwaitCrypto? && forall w :: 0 <= w < |s.crypto| ==> s.crypto[w].Exited?
    case JoinUploads =>
      s.main.AwaitUploads? && forall u :: 0 <= u < |s.uploads| ==> s.uploads[u].Gone?
    case CheckErrors =>
      s.main.Deciding?
    case PublishManifest(stored, confirmed) =>
      s.main.Publishing? && (confirmed ==> stored)
    case Boot(w) =>
      w < |s.crypto| && w < |p.rsOk| && s.crypto[w].Booting?
    case CryptoFails(w) =>
      w < |s.crypto| && s.crypto[w].Idle? && s.cryptoQ != []
    case StartBlock(w, coins, order, createdAt) =>
      w < |s.crypto| && s.crypto[w].Idle? && s.cryptoQ != [] && s.cryptoQ[0] < |p.blocks|
      && GoodCoins(coins) && IsOrder(p, SealedOf(p, s.cryptoQ[0], coins), order)
    case SliceChunk(w, id, targets) =>
      w < |s.crypto| && s.crypto[w].Slicing? && IsOrder(p, s.crypto[w].sealed, s.crypto[w].order)
      && |s.crypto[w].chunks| < p.crypto.n
      && (s.uploadClosed || |s.uploadQ| < p.uploadCapacity)
      && id !in p.used && id !in s.issued && Picked(p.nodes, p.tolerance, targets)
    case RecordBlock(w) =>
      w < |s.crypto| && s.crypto[w].Slicing? && |s.crypto[w].chunks| == p.crypto.n
    case CryptoExit(w) =>
      w < |s.crypto| && s.crypto[w].Idle? && s.cryptoQ == [] && s.cryptoClosed
    case TakeJob(u) =>
      u < |s.uploads| && s.uploads[u].Waiting? && s.uploadQ != []
    case SkipJob(u) =>
      u < |s.uploads| && s.uploads[u].Waiting? && s.uploadQ != []
    case TrySave(u, stored, acked, returned) =>
      u < |s.uploads| && s.uploads[u].Sending? && !s.uploads[u].hung && s.uploads[u].tried < |s.uploads[u].job.chunk.nodes|
      && (acked ==> stored && returned) && (!returned ==> s.uploads[u].job.chunk.nodes[s.uploads[u].tried] in p.mute)
    case GiveUp(u) =>
      u < |s.uploads| && s.uploads[u].Sending? && !s.uploads[u].hung && s.uploads[u].tried == |s.uploads[u].job.chunk.nodes|
    case UploadExit(u) =>
      u < |s.uploads| && s.uploads[u].Waiting? && s.uploadQ == [] && s.uploadClosed
  }

  /** The non-blocking send to the error channel of capacity 1. */
  function Latched(latch: Option<Failure>, f: Failure): Option<Failure> {
    if latch.None? then Some(f) else latch
  }

  /** The deletions that a rollback issues. */
  ghost function RollbackOf(successful: map<ChunkId, Addr>): set<Place> {
    set id | id in successful :: (successful[id], id)
  }

  function NextChunk(w: CryptoWorker, id: ChunkId, targets: seq<Addr>): Chunk
    requires w.Slicing? && |w.chunks| < |w.order| && w.order[|w.chunks|] in w.sealed.parts
  {
    var key := w.order[|w.chunks|];
    Chunk(id, |w.chunks|, key, w.sealed.parts[key], targets)
  }

  ghost function Apply(p: Params, s: State, a: Action): State
    requires Enabled(p, s, a)
  {
    match a
    case ReadBlock =>
      s.(main := Pushing(s.main.next))
    case PushBlock =>
      if s.cryptoClosed then s.(panicked := true)
      else s.(main := Reading(s.main.next + 1), cryptoQ := s.cryptoQ + [s.main.next], pushed := s.pushed + 1)
    case FinishReading =>
      if s.cryptoClosed then s.(panicked := true) else s.(main := AwaitCrypto, cryptoClosed := true)
    case ReadFails =>
      if s.cryptoClosed then s.(panicked := true) else s.(main := Returned(ReadFailed), cryptoClosed := true)
    case CloseUploads =>
      if s.uploadClosed then s.(panicked := true) else s.(main := AwaitUploads, uploadClosed := true)
    case JoinUploads =>
      s.(main := Deciding)
    case CheckErrors =>
      s.(main := if s.latch.Some? then Returned(PipelineFailed) else Publishing,
         deletions := if s.latch.Some? then RollbackOf(s.successful) else {})
    case PublishManifest(stored, confirmed) =>
      s.(main := Returned(if confirmed then Success else ManifestFailed), manifestStored := stored,
         deletions := if confirmed then {} else RollbackOf(s.successful))
    case Boot(w) =>
      s.(crypto := s.crypto[w := if p.rsOk[w] then Idle else Exited],
         latch := if p.rsOk[w] then s.latch else Latched(s.latch, CryptoFailure),
         reported := s.reported || !p.rsOk[w])
    case CryptoFails(w) =>
      s.(cryptoQ := s.cryptoQ[1..], taken := s.taken + 1,
         latch := Latched(s.latch, CryptoFailure), reported := true)
    case StartBlock(w, coins, order, createdAt) =>
      var b := s.cryptoQ[0];
      s.(cryptoQ := s.cryptoQ[1..], taken := s.taken + 1,
         crypto := s.crypto[w := Slicing(b, coins, SealedOf(p, b, coins), order, createdAt, [])])
    case SliceChunk(w, id, targets) =>
      if s.uploadClosed then s.(panicked := true) else
      var worker := s.crypto[w];
      var chunk := NextChunk(worker, id, targets);
      var job := Job(worker.block, chunk, worker.sealed.shards[|worker.chunks|], worker.createdAt);
      s.(crypto := s.crypto[w := worker.(chunks := worker.chunks + [chunk])],
         uploadQ := s.uploadQ + [job], issued := s.issued[id := job])
    case RecordBlock(w) =>
      var worker := s.crypto[w];
      s.(crypto := s.crypto[w := Idle],
         split := s.split[worker.block := FileBlock(worker.sealed.size, worker.chunks)],
         secrets := s.secrets[worker.block := worker.coins])
    case CryptoExit(w) =>
      s.(crypto := s.crypto[w := Exited])
    case TakeJob(u) =>
      s.(uploadQ := s.uploadQ[1..], uploads := s.uploads[u := Sending(s.uploadQ[0], 0, false)])
    case SkipJob(u) =>
      s.(uploadQ := s.uploadQ[1..], skipped := s.skipped + {s.uploadQ[0].chunk.id})
    case TrySave(u, stored, acked, returned) =>
      var job, tried := s.uploads[u].job, s.uploads[u].tried;
      var place := (job.chunk.nodes[tried], job.chunk.id);
      s.(store := if stored then s.store[place := RecordOf(p, job)] else s.store,
         uploads := s.uploads[u := if acked then Waiting else Sending(job, if returned then tried + 1 else tried, !returned)],
         successful := if acked then s.successful[job.chunk.id := place.0] else s.successful,
         unacked := if stored && !acked then s.unacked + {place} else s.unacked)
    case GiveUp(u) =>
      s.(uploads := s.uploads[u := Waiting],
         latch := Latched(s.latch, UploadFailure(s.uploads[u].job.chunk.id)), reported := true)
    case UploadExit(u) =>
      s.(uploads := s.uploads[u := Gone])
  }

  /** What the outside may answer is left open, whatever happened before: a block may fail in the crypto
      libraries, marshalling may fail, a node may store a chunk or not and answer or not, the manifest may be
      refused, stored, or stored without a confirmation, and a read may fail. */
  lemma AnswersAreOpen(p: Params, s: State)
    ensures forall w :: 0 <= w < |s.crypto| && s.crypto[w].Idle? && s.cryptoQ != [] ==> Enabled(p, s, CryptoFails(w))
    ensures forall u :: 0 <= u < |s.uploads| && s.uploads[u].Waiting? && s.uploadQ != [] ==>
      Enabled(p, s, TakeJob(u)) && Enabled(p, s, SkipJob(u))
    ensures forall u: nat, stored, acked :: Calling(s, u) && (acked ==> stored) ==> Enabled(p, s, TrySave(u, stored, acked, true))
    ensures forall u: nat, stored :: Calling(s, u) && s.uploads[u].job.chunk.nodes[s.uploads[u].tried] in p.mute ==>
      Enabled(p, s, TrySave(u, stored, false, false))
    ensures forall stored, confirmed :: s.main.Publishing? && (confirmed ==> stored) ==>
      Enabled(p, s, PublishManifest(stored, confirmed))
    ensures s.main == Reading(0) ==> Enabled(p, s, ReadFails)
    ensures s.main.Reading? && 0 < s.main.next <= |p.blocks| && |p.blocks[s.main.next - 1]| == p.blockSize ==>
      Enabled(p, s, ReadFails)
  {
  }

  /** An upload worker is about to call the next node of its list. */
  predicate Calling(s: State, u: nat) {
    u < |s.uploads| && s.uploads[u].Sending? && !s.uploads[u].hung && s.uploads[u].tried < |s.uploads[u].job.chunk.nodes|
  }

  // ---- Runs ----

  ghost predicate Runs(p: Params, s: State, acts: seq<Action>)
    decreases |acts|
  {
    acts == [] || (Enabled(p, s, acts[0]) && Runs(p, Apply(p, s, acts[0]), acts[1..]))
  }

  ghost function Exec(p: Params, s: State, acts: seq<Action>): State
    requires Runs(p, s, acts)
    decreases |acts|
  {
    if acts == [] then s else Exec(p, Apply(p, s, acts[0]), acts[1..])
  }
}
