/** What every step of the upload pipeline keeps about its content: which blocks and chunks are
    where, what the manifest entries say, and what the storage nodes hold. */
module PipelineContent {
  import opened Types
  import opened Placement
  import opened Codec
  import opened Pipeline
  import opened PipelineControl

  // ---- Blocks ----

  /** Manifest entry number j of block b describes shard j and one key part, and its job carries that shard. */
  ghost predicate ChunkOk(p: Params, issued: map<ChunkId, Job>, b: nat, sealed: Sealed, c: Chunk, j: nat) {
    && c.shardIndex == j < |sealed.shards|
    && c.keyIndex in sealed.parts && c.keyPart == sealed.parts[c.keyIndex]
    && Picked(p.nodes, p.tolerance, c.nodes)
    && c.id in issued && issued[c.id].block == b && issued[c.id].chunk == c && issued[c.id].shard == sealed.shards[j]
  }

  ghost predicate DistinctKeys(chunks: seq<Chunk>) {
    forall i, j :: 0 <= i < j < |chunks| ==> chunks[i].keyIndex != chunks[j].keyIndex
  }

  ghost predicate ChunksOk(p: Params, issued: map<ChunkId, Job>, b: nat, sealed: Sealed, chunks: seq<Chunk>) {
    forall j :: 0 <= j < |chunks| ==> ChunkOk(p, issued, b, sealed, chunks[j], j)
  }

  /** The recorded block b is a full set of chunks of a sealing of the file's block b. */
  ghost predicate BlockOk(p: Params, issued: map<ChunkId, Job>, b: nat, coins: Coins, fb: FileBlock) {
    && b < |p.blocks| && GoodCoins(coins)
    && fb.encryptedSize == SealedOf(p, b, coins).size
    && |fb.chunks| == p.crypto.n
    && ChunksOk(p, issued, b, SealedOf(p, b, coins), fb.chunks)
    && DistinctKeys(fb.chunks)
  }

  ghost predicate SliceOk(p: Params, s: State, w: CryptoWorker) {
    w.Slicing? ==>
      && w.block < s.taken && w.block < |p.blocks| && w.block !in s.split
      && GoodCoins(w.coins) && w.sealed == SealedOf(p, w.block, w.coins)
      && IsOrder(p, w.sealed, w.order) && |w.chunks| <= |w.order|
      && ChunksOk(p, s.issued, w.block, w.sealed, w.chunks)
      && (forall j :: 0 <= j < |w.chunks| ==> w.chunks[j].keyIndex == w.order[j])
  }

  ghost predicate AtWorker(s: State, w: nat, b: nat) {
    w < |s.crypto| && s.crypto[w].Slicing? && s.crypto[w].block == b
  }

  /** Every block taken from the channel is recorded, at a worker, or was reported as failed. */
  ghost predicate BlockKept(s: State, b: nat) {
    s.reported || b in s.split || exists w :: AtWorker(s, w, b)
  }

  ghost predicate BlocksKept(p: Params, s: State) {
    && (forall b :: 0 <= b < s.taken ==> BlockKept(s, b))
    && (forall b :: b in s.split ==> b < s.taken && b in s.secrets && BlockOk(p, s.issued, b, s.secrets[b], s.split[b]))
    && (forall w :: 0 <= w < |s.crypto| ==> SliceOk(p, s, s.crypto[w]))
    && (forall v, w :: 0 <= v < w < |s.crypto| && s.crypto[v].Slicing? && s.crypto[w].Slicing? ==>
          s.crypto[v].block != s.crypto[w].block)
    && (forall j :: 0 <= j < |s.cryptoQ| ==> s.cryptoQ[j] == s.taken + j)
  }

  // ---- Chunks ----

  ghost predicate Recorded(s: State, job: Job) {
    job.block in s.split && job.chunk in s.split[job.block].chunks
  }

  ghost predicate Pending(s: State, w: nat, job: Job) {
    AtWorker(s, w, job.block) && job.chunk in s.crypto[w].chunks
  }

  /** An issued chunk carries its own fresh id and is, or is about to be, in the manifest. */
  ghost predicate IssuedOk(p: Params, s: State, id: ChunkId)
    requires id in s.issued
  {
    && id !in p.used && s.issued[id].chunk.id == id && Picked(p.nodes, p.tolerance, s.issued[id].chunk.nodes)
    && (Recorded(s, s.issued[id]) || exists w :: Pending(s, w, s.issued[id]))
  }

  ghost predicate AllIssuedOk(p: Params, s: State) {
    forall id :: id in s.issued ==> IssuedOk(p, s, id)
  }

  // ---- Jobs ----

  ghost predicate JobOk(s: State, job: Job) {
    job.chunk.id in s.issued && s.issued[job.chunk.id] == job
  }

  ghost predicate Queued(s: State, job: Job) {
    job in s.uploadQ
  }

  ghost predicate AtUploader(s: State, u: nat, job: Job) {
    u < |s.uploads| && s.uploads[u].Sending? && s.uploads[u].job == job
  }

  /** An issued chunk is acknowledged, on its way, was skipped, or a failure was reported. */
  ghost predicate ChunkKept(s: State, id: ChunkId)
    requires id in s.issued
  {
    s.reported || id in s.successful || id in s.skipped || Queued(s, s.issued[id]) || exists u :: AtUploader(s, u, s.issued[id])
  }

  ghost predicate JobsKept(s: State) {
    && (forall j :: 0 <= j < |s.uploadQ| ==> JobOk(s, s.uploadQ[j]))
    && (forall u :: 0 <= u < |s.uploads| ==> s.uploads[u].Sending? ==> JobOk(s, s.uploads[u].job))
    && (forall id :: id in s.issued ==> ChunkKept(s, id))
  }

  ghost predicate SendingId(u: Uploader, id: ChunkId) {
    u.Sending? && u.job.chunk.id == id
  }

  /** No chunk is on its way twice. */
  ghost predicate Once(s: State) {
    && (forall i, j :: 0 <= i < j < |s.uploadQ| ==> s.uploadQ[i].chunk.id != s.uploadQ[j].chunk.id)
    && (forall i, u :: 0 <= i < |s.uploadQ| && 0 <= u < |s.uploads| ==> !SendingId(s.uploads[u], s.uploadQ[i].chunk.id))
    && (forall u, v :: 0 <= u < v < |s.uploads| && s.uploads[u].Sending? ==> !SendingId(s.uploads[v], s.uploads[u].job.chunk.id))
  }

  /** A chunk that was acknowledged or skipped. */
  ghost predicate Settled(s: State, id: ChunkId) {
    id in s.successful || id in s.skipped
  }

  /** No settled chunk is on its way, and a skipped one was not acknowledged. */
  ghost predicate SettledRest(s: State) {
    && (forall i :: 0 <= i < |s.uploadQ| ==> !Settled(s, s.uploadQ[i].chunk.id))
    && (forall u :: 0 <= u < |s.uploads| && s.uploads[u].Sending? ==> !Settled(s, s.uploads[u].job.chunk.id))
    && (forall id :: Settled(s, id) ==> id in s.issued)
    && (forall id :: id in s.skipped ==> id !in s.successful)
  }

  ghost predicate OnceInFlight(s: State) {
    Once(s) && SettledRest(s)
  }

  /** How many targets of its job an upload worker has called. */
  function Called(u: Uploader): nat
    requires u.Sending?
  {
    if u.hung then u.tried + 1 else u.tried
  }

  /** The targets that an upload worker has called in vain. */
  ghost predicate Tried(u: Uploader, place: Place) {
    SendingId(u, place.1) ==> Called(u) <= |u.job.chunk.nodes| && place.0 in u.job.chunk.nodes[..Called(u)]
  }

  /** Where a copy was stored without an acknowledgement, none was acknowledged later. */
  ghost predicate LostKept(p: Params, s: State) {
    && (forall place, i :: place in s.unacked && 0 <= i < |s.uploadQ| ==> s.uploadQ[i].chunk.id != place.1)
    && (forall place, u :: place in s.unacked && 0 <= u < |s.uploads| ==> Tried(s.uploads[u], place))
    && (forall place :: place in s.unacked && place.1 in s.successful && Distinct(p.nodes) ==>
          place.0 != s.successful[place.1])
  }

  // ---- Storage nodes ----

  /** A stored copy is one of before, or the record of an issued chunk on a node of its list,
      acknowledged or noted as unacknowledged. */
  ghost predicate CopyOk(p: Params, s: State, place: Place)
    requires place in s.store
  {
    if place.1 in s.issued then
      && place.0 in s.issued[place.1].chunk.nodes
      && s.store[place] == RecordOf(p, s.issued[place.1])
      && (place in s.unacked || (place.1 in s.successful && s.successful[place.1] == place.0))
    else place in p.before && s.store[place] == p.before[place]
  }

  ghost predicate StoreKept(p: Params, s: State) {
    && (forall place :: place in s.store ==> CopyOk(p, s, place))
    && (forall place :: place in p.before ==> place in s.store && s.store[place] == p.before[place])
    && (forall place :: place in p.before ==> place.1 in p.used)
    && (forall id :: id in s.successful ==> id in s.issued && (s.successful[id], id) in s.store)
    && (forall place :: place in s.unacked ==> place in s.store && place.1 in s.issued)
    && (forall id :: id in s.issued ==> id !in p.used)
  }

  // ---- Steps ----

  /** Steps that do not touch the crypto side. */
  ghost predicate SameCrypto(s: State, s': State) {
    && s'.crypto == s.crypto && s'.split == s.split && s'.secrets == s.secrets && s'.issued == s.issued
    && s'.taken == s.taken && (s.reported ==> s'.reported)
  }

  lemma FrameBlocks(p: Params, s: State, s': State)
    requires BlocksKept(p, s) && SameCrypto(s, s')
    requires forall j :: 0 <= j < |s'.cryptoQ| ==> s'.cryptoQ[j] == s'.taken + j
    ensures BlocksKept(p, s')
  {
    hide ChunksOk, BlockOk, IsOrder, SealedOf;
    forall b | 0 <= b < s'.taken
      ensures BlockKept(s', b)
    {
      assert BlockKept(s, b);
      if w :| AtWorker(s, w, b) {
        assert AtWorker(s', w, b);
      }
    }
    forall w | 0 <= w < |s'.crypto|
      ensures SliceOk(p, s', s'.crypto[w])
    {
      assert SliceOk(p, s, s.crypto[w]);
    }
  }

  lemma FrameIssued(p: Params, s: State, s': State)
    requires AllIssuedOk(p, s) && SameCrypto(s, s')
    ensures AllIssuedOk(p, s')
  {
    forall id | id in s'.issued
      ensures IssuedOk(p, s', id)
    {
      assert IssuedOk(p, s, id);
      if w :| Pending(s, w, s.issued[id]) {
        assert Pending(s', w, s'.issued[id]);
      }
    }
  }

  /** Issuing one more chunk keeps what is known of the others. */
  lemma MoreIssued(p: Params, issued: map<ChunkId, Job>, id: ChunkId, job: Job, b: nat, sealed: Sealed, chunks: seq<Chunk>)
    requires ChunksOk(p, issued, b, sealed, chunks) && id !in issued
    ensures ChunksOk(p, issued[id := job], b, sealed, chunks)
  {
    hide Picked;
    forall j | 0 <= j < |chunks|
      ensures ChunkOk(p, issued[id := job], b, sealed, chunks[j], j)
    {
      assert ChunkOk(p, issued, b, sealed, chunks[j], j);
    }
  }

  /** A worker that holds no block before or after. */
  lemma RestKeepsBlocks(p: Params, s: State, a: Action)
    requires BlocksKept(p, s) && Enabled(p, s, a) && (a.Boot? || a.CryptoExit?)
    ensures BlocksKept(p, Apply(p, s, a))
  {
    hide ChunksOk, BlockOk, IsOrder, SealedOf;
    var s' := Apply(p, s, a);
    forall b | 0 <= b < s'.taken
      ensures BlockKept(s', b)
    {
      assert BlockKept(s, b);
      if w :| AtWorker(s, w, b) {
        assert AtWorker(s', w, b);
      }
    }
    forall w | 0 <= w < |s'.crypto|
      ensures SliceOk(p, s', s'.crypto[w])
    {
      assert SliceOk(p, s, s.crypto[w]);
    }
  }

  lemma FailKeepsBlocks(p: Params, s: State, a: Action)
    requires BlocksKept(p, s) && Enabled(p, s, a) && a.CryptoFails?
    ensures BlocksKept(p, Apply(p, s, a))
  {
    hide ChunksOk, BlockOk, IsOrder, SealedOf;
    var s' := Apply(p, s, a);
    forall w | 0 <= w < |s'.crypto|
      ensures SliceOk(p, s', s'.crypto[w])
    {
      assert SliceOk(p, s, s.crypto[w]);
    }
  }

  lemma StartKeepsBlocks(p: Params, s: State, a: Action)
    requires BlocksKept(p, s) && Enabled(p, s, a) && a.StartBlock?
    ensures BlocksKept(p, Apply(p, s, a))
  {
    hide BlockOk, SealedOf, ChunkOk, DistinctKeys;
    var s' := Apply(p, s, a);
    assert s.cryptoQ[0] == s.taken;
    forall b | 0 <= b < s'.taken
      ensures BlockKept(s', b)
    {
      if b == s.taken {
        assert AtWorker(s', a.w, b);
      } else {
        assert BlockKept(s, b);
        if w :| AtWorker(s, w, b) {
          assert AtWorker(s', w, b);
        }
      }
    }
    forall w | 0 <= w < |s'.crypto|
      ensures SliceOk(p, s', s'.crypto[w])
    {
      assert SliceOk(p, s, s.crypto[w]);
    }
  }

  lemma SliceKeepsBlocks(p: Params, s: State, a: Action)
    requires BlocksKept(p, s) && Enabled(p, s, a) && a.SliceChunk? && !s.uploadClosed
    ensures BlocksKept(p, Apply(p, s, a))
  {
    hide SealedOf, Picked;
    var s' := Apply(p, s, a);
    var job := s'.issued[a.id];
    forall b | 0 <= b < s'.taken
      ensures BlockKept(s', b)
    {
      assert BlockKept(s, b);
      if w :| AtWorker(s, w, b) {
        assert AtWorker(s', w, b);
      }
    }
    forall b | b in s'.split
      ensures BlockOk(p, s'.issued, b, s'.secrets[b], s'.split[b])
    {
      MoreIssued(p, s.issued, a.id, job, b, SealedOf(p, b, s.secrets[b]), s.split[b].chunks);
    }
    forall w | 0 <= w < |s'.crypto|
      ensures SliceOk(p, s', s'.crypto[w])
    {
      assert SliceOk(p, s, s.crypto[w]);
      if s.crypto[w].Slicing? {
        MoreIssued(p, s.issued, a.id, job, s.crypto[w].block, s.crypto[w].sealed, s.crypto[w].chunks);
      }
    }
  }

  lemma RecordKeepsBlocks(p: Params, s: State, a: Action)
    requires BlocksKept(p, s) && Enabled(p, s, a) && a.RecordBlock?
    ensures BlocksKept(p, Apply(p, s, a))
  {
    hide SealedOf, ChunkOk;
    var s' := Apply(p, s, a);
    var worker := s.crypto[a.w];
    assert SliceOk(p, s, worker);
    forall b | 0 <= b < s'.taken
      ensures BlockKept(s', b)
    {
      assert BlockKept(s, b);
      if w :| AtWorker(s, w, b) {
        assert w == a.w || AtWorker(s', w, b);
      }
    }
    assert BlockOk(p, s'.issued, worker.block, worker.coins, s'.split[worker.block]);
    forall w | 0 <= w < |s'.crypto|
      ensures SliceOk(p, s', s'.crypto[w])
    {
      assert SliceOk(p, s, s.crypto[w]);
    }
  }

  lemma RestKeepsIssued(p: Params, s: State, a: Action)
    requires AllIssuedOk(p, s) && Enabled(p, s, a)
    requires a.Boot? || a.CryptoExit? || a.CryptoFails? || a.StartBlock?
    ensures AllIssuedOk(p, Apply(p, s, a))
  {
    hide SealedOf, IsOrder;
    var s' := Apply(p, s, a);
    forall id | id in s'.issued
      ensures IssuedOk(p, s', id)
    {
      assert IssuedOk(p, s, id);
      if w :| Pending(s, w, s.issued[id]) {
        assert Pending(s', w, s'.issued[id]);
      }
    }
  }

  lemma SliceKeepsIssued(p: Params, s: State, a: Action)
    requires AllIssuedOk(p, s) && Enabled(p, s, a) && a.SliceChunk? && !s.uploadClosed
    ensures AllIssuedOk(p, Apply(p, s, a))
  {
    hide SealedOf, IsOrder, Picked;
    var s' := Apply(p, s, a);
    forall id | id in s'.issued
      ensures IssuedOk(p, s', id)
    {
      if id == a.id {
        var chunks := s'.crypto[a.w].chunks;
        assert chunks[|chunks| - 1] == s'.issued[id].chunk;
        assert Pending(s', a.w, s'.issued[id]);
      } else {
        assert IssuedOk(p, s, id);
        if w :| Pending(s, w, s.issued[id]) {
          assert Pending(s', w, s'.issued[id]);
        }
      }
    }
  }

  lemma RecordKeepsIssued(p: Params, s: State, a: Action)
    requires AllIssuedOk(p, s) && BlocksKept(p, s) && Enabled(p, s, a) && a.RecordBlock?
    ensures AllIssuedOk(p, Apply(p, s, a))
  {
    hide SealedOf, IsOrder, BlockOk, ChunksOk, Picked;
    var s' := Apply(p, s, a);
    assert SliceOk(p, s, s.crypto[a.w]);
    forall id | id in s'.issued
      ensures IssuedOk(p, s', id)
    {
      assert IssuedOk(p, s, id);
      var job := s.issued[id];
      if w :| Pending(s, w, job) {
        assert if w == a.w then Recorded(s', job) else Pending(s', w, job);
      }
    }
  }

  // ---- Jobs: steps ----

  lemma FrameJobs(s: State, s': State)
    requires JobsKept(s) && s'.uploadQ == s.uploadQ && s'.uploads == s.uploads && s'.issued == s.issued
    requires s'.successful == s.successful && s'.skipped == s.skipped && (s.reported ==> s'.reported)
    ensures JobsKept(s')
  {
    forall id | id in s'.issued
      ensures ChunkKept(s', id)
    {
      assert ChunkKept(s, id);
      if u: nat :| AtUploader(s, u, s.issued[id]) {
        assert AtUploader(s', u, s'.issued[id]);
      }
    }
  }

  lemma SliceKeepsJobs(p: Params, s: State, a: Action)
    requires JobsKept(s) && Enabled(p, s, a) && a.SliceChunk? && !s.uploadClosed
    ensures JobsKept(Apply(p, s, a))
  {
    hide SealedOf, IsOrder, Picked;
    var s' := Apply(p, s, a);
    forall j | 0 <= j < |s'.uploadQ|
      ensures JobOk(s', s'.uploadQ[j])
    {
      assert j < |s.uploadQ| ==> JobOk(s, s.uploadQ[j]);
    }
    forall id | id in s'.issued
      ensures ChunkKept(s', id)
    {
      if id == a.id {
        assert s'.uploadQ[|s.uploadQ|] == s'.issued[id];
      } else {
        assert ChunkKept(s, id);
        if u: nat :| AtUploader(s, u, s.issued[id]) {
          assert AtUploader(s', u, s'.issued[id]);
        }
      }
    }
  }

  /** The head of the queue leaves it. */
  lemma HeadOrTail(q: seq<Job>, job: Job)
    requires q != [] && job in q
    ensures job == q[0] || job in q[1..]
  {
    assert q == [q[0]] + q[1..];
  }

  lemma TakeKeepsJobs(p: Params, s: State, a: Action)
    requires JobsKept(s) && Enabled(p, s, a) && a.TakeJob?
    ensures JobsKept(Apply(p, s, a))
  {
    var s' := Apply(p, s, a);
    assert JobOk(s, s.uploadQ[0]);
    forall j | 0 <= j < |s'.uploadQ|
      ensures JobOk(s', s'.uploadQ[j])
    {
      assert JobOk(s, s.uploadQ[j + 1]);
    }
    forall id | id in s'.issued
      ensures ChunkKept(s', id)
    {
      assert ChunkKept(s, id);
      if Queued(s, s.issued[id]) {
        HeadOrTail(s.uploadQ, s.issued[id]);
        if s.issued[id] == s.uploadQ[0] {
          assert AtUploader(s', a.u, s.issued[id]);
        }
      } else if u: nat :| AtUploader(s, u, s.issued[id]) {
        assert AtUploader(s', u, s'.issued[id]);
      }
    }
  }

  lemma SkipKeepsJobs(p: Params, s: State, a: Action)
    requires JobsKept(s) && AllIssuedOk(p, s) && Enabled(p, s, a) && a.SkipJob?
    ensures JobsKept(Apply(p, s, a))
  {
    hide Recorded, Pending, Picked;
    var s' := Apply(p, s, a);
    forall j | 0 <= j < |s'.uploadQ|
      ensures JobOk(s', s'.uploadQ[j])
    {
      assert JobOk(s, s.uploadQ[j + 1]);
    }
    forall id | id in s'.issued
      ensures ChunkKept(s', id)
    {
      assert ChunkKept(s, id) && IssuedOk(p, s, id);
      if Queued(s, s.issued[id]) {
        HeadOrTail(s.uploadQ, s.issued[id]);
      } else if u: nat :| AtUploader(s, u, s.issued[id]) {
        assert AtUploader(s', u, s'.issued[id]);
      }
    }
  }

  lemma SaveKeepsJobs(p: Params, s: State, a: Action)
    requires JobsKept(s) && AllIssuedOk(p, s) && Enabled(p, s, a) && a.TrySave?
    ensures JobsKept(Apply(p, s, a))
  {
    hide RecordOf, Recorded, Pending, Picked;
    var s' := Apply(p, s, a);
    forall id | id in s'.issued
      ensures ChunkKept(s', id)
    {
      assert ChunkKept(s, id) && IssuedOk(p, s, id);
      if u: nat :| AtUploader(s, u, s.issued[id]) {
        assert u != a.u || !a.acked ==> AtUploader(s', u, s'.issued[id]);
      }
    }
  }

  lemma LeaveKeepsJobs(p: Params, s: State, a: Action)
    requires JobsKept(s) && Enabled(p, s, a) && (a.GiveUp? || a.UploadExit?)
    ensures JobsKept(Apply(p, s, a))
  {
    var s' := Apply(p, s, a);
    forall id | id in s'.issued
      ensures ChunkKept(s', id)
    {
      assert ChunkKept(s, id);
      if u: nat :| AtUploader(s, u, s.issued[id]) {
        assert u != a.u ==> AtUploader(s', u, s'.issued[id]);
      }
    }
  }

  // ---- Storage nodes: steps ----

  lemma FrameStore(p: Params, s: State, s': State)
    requires StoreKept(p, s) && s'.store == s.store && s'.issued == s.issued
    requires s'.successful == s.successful && s'.unacked == s.unacked
    ensures StoreKept(p, s')
  {
    forall place | place in s'.store
      ensures CopyOk(p, s', place)
    {
      assert CopyOk(p, s, place);
    }
  }

  lemma SliceKeepsStore(p: Params, s: State, a: Action)
    requires StoreKept(p, s) && Enabled(p, s, a) && a.SliceChunk? && !s.uploadClosed
    ensures StoreKept(p, Apply(p, s, a))
  {
    hide SealedOf, IsOrder, Picked, RecordOf;
    var s' := Apply(p, s, a);
    forall place | place in s'.store
      ensures CopyOk(p, s', place)
    {
      assert CopyOk(p, s, place);
    }
  }

  lemma SaveCopy(p: Params, s: State, a: Action, place: Place)
    requires StoreKept(p, s) && Enabled(p, s, a) && a.TrySave?
    requires JobOk(s, s.uploads[a.u].job) && s.uploads[a.u].job.chunk.id !in s.successful
    requires place in Apply(p, s, a).store
    ensures CopyOk(p, Apply(p, s, a), place)
  {
    hide RecordOf;
    var job := s.uploads[a.u].job;
    if place != (job.chunk.nodes[s.uploads[a.u].tried], job.chunk.id) || !a.stored {
      assert CopyOk(p, s, place);
    }
  }

  lemma SaveKeepsStore(p: Params, s: State, a: Action)
    requires StoreKept(p, s) && Enabled(p, s, a) && a.TrySave?
    requires JobOk(s, s.uploads[a.u].job) && !Settled(s, s.uploads[a.u].job.chunk.id)
    ensures StoreKept(p, Apply(p, s, a))
  {
    hide RecordOf, CopyOk, SealedOf, IsOrder, Picked, RollbackOf;
    var s' := Apply(p, s, a);
    forall place | place in s'.store
      ensures CopyOk(p, s', place)
    {
      SaveCopy(p, s, a, place);
    }
  }

  /** Jobs on their way belong to issued chunks. */
  ghost predicate FlightIssued(s: State) {
    && (forall i :: 0 <= i < |s.uploadQ| ==> s.uploadQ[i].chunk.id in s.issued)
    && (forall u :: 0 <= u < |s.uploads| && s.uploads[u].Sending? ==> s.uploads[u].job.chunk.id in s.issued)
  }

  lemma JobsAreIssued(s: State)
    requires JobsKept(s)
    ensures FlightIssued(s)
  {
    hide ChunkKept;
    assert forall i :: 0 <= i < |s.uploadQ| ==> JobOk(s, s.uploadQ[i]);
    assert forall u :: 0 <= u < |s.uploads| && s.uploads[u].Sending? ==> JobOk(s, s.uploads[u].job);
  }

  lemma SliceKeepsOnce(p: Params, s: State, a: Action)
    requires Once(s) && FlightIssued(s) && Enabled(p, s, a) && a.SliceChunk? && !s.uploadClosed
    ensures Once(Apply(p, s, a))
  {
    hide SealedOf, IsOrder, Picked;
  }

  lemma SliceKeepsSettled(p: Params, s: State, a: Action)
    requires SettledRest(s) && FlightIssued(s) && Enabled(p, s, a) && a.SliceChunk? && !s.uploadClosed
    ensures SettledRest(Apply(p, s, a))
  {
    hide SealedOf, IsOrder, Picked;
  }

  lemma TakeKeepsFlight(p: Params, s: State, a: Action)
    requires OnceInFlight(s) && JobsKept(s) && Enabled(p, s, a) && (a.TakeJob? || a.SkipJob?)
    ensures OnceInFlight(Apply(p, s, a))
  {
    hide ChunkKept;
    var s' := Apply(p, s, a);
    assert JobOk(s, s.uploadQ[0]);
    assert forall i :: 0 <= i < |s'.uploadQ| ==> s'.uploadQ[i] == s.uploadQ[i + 1];
    TakeKeepsOnce(p, s, a);
    hide Once;
  }

  lemma TakeKeepsOnce(p: Params, s: State, a: Action)
    requires Once(s) && Enabled(p, s, a) && (a.TakeJob? || a.SkipJob?)
    ensures Once(Apply(p, s, a))
  {
    hide RecordOf, SealedOf, IsOrder, Picked, RollbackOf;
    var s' := Apply(p, s, a);
    assert forall i :: 0 <= i < |s'.uploadQ| ==> s'.uploadQ[i] == s.uploadQ[i + 1];
  }

  lemma SendKeepsFlight(p: Params, s: State, a: Action)
    requires OnceInFlight(s) && JobsKept(s) && Enabled(p, s, a) && (a.TrySave? || a.GiveUp? || a.UploadExit?)
    ensures OnceInFlight(Apply(p, s, a))
  {
    JobsAreIssued(s);
    hide JobsKept;
    SendKeepsOnce(p, s, a);
    SendKeepsSettled(p, s, a);
  }

  /** The channel is as it was, and no upload worker has a new job. */
  ghost predicate NoNewJob(s: State, s': State) {
    && s'.uploadQ == s.uploadQ && |s'.uploads| == |s.uploads|
    && forall u :: 0 <= u < |s'.uploads| && s'.uploads[u].Sending? ==> s.uploads[u].Sending? && s.uploads[u].job == s'.uploads[u].job
  }

  lemma SendEffect(p: Params, s: State, a: Action)
    requires Enabled(p, s, a) && (a.TrySave? || a.GiveUp? || a.UploadExit?)
    ensures var s' := Apply(p, s, a);
      && NoNewJob(s, s') && s'.issued == s.issued && s'.skipped == s.skipped
      && (s'.successful == s.successful
          || (s.uploads[a.u].Sending? && !s'.uploads[a.u].Sending?
              && s'.successful.Keys == s.successful.Keys + {s.uploads[a.u].job.chunk.id}))
  {
    hide RecordOf, SealedOf, IsOrder, Picked, RollbackOf;
  }

  lemma SendKeepsOnce(p: Params, s: State, a: Action)
    requires Once(s) && Enabled(p, s, a) && (a.TrySave? || a.GiveUp? || a.UploadExit?)
    ensures Once(Apply(p, s, a))
  {
    SendEffect(p, s, a);
    hide Apply, Enabled;
  }

  lemma SendKeepsSettled(p: Params, s: State, a: Action)
    requires Once(s) && SettledRest(s) && FlightIssued(s)
    requires Enabled(p, s, a) && (a.TrySave? || a.GiveUp? || a.UploadExit?)
    ensures SettledRest(Apply(p, s, a))
  {
    SendEffect(p, s, a);
    var s' := Apply(p, s, a);
    hide Apply, Enabled;
    if s'.successful != s.successful {
      var id := s.uploads[a.u].job.chunk.id;
      assert SendingId(s.uploads[a.u], id) && !Settled(s, id);
      assert forall x :: Settled(s', x) <==> Settled(s, x) || x == id;
    } else {
      assert forall x :: Settled(s', x) <==> Settled(s, x);
    }
  }

  lemma FrameLost(p: Params, s: State, s': State)
    requires LostKept(p, s) && s'.uploadQ == s.uploadQ && s'.uploads == s.uploads
    requires s'.successful == s.successful && s'.unacked == s.unacked
    ensures LostKept(p, s')
  {
    hide Tried, Distinct;
  }

  lemma FrameFlight(s: State, s': State)
    requires OnceInFlight(s) && s'.uploadQ == s.uploadQ && s'.uploads == s.uploads
    requires s'.successful == s.successful && s'.skipped == s.skipped && s'.issued == s.issued
    ensures OnceInFlight(s')
  {
    forall id
      ensures Settled(s', id) == Settled(s, id)
    {
    }
  }

  lemma SliceKeepsLost(p: Params, s: State, a: Action)
    requires LostKept(p, s) && StoreKept(p, s) && Enabled(p, s, a) && a.SliceChunk? && !s.uploadClosed
    ensures LostKept(p, Apply(p, s, a))
  {
    hide SealedOf, IsOrder, Picked, CopyOk, Distinct;
  }

  lemma TakeKeepsLost(p: Params, s: State, a: Action)
    requires LostKept(p, s) && Enabled(p, s, a) && (a.TakeJob? || a.SkipJob?)
    ensures LostKept(p, Apply(p, s, a))
  {
    hide Distinct;
    var s' := Apply(p, s, a);
    assert forall i :: 0 <= i < |s'.uploadQ| ==> s'.uploadQ[i] == s.uploadQ[i + 1];
    forall place, u | place in s'.unacked && 0 <= u < |s'.uploads|
      ensures Tried(s'.uploads[u], place)
    {
      assert Tried(s.uploads[u], place);
    }
  }

  lemma RestKeepsLost(p: Params, s: State, a: Action)
    requires LostKept(p, s) && Enabled(p, s, a) && (a.GiveUp? || a.UploadExit?)
    ensures LostKept(p, Apply(p, s, a))
  {
    hide Distinct;
    var s' := Apply(p, s, a);
    forall place, u | place in s'.unacked && 0 <= u < |s'.uploads|
      ensures Tried(s'.uploads[u], place)
    {
      assert Tried(s.uploads[u], place);
    }
  }

  lemma SaveKeepsLost(p: Params, s: State, a: Action)
    requires LostKept(p, s) && OnceInFlight(s) && Enabled(p, s, a) && a.TrySave?
    requires Picked(p.nodes, p.tolerance, s.uploads[a.u].job.chunk.nodes)
    ensures LostKept(p, Apply(p, s, a))
  {
    hide Distinct, Picked, RecordOf;
    var s' := Apply(p, s, a);
    var up := s.uploads[a.u];
    var nodes := up.job.chunk.nodes;
    var here := (nodes[up.tried], up.job.chunk.id);
    assert nodes[..up.tried + 1] == nodes[..up.tried] + [nodes[up.tried]];
    forall place, u | place in s'.unacked && 0 <= u < |s'.uploads|
      ensures Tried(s'.uploads[u], place)
    {
      assert place in s.unacked ==> Tried(s.uploads[u], place);
    }
    if Distinct(p.nodes) {
      PickedIsDistinct(p.nodes, p.tolerance, nodes);
      forall place | place in s'.unacked && place.1 in s'.successful
        ensures place.0 != s'.successful[place.1]
      {
        if place in s.unacked && place.1 == here.1 {
          assert Tried(up, place);
          NotBefore(nodes, up.tried, place.0);
        }
      }
    }
  }

  lemma NotBefore(nodes: seq<Addr>, at: nat, a: Addr)
    requires Distinct(nodes) && at < |nodes| && a in nodes[..at]
    ensures a != nodes[at]
  {
  }

  // ---- All of it ----

  ghost predicate Content(p: Params, s: State) {
    BlocksKept(p, s) && AllIssuedOk(p, s) && JobsKept(s) && OnceInFlight(s) && StoreKept(p, s) && LostKept(p, s)
  }

  lemma ContentInit(p: Params)
    requires ValidParams(p)
    ensures Content(p, Init(p))
  {
    hide Lawful;
  }

  lemma MainKeepsContent(p: Params, s: State, a: Action)
    requires Content(p, s) && Control(p, s) && Enabled(p, s, a) && Control(p, Apply(p, s, a))
    requires a.ReadBlock? || a.PushBlock? || a.FinishReading? || a.ReadFails? || a.CloseUploads? || a.JoinUploads?
          || a.CheckErrors? || a.PublishManifest?
    ensures Content(p, Apply(p, s, a))
  {
    hide BlocksKept, AllIssuedOk, JobsKept, StoreKept, LostKept, OnceInFlight, RollbackOf;
    var s' := Apply(p, s, a);
    FrameBlocks(p, s, s');
    FrameIssued(p, s, s');
    FrameJobs(s, s');
    FrameStore(p, s, s');
    FrameFlight(s, s');
    FrameLost(p, s, s');
  }

  lemma CryptoKeepsContent(p: Params, s: State, a: Action)
    requires Content(p, s) && Control(p, s) && Enabled(p, s, a)
    requires a.Boot? || a.CryptoFails? || a.StartBlock? || a.RecordBlock? || a.CryptoExit?
    ensures Content(p, Apply(p, s, a))
  {
    hide BlocksKept, AllIssuedOk, JobsKept, StoreKept, LostKept, OnceInFlight, Control, SealedOf;
    var s' := Apply(p, s, a);
    FrameJobs(s, s');
    FrameStore(p, s, s');
    FrameFlight(s, s');
    FrameLost(p, s, s');
    if a.RecordBlock? {
      RecordKeepsBlocks(p, s, a);
      RecordKeepsIssued(p, s, a);
    } else {
      RestKeepsIssued(p, s, a);
      if a.CryptoFails? {
        FailKeepsBlocks(p, s, a);
      } else if a.StartBlock? {
        StartKeepsBlocks(p, s, a);
      } else {
        RestKeepsBlocks(p, s, a);
      }
    }
  }

  lemma SliceKeepsContent(p: Params, s: State, a: Action)
    requires Content(p, s) && Control(p, s) && Enabled(p, s, a) && a.SliceChunk?
    ensures Content(p, Apply(p, s, a))
  {
    assert CryptoControl(p, s, a.w, s.crypto[a.w]) && !s.uploadClosed;
    hide *;
    SliceKeepsBlocks(p, s, a);
    SliceKeepsIssued(p, s, a);
    SliceKeepsJobs(p, s, a);
    SliceKeepsStore(p, s, a);
    JobsAreIssued(s);
    SliceKeepsOnce(p, s, a);
    SliceKeepsSettled(p, s, a);
    SliceKeepsLost(p, s, a);
  }

  lemma TakeKeepsContent(p: Params, s: State, a: Action)
    requires Content(p, s) && Enabled(p, s, a) && (a.TakeJob? || a.SkipJob?) && Queue(p, s)
    ensures Content(p, Apply(p, s, a))
  {
    hide BlocksKept, AllIssuedOk, JobsKept, StoreKept, LostKept, OnceInFlight;
    var s' := Apply(p, s, a);
    FrameBlocks(p, s, s');
    FrameIssued(p, s, s');
    if a.TakeJob? {
      TakeKeepsJobs(p, s, a);
    } else {
      SkipKeepsJobs(p, s, a);
    }
    TakeKeepsFlight(p, s, a);
    TakeKeepsLost(p, s, a);
    FrameStore(p, s, s');
  }

  lemma SendKeepsContent(p: Params, s: State, a: Action)
    requires Content(p, s) && Enabled(p, s, a) && (a.TrySave? || a.GiveUp? || a.UploadExit?) && Queue(p, s)
    ensures Content(p, Apply(p, s, a))
  {
    hide BlocksKept, AllIssuedOk, JobsKept, StoreKept, LostKept, OnceInFlight, RecordOf;
    var s' := Apply(p, s, a);
    FrameBlocks(p, s, s');
    FrameIssued(p, s, s');
    if a.TrySave? {
      SaveKeepsJobs(p, s, a);
    } else {
      LeaveKeepsJobs(p, s, a);
    }
    SendKeepsFlight(p, s, a);
    SendKeepsStore(p, s, a);
    SendKeepsLost(p, s, a);
  }

  lemma SendKeepsLost(p: Params, s: State, a: Action)
    requires LostKept(p, s) && OnceInFlight(s) && JobsKept(s) && AllIssuedOk(p, s)
    requires Enabled(p, s, a) && (a.TrySave? || a.GiveUp? || a.UploadExit?)
    ensures LostKept(p, Apply(p, s, a))
  {
    hide LostKept, OnceInFlight, ChunkKept, Recorded, Pending, Picked, RecordOf;
    if a.TrySave? {
      assert JobOk(s, s.uploads[a.u].job);
      assert IssuedOk(p, s, s.uploads[a.u].job.chunk.id);
      SaveKeepsLost(p, s, a);
    } else {
      RestKeepsLost(p, s, a);
    }
  }

  lemma SendKeepsStore(p: Params, s: State, a: Action)
    requires StoreKept(p, s) && JobsKept(s) && OnceInFlight(s)
    requires Enabled(p, s, a) && (a.TrySave? || a.GiveUp? || a.UploadExit?)
    ensures StoreKept(p, Apply(p, s, a))
  {
    hide StoreKept, RecordOf, ChunkKept;
    if a.TrySave? {
      assert JobOk(s, s.uploads[a.u].job) && !Settled(s, s.uploads[a.u].job.chunk.id);
      SaveKeepsStore(p, s, a);
    } else {
      FrameStore(p, s, Apply(p, s, a));
    }
  }

  lemma ContentStep(p: Params, s: State, a: Action)
    requires Content(p, s) && Control(p, s) && Enabled(p, s, a)
    ensures Content(p, Apply(p, s, a)) && Control(p, Apply(p, s, a))
  {
    ControlStep(p, s, a);
    assert Queue(p, s);
    hide Content, Control, Enabled, Apply, Queue;
    match a {
      case ReadBlock | PushBlock | FinishReading | ReadFails | CloseUploads | JoinUploads | CheckErrors | PublishManifest(_, _) =>
        MainKeepsContent(p, s, a);
      case Boot(_) | CryptoFails(_) | StartBlock(_, _, _, _) | RecordBlock(_) | CryptoExit(_) =>
        CryptoKeepsContent(p, s, a);
      case SliceChunk(_, _, _) =>
        SliceKeepsContent(p, s, a);
      case TakeJob(_) | SkipJob(_) =>
        TakeKeepsContent(p, s, a);
      case TrySave(_, _, _, _) | GiveUp(_) | UploadExit(_) =>
        SendKeepsContent(p, s, a);
    }
  }

  /** All of it holds in every state of every run. */
  lemma {:induction false} RunKeeps(p: Params, s: State, acts: seq<Action>)
    requires Content(p, s) && Control(p, s) && Runs(p, s, acts)
    ensures Content(p, Exec(p, s, acts)) && Control(p, Exec(p, s, acts))
    decreases |acts|
  {
    if acts != [] {
      hide Content, Control;
      ContentStep(p, s, acts[0]);
      RunKeeps(p, Apply(p, s, acts[0]), acts[1..]);
    }
  }

  /** A state that some run of the upload reaches. */
  ghost predicate Reachable(p: Params, s: State) {
    exists acts :: Runs(p, Init(p), acts) && Exec(p, Init(p), acts) == s
  }

  lemma ReachableKeeps(p: Params, s: State)
    requires ValidParams(p) && Reachable(p, s)
    ensures Content(p, s) && Control(p, s)
  {
    hide Content, Control, Lawful;
    var acts :| Runs(p, Init(p), acts) && Exec(p, Init(p), acts) == s;
    ContentInit(p);
    ControlInit(p);
    RunKeeps(p, Init(p), acts);
  }
}
