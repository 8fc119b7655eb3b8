/** What every step of the upload pipeline keeps about its control: channels are closed once and
    only behind their senders, workers leave only when their channel is drained, and the error
    latch is full exactly when someone reported. */
module PipelineControl {
  import opened Placement
  import opened Codec
  import opened Pipeline

  ghost predicate AllGone(s: State) {
    forall u :: 0 <= u < |s.uploads| ==> s.uploads[u].Gone?
  }

  /** The upload channel is closed from this phase on. */
  predicate PastCrypto(m: Main) {
    PastUploads(m) || m.AwaitUploads?
  }

  /** The upload workers have been waited for. */
  predicate PastUploads(m: Main) {
    m.Deciding? || m.Publishing? || (m.Returned? && !m.outcome.ReadFailed?)
  }

  predicate RolledBack(m: Main) {
    m.Returned? && (m.outcome.PipelineFailed? || m.outcome.ManifestFailed?)
  }

  /** The state of the two channels and of the deletions in each phase of the main goroutine. */
  ghost predicate Phase(p: Params, s: State) {
    && (s.main.Reading? || s.main.Pushing? ==> s.pushed == s.main.next)
    && (s.main.Pushing? ==> s.main.next < |p.blocks|)
    && (PastCrypto(s.main) || s.main.AwaitCrypto? ==> s.pushed == |p.blocks|)
    && (s.cryptoClosed <==> !s.main.Reading? && !s.main.Pushing?)
    && (s.uploadClosed <==> PastCrypto(s.main))
    && (PastUploads(s.main) ==> AllGone(s))
    && (!RolledBack(s.main) ==> s.deletions == {})
    && (RolledBack(s.main) ==> s.deletions == RollbackOf(s.successful))
  }

  ghost predicate CryptoControl(p: Params, s: State, w: nat, worker: CryptoWorker)
    requires w < |p.rsOk|
  {
    && (s.uploadClosed ==> worker.Exited?)
    && (worker.Idle? || worker.Slicing? ==> p.rsOk[w])
    && (worker.Slicing? ==> |worker.chunks| <= p.crypto.n && IsOrder(p, worker.sealed, worker.order))
    && (worker.Exited? ==> if p.rsOk[w] then s.cryptoClosed && s.cryptoQ == [] else s.reported)
  }

  ghost predicate UploadControl(s: State, up: Uploader) {
    && (up.Gone? ==> s.uploadClosed && s.uploadQ == [])
    && (up.Sending? ==> up.tried <= |up.job.chunk.nodes|)
  }

  /** A worker is hung only in a call to a node that may leave it so. */
  ghost predicate HungControl(p: Params, up: Uploader) {
    up.Sending? && up.hung ==> up.tried < |up.job.chunk.nodes| && up.job.chunk.nodes[up.tried] in p.mute
  }

  /** reedsolomon.New fails in every crypto worker. */
  ghost predicate AllDead(p: Params) {
    forall w :: 0 <= w < |p.rsOk| ==> !p.rsOk[w]
  }

  ghost predicate Queue(p: Params, s: State)
  {
    && s.taken + |s.cryptoQ| == s.pushed <= |p.blocks|
    && (forall j :: 0 <= j < |s.cryptoQ| ==> s.cryptoQ[j] == s.taken + j)
    && |s.cryptoQ| <= p.cryptoCapacity && |s.uploadQ| <= p.uploadCapacity
    && (AllDead(p) ==> s.taken == 0)
  }

  /** No error is lost, and none is invented. */
  ghost predicate Latch(s: State) {
    && (s.latch.Some? <==> s.reported)
    && (s.main == Publishing || s.main == Returned(Success) || s.main == Returned(ManifestFailed) ==> !s.reported)
    && (s.main == Returned(PipelineFailed) ==> s.reported)
    && (s.main == Returned(Success) ==> s.manifestStored)
  }

  ghost predicate Control(p: Params, s: State)
  {
    && |s.crypto| == |p.rsOk| && |s.uploads| == p.uploaders && !s.panicked
    && Phase(p, s) && Queue(p, s) && Latch(s)
    && (forall w :: 0 <= w < |s.crypto| ==> CryptoControl(p, s, w, s.crypto[w]))
    && (forall u :: 0 <= u < |s.uploads| ==> UploadControl(s, s.uploads[u]) && HungControl(p, s.uploads[u]))
  }

  lemma ControlInit(p: Params)
    ensures Control(p, Init(p))
  {
  }

  lemma ReadingKeepsControl(p: Params, s: State, a: Action)
    requires Control(p, s) && Enabled(p, s, a) && (a.ReadBlock? || a.PushBlock? || a.FinishReading? || a.ReadFails?)
    ensures Control(p, Apply(p, s, a))
  {
    hide Lawful, SealedOf, RollbackOf, RecordOf, IsOrder, Picked, AllDead;
  }

  lemma ClosingKeepsControl(p: Params, s: State, a: Action)
    requires Control(p, s) && Enabled(p, s, a) && (a.CloseUploads? || a.JoinUploads? || a.CheckErrors? || a.PublishManifest?)
    ensures Control(p, Apply(p, s, a))
  {
    hide Lawful, SealedOf, RollbackOf, RecordOf, IsOrder, Picked, AllDead;
  }

  lemma BootKeepsControl(p: Params, s: State, a: Action)
    requires Control(p, s) && Enabled(p, s, a) && (a.Boot? || a.CryptoExit?)
    ensures Control(p, Apply(p, s, a))
  {
    hide Lawful, SealedOf, RollbackOf, RecordOf, IsOrder, Picked, AllDead;
  }

  lemma BlockKeepsControl(p: Params, s: State, a: Action)
    requires Control(p, s) && Enabled(p, s, a) && (a.CryptoFails? || a.StartBlock?)
    ensures Control(p, Apply(p, s, a))
  {
    hide Lawful, SealedOf, RollbackOf, RecordOf, IsOrder, Picked;
  }

  lemma ChunkKeepsControl(p: Params, s: State, a: Action)
    requires Control(p, s) && Enabled(p, s, a) && (a.SliceChunk? || a.RecordBlock?)
    ensures Control(p, Apply(p, s, a))
  {
    hide Lawful, SealedOf, RollbackOf, RecordOf, IsOrder, Picked, AllDead;
  }

  lemma JobKeepsControl(p: Params, s: State, a: Action)
    requires Control(p, s) && Enabled(p, s, a) && (a.TakeJob? || a.SkipJob? || a.UploadExit?)
    ensures Control(p, Apply(p, s, a))
  {
    hide Lawful, SealedOf, RollbackOf, RecordOf, IsOrder, Picked, AllDead;
  }

  lemma SaveKeepsControl(p: Params, s: State, a: Action)
    requires Control(p, s) && Enabled(p, s, a) && (a.TrySave? || a.GiveUp?)
    ensures Control(p, Apply(p, s, a))
  {
    hide Lawful, SealedOf, RollbackOf, RecordOf, IsOrder, Picked, AllDead;
  }

  /** Every step keeps the invariant; in particular no step sends on a closed channel or closes
      one twice: `panicked` stays false. */
  lemma ControlStep(p: Params, s: State, a: Action)
    requires Control(p, s) && Enabled(p, s, a)
    ensures Control(p, Apply(p, s, a))
  {
    hide Control, Apply;
    match a {
      case ReadBlock | PushBlock | FinishReading | ReadFails => ReadingKeepsControl(p, s, a);
      case CloseUploads | JoinUploads | CheckErrors | PublishManifest(_, _) => ClosingKeepsControl(p, s, a);
      case Boot(_) | CryptoExit(_) => BootKeepsControl(p, s, a);
      case CryptoFails(_) | StartBlock(_, _, _, _) => BlockKeepsControl(p, s, a);
      case SliceChunk(_, _, _) | RecordBlock(_) => ChunkKeepsControl(p, s, a);
      case TakeJob(_) | SkipJob(_) | UploadExit(_) => JobKeepsControl(p, s, a);
      case TrySave(_, _, _, _) | GiveUp(_) => SaveKeepsControl(p, s, a);
    }
  }
}
