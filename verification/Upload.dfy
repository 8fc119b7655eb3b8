/** What an upload has achieved when it returns: over all runs of the pipeline. */
module Upload {
  import opened Types
  import opened Placement
  import Blocks
  import opened Codec
  import opened Pipeline
  import opened PipelineControl
  import opened PipelineContent
  import opened Reconstruct

  /** The manifest as it is sent to the bootstrap server. */
  function ManifestOf(p: Params, s: State): FileManifest {
    FileManifest(p.fileId, p.release, if p.blocks == [] then 1 else |p.blocks|,
                 p.crypto.k, if p.crypto.n >= p.crypto.k then p.crypto.n - p.crypto.k else 0, s.split)
  }

  ghost predicate Listed(s: State, c: Chunk) {
    exists b :: b in s.split && c in s.split[b].chunks
  }

  /** A node of the chunk's own list acknowledged it and holds the right record. */
  ghost predicate Acknowledged(p: Params, s: State, c: Chunk) {
    && c.id in s.issued && c.id in s.successful
    && var place := (s.successful[c.id], c.id);
      place.0 in c.nodes && place in s.store && s.store[place] == RecordOf(p, s.issued[c.id])
  }

  /** The error latch of capacity 1, written without blocking, loses the fact of a failure in no
      interleaving: it is full exactly when some worker tried to report, and then the upload does
      not succeed. */
  lemma NoLostFailure(p: Params, s: State)
    requires ValidParams(p) && Reachable(p, s)
    ensures s.latch.Some? <==> s.reported
    ensures s.main == Returned(Success) || s.main == Returned(ManifestFailed) ==> !s.reported
    ensures s.main == Returned(PipelineFailed) ==> s.reported
    ensures !s.panicked
  {
    ReachableKeeps(p, s);
  }

  /** The failure that a step reports, if any. */
  ghost function ReportOf(p: Params, s: State, a: Action): Option<Failure>
    requires Enabled(p, s, a)
  {
    match a
    case Boot(w) => if p.rsOk[w] then None else Some(CryptoFailure)
    case CryptoFails(_) => Some(CryptoFailure)
    case GiveUp(u) => Some(UploadFailure(s.uploads[u].job.chunk.id))
    case _ => None
  }

  ghost function FirstReport(p: Params, s: State, acts: seq<Action>): Option<Failure>
    requires Runs(p, s, acts)
    decreases |acts|
  {
    if acts == [] then None
    else if ReportOf(p, s, acts[0]).Some? then ReportOf(p, s, acts[0])
    else FirstReport(p, Apply(p, s, acts[0]), acts[1..])
  }

  /** In every run the latch holds the failure that was reported first: later ones find it full and are
      given up, and nothing takes it out. */
  lemma LatchHoldsFirst(p: Params, acts: seq<Action>)
    requires Runs(p, Init(p), acts)
    ensures Exec(p, Init(p), acts).latch == FirstReport(p, Init(p), acts)
  {
    LatchKept(p, Init(p), acts);
  }

  lemma {:induction false} LatchKept(p: Params, s: State, acts: seq<Action>)
    requires Runs(p, s, acts)
    ensures Exec(p, s, acts).latch == if s.latch.Some? then s.latch else FirstReport(p, s, acts)
    decreases |acts|
  {
    if acts != [] {
      LatchStep(p, s, acts[0]);
      hide Enabled, Apply, ReportOf;
      LatchKept(p, Apply(p, s, acts[0]), acts[1..]);
    }
  }

  lemma LatchStep(p: Params, s: State, a: Action)
    requires Enabled(p, s, a)
    ensures Apply(p, s, a).latch == if s.latch.Some? then s.latch else ReportOf(p, s, a)
  {
    if a.Boot? || a.CryptoFails? || a.GiveUp? {
      hide SealedOf, RecordOf, IsOrder, Picked, RollbackOf, NextChunk;
    } else {
      LatchUntouched(p, s, a);
      hide Enabled, Apply;
    }
  }

  lemma LatchUntouched(p: Params, s: State, a: Action)
    requires Enabled(p, s, a) && !a.Boot? && !a.CryptoFails? && !a.GiveUp?
    ensures Apply(p, s, a).latch == s.latch
  {
    if a.StartBlock? || a.SliceChunk? || a.RecordBlock? || a.CryptoExit? {
      CryptoLeavesLatch(p, s, a);
    } else if a.TakeJob? || a.SkipJob? || a.TrySave? || a.UploadExit? {
      UploadLeavesLatch(p, s, a);
    } else {
      MainLeavesLatch(p, s, a);
    }
    hide Enabled, Apply;
  }

  lemma CryptoLeavesLatch(p: Params, s: State, a: Action)
    requires Enabled(p, s, a) && (a.StartBlock? || a.SliceChunk? || a.RecordBlock? || a.CryptoExit?)
    ensures Apply(p, s, a).latch == s.latch
  {
    hide SealedOf, IsOrder, Picked, NextChunk;
  }

  lemma UploadLeavesLatch(p: Params, s: State, a: Action)
    requires Enabled(p, s, a) && (a.TakeJob? || a.SkipJob? || a.TrySave? || a.UploadExit?)
    ensures Apply(p, s, a).latch == s.latch
  {
    hide RecordOf;
  }

  lemma MainLeavesLatch(p: Params, s: State, a: Action)
    requires Enabled(p, s, a)
    requires a.ReadBlock? || a.PushBlock? || a.FinishReading? || a.ReadFails? || a.CloseUploads? || a.JoinUploads?
          || a.CheckErrors? || a.PublishManifest?
    ensures Apply(p, s, a).latch == s.latch
  {
    hide RollbackOf;
  }

  /** When all crypto workers are gone every block and every issued chunk is in the manifest. */
  lemma AllRecorded(p: Params, s: State)
    requires Content(p, s) && Control(p, s) && PastUploads(s.main) && !s.reported && |p.rsOk| > 0
    ensures forall b: nat :: b < |p.blocks| <==> b in s.split
    ensures forall id :: id in s.issued ==> Recorded(s, s.issued[id])
  {
    hide BlockOk, SliceOk, Picked, IsOrder;
    forall w | 0 <= w < |s.crypto|
      ensures s.crypto[w].Exited?
    {
      assert CryptoControl(p, s, w, s.crypto[w]);
    }
    assert CryptoControl(p, s, 0, s.crypto[0]);
    assert s.taken == |p.blocks|;
    forall b: nat | b < s.taken
      ensures b in s.split
    {
      assert BlockKept(s, b);
    }
    forall id | id in s.issued
      ensures Recorded(s, s.issued[id])
    {
      assert IssuedOk(p, s, id);
    }
  }

  /** Chunks of a recorded block have their own ids, positions and key indexes. */
  lemma BlockIsUnambiguous(p: Params, issued: map<ChunkId, Job>, b: nat, coins: Coins, fb: FileBlock)
    requires BlockOk(p, issued, b, coins, fb)
    ensures Unambiguous(fb.chunks)
    ensures forall c :: c in fb.chunks ==> c.shardIndex < p.crypto.n
  {
    hide SealedOf, Picked;
    var sealed := SealedOf(p, b, coins);
    forall i | 0 <= i < |fb.chunks|
      ensures fb.chunks[i].shardIndex == i && fb.chunks[i].id in issued && issued[fb.chunks[i].id].chunk == fb.chunks[i]
    {
      assert ChunkOk(p, issued, b, sealed, fb.chunks[i], i);
    }
  }

  lemma ListedIsIssued(p: Params, s: State, c: Chunk)
    requires Content(p, s) && Listed(s, c)
    ensures c.id in s.issued && s.issued[c.id].chunk == c
  {
    hide SealedOf, Picked, SliceOk, BlockKept;
    var b :| b in s.split && c in s.split[b].chunks;
    assert BlockOk(p, s.issued, b, s.secrets[b], s.split[b]);
    var j :| 0 <= j < |s.split[b].chunks| && s.split[b].chunks[j] == c;
    assert ChunkOk(p, s.issued, b, SealedOf(p, b, s.secrets[b]), c, j);
  }

  /** When the upload workers are gone without a report, an issued chunk is acknowledged or was skipped. */
  lemma IssuedIsSettled(p: Params, s: State, id: ChunkId)
    requires Content(p, s) && Control(p, s) && PastUploads(s.main) && !s.reported && id in s.issued && p.uploaders > 0
    ensures id in s.successful ==> Acknowledged(p, s, s.issued[id].chunk)
    ensures id in s.successful <==> id !in s.skipped
  {
    hide BlocksKept, Recorded, Pending, Picked, LostKept, Once;
    assert UploadControl(s, s.uploads[0]);
    assert s.uploadQ == [];
    assert IssuedOk(p, s, id);
    if id in s.successful {
      assert CopyOk(p, s, (s.successful[id], id));
    }
    assert ChunkKept(s, id);
  }

  /** A successful upload: the manifest has exactly the blocks 0..|blocks|-1, each a full and
      unambiguous set of chunks of a sealing of that block, and the manifest was stored. Every listed
      chunk was acknowledged by a node of its list, if and only if no upload worker skipped a job
      (which it does, without an error, when marshalling or signing fails). */
  lemma SuccessIsComplete(p: Params, s: State)
    requires ValidParams(p) && Reachable(p, s) && s.main == Returned(Success)
    ensures s.latch.None? && s.manifestStored
    ensures forall b: nat :: b < |p.blocks| <==> b in s.split
    ensures forall b :: b in s.split ==> b in s.secrets && BlockOk(p, s.issued, b, s.secrets[b], s.split[b])
    ensures forall b :: b in s.split ==> Unambiguous(s.split[b].chunks)
    ensures forall c :: Listed(s, c) ==> (Acknowledged(p, s, c) <==> c.id !in s.skipped)
    ensures (forall c :: Listed(s, c) ==> Acknowledged(p, s, c)) <==> s.skipped == {}
  {
    ReachableKeeps(p, s);
    AllRecorded(p, s);
    hide Lawful, Listed, Acknowledged, Control, BlockOk;
    forall b | b in s.split
      ensures b in s.secrets && BlockOk(p, s.issued, b, s.secrets[b], s.split[b]) && Unambiguous(s.split[b].chunks)
    {
      BlockIsUnambiguous(p, s.issued, b, s.secrets[b], s.split[b]);
    }
    hide Content;
    forall c | Listed(s, c)
      ensures Acknowledged(p, s, c) <==> c.id !in s.skipped
    {
      ListedIsSettled(p, s, c);
    }
    forall id | id in s.skipped
      ensures exists c :: Listed(s, c) && !Acknowledged(p, s, c)
    {
      SkippedIsListed(p, s, id);
    }
  }

  lemma ListedIsSettled(p: Params, s: State, c: Chunk)
    requires ValidParams(p) && Content(p, s) && Control(p, s) && s.main == Returned(Success) && Listed(s, c)
    ensures Acknowledged(p, s, c) <==> c.id !in s.skipped
  {
    hide Lawful, Content, Listed;
    assert !s.reported;
    hide Control;
    ListedIsIssued(p, s, c);
    IssuedIsSettled(p, s, c.id);
  }

  lemma SkippedIsListed(p: Params, s: State, id: ChunkId)
    requires ValidParams(p) && Content(p, s) && Control(p, s) && s.main == Returned(Success) && id in s.skipped
    ensures exists c :: Listed(s, c) && !Acknowledged(p, s, c)
  {
    AllRecorded(p, s);
    hide Lawful, BlocksKept, JobsKept, StoreKept, LostKept, Once, Pending, Picked;
    assert Settled(s, id) && id in s.issued && IssuedOk(p, s, id);
    assert Recorded(s, s.issued[id]);
    assert Listed(s, s.issued[id].chunk);
    ListedIsSettled(p, s, s.issued[id].chunk);
  }

  // ---- Rollback and deletion ----

  /** What the storage nodes hold once the given deletions have arrived. */
  function After(store: map<Place, ChunkRecord>, deletions: set<Place>): map<Place, ChunkRecord> {
    store - deletions
  }

  /** Rollback: when the pipeline or the manifest upload fails, then after the issued deletions have
      arrived the nodes hold what they held before, together with exactly the copies that were stored
      but not acknowledged and that no deletion reaches. */
  lemma RollbackIsExact(p: Params, s: State)
    requires ValidParams(p) && Reachable(p, s) && RolledBack(s.main)
    ensures forall place :: place in After(s.store, s.deletions) <==>
      place in p.before || (place in s.unacked && place !in s.deletions)
    ensures forall place :: place in p.before ==> After(s.store, s.deletions)[place] == p.before[place]
    ensures forall place :: place in s.unacked ==> place !in p.before
    ensures After(s.store, s.deletions) == p.before <==> s.unacked <= s.deletions
  {
    ReachableKeeps(p, s);
    StoreIsExplained(p, s);
    hide Content, Control, ValidParams, Reachable, RolledBack, RollbackOf, After;
    Leftover(s.store, p.before, s.unacked, s.deletions);
  }

  lemma Leftover(store: map<Place, ChunkRecord>, before: map<Place, ChunkRecord>, unacked: set<Place>, deletions: set<Place>)
    requires forall place :: place in store <==> place in before || place in unacked || place in deletions
    requires forall place :: place in before ==> store[place] == before[place]
    requires forall place :: place in unacked || place in deletions ==> place !in before
    ensures forall place :: place in After(store, deletions) <==> place in before || (place in unacked && place !in deletions)
    ensures forall place :: place in before ==> After(store, deletions)[place] == before[place]
    ensures After(store, deletions) == before <==> unacked <= deletions
  {
    if unacked <= deletions {
      assert After(store, deletions).Keys == before.Keys;
    }
  }

  lemma StoreIsExplained(p: Params, s: State)
    requires ValidParams(p) && Content(p, s) && Control(p, s) && RolledBack(s.main)
    ensures forall place :: place in s.store <==> place in p.before || place in s.unacked || place in s.deletions
    ensures forall place :: place in p.before ==> s.store[place] == p.before[place]
    ensures forall place :: place in s.unacked || place in s.deletions ==> place !in p.before
  {
    hide Lawful, BlocksKept, AllIssuedOk, JobsKept, OnceInFlight, LostKept, Queue, Latch, CryptoControl, UploadControl;
    forall place | place in s.store
      ensures place in p.before || place in s.unacked || place in s.deletions
    {
      assert CopyOk(p, s, place);
    }
  }

  /** With distinct node addresses nothing is left behind if and only if no stored copy was left
      without its acknowledgement. */
  lemma RollbackLeavesNothingIff(p: Params, s: State)
    requires ValidParams(p) && Reachable(p, s) && RolledBack(s.main) && Distinct(p.nodes)
    ensures After(s.store, s.deletions) == p.before <==> s.unacked == {}
  {
    RollbackIsExact(p, s);
    ReachableKeeps(p, s);
    hide Lawful, BlocksKept, AllIssuedOk, JobsKept, OnceInFlight, StoreKept, Queue, Latch, CryptoControl, UploadControl,
      Distinct, Tried;
    assert forall place :: place in s.unacked ==> place !in s.deletions;
  }

  /** Deleting a successfully uploaded file by its manifest reaches every copy, also those whose
      acknowledgement was lost: afterwards the nodes hold what they held before the upload. */
  lemma DeletionCoversReplicas(p: Params, s: State)
    requires ValidParams(p) && Reachable(p, s) && s.main == Returned(Success)
    ensures After(s.store, Places(ManifestOf(p, s))) == p.before
  {
    ReachableKeeps(p, s);
    AllRecorded(p, s);
    var places := Places(ManifestOf(p, s));
    forall place | place in s.store && place.1 in s.issued
      ensures place in places
    {
      CopyIsPlaced(p, s, place);
    }
    forall place | place in places
      ensures place !in p.before
    {
      PlacedIsNew(p, s, place);
    }
    StoreSplits(p, s, places);
  }

  lemma CopyIsPlaced(p: Params, s: State, place: Place)
    requires StoreKept(p, s) && place in s.store && place.1 in s.issued
    requires Recorded(s, s.issued[place.1]) && s.issued[place.1].chunk.id == place.1
    ensures place in Places(ManifestOf(p, s))
  {
    assert CopyOk(p, s, place);
    var job := s.issued[place.1];
    var i :| 0 <= i < |s.split[job.block].chunks| && s.split[job.block].chunks[i] == job.chunk;
    var j :| 0 <= j < |job.chunk.nodes| && job.chunk.nodes[j] == place.0;
    assert (s.split[job.block].chunks[i].nodes[j], s.split[job.block].chunks[i].id) == place;
  }

  lemma PlacedIsNew(p: Params, s: State, place: Place)
    requires Content(p, s) && place in Places(ManifestOf(p, s))
    ensures place !in p.before
  {
    hide BlocksKept, AllIssuedOk, JobsKept, OnceInFlight, LostKept, CopyOk;
    var b, i, j :| b in s.split && 0 <= i < |s.split[b].chunks| && 0 <= j < |s.split[b].chunks[i].nodes|
      && place == (s.split[b].chunks[i].nodes[j], s.split[b].chunks[i].id);
    assert Listed(s, s.split[b].chunks[i]);
    ListedIsIssued(p, s, s.split[b].chunks[i]);
  }

  lemma StoreSplits(p: Params, s: State, places: set<Place>)
    requires StoreKept(p, s)
    requires forall place :: place in s.store && place.1 in s.issued ==> place in places
    requires forall place :: place in places ==> place !in p.before
    ensures After(s.store, places) == p.before
  {
    forall place | place in s.store && place !in places
      ensures place in p.before && s.store[place] == p.before[place]
    {
      assert CopyOk(p, s, place);
    }
    assert After(s.store, places).Keys == p.before.Keys;
  }

  /** A file read error is the one failure without rollback: nothing is deleted, and the upload
      channel stays open, so that no upload worker ever ends. */
  lemma ReadFailureLeaks(p: Params, s: State, acts: seq<Action>)
    requires ValidParams(p) && Reachable(p, s) && s.main == Returned(ReadFailed) && Runs(p, s, acts)
    ensures var t := Exec(p, s, acts);
      t.main == s.main && t.deletions == {} && !t.uploadClosed && forall u :: 0 <= u < |t.uploads| ==> !t.uploads[u].Gone?
  {
    ReachableKeeps(p, s);
    RunKeeps(p, s, acts);
    hide Content, Lawful;
    MainStays(p, s, acts);
    var t := Exec(p, s, acts);
    forall u | 0 <= u < |t.uploads|
      ensures !t.uploads[u].Gone?
    {
      assert UploadControl(t, t.uploads[u]);
    }
  }

  /** The last block read was full, or none was read. */
  predicate FullBefore(p: Params, pushed: nat) {
    pushed == 0 || (pushed <= |p.blocks| && |p.blocks[pushed - 1]| == p.blockSize)
  }

  lemma ReadFailureStep(p: Params, s: State, a: Action)
    requires Control(p, s) && Enabled(p, s, a) && (s.main == Returned(ReadFailed) ==> FullBefore(p, s.pushed))
    ensures Apply(p, s, a).main == Returned(ReadFailed) ==> FullBefore(p, Apply(p, s, a).pushed)
  {
    hide SealedOf, IsOrder, Picked, RecordOf, RollbackOf, Latched, NextChunk, Queue, Latch, CryptoControl, UploadControl;
  }

  lemma {:induction false} ReadFailureRun(p: Params, s: State, acts: seq<Action>)
    requires Content(p, s) && Control(p, s) && Runs(p, s, acts) && (s.main == Returned(ReadFailed) ==> FullBefore(p, s.pushed))
    ensures Exec(p, s, acts).main == Returned(ReadFailed) ==> FullBefore(p, Exec(p, s, acts).pushed)
    decreases |acts|
  {
    if acts != [] {
      ReadFailureStep(p, s, acts[0]);
      ContentStep(p, s, acts[0]);
      hide Content, Control, Enabled, Apply;
      ReadFailureRun(p, Apply(p, s, acts[0]), acts[1..]);
    }
  }

  /** A read error hits one of the |file| / blockSize + 1 reads that the loop makes (Blocks.ReadLoop): after a short
      block there is no further read. */
  lemma ReadFailsWhereItReads(p: Params, s: State, file: Bytes)
    requires ValidParams(p) && Reachable(p, s) && s.main == Returned(ReadFailed) && p.blocks == Blocks.Cut(file, p.blockSize)
    ensures s.pushed <= |file| / p.blockSize
  {
    ReadFailedIsFull(p, s);
    hide *;
    Blocks.ReadsBefore(file, p.blockSize, s.pushed);
  }

  lemma ReadFailedIsFull(p: Params, s: State)
    requires ValidParams(p) && Reachable(p, s) && s.main == Returned(ReadFailed)
    ensures s.pushed <= |p.blocks| && (s.pushed > 0 ==> |p.blocks[s.pushed - 1]| == p.blockSize)
  {
    ContentInit(p);
    ControlInit(p);
    assert Init(p).main.Reading?;
    hide Content, Control, ValidParams, Runs, Exec, Init;
    var acts :| Runs(p, Init(p), acts) && Exec(p, Init(p), acts) == s;
    ReadFailureRun(p, Init(p), acts);
  }

  lemma {:induction false} MainStays(p: Params, s: State, acts: seq<Action>)
    requires s.main.Returned? && Runs(p, s, acts)
    ensures Exec(p, s, acts).main == s.main
    decreases |acts|
  {
    if acts != [] {
      ReturnedStays(p, s, acts[0]);
      hide Enabled, Apply;
      MainStays(p, Apply(p, s, acts[0]), acts[1..]);
    }
  }

  lemma ReturnedStays(p: Params, s: State, a: Action)
    requires s.main.Returned? && Enabled(p, s, a)
    ensures Apply(p, s, a).main == s.main
  {
    hide SealedOf, IsOrder, Picked, RecordOf, RollbackOf, Latched, NextChunk, Init;
    match a {
      case ReadBlock | PushBlock | FinishReading | ReadFails => assert false;
      case CloseUploads | JoinUploads | CheckErrors | PublishManifest(_, _) => assert false;
      case _ =>
    }
  }
}
