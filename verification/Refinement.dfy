/** One upload inside the whole system: every step of its pipeline is a step of module System, so
    what is proved of the system over all runs holds of the files that the pipeline uploads. */
module Refinement {
  import opened Types
  import opened Placement
  import Gossip
  import System
  import opened Durability
  import P = Pipeline
  import opened PipelineControl
  import C = PipelineContent
  import opened Upload

  /** A pipeline step, with the bootstrap server that its manifest is sent to, or a step of anyone else. */
  datatype Event = Own(step: P.Action, server: nat) | Other(action: System.Action)

  datatype Joint = Joint(pipe: P.State, sys: System.State)

  function IssueOf(p: P.Params, job: P.Job): System.Issue {
    System.Issue(p.fileId, job.createdAt, job.shard, p.release, job.chunk.nodes)
  }

  /** The job that a slicing step hands to the upload workers. */
  ghost function JobOf(s: P.State, a: P.Action): P.Job
    requires a.SliceChunk? && a.w < |s.crypto| && s.crypto[a.w].Slicing?
    requires var w := s.crypto[a.w];
      |w.chunks| < |w.order| && w.order[|w.chunks|] in w.sealed.parts && |w.chunks| < |w.sealed.shards|
  {
    var worker := s.crypto[a.w];
    P.Job(worker.block, P.NextChunk(worker, a.id, a.targets), worker.sealed.shards[|worker.chunks|], worker.createdAt)
  }

  /** What the rest of the system sees of a pipeline step. */
  ghost function Visible(p: P.Params, s: P.State, a: P.Action, server: nat): Option<System.Action>
    requires P.Enabled(p, s, a)
  {
    match a
    case SliceChunk(w, id, targets) =>
      Some(System.IssueChunk(id, IssueOf(p, JobOf(s, a))))
    case TrySave(u, stored, acked, _) =>
      var job := s.uploads[u].job;
      if stored then Some(System.Save((job.chunk.nodes[s.uploads[u].tried], job.chunk.id), acked)) else None
    case CheckErrors => if s.latch.Some? then Some(System.Abort(p.fileId, true)) else None
    case PublishManifest(stored, confirmed) =>
      Some(if stored then System.Publish(ManifestOf(p, s), server, confirmed) else System.Abort(p.fileId, true))
    case ReadFails => Some(System.Abort(p.fileId, false))
    case _ => None
  }

  /** Steps that are not part of the upload of `f`. */
  predicate Foreign(y: System.State, a: System.Action, f: FileId) {
    match a
    case IssueChunk(_, issue) => issue.fileId != f
    case Save(place, _) => place.1 in y.issued && y.issued[place.1].fileId != f
    case Abort(g, _) => g != f
    case Publish(m, _, _) => m.fileId != f
    case _ => true
  }

  /** New chunk ids are universally unique, and a block is stamped with the clock of the system. */
  ghost predicate Enabled(p: P.Params, j: Joint, e: Event) {
    match e
    case Own(a, server) =>
      && P.Enabled(p, j.pipe, a) && server < |j.sys.net.servers|
      && (a.SliceChunk? ==> a.id !in j.sys.issued)
      && (a.StartBlock? ==> a.createdAt == Unix(j.sys.net.now))
    case Other(a) => System.Enabled(j.sys, a) && Foreign(j.sys, a, p.fileId)
  }

  ghost predicate PhaseMatches(m: P.Main, phase: System.Phase) {
    match m
    case Returned(Success) => phase.Published?
    case Returned(_) => phase.Failed?
    case _ => phase.Uploading?
  }

  /** The phase of the file, and the manifest if it was published. */
  ghost predicate FileAgrees(p: P.Params, s: P.State, y: System.State) {
    && p.fileId in y.files && y.files[p.fileId].release == p.release && PhaseMatches(s.main, y.files[p.fileId].phase)
    && (s.main == P.Returned(P.Success) ==> p.fileId in y.net.inserted && y.net.inserted[p.fileId] == ManifestOf(p, s))
  }

  ghost predicate ChunksAgree(p: P.Params, s: P.State, y: System.State) {
    && (forall id :: id in s.issued ==> id in y.issued && y.issued[id] == IssueOf(p, s.issued[id]))
    && (forall id :: id in y.issued && y.issued[id].fileId == p.fileId ==> id in s.issued)
  }

  /** The acknowledged copies of the file's chunks are those that the upload workers noted. */
  ghost predicate AcksAgree(s: P.State, y: System.State) {
    && (forall id :: id in s.successful ==> (s.successful[id], id) in y.acked)
    && (forall place :: place in y.acked && place.1 in s.issued ==>
          place.1 in s.successful && s.successful[place.1] == place.0)
  }

  /** The system state agrees with what the pipeline has done so far. */
  ghost predicate Agrees(p: P.Params, s: P.State, y: System.State) {
    && FileAgrees(p, s, y) && ChunksAgree(p, s, y) && AcksAgree(s, y)
    && (forall place :: place in y.store && place.1 in s.issued ==> place in s.store)
    && s.deletions <= y.deletions
  }

  ghost predicate JointInv(p: P.Params, j: Joint) {
    Inv(j.sys) && Control(p, j.pipe) && C.Content(p, j.pipe) && Agrees(p, j.pipe, j.sys)
  }

  // ---- Foreign steps ----

  lemma ForeignFile(p: P.Params, s: P.State, y: System.State, a: System.Action)
    requires Inv(y) && Agrees(p, s, y) && System.Enabled(y, a) && Foreign(y, a, p.fileId)
    ensures FileAgrees(p, s, System.Apply(y, a))
  {
    NetKept(y, a);
    HistoryStep(y, a, p.fileId);
    assert FileAgrees(p, s, y);
    hide Inv, Agrees, Gossip.Agreement, Gossip.Apply, Gossip.Enabled, Types.Expired, System.ListsOwn, System.AckedOf,
      System.ErasedPlaces, StorageNode.Condemned, System.Confirmed, ManifestOf;
  }

  lemma ForeignChunks(p: P.Params, s: P.State, y: System.State, a: System.Action)
    requires Agrees(p, s, y) && System.Enabled(y, a) && Foreign(y, a, p.fileId)
    ensures ChunksAgree(p, s, System.Apply(y, a))
  {
    assert ChunksAgree(p, s, y);
    hide Agrees, IssueOf, Gossip.Apply, Gossip.Enabled, Types.Expired, System.ListsOwn, System.AckedOf,
      System.ErasedPlaces, StorageNode.Condemned, System.Confirmed;
  }

  lemma ForeignCopies(p: P.Params, s: P.State, y: System.State, a: System.Action)
    requires Agrees(p, s, y) && System.Enabled(y, a) && Foreign(y, a, p.fileId)
    ensures AcksAgree(s, System.Apply(y, a))
    ensures forall place :: place in System.Apply(y, a).store && place.1 in s.issued ==> place in s.store
    ensures s.deletions <= System.Apply(y, a).deletions
  {
    assert a.Save? ==> a.place.1 !in s.issued;
    hide FileAgrees, ChunksAgree, IssueOf, Gossip.Apply, Gossip.Enabled, Types.Expired, System.ListsOwn, System.AckedOf,
      System.ErasedPlaces, StorageNode.Condemned, System.Confirmed;
  }

  lemma ForeignStep(p: P.Params, s: P.State, y: System.State, a: System.Action)
    requires Inv(y) && Agrees(p, s, y) && System.Enabled(y, a) && Foreign(y, a, p.fileId)
    ensures Agrees(p, s, System.Apply(y, a))
  {
    ForeignFile(p, s, y, a);
    ForeignChunks(p, s, y, a);
    ForeignCopies(p, s, y, a);
    hide Inv, System.Apply, System.Enabled, FileAgrees, ChunksAgree, AcksAgree;
  }

  // ---- Steps of the pipeline ----

  /** An upload that has returned has nothing left to do, unless reading failed. */
  lemma ReturnIsFinal(p: P.Params, s: P.State, a: P.Action)
    requires Control(p, s) && P.Enabled(p, s, a)
    ensures s.main.Returned? ==> s.main.outcome == P.ReadFailed
  {
    hide P.IsOrder, P.SealedOf, Picked;
  }

  /** The manifest that the pipeline sends lists its own chunks. */
  lemma ManifestListsOwn(p: P.Params, s: P.State, y: System.State)
    requires C.Content(p, s) && ChunksAgree(p, s, y)
    ensures System.ListsOwn(y, ManifestOf(p, s))
  {
    var m := ManifestOf(p, s);
    forall place | place in Places(m)
      ensures System.Belongs(y, place, p.fileId)
    {
      var b, i, k :| b in m.split && 0 <= i < |m.split[b].chunks| && 0 <= k < |m.split[b].chunks[i].nodes|
        && place == (m.split[b].chunks[i].nodes[k], m.split[b].chunks[i].id);
      assert Listed(s, s.split[b].chunks[i]);
      ListedIsIssued(p, s, s.split[b].chunks[i]);
    }
  }

  /** A rollback deletes exactly the acknowledged copies of the file. */
  lemma RollbackMatches(p: P.Params, s: P.State, y: System.State)
    requires C.Content(p, s) && ChunksAgree(p, s, y) && AcksAgree(s, y)
    ensures P.RollbackOf(s.successful) == System.AckedOf(y, p.fileId)
  {
    hide C.BlocksKept, C.AllIssuedOk, C.JobsKept, C.OnceInFlight, C.LostKept;
    forall place
      ensures place in P.RollbackOf(s.successful) <==> place in System.AckedOf(y, p.fileId)
    {
      if place in P.RollbackOf(s.successful) {
        assert C.CopyOk(p, s, place);
      }
    }
  }

  /** Nothing that the rest of the system could see has changed. */
  ghost predicate Unseen(s: P.State, s': P.State) {
    && s'.issued == s.issued && s'.successful == s.successful && s'.store == s.store && s'.deletions <= s.deletions
    && (s'.main == s.main || (!s.main.Returned? && !s'.main.Returned?))
  }

  lemma ReadingUnseen(p: P.Params, s: P.State, a: P.Action)
    requires P.Enabled(p, s, a) && (a.ReadBlock? || a.PushBlock? || a.FinishReading?)
    ensures Unseen(s, P.Apply(p, s, a))
  {
    hide P.IsOrder, P.SealedOf, Picked, P.RollbackOf, P.RecordOf;
  }

  lemma ClosingUnseen(p: P.Params, s: P.State, a: P.Action)
    requires P.Enabled(p, s, a) && (a.CheckErrors? ==> s.latch.None?)
    requires a.CloseUploads? || a.JoinUploads? || a.CheckErrors?
    ensures Unseen(s, P.Apply(p, s, a))
  {
    hide P.IsOrder, P.SealedOf, Picked, P.RollbackOf, P.RecordOf;
  }

  lemma CryptoUnseen(p: P.Params, s: P.State, a: P.Action)
    requires P.Enabled(p, s, a) && (a.Boot? || a.CryptoFails? || a.StartBlock? || a.RecordBlock? || a.CryptoExit?)
    ensures Unseen(s, P.Apply(p, s, a))
  {
    hide P.IsOrder, P.SealedOf, Picked, P.RollbackOf, P.RecordOf;
  }

  lemma UploadUnseen(p: P.Params, s: P.State, a: P.Action)
    requires P.Enabled(p, s, a) && (a.TakeJob? || a.SkipJob? || (a.TrySave? && !a.stored) || a.GiveUp? || a.UploadExit?)
    ensures Unseen(s, P.Apply(p, s, a))
  {
    hide P.IsOrder, P.SealedOf, Picked, P.RollbackOf, P.RecordOf;
  }

  lemma SilentEffect(p: P.Params, s: P.State, a: P.Action, server: nat)
    requires P.Enabled(p, s, a) && Visible(p, s, a, server).None?
    ensures Unseen(s, P.Apply(p, s, a))
  {
    hide P.Apply, P.Enabled, Unseen;
    match a {
      case ReadBlock | PushBlock | FinishReading => ReadingUnseen(p, s, a);
      case CloseUploads | JoinUploads | CheckErrors => ClosingUnseen(p, s, a);
      case Boot(_) | CryptoFails(_) | StartBlock(_, _, _, _) | RecordBlock(_) | CryptoExit(_) => CryptoUnseen(p, s, a);
      case TakeJob(_) | SkipJob(_) | TrySave(_, _, _, _) | GiveUp(_) | UploadExit(_) => UploadUnseen(p, s, a);
      case _ =>
    }
  }

  lemma SilentStep(p: P.Params, s: P.State, y: System.State, a: P.Action, server: nat)
    requires Control(p, s) && Agrees(p, s, y) && P.Enabled(p, s, a) && Visible(p, s, a, server).None?
    ensures Agrees(p, P.Apply(p, s, a), y)
  {
    ReturnIsFinal(p, s, a);
    SilentEffect(p, s, a, server);
    hide P.Apply, P.Enabled, Control, ManifestOf, IssueOf, Visible;
  }

  /** A step that leaves the main goroutine where it is, before or after a failure. */
  lemma SameFile(p: P.Params, s: P.State, s': P.State, y: System.State, y': System.State)
    requires FileAgrees(p, s, y) && s'.main == s.main && s.main != P.Returned(P.Success) && y'.files == y.files
    ensures FileAgrees(p, s', y')
  {
  }

  lemma SliceEffect(p: P.Params, s: P.State, a: P.Action)
    requires Control(p, s) && P.Enabled(p, s, a) && a.SliceChunk?
    ensures var s' := P.Apply(p, s, a);
      && s'.issued == s.issued[a.id := JobOf(s, a)] && s'.successful == s.successful && s'.store == s.store
      && s'.deletions == s.deletions && s'.main == s.main
  {
    assert CryptoControl(p, s, a.w, s.crypto[a.w]);
    hide P.SealedOf, Picked;
  }

  lemma IssueAgrees(p: P.Params, s: P.State, s': P.State, y: System.State, id: ChunkId, job: P.Job)
    requires Inv(y) && Agrees(p, s, y) && id !in y.issued && s.main != P.Returned(P.Success)
    requires s'.issued == s.issued[id := job] && s'.successful == s.successful && s'.store == s.store
    requires s'.deletions == s.deletions && s'.main == s.main
    ensures System.Enabled(y, System.IssueChunk(id, IssueOf(p, job)))
    ensures Agrees(p, s', System.Apply(y, System.IssueChunk(id, IssueOf(p, job))))
  {
    NewIdIsUnused(y, id);
    hide Inv, ManifestOf, Gossip.Apply, Gossip.Enabled, System.ListsOwn, System.AckedOf, System.ErasedPlaces,
      StorageNode.Condemned, System.Confirmed, Types.Expired;
    SameFile(p, s, s', y, y.(issued := y.issued[id := IssueOf(p, job)]));
  }

  lemma SliceStep(p: P.Params, s: P.State, y: System.State, a: P.Action, server: nat)
    requires Inv(y) && Control(p, s) && Agrees(p, s, y) && P.Enabled(p, s, a) && a.SliceChunk? && a.id !in y.issued
    ensures System.Enabled(y, Visible(p, s, a, server).value)
    ensures Agrees(p, P.Apply(p, s, a), System.Apply(y, Visible(p, s, a, server).value))
  {
    ReturnIsFinal(p, s, a);
    SliceEffect(p, s, a);
    assert P.Enabled(p, s, a) && Visible(p, s, a, server) == Some(System.IssueChunk(a.id, IssueOf(p, JobOf(s, a))));
    hide Inv, Control, P.Enabled, P.Apply, Agrees, IssueOf, JobOf, Visible;
    IssueAgrees(p, s, P.Apply(p, s, a), y, a.id, JobOf(s, a));
  }

  /** An id that was never issued is neither acknowledged nor stored. */
  lemma NewIdIsUnused(y: System.State, id: ChunkId)
    requires Inv(y) && id !in y.issued
    ensures forall place :: place in y.acked || place in y.store ==> place.1 != id
  {
    hide Gossip.Agreement, FirmKept, IssueOk, ManifestOk;
    forall place | place in y.store
      ensures place.1 != id
    {
      assert CopyOk(y, place);
    }
  }

  /** The job at an upload worker is issued, sent to nodes of its own list, and not yet acknowledged. */
  lemma SendingIsOpen(p: P.Params, s: P.State, u: nat)
    requires C.Content(p, s) && u < |s.uploads| && s.uploads[u].Sending?
    ensures var job := s.uploads[u].job;
      job.chunk.id in s.issued && s.issued[job.chunk.id] == job && job.chunk.id !in s.successful
  {
    hide C.BlocksKept, C.AllIssuedOk, C.StoreKept, C.LostKept, C.Once;
    assert C.JobOk(s, s.uploads[u].job);
    assert !C.Settled(s, s.uploads[u].job.chunk.id);
  }

  lemma SaveEffect(p: P.Params, s: P.State, a: P.Action, job: P.Job, place: Place)
    requires P.Enabled(p, s, a) && a.TrySave? && a.stored && job == s.uploads[a.u].job
    requires place == (job.chunk.nodes[s.uploads[a.u].tried], job.chunk.id)
    ensures var s' := P.Apply(p, s, a);
      && s'.issued == s.issued && s'.store.Keys == s.store.Keys + {place} && s'.deletions == s.deletions && s'.main == s.main
      && s'.successful == if a.acked then s.successful[place.1 := place.0] else s.successful
  {
    hide P.IsOrder, P.SealedOf, Picked, P.RollbackOf, P.RecordOf;
  }

  lemma CopyAgrees(p: P.Params, s: P.State, s': P.State, y: System.State, place: Place, acked: bool)
    requires Agrees(p, s, y) && s.main != P.Returned(P.Success)
    requires place.1 in s.issued && place.1 !in s.successful && place.0 in s.issued[place.1].chunk.nodes
    requires s'.issued == s.issued && s'.store.Keys == s.store.Keys + {place} && s'.deletions == s.deletions && s'.main == s.main
    requires s'.successful == if acked then s.successful[place.1 := place.0] else s.successful
    ensures System.Enabled(y, System.Save(place, acked))
    ensures Agrees(p, s', System.Apply(y, System.Save(place, acked)))
  {
    hide ManifestOf, Gossip.Apply, Gossip.Enabled, System.ListsOwn, System.AckedOf, System.ErasedPlaces,
      StorageNode.Condemned, System.Confirmed, Types.Expired;
    var y' := System.Apply(y, System.Save(place, acked));
    SameFile(p, s, s', y, y');
  }

  lemma SaveStep(p: P.Params, s: P.State, y: System.State, a: P.Action, server: nat)
    requires Control(p, s) && C.Content(p, s) && Agrees(p, s, y) && P.Enabled(p, s, a) && a.TrySave? && a.stored
    ensures System.Enabled(y, Visible(p, s, a, server).value)
    ensures Agrees(p, P.Apply(p, s, a), System.Apply(y, Visible(p, s, a, server).value))
  {
    ReturnIsFinal(p, s, a);
    SendingIsOpen(p, s, a.u);
    var job := s.uploads[a.u].job;
    var place := (job.chunk.nodes[s.uploads[a.u].tried], job.chunk.id);
    SaveEffect(p, s, a, job, place);
    assert P.Enabled(p, s, a) && Visible(p, s, a, server) == Some(System.Save(place, a.acked));
    hide Control, C.Content, P.Enabled, P.Apply, Agrees, Visible;
    CopyAgrees(p, s, P.Apply(p, s, a), y, place, a.acked);
  }

  lemma SameRest(p: P.Params, s: P.State, s': P.State, y: System.State, y': System.State)
    requires Agrees(p, s, y) && FileAgrees(p, s', y') && s'.deletions <= y'.deletions
    requires s'.issued == s.issued && s'.successful == s.successful && s'.store == s.store
    requires y'.issued == y.issued && y'.acked == y.acked && y'.store == y.store
    ensures Agrees(p, s', y')
  {
    hide FileAgrees, IssueOf;
  }

  /** The main goroutine gives up; only the phase and the deletions change. */
  lemma FailureAgrees(p: P.Params, s: P.State, s': P.State, y: System.State, rollback: bool)
    requires C.Content(p, s) && Agrees(p, s, y) && !s.main.Returned?
    requires s'.issued == s.issued && s'.successful == s.successful && s'.store == s.store
    requires s'.main.Returned? && s'.main.outcome != P.Success
    requires s'.deletions == if rollback then P.RollbackOf(s.successful) else {}
    ensures System.Enabled(y, System.Abort(p.fileId, rollback))
    ensures Agrees(p, s', System.Apply(y, System.Abort(p.fileId, rollback)))
  {
    RollbackMatches(p, s, y);
    hide C.Content, ManifestOf, ChunksAgree, AcksAgree, Gossip.Apply, Gossip.Enabled, System.ListsOwn, System.AckedOf,
      System.ErasedPlaces, StorageNode.Condemned, System.Confirmed, Types.Expired, P.RollbackOf;
    var y' := System.Apply(y, System.Abort(p.fileId, rollback));
    assert FileAgrees(p, s', y') && s'.deletions <= y'.deletions;
    hide Agrees, FileAgrees;
    SameRest(p, s, s', y, y');
  }

  lemma FailureEffect(p: P.Params, s: P.State, a: P.Action)
    requires Control(p, s) && P.Enabled(p, s, a)
    requires a.ReadFails? || (a.CheckErrors? && s.latch.Some?) || a.PublishManifest?
    ensures var s' := P.Apply(p, s, a);
      && s'.issued == s.issued && s'.successful == s.successful && s'.store == s.store && s'.split == s.split
      && !s.main.Returned? && s'.main.Returned?
      && (s'.main == P.Returned(P.Success) <==> a.PublishManifest? && a.confirmed)
      && s'.deletions == if a.ReadFails? || (a.PublishManifest? && a.confirmed) then {} else P.RollbackOf(s.successful)
  {
    hide P.IsOrder, P.SealedOf, Picked, P.RollbackOf, P.RecordOf, Queue, CryptoControl, UploadControl, Latch;
  }

  lemma FailureStep(p: P.Params, s: P.State, y: System.State, a: P.Action, server: nat)
    requires Control(p, s) && C.Content(p, s) && Agrees(p, s, y) && P.Enabled(p, s, a)
    requires a.ReadFails? || (a.CheckErrors? && s.latch.Some?) || (a.PublishManifest? && !a.stored)
    ensures System.Enabled(y, Visible(p, s, a, server).value)
    ensures Agrees(p, P.Apply(p, s, a), System.Apply(y, Visible(p, s, a, server).value))
  {
    FailureEffect(p, s, a);
    assert P.Enabled(p, s, a) && (a.PublishManifest? ==> !a.confirmed);
    assert Visible(p, s, a, server) == Some(System.Abort(p.fileId, !a.ReadFails?));
    hide Control, C.Content, P.Enabled, P.Apply, Agrees, Visible;
    FailureAgrees(p, s, P.Apply(p, s, a), y, !a.ReadFails?);
  }

  lemma PublishAgrees(p: P.Params, s: P.State, s': P.State, y: System.State, server: nat, confirmed: bool)
    requires Inv(y) && C.Content(p, s) && Agrees(p, s, y) && !s.main.Returned? && server < |y.net.servers|
    requires s'.issued == s.issued && s'.successful == s.successful && s'.store == s.store && s'.split == s.split
    requires s'.main.Returned? && (s'.main == P.Returned(P.Success) <==> confirmed)
    requires s'.deletions == if confirmed then {} else P.RollbackOf(s.successful)
    ensures System.Enabled(y, System.Publish(ManifestOf(p, s), server, confirmed))
    ensures Agrees(p, s', System.Apply(y, System.Publish(ManifestOf(p, s), server, confirmed)))
  {
    RollbackMatches(p, s, y);
    ManifestListsOwn(p, s, y);
    assert p.fileId in y.net.inserted ==> ManifestOk(y, p.fileId);
    hide C.Content, Inv, ChunksAgree, AcksAgree, Gossip.Enabled, System.ListsOwn, System.AckedOf, System.ErasedPlaces,
      StorageNode.Condemned, System.Confirmed, Types.Expired, P.RollbackOf;
    var y' := System.Apply(y, System.Publish(ManifestOf(p, s), server, confirmed));
    assert FileAgrees(p, s', y') && s'.deletions <= y'.deletions;
    hide Agrees, FileAgrees;
    SameRest(p, s, s', y, y');
  }

  lemma PublishStep(p: P.Params, s: P.State, y: System.State, a: P.Action, server: nat)
    requires Inv(y) && Control(p, s) && C.Content(p, s) && Agrees(p, s, y) && P.Enabled(p, s, a)
    requires a.PublishManifest? && a.stored && server < |y.net.servers|
    ensures System.Enabled(y, Visible(p, s, a, server).value)
    ensures Agrees(p, P.Apply(p, s, a), System.Apply(y, Visible(p, s, a, server).value))
  {
    FailureEffect(p, s, a);
    hide Inv, Control, C.Content, P.Enabled, P.Apply, Agrees, ManifestOf;
    PublishAgrees(p, s, P.Apply(p, s, a), y, server, a.confirmed);
  }
}
