/** The whole system as steps: any number of uploads, the storage nodes, the bootstrap servers of
    module Gossip, rollbacks, user deletions and all three collectors, in any interleaving. */
module System {
  import opened Types
  import Gossip
  import opened StorageNode

  /** `home` is the server that confirmed the manifest. */
  datatype Phase = Uploading | Published(at: nat, home: nat) | Failed

  datatype File = File(release: Option<int>, phase: Phase)

  /** A chunk handed to an upload worker. */
  datatype Issue = Issue(fileId: FileId, createdAt: int, shard: Bytes, release: Option<int>, nodes: seq<Addr>)

  /** `deletions` are the DeleteChunk requests ever sent: each may arrive at any time, or never.
      `doomed` are the places a chunk collector has listed and not yet deleted. The last three fields
      are history: acknowledged copies, files deleted by a user, and published files for
      which an orphan check was not answered with a manifest. */
  datatype State = State(
    net: Gossip.State,
    files: map<FileId, File>,
    issued: map<ChunkId, Issue>,
    store: map<Place, ChunkRecord>,
    deletions: set<Place>,
    doomed: set<Place>,
    acked: set<Place>,
    erased: set<FileId>,
    unconfirmed: set<FileId>)

  datatype Action =
    | Begin(f: FileId, release: Option<int>)
    | IssueChunk(id: ChunkId, issue: Issue)
    | Save(place: Place, acknowledged: bool)
    | Abort(f: FileId, rollback: bool)
    | Publish(manifest: FileManifest, i: nat, confirmed: bool)
    | Erase(f: FileId, i: nat)
    | EraseManifest(f: FileId, i: nat)
    | Arrive(place: Place)
    | Judge(place: Place, asked: Option<nat>)
    | Reap(place: Place)
    | Network(step: Gossip.Action)

  function Init(servers: nat): State {
    State(Gossip.Init(servers), map[], map[], map[], {}, {}, {}, {}, {})
  }

  /** What a node stores for an issued chunk. */
  function RecordFor(id: ChunkId, issue: Issue): ChunkRecord {
    ChunkRecord(id, issue.fileId, issue.createdAt, issue.shard, issue.release)
  }

  ghost predicate Belongs(s: State, place: Place, f: FileId) {
    place.1 in s.issued && s.issued[place.1].fileId == f && place.0 in s.issued[place.1].nodes
  }

  /** The manifest of an upload lists issued chunks of that file only. */
  ghost predicate ListsOwn(s: State, m: FileManifest) {
    forall place :: place in Places(m) ==> Belongs(s, place, m.fileId)
  }

  predicate IsUploading(s: State, f: FileId) {
    f in s.files && s.files[f].phase.Uploading?
  }

  ghost predicate Enabled(s: State, a: Action) {
    match a
    case Begin(f, _) => f !in s.files
    case IssueChunk(id, issue) =>
      // workers of an upload that failed to read may still be running
      id !in s.issued && issue.fileId in s.files && !s.files[issue.fileId].phase.Published?
      && issue.release == s.files[issue.fileId].release
    case Save(place, _) => place.1 in s.issued && place.0 in s.issued[place.1].nodes
    case Abort(f, _) => IsUploading(s, f)
    case Publish(m, i, _) =>
      i < |s.net.servers| && IsUploading(s, m.fileId) && m.release == s.files[m.fileId].release && ListsOwn(s, m)
      && m.fileId !in s.net.inserted
    case Erase(f, i) => i < |s.net.servers|
    case EraseManifest(f, i) => i < |s.net.servers| && f in s.erased
    case Arrive(place) => place in s.deletions
    case Judge(place, asked) => place in s.store && (asked.Some? ==> asked.value < |s.net.servers|)
    case Reap(place) => place in s.doomed
    case Network(step) => !step.Insert? && !step.Delete? && Gossip.Enabled(s.net, step)
  }

  /** The acknowledged copies of a file: what a rollback deletes. */
  ghost function AckedOf(s: State, f: FileId): set<Place> {
    set place | place in s.acked && Belongs(s, place, f)
  }

  /** The places for which DeleteFile sends requests, given the answer of server `i`. */
  ghost function ErasedPlaces(s: State, f: FileId, i: nat): set<Place>
    requires i < |s.net.servers|
  {
    if f in s.net.servers[i].manifests && s.net.servers[i].manifests[f].ManifestBlob?
    then Places(s.net.servers[i].manifests[f].manifest) else {}
  }

  /** The answer to an orphan check; None is a server that could not be reached. */
  predicate Confirmed(s: State, f: FileId, asked: Option<nat>)
    requires asked.Some? ==> asked.value < |s.net.servers|
  {
    asked.Some? && f in s.net.servers[asked.value].manifests
  }

  predicate IsPublished(s: State, f: FileId) {
    f in s.files && s.files[f].phase.Published?
  }

  ghost function Apply(s: State, a: Action): State
    requires Enabled(s, a)
  {
    match a
    case Begin(f, release) => s.(files := s.files[f := File(release, Uploading)])
    case IssueChunk(id, issue) => s.(issued := s.issued[id := issue])
    case Save(place, acknowledged) =>
      s.(store := s.store[place := RecordFor(place.1, s.issued[place.1])],
         acked := if acknowledged then s.acked + {place} else s.acked)
    case Abort(f, rollback) =>
      s.(files := s.files[f := s.files[f].(phase := Failed)],
         deletions := if rollback then s.deletions + AckedOf(s, f) else s.deletions)
    case Publish(m, i, confirmed) =>
      s.(net := Gossip.Apply(s.net, Gossip.Insert(i, m)),
         files := s.files[m.fileId := s.files[m.fileId].(phase := if confirmed then Published(s.net.now, i) else Failed)],
         deletions := if confirmed then s.deletions else s.deletions + AckedOf(s, m.fileId))
    case Erase(f, i) =>
      s.(erased := s.erased + {f}, deletions := s.deletions + ErasedPlaces(s, f, i))
    case EraseManifest(f, i) =>
      s.(net := Gossip.Apply(s.net, Gossip.Delete(i, f)))
    case Arrive(place) => s.(store := s.store - {place})
    case Judge(place, asked) =>
      var r := s.store[place];
      var condemned := Condemned(r, s.net.now, Confirmed(s, r.fileId, asked));
      s.(doomed := if condemned then s.doomed + {(place.0, r.chunkId)} else s.doomed,
         unconfirmed := if condemned && !Expired(r.release, s.net.now) && IsPublished(s, r.fileId)
                        then s.unconfirmed + {r.fileId} else s.unconfirmed)
    case Reap(place) => s.(store := s.store - {place}, doomed := s.doomed - {place})
    case Network(step) => s.(net := Gossip.Apply(s.net, step))
  }

  ghost predicate Runs(s: State, acts: seq<Action>)
    decreases |acts|
  {
    acts == [] || (Enabled(s, acts[0]) && Runs(Apply(s, acts[0]), acts[1..]))
  }

  ghost function Exec(s: State, acts: seq<Action>): State
    requires Runs(s, acts)
    decreases |acts|
  {
    if acts == [] then s else Exec(Apply(s, acts[0]), acts[1..])
  }
}
