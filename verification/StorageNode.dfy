/** A storage node: the chunk handlers of internal/grpc/server/node_server.go, the chunk collector of
    internal/service/clean_database.go:15-63, and the upload statuses and deletion requests of
    internal/api/node_api.go. Signatures are taken as valid. */
module StorageNode {
  import opened Types
  import opened Placement
  import opened Store
  import opened Sync
  import opened Bootstrap
  import Pipeline

  const CHUNKS := "chunks"
  const UPLOAD_STATUS := "upload_status"

  lemma NodeNamespaces()
    ensures ColonFree(CHUNKS) && ColonFree(UPLOAD_STATUS) && CHUNKS != UPLOAD_STATUS
  {
    assert |CHUNKS| != |UPLOAD_STATUS|;
  }

  /** The collector's rule: expired, or older than two hours and not confirmed by the bootstrap server
      that was asked. */
  predicate Condemned(r: ChunkRecord, now: nat, confirmed: bool) {
    Expired(r.release, now) || (r.createdAt > 0 && Unix(now) - r.createdAt > ORPHAN_AGE && !confirmed)
  }

  /** The ids that a pass deletes; `confirmed` are the entries whose orphan check, if it was made, was
      answered with a manifest. */
  function Doomed(chunks: Table, now: nat, confirmed: set<string>): set<string> {
    set k | k in chunks && chunks[k].ChunkBlob? && Condemned(chunks[k].chunk, now, k in confirmed) :: chunks[k].chunk.chunkId
  }

  /** Chunks are stored under their own id. */
  ghost predicate TaggedChunks(chunks: Table) {
    forall k :: k in chunks && chunks[k].ChunkBlob? ==> chunks[k].chunk.chunkId == k
  }

  /** On tagged chunks an atomic pass removes exactly the condemned entries. */
  lemma NodePassIsExact(chunks: Table, now: nat, confirmed: set<string>)
    requires TaggedChunks(chunks)
    ensures chunks - Doomed(chunks, now, confirmed)
         == map k | k in chunks && !(chunks[k].ChunkBlob? && Condemned(chunks[k].chunk, now, k in confirmed)) :: chunks[k]
  {
  }

  /** Given that, a chunk whose file is confirmed, that is young, or that carries no creation time, goes
      exactly when its release date is seven days past. */
  lemma ConfirmedChunkGoesIff(chunks: Table, now: nat, confirmed: set<string>, k: string)
    requires TaggedChunks(chunks) && k in chunks && chunks[k].ChunkBlob?
    requires k in confirmed || now / 1_000_000_000 - chunks[k].chunk.createdAt <= 7200 || chunks[k].chunk.createdAt <= 0
    ensures k !in chunks - Doomed(chunks, now, confirmed) <==>
      chunks[k].chunk.release.Some? && now > (chunks[k].chunk.release.value + 7 * 24 * 3600) * 1_000_000_000
  {
    NodePassIsExact(chunks, now, confirmed);
  }

  /** An unconfirmed chunk with a creation time and a release date not seven days past goes exactly when it
      is more than 7200 seconds old. */
  lemma OrphanGoesIff(chunks: Table, now: nat, confirmed: set<string>, k: string)
    requires TaggedChunks(chunks) && k in chunks && chunks[k].ChunkBlob?
    requires k !in confirmed && chunks[k].chunk.createdAt > 0
    requires chunks[k].chunk.release.Some? ==> now <= (chunks[k].chunk.release.value + 7 * 24 * 3600) * 1_000_000_000
    ensures k !in chunks - Doomed(chunks, now, confirmed) <==> now / 1_000_000_000 - chunks[k].chunk.createdAt > 7200
  {
    NodePassIsExact(chunks, now, confirmed);
  }

  class Node {
    const db: Db

    ghost predicate Valid()
      reads db
    {
      db.Valid()
    }

    ghost function Chunks(): Table
      requires Valid()
      reads db
    {
      db.Of(CHUNKS)
    }

    ghost function Statuses(): Table
      requires Valid()
      reads db
    {
      db.Of(UPLOAD_STATUS)
    }

    constructor ()
      ensures Valid() && Chunks() == map[] && Statuses() == map[] && fresh(db)
    {
      db := new Db();
    }

    /** Answers only after the write. */
    method SaveChunk(request: ChunkRecord) returns (success: bool)
      requires Valid()
      modifies db
      ensures Valid() && success
      ensures Chunks() == old(Chunks())[request.chunkId := ChunkBlob(request)] && Statuses() == old(Statuses())
      ensures old(TaggedChunks(Chunks())) ==> TaggedChunks(Chunks())
    {
      NodeNamespaces();
      hide Sorted, IsSpace, IsFlat, Space, Flatten, ColonFree;
      db.PutData(CHUNKS, request.chunkId, ChunkBlob(request));
      success := true;
    }

    method GetChunk(chunkId: ChunkId) returns (data: Option<Blob>)
      requires Valid()
      ensures data == if chunkId in Chunks() then Some(Chunks()[chunkId]) else None
    {
      data := db.GetData(CHUNKS, chunkId);
    }

    method DeleteChunk(chunkId: ChunkId) returns (success: bool)
      requires Valid()
      modifies db
      ensures Valid() && success
      ensures Chunks() == old(Chunks()) - {chunkId} && Statuses() == old(Statuses())
    {
      NodeNamespaces();
      hide Sorted, IsSpace, IsFlat, Space, Flatten, ColonFree;
      db.DeleteKey(CHUNKS, chunkId);
      success := true;
    }

    /** One pass of CleanNodeDatabase: the ids are collected first and deleted afterwards. */
    method CleanNodeDatabase(now: nat, confirmed: set<string>)
      requires Valid()
      modifies db
      ensures Valid()
      ensures Chunks() == old(Chunks()) - Doomed(old(Chunks()), now, confirmed) && Statuses() == old(Statuses())
    {
      NodeNamespaces();
      hide Sorted, IsSpace, IsFlat, Space, Flatten, ColonFree, Expired, Unix;
      var calls := db.IterateAndProcess(CHUNKS);
      ghost var before := Chunks();
      var keysToDelete: seq<string> := [];
      for i := 0 to |calls|
        invariant forall id :: id in keysToDelete <==> Collected(calls, i, now, confirmed, id)
      {
        if calls[i].1.ChunkBlob? {
          var chunk := calls[i].1.chunk;
          if Expired(chunk.release, now) {
            keysToDelete := keysToDelete + [chunk.chunkId];
          } else if chunk.createdAt > 0 && Unix(now) - chunk.createdAt > ORPHAN_AGE {
            if calls[i].0 !in confirmed {
              keysToDelete := keysToDelete + [chunk.chunkId];
            }
          }
        }
      }
      assert Elements(keysToDelete) == Doomed(before, now, confirmed) by {
        ScanFindsDoomed(before, calls, now, confirmed);
      }
      for i := 0 to |keysToDelete|
        invariant Valid() && Chunks() == before - Elements(keysToDelete[..i]) && Statuses() == old(Statuses())
      {
        PrefixStep(keysToDelete, i);
        db.DeleteKey(CHUNKS, keysToDelete[i]);
      }
      assert keysToDelete[..|keysToDelete|] == keysToDelete;
    }

    method SaveStatus(id: FileId, status: string)
      requires Valid()
      modifies db
      ensures Valid()
      ensures Statuses() == old(Statuses())[id := StatusBlob(status)] && Chunks() == old(Chunks())
    {
      NodeNamespaces();
      hide Sorted, IsSpace, IsFlat, Space, Flatten, ColonFree;
      db.PutData(UPLOAD_STATUS, id, StatusBlob(status));
    }

    /** PutFile, before it starts the background part and answers with the id. */
    method AcceptUpload(id: FileId)
      requires Valid()
      modifies db
      ensures Valid()
      ensures Statuses() == old(Statuses())[id := StatusBlob("processing")] && Chunks() == old(Chunks())
    {
      SaveStatus(id, "processing");
    }

    method CheckStatus(id: FileId) returns (data: Option<Blob>)
      requires Valid()
      ensures data == if id in Statuses() then Some(Statuses()[id]) else None
    {
      data := db.GetData(UPLOAD_STATUS, id);
    }

    /** The background part of PutFile, entered with status "processing". `outcome` is what
        StreamAndUploadFile returned; None stands for a recovered panic. */
    method UploadWorker(id: FileId, readable: bool, outcome: Option<Pipeline.Outcome>)
      requires Valid()
      modifies db
      ensures Valid() && Chunks() == old(Chunks())
      ensures Statuses() == old(Statuses())[id := StatusBlob(
        if readable && outcome == Some(Pipeline.Success) then "completed" else "error")]
    {
      if !readable {
        SaveStatus(id, "error");
        return;
      }
      if outcome.None? || outcome.value != Pipeline.Success {
        SaveStatus(id, "error");
        return;
      }
      SaveStatus(id, "completed");
    }
  }

  ghost predicate Collected(calls: seq<(string, Blob)>, upTo: nat, now: nat, confirmed: set<string>, id: string)
    requires upTo <= |calls|
  {
    exists j :: 0 <= j < upTo && calls[j].1.ChunkBlob? && calls[j].1.chunk.chunkId == id
      && Condemned(calls[j].1.chunk, now, calls[j].0 in confirmed)
  }

  lemma ScanFindsDoomed(table: Table, calls: seq<(string, Blob)>, now: nat, confirmed: set<string>)
    requires forall i :: 0 <= i < |calls| ==> calls[i].0 in table && table[calls[i].0] == calls[i].1
    requires forall k :: k in table ==> (k, table[k]) in calls
    ensures forall id :: id in Doomed(table, now, confirmed) <==> Collected(calls, |calls|, now, confirmed, id)
  {
    hide Condemned;
    forall id | id in Doomed(table, now, confirmed)
      ensures Collected(calls, |calls|, now, confirmed, id)
    {
      var k :| k in table && table[k].ChunkBlob? && Condemned(table[k].chunk, now, k in confirmed) && table[k].chunk.chunkId == id;
      var j :| 0 <= j < |calls| && calls[j] == (k, table[k]);
    }
  }

  /** The requests that DeleteFile sends out for a manifest: one for every listed place. */
  method DeletionRequests(manifest: FileManifest) returns (requests: seq<Place>)
    ensures Elements(requests) == Places(manifest)
  {
    requests := [];
    var todo := manifest.split.Keys;
    while todo != {}
      invariant todo <= manifest.split.Keys
      invariant forall place :: place in requests <==>
        exists b :: b in manifest.split && b !in todo && InChunks(manifest.split[b].chunks, |manifest.split[b].chunks|, place)
      decreases todo
    {
      var b :| b in todo;
      var chunks := manifest.split[b].chunks;
      ghost var before := requests;
      for i := 0 to |chunks|
        invariant forall place :: place in requests <==> place in before || InChunks(chunks, i, place)
      {
        ghost var inner := requests;
        for j := 0 to |chunks[i].nodes|
          invariant forall place :: place in requests <==> place in inner || InNodes(chunks[i], j, place)
        {
          requests := requests + [(chunks[i].nodes[j], chunks[i].id)];
        }
        assert forall place :: InChunks(chunks, i + 1, place) <==>
          InChunks(chunks, i, place) || InNodes(chunks[i], |chunks[i].nodes|, place);
      }
      todo := todo - {b};
    }
    RequestsArePlaces(manifest, requests);
  }

  ghost predicate InNodes(c: Chunk, upTo: nat, place: Place)
    requires upTo <= |c.nodes|
  {
    exists j :: 0 <= j < upTo && place == (c.nodes[j], c.id)
  }

  ghost predicate InChunks(chunks: seq<Chunk>, upTo: nat, place: Place)
    requires upTo <= |chunks|
  {
    exists i :: 0 <= i < upTo && InNodes(chunks[i], |chunks[i].nodes|, place)
  }

  lemma RequestsArePlaces(manifest: FileManifest, requests: seq<Place>)
    requires forall place :: place in requests <==>
      exists b :: b in manifest.split && InChunks(manifest.split[b].chunks, |manifest.split[b].chunks|, place)
    ensures Elements(requests) == Places(manifest)
  {
    forall place
      ensures place in requests <==> place in Places(manifest)
    {
      if place in Places(manifest) {
        var b, i, j :| b in manifest.split && 0 <= i < |manifest.split[b].chunks|
          && 0 <= j < |manifest.split[b].chunks[i].nodes|
          && place == (manifest.split[b].chunks[i].nodes[j], manifest.split[b].chunks[i].id);
        assert InNodes(manifest.split[b].chunks[i], |manifest.split[b].chunks[i].nodes|, place);
        assert InChunks(manifest.split[b].chunks, |manifest.split[b].chunks|, place);
      }
    }
  }
}
