/** The bootstrap server: the handlers of internal/api/bootstrap_api.go, the initiator side of the
    sync in internal/service/synchronization.go, and the two collectors that run on it
    (internal/service/clean_database.go). Signatures are taken as valid. */
module Bootstrap {
  import opened Types
  import opened Placement
  import opened Store
  import opened Sync

  const ACTIVE_NODES := "active_nodes"
  const MANIFESTS := "manifests"

  lemma Namespaces()
    ensures ColonFree(ACTIVE_NODES) && ColonFree(MANIFESTS) && ACTIVE_NODES != MANIFESTS
  {
    assert |ACTIVE_NODES| != |MANIFESTS|;
  }

  /** The keys of a list that a set does not have, in order. */
  function Without(keys: seq<string>, other: set<string>): seq<string> {
    if keys == [] then []
    else Without(keys[..|keys| - 1], other) + if keys[|keys| - 1] in other then [] else [keys[|keys| - 1]]
  }

  lemma {:induction false} WithoutIsDifference(keys: seq<string>, other: set<string>)
    ensures Elements(Without(keys, other)) == Elements(keys) - other
  {
    if keys == [] {
      assert Elements(keys) == {} && Elements(Without(keys, other)) == {};
    } else {
      var init, last := keys[..|keys| - 1], keys[|keys| - 1];
      WithoutIsDifference(init, other);
      assert keys == init + [last];
      ElementsAppend(init, last);
      ElementsAppend(Without(init, other), last);
      assert Without(init, other) + [] == Without(init, other);
    }
  }

  lemma ElementsAppend(keys: seq<string>, k: string)
    ensures Elements(keys + [k]) == Elements(keys) + {k}
  {
  }

  lemma PrefixStep(keys: seq<string>, i: nat)
    requires i < |keys|
    ensures keys[..i + 1][..i] == keys[..i] && Elements(keys[..i + 1]) == Elements(keys[..i]) + {keys[i]}
  {
    assert keys[..i + 1] == keys[..i] + [keys[i]];
    ElementsAppend(keys[..i], keys[i]);
  }

  /** CompareKeys: both differences of two key lists. */
  method CompareKeys(localKeys: seq<string>, remoteKeys: seq<string>)
    returns (missingInLocal: seq<string>, missingInRemote: seq<string>)
    ensures missingInLocal == Without(remoteKeys, Elements(localKeys))
    ensures missingInRemote == Without(localKeys, Elements(remoteKeys))
  {
    var localMap: set<string> := {};
    for i := 0 to |localKeys|
      invariant localMap == Elements(localKeys[..i])
    {
      PrefixStep(localKeys, i);
      localMap := localMap + {localKeys[i]};
    }
    assert localKeys[..|localKeys|] == localKeys;
    var remoteMap: set<string> := {};
    missingInLocal := [];
    for i := 0 to |remoteKeys|
      invariant remoteMap == Elements(remoteKeys[..i])
      invariant missingInLocal == Without(remoteKeys[..i], localMap)
    {
      PrefixStep(remoteKeys, i);
      remoteMap := remoteMap + {remoteKeys[i]};
      if remoteKeys[i] !in localMap {
        missingInLocal := missingInLocal + [remoteKeys[i]];
      }
    }
    assert remoteKeys[..|remoteKeys|] == remoteKeys;
    missingInRemote := [];
    for i := 0 to |localKeys|
      invariant missingInRemote == Without(localKeys[..i], remoteMap)
    {
      PrefixStep(localKeys, i);
      if localKeys[i] !in remoteMap {
        missingInRemote := missingInRemote + [localKeys[i]];
      }
    }
  }

  /** SyncPayload of internal/models/model.go:17-25. */
  datatype SyncPayload = SyncPayload(
    activeNodes: Table,
    fileManifests: Table,
    requestedNodes: seq<string>,
    requestedManifests: seq<string>)

  // ---- What the collectors remove ----

  /** The ids that CleanBootstrapDatabase deletes: those embedded in expired manifests. */
  function ExpiredIds(manifests: Table, now: nat): set<string> {
    set k | k in manifests && manifests[k].ManifestBlob? && Expired(manifests[k].manifest.release, now)
      :: manifests[k].manifest.fileId
  }

  /** No heartbeat for more than two minutes. */
  predicate Silent(record: Blob, now: nat) {
    record.NodeBlob? && now - record.node.timestamp > HEARTBEAT_TIMEOUT
  }

  function SilentNodes(nodes: Table, now: nat): set<string> {
    set a | a in nodes && Silent(nodes[a], now)
  }

  /** A heartbeat pass removes a node exactly when its record is more than 120 seconds, in nanoseconds, old. */
  lemma SilentGoesIff(nodes: Table, now: nat, a: Addr)
    requires a in nodes && nodes[a].NodeBlob?
    ensures a !in nodes - SilentNodes(nodes, now) <==> now - nodes[a].node.timestamp > 120_000_000_000
  {
  }

  /** A manifest pass removes a manifest exactly when its release date can be read and lies more than seven
      days, in nanoseconds, back. */
  lemma ManifestGoesIff(manifests: Table, now: nat, id: FileId)
    requires TaggedManifests(manifests) && id in manifests && manifests[id].ManifestBlob?
    ensures id !in manifests - ExpiredIds(manifests, now) <==>
      manifests[id].manifest.release.Some? && now > (manifests[id].manifest.release.value + 7 * 24 * 3600) * 1_000_000_000
  {
    ManifestPassIsExact(manifests, now);
  }

  /** Manifests are stored under their own file id. */
  ghost predicate TaggedManifests(manifests: Table) {
    forall k :: k in manifests && manifests[k].ManifestBlob? ==> manifests[k].manifest.fileId == k
  }

  /** On tagged tables an atomic pass removes exactly the expired manifests. */
  lemma ManifestPassIsExact(manifests: Table, now: nat)
    requires TaggedManifests(manifests)
    ensures manifests - ExpiredIds(manifests, now)
         == map k | k in manifests && !(manifests[k].ManifestBlob? && Expired(manifests[k].manifest.release, now)) :: manifests[k]
  {
  }

  /** On a table that is not tagged it may remove a live manifest and keep the expired one. */
  lemma UntaggedPassErrs(now: nat, live: FileManifest, dead: FileManifest)
    requires live.fileId == "b" && !Expired(live.release, now)
    requires dead.fileId == "b" && Expired(dead.release, now)
    ensures var t := map["a" := ManifestBlob(dead), "b" := ManifestBlob(live)];
      t - ExpiredIds(t, now) == map["a" := ManifestBlob(dead)]
  {
    var t := map["a" := ManifestBlob(dead), "b" := ManifestBlob(live)];
    assert "a" in t && t["a"].manifest.fileId == "b";
    assert ExpiredIds(t, now) == {"b"};
  }

  lemma PickNone(t: Table)
    ensures Pick(t, t.Keys - t.Keys) == map[]
  {
  }

  lemma PickAll(t: Table)
    ensures Pick(t, t.Keys - {}) == t
  {
  }

  /** One more key of `t` is put over, or under, a table. */
  lemma PickMore(base: Table, t: Table, keys: set<string>, k: string)
    requires k in t
    ensures base + Pick(t, keys + {k}) == (base + Pick(t, keys))[k := t[k]]
    ensures Pick(t, keys + {k}) + base
         == if k in Pick(t, keys) + base then Pick(t, keys) + base else (Pick(t, keys) + base)[k := t[k]]
  {
  }

  class BootstrapServer {
    const address: Addr
    const db: Db

    ghost predicate Valid()
      reads db
    {
      db.Valid()
    }

    ghost function Held(): Server
      requires Valid()
      reads db
    {
      Server(db.Of(ACTIVE_NODES), db.Of(MANIFESTS))
    }

    constructor (address: Addr)
      ensures Valid() && Held() == Server(map[], map[]) && this.address == address && fresh(db)
    {
      this.address := address;
      db := new Db();
    }

    /** A subscription or heartbeat: the record carries the server's clock. */
    method SubscribeNode(nodeAddress: Addr, publicKey: Bytes, now: nat)
      requires Valid()
      modifies db
      ensures Valid()
      ensures Held() == old(Held()).(nodes := old(Held()).nodes[nodeAddress := NodeBlob(NodeRecord(publicKey, now))])
    {
      Namespaces();
      hide Sorted, IsSpace, IsFlat, Space, Flatten, ColonFree;
      db.PutData(ACTIVE_NODES, nodeAddress, NodeBlob(NodeRecord(publicKey, now)));
    }

    method InsertFileManifest(manifest: FileManifest)
      requires Valid()
      modifies db
      ensures Valid()
      ensures Held() == old(Held()).(manifests := old(Held()).manifests[manifest.fileId := ManifestBlob(manifest)])
      ensures old(TaggedManifests(Held().manifests)) ==> TaggedManifests(Held().manifests)
    {
      Namespaces();
      hide Sorted, IsSpace, IsFlat, Space, Flatten, ColonFree;
      db.PutData(MANIFESTS, manifest.fileId, ManifestBlob(manifest));
    }

    method DownloadFileManifest(fileId: FileId) returns (data: Option<Blob>)
      requires Valid()
      ensures data == if fileId in Held().manifests then Some(Held().manifests[fileId]) else None
    {
      data := db.GetData(MANIFESTS, fileId);
    }

    method DeleteFileManifest(fileId: FileId)
      requires Valid()
      modifies db
      ensures Valid()
      ensures Held() == old(Held()).(manifests := old(Held()).manifests - {fileId})
    {
      Namespaces();
      hide Sorted, IsSpace, IsFlat, Space, Flatten, ColonFree;
      db.DeleteKey(MANIFESTS, fileId);
    }

    /** The nodes allocated to an upload: the first ceil(chunks / nodesPerChunk) registered ones. */
    method RequestNodesForFileUpload(totalChunks: nat, nodesPerChunk: nat) returns (response: seq<Addr>)
      requires Valid() && nodesPerChunk > 0
      ensures |response| == Min(|Held().nodes|, CeilDiv(totalChunks, nodesPerChunk))
      ensures Distinct(response) && forall a :: a in response ==> a in Held().nodes
      ensures forall a, b :: a in response && b in Held().nodes && b !in response ==> Before(a, b)
    {
      var allDbNodes := db.GetAllKeys(ACTIVE_NODES);
      AscendingKeys(allDbNodes, Held().nodes);
      var nodesToPickup := CeilDiv(totalChunks, nodesPerChunk);
      response := if |allDbNodes| <= nodesToPickup then allDbNodes else allDbNodes[..nodesToPickup];
    }

    /** The peer side of an exchange. */
    method SyncDigestHandler(nodeKeys: seq<string>, manifestKeys: seq<string>) returns (payload: SyncPayload)
      requires Valid()
      ensures var answer := Answer(Held(), Elements(nodeKeys), Elements(manifestKeys));
        && payload.activeNodes == answer.nodes && payload.fileManifests == answer.manifests
        && Elements(payload.requestedNodes) == answer.askNodes && Elements(payload.requestedManifests) == answer.askManifests
    {
      var localNodeKeys := db.GetAllKeys(ACTIVE_NODES);
      var localManifestKeys := db.GetAllKeys(MANIFESTS);
      var missingNodesInLocal, missingNodesInRemote := CompareKeys(localNodeKeys, nodeKeys);
      var missingManifestsInLocal, missingManifestsInRemote := CompareKeys(localManifestKeys, manifestKeys);
      WithoutIsDifference(nodeKeys, Elements(localNodeKeys));
      WithoutIsDifference(localNodeKeys, Elements(nodeKeys));
      WithoutIsDifference(manifestKeys, Elements(localManifestKeys));
      WithoutIsDifference(localManifestKeys, Elements(manifestKeys));
      assert Elements(localNodeKeys) == Held().nodes.Keys && Elements(localManifestKeys) == Held().manifests.Keys;
      var activeNodes := Read(ACTIVE_NODES, missingNodesInRemote);
      var fileManifests := Read(MANIFESTS, missingManifestsInRemote);
      payload := SyncPayload(activeNodes, fileManifests, missingNodesInLocal, missingManifestsInLocal);
    }

    /** The loop that looks up a list of keys; keys that are gone are skipped. */
    method Read(ns: string, keys: seq<string>) returns (data: Table)
      requires Valid()
      ensures data == Pick(db.Of(ns), Elements(keys))
    {
      data := map[];
      for i := 0 to |keys|
        invariant data == Pick(db.Of(ns), Elements(keys[..i]))
      {
        PrefixStep(keys, i);
        var value := db.GetData(ns, keys[i]);
        if value.Some? {
          data := data[keys[i] := value.value];
        }
      }
      assert keys[..|keys|] == keys;
    }

    /** ProcessAlignment. The source ranges over Go maps, so the order of the keys is arbitrary. */
    method ProcessAlignment(nodes: Table, manifests: Table)
      requires Valid()
      modifies db
      ensures Valid()
      ensures Held() == Align(old(Held()), nodes, manifests)
    {
      Namespaces();
      hide Sorted, IsSpace, IsFlat, Space, Flatten, ColonFree, Pick;
      ghost var before := Held();
      PickNone(nodes);
      PickNone(manifests);
      var todo := nodes.Keys;
      while todo != {}
        invariant Valid() && todo <= nodes.Keys
        invariant Held() == Server(before.nodes + Pick(nodes, nodes.Keys - todo), before.manifests)
        decreases todo
      {
        var k :| k in todo;
        ghost var done := nodes.Keys - todo;
        PickMore(before.nodes, nodes, done, k);
        db.PutData(ACTIVE_NODES, k, nodes[k]);
        todo := todo - {k};
        assert nodes.Keys - todo == done + {k};
      }
      PickAll(nodes);
      todo := manifests.Keys;
      while todo != {}
        invariant Valid() && todo <= manifests.Keys
        invariant Held() == Server(before.nodes + nodes, Pick(manifests, manifests.Keys - todo) + before.manifests)
        decreases todo
      {
        var k :| k in todo;
        ghost var done := manifests.Keys - todo;
        PickMore(before.manifests, manifests, done, k);
        var check := db.ExistsKey(MANIFESTS, k);
        if !check {
          db.PutData(MANIFESTS, k, manifests[k]);
        }
        todo := todo - {k};
        assert manifests.Keys - todo == done + {k};
      }
      PickAll(manifests);
    }

    /** The requested records are read here and aligned at the peer. */
    method PushMissingData(peer: BootstrapServer, reqNodes: seq<string>, reqManifests: seq<string>)
      requires Valid() && peer.Valid() && db != peer.db
      modifies peer.db
      ensures peer.Valid()
      ensures peer.Held()
        == Align(old(peer.Held()), Pick(Held().nodes, Elements(reqNodes)), Pick(Held().manifests, Elements(reqManifests)))
    {
      var nodesData := Read(ACTIVE_NODES, reqNodes);
      var manifestsData := Read(MANIFESTS, reqManifests);
      peer.ProcessAlignment(nodesData, manifestsData);
    }

    /** performSync with the chosen peer, without interference. */
    method PerformSync(peer: BootstrapServer)
      requires Valid() && peer.Valid() && (address != peer.address ==> db != peer.db)
      modifies db, peer.db
      ensures Valid() && peer.Valid()
      ensures address == peer.address ==> Held() == old(Held()) && peer.Held() == old(peer.Held())
      ensures address != peer.address ==> (Held(), peer.Held()) == old(Exchange(Held(), peer.Held()))
    {
      if address == peer.address {
        return;
      }
      var nodeKeys := db.GetAllKeys(ACTIVE_NODES);
      var manifestKeys := db.GetAllKeys(MANIFESTS);
      assert Elements(nodeKeys) == Held().nodes.Keys && Elements(manifestKeys) == Held().manifests.Keys;
      var payload := peer.SyncDigestHandler(nodeKeys, manifestKeys);
      ProcessAlignment(payload.activeNodes, payload.fileManifests);
      NoKeys(payload.requestedNodes);
      NoKeys(payload.requestedManifests);
      if |payload.requestedNodes| > 0 || |payload.requestedManifests| > 0 {
        PushMissingData(peer, payload.requestedNodes, payload.requestedManifests);
      }
    }

    /** One pass of CleanBootstrapDatabase. */
    method CleanBootstrapDatabase(now: nat)
      requires Valid()
      modifies db
      ensures Valid()
      ensures Held() == old(Held()).(manifests := old(Held()).manifests - ExpiredIds(old(Held()).manifests, now))
    {
      Namespaces();
      hide Sorted, IsSpace, IsFlat, Space, Flatten, ColonFree;
      var calls := db.IterateAndProcess(MANIFESTS);
      ghost var before := Held().manifests;
      var keysToDelete: seq<string> := [];
      for i := 0 to |calls|
        invariant forall id :: id in keysToDelete <==> exists j ::
          0 <= j < i && calls[j].1.ManifestBlob? && Expired(calls[j].1.manifest.release, now) && calls[j].1.manifest.fileId == id
      {
        if calls[i].1.ManifestBlob? && Expired(calls[i].1.manifest.release, now) {
          keysToDelete := keysToDelete + [calls[i].1.manifest.fileId];
        }
      }
      assert Elements(keysToDelete) == ExpiredIds(before, now) by {
        ScanFindsExpired(before, calls, now);
      }
      for i := 0 to |keysToDelete|
        invariant Valid()
        invariant Held() == old(Held()).(manifests := before - Elements(keysToDelete[..i]))
      {
        PrefixStep(keysToDelete, i);
        db.DeleteKey(MANIFESTS, keysToDelete[i]);
      }
      assert keysToDelete[..|keysToDelete|] == keysToDelete;
    }

    /** One pass of CleanInactiveNodes. */
    method CleanInactiveNodes(now: nat)
      requires Valid()
      modifies db
      ensures Valid()
      ensures Held() == old(Held()).(nodes := old(Held()).nodes - SilentNodes(old(Held()).nodes, now))
    {
      Namespaces();
      hide Sorted, IsSpace, IsFlat, Space, Flatten, ColonFree;
      var allNodes := db.GetAllData(ACTIVE_NODES);
      ghost var before := Held().nodes;
      var todo := allNodes.Keys;
      while todo != {}
        invariant Valid() && todo <= before.Keys
        invariant Held() == old(Held()).(nodes := before - (SilentNodes(before, now) - todo))
        decreases todo
      {
        var a :| a in todo;
        if allNodes[a].NodeBlob? && now - allNodes[a].node.timestamp > HEARTBEAT_TIMEOUT {
          db.DeleteKey(ACTIVE_NODES, a);
        }
        todo := todo - {a};
        assert Held().nodes == before - (SilentNodes(before, now) - todo);
      }
    }
  }

  lemma NoKeys(keys: seq<string>)
    ensures Elements(keys) == {} <==> |keys| == 0
  {
    assert |keys| > 0 ==> keys[0] in Elements(keys);
  }

  lemma AscendingKeys(keys: seq<string>, table: Table)
    requires Ascending(keys) && forall k :: k in keys <==> k in table
    ensures Distinct(keys) && |keys| == |table|
  {
    forall i, j | 0 <= i < j < |keys|
      ensures keys[i] != keys[j]
    {
      LessIsBefore(keys[i], keys[i]);
      LessIrreflexive(keys[i]);
    }
    DistinctCount(keys);
    assert Elements(keys) == table.Keys;
  }

  lemma ScanFindsExpired(table: Table, calls: seq<(string, Blob)>, now: nat)
    requires forall i :: 0 <= i < |calls| ==> calls[i].0 in table && table[calls[i].0] == calls[i].1
    requires forall k :: k in table ==> (k, table[k]) in calls
    ensures forall id :: id in ExpiredIds(table, now) <==> exists j ::
      0 <= j < |calls| && calls[j].1.ManifestBlob? && Expired(calls[j].1.manifest.release, now) && calls[j].1.manifest.fileId == id
  {
    forall id | id in ExpiredIds(table, now)
      ensures exists j ::
        0 <= j < |calls| && calls[j].1.ManifestBlob? && Expired(calls[j].1.manifest.release, now) && calls[j].1.manifest.fileId == id
    {
      var k :| k in table && table[k].ManifestBlob? && Expired(table[k].manifest.release, now) && table[k].manifest.fileId == id;
      var j :| 0 <= j < |calls| && calls[j] == (k, table[k]);
    }
  }
}
