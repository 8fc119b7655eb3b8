/** Reading a file back: StreamReconstruct of internal/service/file_management.go:348-440. */
module Reconstruct {
  import opened Types
  import opened Codec

  /** What RequestChunk yields: the record under (address, chunk id), if the request succeeds. */
  type Net = map<Place, ChunkRecord>

  datatype Progress = Progress(shards: seq<Option<Bytes>>, parts: map<nat, Bytes>, received: nat)

  /** Go's zero value, found when a record carries a chunk id that the block does not list. */
  const ZERO_CHUNK: Chunk := Chunk("", 0, 0, [], [])

  function Info(chunks: seq<Chunk>): (info: map<ChunkId, Chunk>)
    ensures forall id :: id in info ==> info[id] in chunks
  {
    if chunks == [] then map[] else
    var last := |chunks| - 1;
    Info(chunks[..last])[chunks[last].id := chunks[last]]
  }

  function Lookup(info: map<ChunkId, Chunk>, id: ChunkId): Chunk {
    if id in info then info[id] else ZERO_CHUNK
  }

  /** Go would fault on a shard index beyond the shard slice. */
  ghost predicate InRange(chunks: seq<Chunk>, total: nat) {
    && 0 < total
    && forall c :: c in chunks ==> c.shardIndex < total
  }

  ghost predicate InfoInRange(info: map<ChunkId, Chunk>, total: nat) {
    && 0 < total
    && forall id :: id in info ==> info[id].shardIndex < total
  }

  // ---- The collection loops as functions ----

  /** The inner loop: ask the nodes of one chunk in turn. */
  function FromNodes(id: ChunkId, nodes: seq<Addr>, info: map<ChunkId, Chunk>, net: Net, p: Progress): (r: Progress)
    requires InfoInRange(info, |p.shards|)
    ensures |r.shards| == |p.shards|
  {
    if nodes == [] then p
    else if (nodes[0], id) !in net then FromNodes(id, nodes[1..], info, net, p)
    else
      var record := net[(nodes[0], id)];
      var original := Lookup(info, record.chunkId);
      if p.shards[original.shardIndex].Some? then FromNodes(id, nodes[1..], info, net, p)
      else Progress(p.shards[original.shardIndex := Some(record.shard)],
                    p.parts[original.keyIndex := original.keyPart],
                    p.received + 1)
  }

  /** The loop over the chunks of a block, from chunk `at`: stop as soon as enough shards are there. */
  function Collect(chunks: seq<Chunk>, at: nat, info: map<ChunkId, Chunk>, required: nat, net: Net, p: Progress)
    : (r: Progress)
    requires at <= |chunks| && InfoInRange(info, |p.shards|)
    ensures |r.shards| == |p.shards|
    decreases |chunks| - at
  {
    if at == |chunks| || p.received >= required then p
    else Collect(chunks, at + 1, info, required, net, FromNodes(chunks[at].id, chunks[at].nodes, info, net, p))
  }

  function Start(total: nat): Progress {
    Progress(seq(total, _ => None), map[], 0)
  }

  lemma InfoRange(chunks: seq<Chunk>, total: nat)
    requires InRange(chunks, total)
    ensures InfoInRange(Info(chunks), total)
  {
  }

  /** The loops of the source, over a shard array and a map of key parts. */
  method CollectShards(chunks: seq<Chunk>, required: nat, total: nat, net: Net) returns (p: Progress)
    requires InRange(chunks, total)
    ensures InfoInRange(Info(chunks), total)
    ensures p == Collect(chunks, 0, Info(chunks), required, net, Start(total))
  {
    var shards := new Option<Bytes>[total](_ => None);
    var keyParts: map<nat, Bytes> := map[];
    var shardsReceived := 0;
    var originalChunkInfo: map<ChunkId, Chunk> := map[];
    for i := 0 to |chunks|
      invariant originalChunkInfo == Info(chunks[..i])
    {
      assert chunks[..i + 1][..i] == chunks[..i];
      originalChunkInfo := originalChunkInfo[chunks[i].id := chunks[i]];
    }
    assert chunks[..|chunks|] == chunks;
    InfoRange(chunks, total);
    assert shards[..] == Start(total).shards;

    var i := 0;
    ghost var goal := Collect(chunks, 0, originalChunkInfo, required, net, Start(total));
    while i < |chunks|
      invariant i <= |chunks| && InfoInRange(originalChunkInfo, total)
      invariant Collect(chunks, i, originalChunkInfo, required, net,
                        Progress(shards[..], keyParts, shardsReceived)) == goal
    {
      if shardsReceived >= required {
        break;
      }
      var chunkMeta := chunks[i];
      var j := 0;
      ghost var after := FromNodes(chunkMeta.id, chunkMeta.nodes, originalChunkInfo, net,
                                   Progress(shards[..], keyParts, shardsReceived));
      while j < |chunkMeta.nodes|
        invariant j <= |chunkMeta.nodes| && InfoInRange(originalChunkInfo, total)
        invariant FromNodes(chunkMeta.id, chunkMeta.nodes[j..], originalChunkInfo, net,
                            Progress(shards[..], keyParts, shardsReceived)) == after
      {
        var place := (chunkMeta.nodes[j], chunkMeta.id);
        assert chunkMeta.nodes[j..][1..] == chunkMeta.nodes[j + 1..];
        if place in net {
          var record := net[place];
          var original := Lookup(originalChunkInfo, record.chunkId);
          if shards[original.shardIndex].None? {
            ghost var before := shards[..];
            shards[original.shardIndex] := Some(record.shard);
            assert shards[..] == before[original.shardIndex := Some(record.shard)];
            keyParts := keyParts[original.keyIndex := original.keyPart];
            shardsReceived := shardsReceived + 1;
            assert Progress(shards[..], keyParts, shardsReceived) == after;
            j := |chunkMeta.nodes|;
            assert chunkMeta.nodes[j..] == [];
            break;
          }
        }
        j := j + 1;
      }
      assert Progress(shards[..], keyParts, shardsReceived) == after;
      i := i + 1;
    }
    p := Progress(shards[..], keyParts, shardsReceived);
  }

  // ---- What the greedy collection achieves ----

  /** Records are stored under the chunk id they carry. */
  ghost predicate Tagged(net: Net) {
    forall a, id :: (a, id) in net ==> net[(a, id)].chunkId == id
  }

  predicate Retrievable(c: Chunk, net: Net) {
    exists a :: a in c.nodes && (a, c.id) in net
  }

  /** How many of the chunks from `at` on can be had from some listed node. */
  function CountRetrievable(chunks: seq<Chunk>, at: nat, net: Net): nat
    requires at <= |chunks|
    decreases |chunks| - at
  {
    if at == |chunks| then 0
    else (if Retrievable(chunks[at], net) then 1 else 0) + CountRetrievable(chunks, at + 1, net)
  }

  /** The chunks of one block have their own ids, shard positions and key indexes. */
  ghost predicate Unambiguous(chunks: seq<Chunk>) {
    forall i, j :: 0 <= i < j < |chunks| ==>
      && chunks[i].id != chunks[j].id
      && chunks[i].shardIndex != chunks[j].shardIndex
      && chunks[i].keyIndex != chunks[j].keyIndex
  }

  lemma {:induction false} InfoOf(chunks: seq<Chunk>, i: nat)
    requires Unambiguous(chunks) && i < |chunks|
    ensures chunks[i].id in Info(chunks) && Info(chunks)[chunks[i].id] == chunks[i]
  {
    var last := |chunks| - 1;
    if i < last {
      InfoOf(chunks[..last], i);
    }
  }

  /** The received counter counts the filled slots and the key parts. */
  ghost predicate Counted(p: Progress) {
    p.received == |Present(p.shards)| == |p.parts|
  }

  /** The slot and the key index of chunk `c` are still free. */
  ghost predicate Free(p: Progress, c: Chunk) {
    && (c.shardIndex < |p.shards| ==> p.shards[c.shardIndex].None?)
    && c.keyIndex !in p.parts
  }

  /** Slot c.shardIndex holds the shard of `c` that some listed node returned. */
  ghost predicate HasShard(p: Progress, c: Chunk, net: Net) {
    && c.shardIndex < |p.shards|
    && exists a :: a in c.nodes && (a, c.id) in net && p.shards[c.shardIndex] == Some(net[(a, c.id)].shard)
  }

  ghost predicate HasPart(p: Progress, c: Chunk) {
    c.keyIndex in p.parts && p.parts[c.keyIndex] == c.keyPart
  }

  /** Everything collected comes from one of `chunks`. */
  ghost predicate Explained(p: Progress, chunks: seq<Chunk>, net: Net) {
    && (forall i :: 0 <= i < |p.shards| && p.shards[i].Some? ==>
          exists c :: c in chunks && c.shardIndex == i && HasShard(p, c, net))
    && (forall k :: k in p.parts ==> exists c :: c in chunks && c.keyIndex == k && HasPart(p, c))
  }

  /** Nodes are asked until one answers; the free slot takes its answer. */
  lemma {:induction false} FromNodesFills(c: Chunk, nodes: seq<Addr>, info: map<ChunkId, Chunk>, net: Net, p: Progress)
    returns (a: Option<Addr>)
    requires InfoInRange(info, |p.shards|) && Tagged(net)
    requires c.id in info && info[c.id] == c && Free(p, c)
    ensures a.Some? <==> exists b :: b in nodes && (b, c.id) in net
    ensures a.None? ==> FromNodes(c.id, nodes, info, net, p) == p
    ensures a.Some? ==> a.value in nodes && (a.value, c.id) in net
    ensures a.Some? ==> (FromNodes(c.id, nodes, info, net, p)
      == Progress(p.shards[c.shardIndex := Some(net[(a.value, c.id)].shard)], p.parts[c.keyIndex := c.keyPart], p.received + 1))
  {
    if nodes == [] {
      a := None;
    } else if (nodes[0], c.id) in net {
      a := Some(nodes[0]);
    } else {
      a := FromNodesFills(c, nodes[1..], info, net, p);
    }
  }

  lemma FillCounts(p: Progress, c: Chunk, shard: Bytes)
    requires Counted(p) && Free(p, c) && c.shardIndex < |p.shards|
    ensures Counted(Progress(p.shards[c.shardIndex := Some(shard)], p.parts[c.keyIndex := c.keyPart], p.received + 1))
  {
    assert Present(p.shards[c.shardIndex := Some(shard)]) == Present(p.shards) + {c.shardIndex};
  }

  /** Progress after the free slot and key index of `c` have been filled with what node `a` holds. */
  ghost predicate Filled(p: Progress, c: Chunk, a: Addr, net: Net, r: Progress) {
    && Free(p, c) && c.shardIndex < |p.shards|
    && a in c.nodes && (a, c.id) in net
    && r == Progress(p.shards[c.shardIndex := Some(net[(a, c.id)].shard)], p.parts[c.keyIndex := c.keyPart], p.received + 1)
  }

  lemma FillExplains(p: Progress, done: seq<Chunk>, c: Chunk, a: Addr, net: Net, r: Progress)
    requires Explained(p, done, net) && Filled(p, c, a, net, r)
    ensures Explained(r, done + [c], net)
  {
    assert HasShard(r, c, net) && HasPart(r, c);
    assert (done + [c])[|done|] == c;
    forall i | 0 <= i < |r.shards| && r.shards[i].Some?
      ensures exists d :: d in done + [c] && d.shardIndex == i && HasShard(r, d, net)
    {
      if i != c.shardIndex {
        var d :| d in done && d.shardIndex == i && HasShard(p, d, net);
        assert HasShard(r, d, net) && d in done + [c];
      }
    }
    forall k | k in r.parts
      ensures exists d :: d in done + [c] && d.keyIndex == k && HasPart(r, d)
    {
      if k != c.keyIndex {
        var d :| d in done && d.keyIndex == k && HasPart(p, d);
        assert HasPart(r, d) && d in done + [c];
      }
    }
  }

  lemma ExplainedMore(p: Progress, done: seq<Chunk>, c: Chunk, net: Net)
    requires Explained(p, done, net)
    ensures Explained(p, done + [c], net)
  {
    assert forall d :: d in done ==> d in done + [c];
  }

  /** The state of the collection before chunk `at`. */
  ghost predicate Collecting(all: seq<Chunk>, at: nat, net: Net, p: Progress)
    requires at <= |all|
  {
    && Counted(p) && Explained(p, all[..at], net)
    && forall i :: at <= i < |all| ==> Free(p, all[i])
  }

  lemma Hit(all: seq<Chunk>, at: nat, net: Net, p: Progress, a: Addr, next: Progress)
    requires at < |all| && Unambiguous(all) && Collecting(all, at, net, p) && Filled(p, all[at], a, net, next)
    ensures Collecting(all, at + 1, net, next)
  {
    var c := all[at];
    assert all[..at + 1] == all[..at] + [c];
    FillCounts(p, c, net[(a, c.id)].shard);
    FillExplains(p, all[..at], c, a, net, next);
    forall i | at + 1 <= i < |all|
      ensures Free(next, all[i])
    {
      assert Free(p, all[i]) && all[i].shardIndex != c.shardIndex && all[i].keyIndex != c.keyIndex;
    }
  }

  lemma Miss(all: seq<Chunk>, at: nat, net: Net, p: Progress)
    requires at < |all| && Collecting(all, at, net, p)
    ensures Collecting(all, at + 1, net, p)
  {
    assert all[..at + 1] == all[..at] + [all[at]];
    ExplainedMore(p, all[..at], all[at], net);
  }

  /** One chunk adds one shard if it can be had anywhere, and nothing otherwise. */
  lemma CollectStep(all: seq<Chunk>, at: nat, net: Net, p: Progress) returns (next: Progress)
    requires at < |all| && Unambiguous(all) && InRange(all, |p.shards|) && InfoInRange(Info(all), |p.shards|) && Tagged(net)
    requires Collecting(all, at, net, p)
    ensures next == FromNodes(all[at].id, all[at].nodes, Info(all), net, p)
    ensures Collecting(all, at + 1, net, next) && next.received == p.received + if Retrievable(all[at], net) then 1 else 0
  {
    InfoOf(all, at);
    var a := FromNodesFills(all[at], all[at].nodes, Info(all), net, p);
    next := FromNodes(all[at].id, all[at].nodes, Info(all), net, p);
    if a.Some? {
      Hit(all, at, net, p, a.value, next);
    } else {
      Miss(all, at, net, p);
    }
  }

  /** A finished collection with `count` shards. */
  ghost predicate Collected(all: seq<Chunk>, net: Net, r: Progress, count: nat) {
    Counted(r) && Explained(r, all, net) && r.received == count
  }

  lemma Finish(all: seq<Chunk>, at: nat, net: Net, p: Progress)
    requires at <= |all| && Collecting(all, at, net, p)
    ensures Collected(all, net, p, p.received)
  {
    assert forall d :: d in all[..at] ==> d in all;
  }

  /** The collection, from any point in it. */
  lemma {:induction false} CollectFrom(all: seq<Chunk>, at: nat, required: nat, net: Net, p: Progress)
    returns (r: Progress, count: nat)
    requires at <= |all| && Unambiguous(all) && InRange(all, |p.shards|) && InfoInRange(Info(all), |p.shards|) && Tagged(net)
    requires Collecting(all, at, net, p) && p.received <= required
    ensures r == Collect(all, at, Info(all), required, net, p)
    ensures count == Min(required, p.received + CountRetrievable(all, at, net))
    ensures Collected(all, net, r, count)
    decreases |all| - at
  {
    hide Collecting, Collected, Unambiguous, InRange, InfoInRange, Tagged, FromNodes;
    if at == |all| || p.received == required {
      Finish(all, at, net, p);
      r, count := p, p.received;
    } else {
      var next := CollectStep(all, at, net, p);
      r, count := CollectFrom(all, at + 1, required, net, next);
    }
  }

  /** The collection of a block succeeds exactly when enough of its chunks can be had from some
      listed node; the counter, the filled slots and the key parts agree, and every slot holds
      the shard that belongs there. */
  lemma CollectIsExact(chunks: seq<Chunk>, required: nat, total: nat, net: Net)
    requires Unambiguous(chunks) && InRange(chunks, total) && Tagged(net)
    ensures InfoInRange(Info(chunks), total)
    ensures var r := Collect(chunks, 0, Info(chunks), required, net, Start(total));
      && r.received == |Present(r.shards)| == |r.parts| == Min(required, CountRetrievable(chunks, 0, net))
      && Explained(r, chunks, net)
      && (r.received >= required <==> CountRetrievable(chunks, 0, net) >= required)
  {
    InfoRange(chunks, total);
    StartCollecting(chunks, total, net);
    var r, count := CollectFrom(chunks, 0, required, net, Start(total));
  }

  lemma StartCollecting(chunks: seq<Chunk>, total: nat, net: Net)
    ensures Collecting(chunks, 0, net, Start(total))
  {
    assert Present(Start(total).shards) == {};
  }

  // ---- Whatever the nodes answer ----

  /** The slot that a record takes: that of the chunk whose id it carries, and the first if the block lists no such. */
  function SlotOf(info: map<ChunkId, Chunk>, record: ChunkRecord): nat {
    if record.chunkId in info then info[record.chunkId].shardIndex else 0
  }

  /** What node `a` answered for `c` is in its slot. */
  ghost predicate Gave(c: Chunk, a: Addr, info: map<ChunkId, Chunk>, net: Net, r: Progress) {
    && a in c.nodes && (a, c.id) in net && SlotOf(info, net[(a, c.id)]) < |r.shards|
    && r.shards[SlotOf(info, net[(a, c.id)])] == Some(net[(a, c.id)].shard)
  }

  /** One answer for `c` was taken, or all of them would go where there is a shard already. */
  ghost predicate Served(c: Chunk, info: map<ChunkId, Chunk>, net: Net, r: Progress)
    requires InfoInRange(info, |r.shards|)
  {
    || (exists a :: Gave(c, a, info, net, r))
    || (forall a :: a in c.nodes && (a, c.id) in net ==> r.shards[SlotOf(info, net[(a, c.id)])].Some?)
  }

  /** A filled slot holds what some node answered for one of `chunks`. */
  ghost predicate Given(chunks: seq<Chunk>, i: nat, info: map<ChunkId, Chunk>, net: Net, r: Progress) {
    exists c, a :: c in chunks && Gave(c, a, info, net, r) && SlotOf(info, net[(a, c.id)]) == i
  }

  /** Filled slots stay as they are. */
  ghost predicate Grows(p: Progress, r: Progress) {
    |r.shards| == |p.shards| && forall i :: 0 <= i < |p.shards| && p.shards[i].Some? ==> r.shards[i] == p.shards[i]
  }

  lemma {:induction false} AskedAll(c: Chunk, asked: seq<Addr>, info: map<ChunkId, Chunk>, net: Net, p: Progress)
    requires InfoInRange(info, |p.shards|) && (forall a :: a in asked ==> a in c.nodes)
    ensures var r := FromNodes(c.id, asked, info, net, p);
      || (r == p && forall a :: a in asked && (a, c.id) in net ==> p.shards[SlotOf(info, net[(a, c.id)])].Some?)
      || (exists a :: Took(c, a, info, net, p, r))
  {
    if asked != [] && ((asked[0], c.id) !in net || p.shards[SlotOf(info, net[(asked[0], c.id)])].Some?) {
      AskedAll(c, asked[1..], info, net, p);
    } else if asked != [] {
      assert Took(c, asked[0], info, net, p, FromNodes(c.id, asked, info, net, p));
    }
  }

  /** The answer of node `a` for `c` fills its free slot. */
  ghost predicate Took(c: Chunk, a: Addr, info: map<ChunkId, Chunk>, net: Net, p: Progress, r: Progress) {
    && a in c.nodes && (a, c.id) in net && SlotOf(info, net[(a, c.id)]) < |p.shards|
    && p.shards[SlotOf(info, net[(a, c.id)])].None? && r.received == p.received + 1
    && r.shards == p.shards[SlotOf(info, net[(a, c.id)]) := Some(net[(a, c.id)].shard)]
  }

  lemma OneChunk(c: Chunk, info: map<ChunkId, Chunk>, net: Net, p: Progress)
    requires InfoInRange(info, |p.shards|) && p.received == |Present(p.shards)|
    ensures var r := FromNodes(c.id, c.nodes, info, net, p);
      && Grows(p, r) && Served(c, info, net, r) && r.received == |Present(r.shards)| <= p.received + 1
      && forall i :: 0 <= i < |r.shards| && r.shards[i].Some? ==> p.shards[i].Some? || Given([c], i, info, net, r)
  {
    AskedAll(c, c.nodes, info, net, p);
    var r := FromNodes(c.id, c.nodes, info, net, p);
    if a :| Took(c, a, info, net, p, r) {
      assert Gave(c, a, info, net, r) && c in [c];
      assert Present(r.shards) == Present(p.shards) + {SlotOf(info, net[(a, c.id)])};
    }
  }

  lemma ServedLater(c: Chunk, info: map<ChunkId, Chunk>, net: Net, p: Progress, r: Progress)
    requires InfoInRange(info, |p.shards|) && Grows(p, r) && Served(c, info, net, p)
    ensures Served(c, info, net, r)
  {
    if a :| Gave(c, a, info, net, p) {
      assert Gave(c, a, info, net, r);
    }
  }

  lemma {:induction false} CollectAny(chunks: seq<Chunk>, at: nat, info: map<ChunkId, Chunk>, required: nat, net: Net, p: Progress)
    requires at <= |chunks| && InfoInRange(info, |p.shards|) && p.received == |Present(p.shards)| <= required
    ensures var r := Collect(chunks, at, info, required, net, p);
      && Grows(p, r) && r.received == |Present(r.shards)| <= required
      && (forall i :: 0 <= i < |r.shards| && r.shards[i].Some? ==> p.shards[i].Some? || Given(chunks, i, info, net, r))
      && (r.received < required ==> forall k :: at <= k < |chunks| ==> Served(chunks[k], info, net, r))
    decreases |chunks| - at
  {
    if at < |chunks| && p.received < required {
      OneChunk(chunks[at], info, net, p);
      var next := FromNodes(chunks[at].id, chunks[at].nodes, info, net, p);
      CollectAny(chunks, at + 1, info, required, net, next);
      var r := Collect(chunks, at, info, required, net, p);
      hide *;
      Grown(p, next, r);
      if r.received < required {
        ServedLater(chunks[at], info, net, next, r);
      }
      GivenAll(chunks, at, info, net, p, next, r);
    }
  }

  lemma Grown(p: Progress, next: Progress, r: Progress)
    requires Grows(p, next) && Grows(next, r)
    ensures Grows(p, r)
  {
  }

  lemma GivenAll(chunks: seq<Chunk>, at: nat, info: map<ChunkId, Chunk>, net: Net, p: Progress, next: Progress, r: Progress)
    requires at < |chunks| && Grows(p, next) && Grows(next, r)
    requires forall i :: 0 <= i < |next.shards| && next.shards[i].Some? ==> p.shards[i].Some? || Given([chunks[at]], i, info, net, next)
    requires forall i :: 0 <= i < |r.shards| && r.shards[i].Some? ==> next.shards[i].Some? || Given(chunks, i, info, net, r)
    ensures forall i :: 0 <= i < |r.shards| && r.shards[i].Some? ==> p.shards[i].Some? || Given(chunks, i, info, net, r)
  {
    hide Gave, Given;
    forall i | 0 <= i < |r.shards| && r.shards[i].Some? && p.shards[i].None?
      ensures Given(chunks, i, info, net, r)
    {
      if next.shards[i].Some? {
        GivenLater(chunks, at, i, info, net, next, r);
      }
    }
  }

  lemma GivenLater(chunks: seq<Chunk>, at: nat, i: nat, info: map<ChunkId, Chunk>, net: Net, p: Progress, r: Progress)
    requires at < |chunks| && Grows(p, r) && Given([chunks[at]], i, info, net, p)
    ensures Given(chunks, i, info, net, r)
  {
    var c, a :| c in [chunks[at]] && Gave(c, a, info, net, p) && SlotOf(info, net[(a, c.id)]) == i;
    assert c in chunks && Gave(c, a, info, net, r);
  }

  /** A collected key part is one that the manifest has for the block; a record that the block does not list adds an
      empty part under index 0. */
  ghost predicate PartsKnown(info: map<ChunkId, Chunk>, parts: map<nat, Bytes>) {
    forall k :: k in parts ==> PartKnown(info, k, parts[k])
  }

  ghost predicate PartKnown(info: map<ChunkId, Chunk>, k: nat, part: Bytes) {
    (k == 0 && part == []) || exists id :: id in info && info[id].keyIndex == k && info[id].keyPart == part
  }

  lemma {:induction false} AskedParts(id: ChunkId, nodes: seq<Addr>, info: map<ChunkId, Chunk>, net: Net, p: Progress)
    requires InfoInRange(info, |p.shards|) && PartsKnown(info, p.parts)
    ensures PartsKnown(info, FromNodes(id, nodes, info, net, p).parts)
  {
    if nodes != [] && ((nodes[0], id) !in net || p.shards[Lookup(info, net[(nodes[0], id)].chunkId).shardIndex].Some?) {
      AskedParts(id, nodes[1..], info, net, p);
    }
  }

  lemma {:induction false} CollectParts(chunks: seq<Chunk>, at: nat, info: map<ChunkId, Chunk>, required: nat, net: Net, p: Progress)
    requires at <= |chunks| && InfoInRange(info, |p.shards|) && PartsKnown(info, p.parts)
    ensures PartsKnown(info, Collect(chunks, at, info, required, net, p).parts)
    decreases |chunks| - at
  {
    if at < |chunks| && p.received < required {
      AskedParts(chunks[at].id, chunks[at].nodes, info, net, p);
      hide FromNodes, PartsKnown;
      CollectParts(chunks, at + 1, info, required, net, FromNodes(chunks[at].id, chunks[at].nodes, info, net, p));
    }
  }

  /** The collection of a block whatever the nodes answer, also records of other chunks or of none: the counter is
      the number of filled slots and never exceeds what is required; a filled slot holds what some listed node
      answered; every key part is one of the block's, or empty; and the collection gives up only when every chunk
      has contributed an answer, or has none that would go to a free slot. */
  lemma AnyAnswers(chunks: seq<Chunk>, required: nat, total: nat, net: Net)
    requires InRange(chunks, total)
    ensures InfoInRange(Info(chunks), total)
    ensures var r := Collect(chunks, 0, Info(chunks), required, net, Start(total));
      && r.received == |Present(r.shards)| <= required
      && (forall i :: 0 <= i < total && r.shards[i].Some? ==> Given(chunks, i, Info(chunks), net, r))
      && PartsKnown(Info(chunks), r.parts)
      && (r.received < required ==> forall c :: c in chunks ==> Served(c, Info(chunks), net, r))
  {
    InfoRange(chunks, total);
    CollectParts(chunks, 0, Info(chunks), required, net, Start(total));
    assert Present(Start(total).shards) == {};
    CollectAny(chunks, 0, Info(chunks), required, net, Start(total));
  }

  // ---- The whole stream ----

  /** The outcome of block `i`, at a moment when beacon round `now` is reached. */
  function BlockResult(c: Crypto, m: FileManifest, net: Net, i: nat, now: nat): Result<Bytes>
    requires ManifestInRange(m)
  {
    var block := if i in m.split then m.split[i] else FileBlock(0, []);
    InfoRange(block.chunks, m.dataShards + m.parityShards);
    var p := Collect(block.chunks, 0, Info(block.chunks), m.dataShards, net, Start(m.dataShards + m.parityShards));
    if p.received < m.dataShards then Err(Insufficient(i))
    else OpenBlock(c, p.shards, p.parts, block.encryptedSize, now)
  }

  ghost predicate ManifestInRange(m: FileManifest) {
    && m.dataShards > 0
    && forall b :: b in m.split ==> InRange(m.split[b].chunks, m.dataShards + m.parityShards)
  }

  /** The outcome of every block; `clock(i)` is the round reached when block i is opened. */
  function Outcomes(c: Crypto, m: FileManifest, net: Net, clock: nat -> nat): (out: seq<Result<Bytes>>)
    requires ManifestInRange(m)
    ensures |out| == m.blocks
    ensures forall i :: 0 <= i < m.blocks ==> out[i] == BlockResult(c, m, net, i, clock(i))
  {
    seq(m.blocks, i requires 0 <= i < m.blocks && ManifestInRange(m) => BlockResult(c, m, net, i, clock(i)))
  }

  /** Blocks from `i` on: what is written, and the error that ended it. Only `writes` block writes
      succeed before the client is gone. */
  function Stream(outcomes: seq<Result<Bytes>>, writes: nat, i: nat): (r: (seq<Bytes>, Option<ReadError>))
    requires i <= |outcomes|
    decreases |outcomes| - i
  {
    if i == |outcomes| then ([], None)
    else if outcomes[i].Err? then ([], Some(outcomes[i].error))
    else if i >= writes then ([], Some(WriteFailed))
    else
      var rest := Stream(outcomes, writes, i + 1);
      ([outcomes[i].value] + rest.0, rest.1)
  }

  /** One round of the block loop. */
  method ReconstructBlock(c: Crypto, m: FileManifest, net: Net, i: nat, now: nat) returns (r: Result<Bytes>)
    requires ManifestInRange(m)
    ensures r == BlockResult(c, m, net, i, now)
  {
    var blockData := if i in m.split then m.split[i] else FileBlock(0, []);
    var p := CollectShards(blockData.chunks, m.dataShards, m.dataShards + m.parityShards, net);
    if p.received < m.dataShards {
      return Err(Insufficient(i));
    }
    r := OpenBlock(c, p.shards, p.parts, blockData.encryptedSize, now);
  }

  method StreamReconstruct(c: Crypto, m: FileManifest, net: Net, clock: nat -> nat, writes: nat)
    returns (written: seq<Bytes>, error: Option<ReadError>)
    requires ManifestInRange(m)
    ensures (written, error) == Stream(Outcomes(c, m, net, clock), writes, 0)
  {
    hide Outcomes, BlockResult, ManifestInRange;
    written := [];
    error := None;
    ghost var outcomes := Outcomes(c, m, net, clock);
    ghost var goal := Stream(outcomes, writes, 0);
    assert written + goal.0 == goal.0;
    var i := 0;
    while i < m.blocks && error.None?
      invariant i <= m.blocks
      invariant goal.0 == written + if error.Some? then [] else Stream(outcomes, writes, i).0
      invariant goal.1 == if error.Some? then error else Stream(outcomes, writes, i).1
      decreases m.blocks - i
    {
      var block := ReconstructBlock(c, m, net, i, clock(i));
      assert block == outcomes[i];
      if block.Err? {
        error := Some(block.error);
      } else if i >= writes {
        error := Some(WriteFailed);
      } else {
        AppendStep(written, block.value, Stream(outcomes, writes, i + 1).0);
        written := written + [block.value];
      }
      i := i + 1;
    }
    assert written + [] == written;
  }

  lemma AppendStep(a: seq<Bytes>, b: Bytes, c: seq<Bytes>)
    ensures a + ([b] + c) == a + [b] + c
  {
  }

  /** `written` is the opened blocks from `i` on, each written while the client was there. */
  ghost predicate WrittenFrom(outcomes: seq<Result<Bytes>>, writes: nat, i: nat, written: seq<Bytes>) {
    && i + |written| <= |outcomes|
    && forall j :: i <= j < i + |written| ==> WrittenAt(outcomes, writes, i, written, j)
  }

  ghost predicate WrittenAt(outcomes: seq<Result<Bytes>>, writes: nat, i: nat, written: seq<Bytes>, j: nat)
    requires i <= j < i + |written| <= |outcomes|
  {
    j < writes && outcomes[j] == Ok(written[j - i])
  }

  lemma WrittenBefore(outcomes: seq<Result<Bytes>>, writes: nat, i: nat, rest: seq<Bytes>)
    requires i < |outcomes| && i < writes && outcomes[i].Ok?
    requires WrittenFrom(outcomes, writes, i + 1, rest)
    ensures WrittenFrom(outcomes, writes, i, [outcomes[i].value] + rest)
  {
    var all := [outcomes[i].value] + rest;
    forall j | i <= j < i + |all|
      ensures WrittenAt(outcomes, writes, i, all, j)
    {
      if j > i {
        assert WrittenAt(outcomes, writes, i + 1, rest, j);
      }
    }
  }

  /** Prefix safety: the output is the opened blocks i..f-1 in order, where f is the first block
      that does not open or cannot be written; with no such block it is all of them. */
  lemma {:induction false} StreamIsPrefix(outcomes: seq<Result<Bytes>>, writes: nat, i: nat)
    requires i <= |outcomes|
    ensures WrittenFrom(outcomes, writes, i, Stream(outcomes, writes, i).0)
    ensures var f := i + |Stream(outcomes, writes, i).0|;
      && Stream(outcomes, writes, i).1 == StopReason(outcomes, f)
      && (f < |outcomes| && outcomes[f].Ok? ==> f >= writes)
    decreases |outcomes| - i
  {
    if i < |outcomes| && outcomes[i].Ok? && i < writes {
      StreamIsPrefix(outcomes, writes, i + 1);
      WrittenBefore(outcomes, writes, i, Stream(outcomes, writes, i + 1).0);
      assert i + |Stream(outcomes, writes, i).0| == (i + 1) + |Stream(outcomes, writes, i + 1).0|;
    }
  }

  /** The error of a stream that stops at block `f`. */
  function StopReason(outcomes: seq<Result<Bytes>>, f: nat): Option<ReadError>
    requires f <= |outcomes|
  {
    if f == |outcomes| then None
    else if outcomes[f].Err? then Some(outcomes[f].error)
    else Some(WriteFailed)
  }
}
