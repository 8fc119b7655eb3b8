/** How much of a file one storage node must hold: the allocation rule of the bootstrap server gives
    an upload ceil(chunks / tolerance) nodes, so by counting some node acknowledged `tolerance` chunks. */
module LoadBound {
  import opened Types
  import opened Placement
  import opened Codec
  import opened Pipeline
  import opened PipelineControl
  import opened PipelineContent
  import opened Reconstruct
  import opened Upload
  import opened RoundTrip

  function Ids(chunks: seq<Chunk>): (ids: seq<ChunkId>)
    ensures |ids| == |chunks|
    ensures forall i :: 0 <= i < |chunks| ==> ids[i] == chunks[i].id
  {
    seq(|chunks|, i requires 0 <= i < |chunks| => chunks[i].id)
  }

  /** The issued ids that belong to blocks below b. */
  ghost function IdsBelow(issued: map<ChunkId, Job>, b: nat): set<ChunkId> {
    set id | id in issued && issued[id].block < b
  }

  ghost function IdsOf(issued: map<ChunkId, Job>, b: nat): set<ChunkId> {
    set id | id in issued && issued[id].block == b
  }

  lemma IdsIssued(issued: map<ChunkId, Job>, b: nat)
    ensures IdsBelow(issued, b) <= issued.Keys
  {
  }

  lemma BlockHasAll(p: Params, s: State, b: nat)
    requires ValidParams(p) && Content(p, s) && b in s.split
    ensures |IdsOf(s.issued, b)| >= p.crypto.n
  {
    hide Lawful, AllIssuedOk, JobsKept, OnceInFlight, LostKept, StoreKept, SealedOf, Picked, SliceOk, BlockKept;
    var coins, fb := s.secrets[b], s.split[b];
    assert BlockOk(p, s.issued, b, coins, fb);
    BlockIsUnambiguous(p, s.issued, b, coins, fb);
    var ids := Ids(fb.chunks);
    DistinctCount(ids);
    forall id | id in Elements(ids)
      ensures id in IdsOf(s.issued, b)
    {
      var i :| 0 <= i < |ids| && ids[i] == id;
      assert ChunkOk(p, s.issued, b, SealedOf(p, b, coins), fb.chunks[i], i);
    }
    SubsetSize(Elements(ids), IdsOf(s.issued, b));
  }

  lemma {:induction false} ManyIds(p: Params, s: State, b: nat)
    requires ValidParams(p) && Content(p, s)
    requires forall i: nat :: i < b ==> i in s.split
    ensures |IdsBelow(s.issued, b)| >= Product(b, p.crypto.n)
  {
    hide Content, Lawful, IdsBelow, IdsOf;
    if b > 0 {
      hide Product;
      ManyIds(p, s, b - 1);
      BlockHasAll(p, s, b - 1);
      OneMoreBlock(s.issued, b - 1, p.crypto.n);
    }
  }

  lemma OneMoreBlock(issued: map<ChunkId, Job>, b: nat, n: nat)
    ensures |IdsBelow(issued, b + 1)| == |IdsBelow(issued, b)| + |IdsOf(issued, b)|
    ensures Product(b + 1, n) == Product(b, n) + n
  {
    assert IdsBelow(issued, b + 1) == IdsBelow(issued, b) + IdsOf(issued, b);
    assert IdsBelow(issued, b) !! IdsOf(issued, b);
  }

  /** A node of the upload's allocation. */
  ghost predicate Allocated(p: Params) {
    p.tolerance > 0 && |p.nodes| <= CeilDiv(Product(|p.blocks|, p.crypto.n), p.tolerance)
  }

  lemma AllAcknowledged(p: Params, s: State)
    requires ValidParams(p) && Reachable(p, s) && s.main == Returned(Success) && s.skipped == {}
    ensures s.issued.Keys <= s.successful.Keys
    ensures forall id :: id in s.successful ==> s.successful[id] in Elements(p.nodes)
  {
    ReachableKeeps(p, s);
    hide BlocksKept, LostKept, Lawful, JobsKept, Recorded, Pending;
    forall id | id in s.issued
      ensures id in s.successful && s.successful[id] in p.nodes
    {
      IssuedIsSettled(p, s, id);
      assert IssuedOk(p, s, id);
      PickedIsDistinct(p.nodes, p.tolerance, s.issued[id].chunk.nodes);
    }
    assert forall id :: id in s.successful ==> Settled(s, id);
  }

  /** Every complete upload within its allocation leaves some node with at least `tolerance` chunks,
      once there are more than (tolerance - 1)^2 chunks: with 5 shards and tolerance 3, always. */
  lemma SomeNodeHoldsMany(p: Params, s: State) returns (a: Addr)
    requires ValidParams(p) && Reachable(p, s) && s.main == Returned(Success) && s.skipped == {}
    requires Allocated(p) && Product(|p.blocks|, p.crypto.n) > Product(p.tolerance - 1, p.tolerance - 1)
    ensures a in p.nodes && |Load(s.successful, a)| >= p.tolerance
  {
    ManyAcknowledged(p, s);
    AllAcknowledged(p, s);
    hide ValidParams, Reachable, Product, CeilDiv, Load;
    var chunks := Product(|p.blocks|, p.crypto.n);
    FewNodes(chunks, p.tolerance);
    ElementsSize(p.nodes);
    ProductMono(p.tolerance - 1, |Elements(p.nodes)|, CeilDiv(chunks, p.tolerance));
    a := Pigeonhole(s.successful, Elements(p.nodes), p.tolerance - 1);
  }

  lemma ManyAcknowledged(p: Params, s: State)
    requires ValidParams(p) && Reachable(p, s) && s.main == Returned(Success) && s.skipped == {}
    ensures |s.successful| >= Product(|p.blocks|, p.crypto.n)
  {
    ReachableKeeps(p, s);
    NoLostFailure(p, s);
    AllRecorded(p, s);
    AllAcknowledged(p, s);
    hide Content, Control, Lawful, Reachable, Product, IdsBelow, Recorded;
    ManyIds(p, s, |p.blocks|);
    IdsIssued(s.issued, |p.blocks|);
    SubsetSize(IdsBelow(s.issued, |p.blocks|), s.successful.Keys);
  }

  lemma {:induction false} ElementsSize<T>(q: seq<T>)
    ensures |Elements(q)| <= |q|
  {
    if q == [] {
      assert Elements(q) == {};
    } else {
      ElementsSize(q[1..]);
      assert Elements(q) == Elements(q[1..]) + {q[0]} by {
        assert q == [q[0]] + q[1..];
      }
    }
  }

  lemma ProductMono(q: nat, x: nat, y: nat)
    requires x <= y
    ensures Product(q, x) <= Product(q, y)
  {
    Mul(x, y, q);
  }

  // ---- Losing one node ----

  /** Chunks that no listed node yields do not count as retrievable. */
  lemma {:induction false} LostDoNotCount(chunks: seq<Chunk>, at: nat, net: Net, lost: set<ChunkId>)
    requires at <= |chunks| && Unambiguous(chunks)
    requires forall id :: id in lost ==> exists i :: at <= i < |chunks| && chunks[i].id == id && !Retrievable(chunks[i], net)
    ensures CountRetrievable(chunks, at, net) + |lost| <= |chunks| - at
    decreases |chunks| - at
  {
    if at == |chunks| {
      assert lost == {};
    } else {
      hide Retrievable;
      var rest := lost - {chunks[at].id};
      forall id | id in rest
        ensures exists i :: at + 1 <= i < |chunks| && chunks[i].id == id && !Retrievable(chunks[i], net)
      {
        var i :| at <= i < |chunks| && chunks[i].id == id && !Retrievable(chunks[i], net);
        assert i != at;
      }
      LostDoNotCount(chunks, at + 1, net, rest);
    }
  }

  /** For a file of one block, with the shipped parameters (3 of 5 shards, tolerance 3) and one stored
      copy of each shard, losing the data of a single node makes the file unreadable. */
  lemma OneNodeLost(p: Params, s: State) returns (a: Addr)
    requires ValidParams(p) && Reachable(p, s) && s.main == Returned(Success) && s.skipped == {} && s.unacked == {}
    requires Allocated(p) && p.crypto.k == 3 && p.crypto.n == 5 && p.tolerance == 3 && |p.blocks| == 1
    ensures a in p.nodes && ManifestInRange(ManifestOf(p, s))
    ensures forall net: Net, clock: nat -> nat, writes: nat ::
      Honest(net, s.store) && (forall place :: place in net ==> place.0 != a) ==>
        Download(p, s, net, clock, writes) == ([], Some(Insufficient(0)))
  {
    assert Product(1, 5) == 5 && Product(2, 2) == 4;
    a := SomeNodeHoldsMany(p, s);
    ReachableKeeps(p, s);
    ManifestRange(p, s);
    AllRecorded(p, s);
    hide Content, Control, Lawful, Reachable;
    forall net: Net, clock: nat -> nat, writes: nat
      | Honest(net, s.store) && (forall place :: place in net ==> place.0 != a)
      ensures Download(p, s, net, clock, writes) == ([], Some(Insufficient(0)))
    {
      NodeIsMissed(p, s, a, net);
      BlockReads(p, s, 0, net, clock(0));
      FirstFails(p, s, net, clock, writes);
    }
  }

  lemma NodeIsMissed(p: Params, s: State, a: Addr, net: Net)
    requires ValidParams(p) && Content(p, s) && Control(p, s) && s.main == Returned(Success)
    requires s.skipped == {} && s.unacked == {} && p.crypto.n == 5 && |p.blocks| == 1
    requires |Load(s.successful, a)| >= 3
    requires Honest(net, s.store) && forall place :: place in net ==> place.0 != a
    ensures 0 in s.split && CountRetrievable(s.split[0].chunks, 0, net) < 3
  {
    AllRecorded(p, s);
    RecordedBlock(p, s, 0);
    hide Lawful, ValidParams, Control, BlocksKept, JobsKept, OnceInFlight, LostKept;
    var lost, chunks := Load(s.successful, a), s.split[0].chunks;
    forall id | id in lost
      ensures exists i :: 0 <= i < |chunks| && chunks[i].id == id && !Retrievable(chunks[i], net)
    {
      OnlyCopy(p, s, a, net, id);
    }
    hide Content, Honest;
    LostDoNotCount(chunks, 0, net, lost);
  }

  lemma RecordedBlock(p: Params, s: State, b: nat)
    requires Content(p, s) && b in s.split
    ensures |s.split[b].chunks| == p.crypto.n && Unambiguous(s.split[b].chunks)
  {
    assert BlockOk(p, s.issued, b, s.secrets[b], s.split[b]);
    BlockIsUnambiguous(p, s.issued, b, s.secrets[b], s.split[b]);
  }

  /** Without unacknowledged copies a chunk is only where it was acknowledged. */
  lemma SingleCopy(p: Params, s: State, place: Place)
    requires StoreKept(p, s) && s.unacked == {} && place in s.store && place.1 in s.successful
    ensures place.0 == s.successful[place.1]
  {
    assert CopyOk(p, s, place);
  }

  lemma OnlyCopy(p: Params, s: State, a: Addr, net: Net, id: ChunkId)
    requires AllIssuedOk(p, s) && StoreKept(p, s) && s.unacked == {} && id in s.successful && s.successful[id] == a
    requires Honest(net, s.store) && forall place :: place in net ==> place.0 != a
    requires forall id :: id in s.issued ==> Recorded(s, s.issued[id])
    requires forall b: nat :: b in s.split ==> b == 0
    ensures 0 in s.split
    ensures exists i :: 0 <= i < |s.split[0].chunks| && s.split[0].chunks[i].id == id && !Retrievable(s.split[0].chunks[i], net)
  {
    hide Picked, Pending, CopyOk;
    assert IssuedOk(p, s, id) && Recorded(s, s.issued[id]);
    var c := s.issued[id].chunk;
    var i :| 0 <= i < |s.split[0].chunks| && s.split[0].chunks[i] == c;
    if b :| b in c.nodes && (b, c.id) in net {
      SingleCopy(p, s, (b, c.id));
    }
  }

  lemma FirstFails(p: Params, s: State, net: Net, clock: nat -> nat, writes: nat)
    requires ManifestInRange(ManifestOf(p, s)) && |p.blocks| == 1
    requires BlockResult(p.crypto, ManifestOf(p, s), net, 0, clock(0)) == Err(Insufficient(0))
    ensures Download(p, s, net, clock, writes) == ([], Some(Insufficient(0)))
  {
    hide BlockResult, ManifestInRange;
  }
}
