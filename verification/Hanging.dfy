/** When an upload can hang: its calls to storage nodes have no deadline, and its channels are bounded. */
module Hanging {
  import opened Types
  import opened Placement
  import opened Codec
  import opened Pipeline
  import opened PipelineControl
  import opened PipelineContent
  import opened PipelineProgress

  /** A node that may leave a call unanswered is allocated, and blocks are sliced and sent. */
  ghost predicate MuteTarget(p: Params) {
    && !AllDead(p) && p.blocks != [] && p.tolerance > 0
    && exists a :: a in p.nodes && a in p.mute
  }

  /** No crypto worker starts, and the file does not fit into the channel. */
  ghost predicate Clogged(p: Params) {
    AllDead(p) && |p.blocks| > p.cryptoCapacity
  }

  // ---- A stuck upload has one of the two causes ----

  /** The job at a worker was sliced from a block, and goes to allocated nodes. */
  lemma JobHasOrigin(p: Params, s: State, u: nat)
    requires Content(p, s) && Control(p, s) && u < |s.uploads| && s.uploads[u].Sending?
    ensures !AllDead(p) && p.blocks != []
    ensures Picked(p.nodes, p.tolerance, s.uploads[u].job.chunk.nodes)
  {
    hide BlockOk, Picked, OnceInFlight, StoreKept, LostKept, ChunkKept, IsOrder, SealedOf, ChunksOk, BlockKept, Phase, Latch,
      UploadControl;
    var job := s.uploads[u].job;
    assert JobOk(s, job);
    assert IssuedOk(p, s, job.chunk.id);
    if w: nat :| Pending(s, w, s.issued[job.chunk.id]) {
      assert CryptoControl(p, s, w, s.crypto[w]) && SliceOk(p, s, s.crypto[w]);
    } else {
      assert job.block < s.taken;
    }
  }

  lemma StuckHasCause(p: Params, s: State)
    requires ValidParams(p) && Content(p, s) && Control(p, s) && Stuck(p, s)
    ensures Clogged(p) || MuteTarget(p)
  {
    hide Stuck, Lawful, Content;
    if NoneHung(s) {
      if !Clogged(p) {
        hide Control;
        RunsOn(p, s);
      }
    } else {
      var u :| 0 <= u < |s.uploads| && s.uploads[u].Sending? && s.uploads[u].hung;
      assert HungControl(p, s.uploads[u]);
      hide Control, AllDead;
      JobHasOrigin(p, s, u);
      PickedIsDistinct(p.nodes, p.tolerance, s.uploads[u].job.chunk.nodes);
    }
  }

  lemma RunsOn(p: Params, s: State)
    requires ValidParams(p) && Control(p, s) && NoneHung(s) && !Clogged(p)
    ensures !Stuck(p, s)
  {
    if !s.main.Returned? {
      NoDeadlock(p, s);
    }
  }

  // ---- A node that does not answer can hang the upload ----

  lemma StartingWith(nodes: seq<Addr>, count: nat, a: Addr) returns (targets: seq<Addr>)
    requires a in nodes && count > 0
    ensures Picked(nodes, count, targets) && targets != [] && targets[0] == a
  {
    var i :| 0 <= i < |nodes| && nodes[i] == a;
    var list := [a] + nodes[..i] + nodes[i + 1..];
    assert nodes == nodes[..i] + [a] + nodes[i + 1..];
    assert multiset(list) == multiset(nodes);
    var n := Min(count, |nodes|);
    targets := list[..n];
    assert list == targets + list[n..];
  }

  /** An upload whose crypto worker `w` has started and sliced one chunk of the first block, which goes
      to `a` first, and whose first upload worker has taken it. */
  ghost predicate FirstTaken(p: Params, s: State, a: Addr) {
    && s.main == Reading(1) && !s.cryptoClosed && s.deletions == {} && s.store == p.before && s.latch.None?
    && NoneHung(s) && s.uploads != [] && s.uploads[0].Sending? && !s.uploads[0].hung && s.uploads[0].tried == 0
    && s.uploads[0].job.chunk.nodes != [] && s.uploads[0].job.chunk.nodes[0] == a
    && s.uploads[0].job.chunk.id !in p.used
  }

  lemma TakeFirst(p: Params, w: nat, a: Addr) returns (acts: seq<Action>)
    requires ValidParams(p) && w < |p.rsOk| && p.rsOk[w] && p.blocks != []
    requires a in p.nodes && p.tolerance > 0
    ensures Runs(p, Init(p), acts) && FirstTaken(p, Exec(p, Init(p), acts), a)
  {
    var coins, order := SomeOrder(p, 0);
    var id := FreshId(p.used);
    var targets := StartingWith(p.nodes, p.tolerance, a);
    hide Lawful, Picked, IsOrder, SealedOf, Runs, Exec, Enabled, Apply, Init, FirstStarted, FirstQueued, FirstTaken;
    acts := StartFirst(p, w, coins, order);
    SliceFirst(p, Exec(p, Init(p), acts), w, coins, order, id, targets);
    RunAppend(p, Init(p), acts, SliceChunk(w, id, targets));
    acts := acts + [SliceChunk(w, id, targets)];
    TakeIt(p, Exec(p, Init(p), acts), id, targets);
    RunAppend(p, Init(p), acts, TakeJob(0));
    acts := acts + [TakeJob(0)];
  }

  /** One chunk is in the upload channel, and no upload worker has a job. */
  ghost predicate FirstQueued(p: Params, s: State, id: ChunkId, targets: seq<Addr>) {
    && s.main == Reading(1) && !s.cryptoClosed && s.deletions == {} && s.store == p.before && s.latch.None?
    && s.uploads == Init(p).uploads && |s.uploadQ| == 1
    && s.uploadQ[0].chunk.id == id && s.uploadQ[0].chunk.nodes == targets
  }

  lemma SliceFirst(p: Params, s: State, w: nat, coins: Coins, order: seq<nat>, id: ChunkId, targets: seq<Addr>)
    requires ValidParams(p) && p.blocks != [] && FirstStarted(p, s, w, coins, order)
    requires IsOrder(p, SealedOf(p, 0, coins), order) && id !in p.used && Picked(p.nodes, p.tolerance, targets)
    ensures Enabled(p, s, SliceChunk(w, id, targets))
    ensures FirstQueued(p, Apply(p, s, SliceChunk(w, id, targets)), id, targets)
  {
    LawfulSizes(p.crypto);
    hide Lawful, Picked, SealedOf;
  }

  lemma TakeIt(p: Params, s: State, id: ChunkId, targets: seq<Addr>)
    requires ValidParams(p) && FirstQueued(p, s, id, targets) && targets != [] && id !in p.used
    ensures Enabled(p, s, TakeJob(0)) && FirstTaken(p, Apply(p, s, TakeJob(0)), targets[0])
  {
    hide Lawful;
  }

  /** Crypto worker `w` has started on the first block. */
  ghost predicate FirstStarted(p: Params, s: State, w: nat, coins: Coins, order: seq<nat>)
    requires p.blocks != []
  {
    && s == Init(p).(main := Reading(1), pushed := 1, taken := 1, crypto := s.crypto)
    && w < |s.crypto| && s.crypto[w] == Slicing(0, coins, SealedOf(p, 0, coins), order, 1, [])
  }

  lemma StartFirst(p: Params, w: nat, coins: Coins, order: seq<nat>) returns (acts: seq<Action>)
    requires ValidParams(p) && w < |p.rsOk| && p.rsOk[w] && p.blocks != []
    requires GoodCoins(coins) && IsOrder(p, SealedOf(p, 0, coins), order)
    ensures Runs(p, Init(p), acts) && FirstStarted(p, Exec(p, Init(p), acts), w, coins, order)
  {
    hide Lawful, Picked, IsOrder, SealedOf;
    var none: seq<Action> := [];
    RunAppend(p, Init(p), none, ReadBlock);
    RunAppend(p, Init(p), none + [ReadBlock], PushBlock);
    RunAppend(p, Init(p), none + [ReadBlock] + [PushBlock], Boot(w));
    acts := none + [ReadBlock] + [PushBlock] + [Boot(w)];
    RunAppend(p, Init(p), acts, StartBlock(w, coins, order, 1));
    acts := acts + [StartBlock(w, coins, order, 1)];
  }

  /** A worker that waits in vain goes on waiting, and the main goroutine cannot get past it. */
  lemma HungStays(p: Params, s: State, a: Action, u: nat)
    requires Control(p, s) && Enabled(p, s, a) && !a.ReadFails? && !s.main.Returned?
    requires u < |s.uploads| && s.uploads[u].Sending? && s.uploads[u].hung
    ensures var s' := Apply(p, s, a);
      !s'.main.Returned? && u < |s'.uploads| && s'.uploads[u].Sending? && s'.uploads[u].hung
  {
    hide Lawful, Picked, IsOrder, SealedOf, RollbackOf, RecordOf, Queue, CryptoControl, UploadControl, HungControl, Latch;
  }

  /** Once a worker is hung, the upload can run on only until it is stuck. */
  lemma {:induction false} RunUntilStuck(p: Params, s: State, u: nat) returns (acts: seq<Action>)
    requires Control(p, s) && !s.main.Returned? && u < |s.uploads| && s.uploads[u].Sending? && s.uploads[u].hung
    ensures Runs(p, s, acts) && Stuck(p, Exec(p, s, acts))
    decreases Measure(p, s)
  {
    if Stuck(p, s) {
      acts := [];
    } else {
      var a := OtherThanFailing(p, s);
      HungStays(p, s, a, u);
      ControlStep(p, s, a);
      StepFalls(p, s, a);
      hide Control, Enabled, Apply, Measure, Stuck;
      var rest := RunUntilStuck(p, Apply(p, s, a), u);
      acts := [a] + rest;
      assert acts[1..] == rest;
    }
  }

  lemma OtherThanFailing(p: Params, s: State) returns (a: Action)
    requires !Stuck(p, s) && !s.main.Returned?
    ensures Enabled(p, s, a) && !a.ReadFails?
  {
    hide Picked, IsOrder, SealedOf;
    var b :| Enabled(p, s, b);
    if b.ReadFails? {
      a := if s.main.next < |p.blocks| then ReadBlock else FinishReading;
    } else {
      a := b;
    }
  }

  lemma MuteHangs(p: Params) returns (acts: seq<Action>)
    requires ValidParams(p) && MuteTarget(p)
    ensures Runs(p, Init(p), acts) && Stuck(p, Exec(p, Init(p), acts))
  {
    var w :| 0 <= w < |p.rsOk| && p.rsOk[w];
    var a :| a in p.nodes && a in p.mute;
    var first := TakeFirst(p, w, a);
    hide Stuck, Lawful, Runs, Exec;
    var call := TrySave(0, false, false, false);
    RunAppend(p, Init(p), first, call);
    var before := first + [call];
    ControlInit(p);
    hide Init;
    RunsEnd(p, Init(p), before);
    var rest := RunUntilStuck(p, Exec(p, Init(p), before), 0);
    RunsJoin(p, Init(p), before, rest);
    acts := before + rest;
  }

  lemma {:induction false} RunsJoin(p: Params, s: State, acts: seq<Action>, more: seq<Action>)
    requires Runs(p, s, acts) && Runs(p, Exec(p, s, acts), more)
    ensures Runs(p, s, acts + more) && Exec(p, s, acts + more) == Exec(p, Exec(p, s, acts), more)
    decreases |acts|
  {
    hide Enabled, Apply;
    if acts == [] {
      assert acts + more == more;
    } else {
      RunsJoin(p, Apply(p, s, acts[0]), acts[1..], more);
      assert (acts + more)[1..] == acts[1..] + more;
    }
  }

  /** An upload can hang exactly in two cases: reedsolomon.New fails in every crypto worker and the file has
      more blocks than the channel takes; or some worker starts, the file is not empty, and one of the
      nodes that chunks are sent to may leave a call unanswered. */
  lemma DeadlockIff(p: Params)
    requires ValidParams(p)
    ensures (exists acts :: Runs(p, Init(p), acts) && Stuck(p, Exec(p, Init(p), acts))) <==> Clogged(p) || MuteTarget(p)
  {
    hide Control, Content, Stuck, Lawful, Enabled, Init;
    forall acts | Runs(p, Init(p), acts) && Stuck(p, Exec(p, Init(p), acts))
      ensures Clogged(p) || MuteTarget(p)
    {
      ContentInit(p);
      ControlInit(p);
      RunKeeps(p, Init(p), acts);
      StuckHasCause(p, Exec(p, Init(p), acts));
    }
    if Clogged(p) {
      var acts := Hang(p);
    } else if MuteTarget(p) {
      var acts := MuteHangs(p);
    }
  }

  /** Without these the upload returns: every run is finite, with a bound known at the start, and where it
      cannot go on the main goroutine has returned. */
  lemma UploadReturns(p: Params, acts: seq<Action>)
    requires ValidParams(p) && Runs(p, Init(p), acts)
    ensures |acts| <= Measure(p, Init(p))
    ensures !Clogged(p) && !MuteTarget(p) && (forall a :: !Enabled(p, Exec(p, Init(p), acts), a)) ==>
      Exec(p, Init(p), acts).main.Returned?
  {
    ControlInit(p);
    ContentInit(p);
    hide Control, Content, Enabled, Lawful, Measure, Init, Clogged, MuteTarget;
    RunsEnd(p, Init(p), acts);
    RunKeeps(p, Init(p), acts);
    var s := Exec(p, Init(p), acts);
    if Stuck(p, s) {
      StuckHasCause(p, s);
    }
  }
}
