/** The upload pipeline returns: a measure falls on every step, and until the main goroutine has
    returned some step is possible. */
module PipelineProgress {
  import opened Types
  import opened Placement
  import opened Codec
  import opened Pipeline
  import opened PipelineControl

  // ---- The measure ----

  function Times(k: nat, c: nat): nat {
    if k == 0 then 0 else c + Times(k - 1, c)
  }

  function ChunkCost(p: Params): nat {
    p.tolerance + 3
  }

  function BlockCost(p: Params): nat {
    Times(p.crypto.n, ChunkCost(p)) + 2
  }

  function MainCost(p: Params, m: Main): nat {
    match m
    case Reading(next) => Times(if next <= |p.blocks| then |p.blocks| - next else 0, BlockCost(p) + 2) + 5
    case Pushing(next) => Times(if next <= |p.blocks| then |p.blocks| - next else 0, BlockCost(p) + 2) + 4
    case AwaitCrypto => 4
    case AwaitUploads => 3
    case Deciding => 2
    case Publishing => 1
    case Returned(_) => 0
  }

  function CryptoCost(p: Params, w: CryptoWorker): nat {
    match w
    case Booting => 2
    case Idle => 1
    case Slicing(_, _, _, _, _, chunks) =>
      2 + Times(if |chunks| <= p.crypto.n then p.crypto.n - |chunks| else 0, ChunkCost(p))
    case Exited => 0
  }

  function UploaderCost(u: Uploader): nat {
    match u
    case Waiting => 1
    case Sending(job, tried, hung) =>
      (if hung then 1 else 2) + if tried <= |job.chunk.nodes| then |job.chunk.nodes| - tried else 0
    case Gone => 0
  }

  function JobCost(job: Job): nat {
    |job.chunk.nodes| + 2
  }

  function CryptosCost(p: Params, ws: seq<CryptoWorker>): nat {
    if ws == [] then 0 else CryptoCost(p, ws[0]) + CryptosCost(p, ws[1..])
  }

  function UploadersCost(us: seq<Uploader>): nat {
    if us == [] then 0 else UploaderCost(us[0]) + UploadersCost(us[1..])
  }

  function JobsCost(q: seq<Job>): nat {
    if q == [] then 0 else JobCost(q[0]) + JobsCost(q[1..])
  }

  function Measure(p: Params, s: State): nat {
    MainCost(p, s.main) + Times(|s.cryptoQ|, BlockCost(p)) + CryptosCost(p, s.crypto)
    + JobsCost(s.uploadQ) + UploadersCost(s.uploads)
  }

  lemma {:induction false} CryptosUpdate(p: Params, ws: seq<CryptoWorker>, i: nat, w: CryptoWorker)
    requires i < |ws|
    ensures CryptosCost(p, ws[i := w]) + CryptoCost(p, ws[i]) == CryptosCost(p, ws) + CryptoCost(p, w)
  {
    if i == 0 {
      assert ws[i := w][1..] == ws[1..];
    } else {
      CryptosUpdate(p, ws[1..], i - 1, w);
      assert ws[i := w][1..] == ws[1..][i - 1 := w];
    }
  }

  lemma {:induction false} UploadersUpdate(us: seq<Uploader>, i: nat, u: Uploader)
    requires i < |us|
    ensures UploadersCost(us[i := u]) + UploaderCost(us[i]) == UploadersCost(us) + UploaderCost(u)
  {
    if i == 0 {
      assert us[i := u][1..] == us[1..];
    } else {
      UploadersUpdate(us[1..], i - 1, u);
      assert us[i := u][1..] == us[1..][i - 1 := u];
    }
  }

  lemma {:induction false} JobsAppend(q: seq<Job>, job: Job)
    ensures JobsCost(q + [job]) == JobsCost(q) + JobCost(job)
  {
    if q == [] {
      assert [job][1..] == [];
    } else {
      JobsAppend(q[1..], job);
      assert (q + [job])[1..] == q[1..] + [job];
    }
  }

  /** Every step makes the measure smaller. */
  lemma StepFalls(p: Params, s: State, a: Action)
    requires Control(p, s) && Enabled(p, s, a)
    ensures Measure(p, Apply(p, s, a)) < Measure(p, s)
  {
    match a {
      case PushBlock =>
        PushFalls(p, s, a);
      case ReadBlock | FinishReading | ReadFails | CloseUploads | JoinUploads | CheckErrors | PublishManifest(_, _) =>
        MainFalls(p, s, a);
      case Boot(_) | CryptoExit(_) =>
        WorkerFalls(p, s, a);
      case CryptoFails(_) | StartBlock(_, _, _, _) =>
        BlockFalls(p, s, a);
      case SliceChunk(_, _, _) | RecordBlock(_) =>
        SliceFalls(p, s, a);
      case TakeJob(_) | SkipJob(_) | GiveUp(_) | UploadExit(_) =>
        UploadFalls(p, s, a);
      case TrySave(_, _, _, _) =>
        SaveFalls(p, s, a);
    }
  }

  lemma MainFalls(p: Params, s: State, a: Action)
    requires Control(p, s) && Enabled(p, s, a)
    requires a.ReadBlock? || a.FinishReading? || a.ReadFails? || a.CloseUploads? || a.JoinUploads? || a.CheckErrors?
          || a.PublishManifest?
    ensures Measure(p, Apply(p, s, a)) < Measure(p, s)
  {
    hide SealedOf, RollbackOf, RecordOf, IsOrder, Picked, BlockCost, CryptosCost, JobsCost, UploadersCost, Latch, Queue;
  }

  lemma PushFalls(p: Params, s: State, a: Action)
    requires Control(p, s) && Enabled(p, s, a) && a.PushBlock?
    ensures Measure(p, Apply(p, s, a)) < Measure(p, s)
  {
    hide SealedOf, RollbackOf, RecordOf, IsOrder, Picked, BlockCost, CryptosCost, JobsCost, UploadersCost, Latch, Queue;
  }

  lemma WorkerFalls(p: Params, s: State, a: Action)
    requires Control(p, s) && Enabled(p, s, a)
    requires a.Boot? || a.CryptoExit?
    ensures Measure(p, Apply(p, s, a)) < Measure(p, s)
  {
    hide SealedOf, RollbackOf, RecordOf, IsOrder, Picked, MainCost, CryptosCost, JobsCost, UploadersCost, Control;
    CryptosUpdate(p, s.crypto, a.w, Apply(p, s, a).crypto[a.w]);
  }

  lemma BlockFalls(p: Params, s: State, a: Action)
    requires Control(p, s) && Enabled(p, s, a)
    requires a.CryptoFails? || a.StartBlock?
    ensures Measure(p, Apply(p, s, a)) < Measure(p, s)
  {
    hide SealedOf, RollbackOf, RecordOf, IsOrder, Picked, MainCost, CryptosCost, JobsCost, UploadersCost, Control;
    if a.StartBlock? {
      CryptosUpdate(p, s.crypto, a.w, Apply(p, s, a).crypto[a.w]);
    }
  }

  lemma SliceFalls(p: Params, s: State, a: Action)
    requires Control(p, s) && Enabled(p, s, a)
    requires a.SliceChunk? || a.RecordBlock?
    ensures Measure(p, Apply(p, s, a)) < Measure(p, s)
  {
    hide SealedOf, RollbackOf, RecordOf, IsOrder, MainCost, CryptosCost, JobsCost, UploadersCost, Latch, Queue;
    assert CryptoControl(p, s, a.w, s.crypto[a.w]);
    var s' := Apply(p, s, a);
    CryptosUpdate(p, s.crypto, a.w, s'.crypto[a.w]);
    if a.SliceChunk? {
      JobsAppend(s.uploadQ, s'.uploadQ[|s.uploadQ|]);
      assert |a.targets| <= p.tolerance;
    }
  }

  lemma UploadFalls(p: Params, s: State, a: Action)
    requires Control(p, s) && Enabled(p, s, a)
    requires a.TakeJob? || a.SkipJob? || a.GiveUp? || a.UploadExit?
    ensures Measure(p, Apply(p, s, a)) < Measure(p, s)
  {
    hide SealedOf, RollbackOf, RecordOf, IsOrder, Picked, MainCost, BlockCost, CryptosCost, UploadersCost, Control;
    var s' := Apply(p, s, a);
    if !a.SkipJob? {
      UploadersUpdate(s.uploads, a.u, s'.uploads[a.u]);
    }
  }

  lemma SaveFalls(p: Params, s: State, a: Action)
    requires Enabled(p, s, a) && a.TrySave?
    ensures Measure(p, Apply(p, s, a)) < Measure(p, s)
  {
    hide SealedOf, RollbackOf, RecordOf, IsOrder, Picked, MainCost, BlockCost, CryptosCost, UploadersCost, JobsCost;
    UploadersUpdate(s.uploads, a.u, Apply(p, s, a).uploads[a.u]);
  }

  /** No run is longer than the measure of its first state. */
  lemma {:induction false} RunsEnd(p: Params, s: State, acts: seq<Action>)
    requires Control(p, s) && Runs(p, s, acts)
    ensures Control(p, Exec(p, s, acts))
    ensures |acts| + Measure(p, Exec(p, s, acts)) <= Measure(p, s)
    decreases |acts|
  {
    if acts != [] {
      hide Control, Measure;
      ControlStep(p, s, acts[0]);
      StepFalls(p, s, acts[0]);
      RunsEnd(p, Apply(p, s, acts[0]), acts[1..]);
    }
  }

  // ---- No deadlock ----

  ghost predicate Stuck(p: Params, s: State) {
    !s.main.Returned? && forall a :: !Enabled(p, s, a)
  }

  lemma FreshId(ids: set<ChunkId>) returns (id: ChunkId)
    ensures id !in ids
  {
    var n := 0;
    ghost var left := ids;
    id := "";
    while id in ids
      invariant left <= ids && |id| == n
      invariant forall x :: x in ids && |x| >= n ==> x in left
      decreases left
    {
      left := left - {id};
      id := id + "0";
      n := n + 1;
    }
  }

  /** Steps in which nothing fails. */
  predicate Smooth(p: Params, a: Action) {
    match a
    case ReadFails => false
    case CryptoFails(_) => false
    case SkipJob(_) => false
    case GiveUp(_) => false
    case TrySave(_, _, acked, _) => acked
    case PublishManifest(_, confirmed) => confirmed
    case Boot(w) => w < |p.rsOk| && p.rsOk[w]
    case _ => true
  }

  /** Neither a read error nor a call without an answer. */
  predicate Steady(a: Action) {
    !a.ReadFails? && (a.TrySave? ==> a.returned)
  }

  /** No upload worker waits for an answer that will not come. */
  predicate NoneHung(s: State) {
    forall u :: 0 <= u < |s.uploads| && s.uploads[u].Sending? ==> !s.uploads[u].hung
  }

  /** No upload worker has tried all the nodes of its chunk. */
  predicate Hopeful(s: State) {
    forall u :: 0 <= u < |s.uploads| && s.uploads[u].Sending? ==> s.uploads[u].tried < |s.uploads[u].job.chunk.nodes|
  }

  /** Some upload worker can move, or all of them rest before an empty channel. */
  lemma UploadersMove(p: Params, s: State) returns (a: Option<Action>)
    requires Control(p, s) && p.uploaders > 0 && NoneHung(s)
    ensures a.Some? ==> Enabled(p, s, a.value) && Steady(a.value) && (Hopeful(s) ==> Smooth(p, a.value))
    ensures a.None? ==> s.uploadQ == [] && (s.uploadClosed ==> AllGone(s))
  {
    hide SealedOf, RollbackOf, RecordOf, IsOrder, Picked, Queue, Latch;
    if u :| 0 <= u < |s.uploads| && s.uploads[u].Sending? {
      assert UploadControl(s, s.uploads[u]);
      a := Some(if s.uploads[u].tried < |s.uploads[u].job.chunk.nodes| then TrySave(u, true, true, true) else GiveUp(u));
    } else if u :| 0 <= u < |s.uploads| && s.uploads[u].Waiting? && (s.uploadQ != [] || s.uploadClosed) {
      a := Some(if s.uploadQ != [] then TakeJob(u) else UploadExit(u));
    } else {
      assert s.uploads[0].Waiting? || s.uploads[0].Gone?;
      assert UploadControl(s, s.uploads[0]);
      a := None;
    }
  }

  /** Some crypto worker can move, or all of them rest before an empty open channel or are gone. */
  lemma CryptoMoves(p: Params, s: State) returns (a: Option<Action>)
    requires ValidParams(p) && Control(p, s) && s.uploadQ == []
    ensures a.Some? ==> Steady(a.value)
    ensures a.Some? ==> Enabled(p, s, a.value) && ((forall w :: 0 <= w < |p.rsOk| ==> p.rsOk[w]) ==> Smooth(p, a.value))
    ensures a.None? ==> forall w :: 0 <= w < |s.crypto| ==>
      s.crypto[w].Exited? || (s.crypto[w].Idle? && s.cryptoQ == [] && !s.cryptoClosed)
  {
    hide SealedOf, RollbackOf, RecordOf, IsOrder, Latch, Phase, Lawful;
    if w :| 0 <= w < |s.crypto| && s.crypto[w].Booting? {
      a := Some(Boot(w));
    } else if w :| 0 <= w < |s.crypto| && s.crypto[w].Idle? && (s.cryptoQ != [] || s.cryptoClosed) {
      if s.cryptoQ != [] {
        var coins, order := SomeOrder(p, s.cryptoQ[0]);
        a := Some(StartBlock(w, coins, order, 1));
      } else {
        a := Some(CryptoExit(w));
      }
    } else if w :| 0 <= w < |s.crypto| && s.crypto[w].Slicing? {
      assert CryptoControl(p, s, w, s.crypto[w]);
      if |s.crypto[w].chunks| == p.crypto.n {
        a := Some(RecordBlock(w));
      } else {
        var id := FreshId(p.used + s.issued.Keys);
        var targets := p.nodes[..Min(p.tolerance, |p.nodes|)];
        assert p.nodes == targets + p.nodes[|targets|..];
        assert Picked(p.nodes, p.tolerance, targets);
        a := Some(SliceChunk(w, id, targets));
      }
    } else {
      a := None;
    }
  }

  /** Some random choices and some order of the key parts. */
  lemma SomeOrder(p: Params, b: nat) returns (coins: Coins, order: seq<nat>)
    requires ValidParams(p) && b < |p.blocks|
    ensures GoodCoins(coins) && IsOrder(p, SealedOf(p, b, coins), order)
  {
    coins := Coins([], Zeros(NONCE_SIZE), 0, 0);
    SealedShape(p.crypto, p.round, p.blocks[b], coins);
    hide Lawful, SealBlock;
    order := Enumerate(SealedOf(p, b, coins).parts.Keys);
  }

  lemma {:induction false} Enumerate(keys: set<nat>) returns (order: seq<nat>)
    ensures |order| == |keys| && Distinct(order)
    ensures forall i :: 0 <= i < |order| ==> order[i] in keys
  {
    if keys == {} {
      order := [];
    } else {
      var k :| k in keys;
      var rest := Enumerate(keys - {k});
      order := [k] + rest;
    }
  }

  lemma MainMoves(p: Params, s: State) returns (a: Action)
    requires ValidParams(p) && Control(p, s) && !s.main.Returned?
    requires AllDead(p) ==> |p.blocks| <= p.cryptoCapacity
    requires s.uploadClosed ==> AllGone(s)
    requires forall w :: 0 <= w < |s.crypto| ==>
      s.crypto[w].Exited? || (s.crypto[w].Idle? && s.cryptoQ == [] && !s.cryptoClosed)
    ensures Enabled(p, s, a) && Smooth(p, a) && Steady(a)
  {
    hide SealedOf, RollbackOf, RecordOf, IsOrder, Picked, Latch, Lawful;
    match s.main {
      case Reading(next) =>
        a := if next < |p.blocks| then ReadBlock else FinishReading;
      case Pushing(next) =>
        if w :| 0 <= w < |s.crypto| && s.crypto[w].Idle? {
        } else {
          assert AllDead(p) by {
            forall w | 0 <= w < |p.rsOk|
              ensures !p.rsOk[w]
            {
              assert CryptoControl(p, s, w, s.crypto[w]) && s.crypto[w].Exited?;
            }
          }
        }
        a := PushBlock;
      case AwaitCrypto => a := CloseUploads;
      case AwaitUploads => a := JoinUploads;
      case Deciding => a := CheckErrors;
      case Publishing => a := PublishManifest(true, true);
    }
  }

  /** Until the upload has returned some step is possible, provided that no upload worker waits for an
      answer that will not come, and that some crypto worker started or all blocks fit into the channel. */
  lemma NoDeadlock(p: Params, s: State)
    requires ValidParams(p) && Control(p, s) && !s.main.Returned? && NoneHung(s)
    requires AllDead(p) ==> |p.blocks| <= p.cryptoCapacity
    ensures !Stuck(p, s)
  {
    hide Control, Enabled;
    var a := UploadersMove(p, s);
    if a.None? {
      a := CryptoMoves(p, s);
      if a.None? {
        var b := MainMoves(p, s);
        a := Some(b);
      }
    }
    assert Enabled(p, s, a.value);
  }

  // ---- The deadlock when no crypto worker starts ----

  lemma {:induction false} RunAppend(p: Params, s: State, acts: seq<Action>, a: Action)
    requires Runs(p, s, acts) && Enabled(p, Exec(p, s, acts), a)
    ensures Runs(p, s, acts + [a]) && Exec(p, s, acts + [a]) == Apply(p, Exec(p, s, acts), a)
    decreases |acts|
  {
    hide Enabled, Apply;
    if acts == [] {
      assert [a][1..] == [];
      assert Runs(p, Apply(p, s, a), []);
    } else {
      RunAppend(p, Apply(p, s, acts[0]), acts[1..], a);
      assert (acts + [a])[1..] == acts[1..] + [a];
    }
  }

  /** The first k crypto workers have failed to start. */
  function Booted(p: Params, k: nat): State {
    Init(p).(crypto := seq(|p.rsOk|, i => if i < k then Exited else Booting),
             latch := if k > 0 then Some(CryptoFailure) else None, reported := k > 0)
  }

  /** ... and the producer has put k blocks into the channel. */
  function Filled(p: Params, k: nat): State {
    Booted(p, |p.rsOk|).(main := Reading(k), cryptoQ := seq(k, i => i), pushed := k)
  }

  lemma {:induction false} BootAll(p: Params, k: nat) returns (acts: seq<Action>)
    requires AllDead(p) && k <= |p.rsOk|
    ensures Runs(p, Init(p), acts) && Exec(p, Init(p), acts) == Booted(p, k)
  {
    if k == 0 {
      acts := [];
      assert Booted(p, 0).crypto == Init(p).crypto;
    } else {
      acts := BootAll(p, k - 1);
      RunAppend(p, Init(p), acts, Boot(k - 1));
      acts := acts + [Boot(k - 1)];
      assert Booted(p, k - 1).crypto[k - 1 := Exited] == Booted(p, k).crypto;
    }
  }

  lemma {:induction false} FillAll(p: Params, k: nat) returns (acts: seq<Action>)
    requires AllDead(p) && k <= |p.blocks| && k <= p.cryptoCapacity && |p.rsOk| > 0
    ensures Runs(p, Init(p), acts) && Exec(p, Init(p), acts) == Filled(p, k)
  {
    if k == 0 {
      acts := BootAll(p, |p.rsOk|);
      assert Filled(p, 0) == Booted(p, |p.rsOk|);
    } else {
      acts := FillAll(p, k - 1);
      RunAppend(p, Init(p), acts, ReadBlock);
      acts := acts + [ReadBlock];
      RunAppend(p, Init(p), acts, PushBlock);
      acts := acts + [PushBlock];
      assert Filled(p, k - 1).cryptoQ + [k - 1] == Filled(p, k).cryptoQ;
    }
  }

  lemma Hang(p: Params) returns (acts: seq<Action>)
    requires ValidParams(p) && AllDead(p) && |p.blocks| > p.cryptoCapacity
    ensures Runs(p, Init(p), acts) && Stuck(p, Exec(p, Init(p), acts))
  {
    hide Lawful;
    acts := FillAll(p, p.cryptoCapacity);
    RunAppend(p, Init(p), acts, ReadBlock);
    acts := acts + [ReadBlock];
    HangIsStuck(p, Exec(p, Init(p), acts));
  }

  lemma HangIsStuck(p: Params, s: State)
    requires s == Filled(p, p.cryptoCapacity).(main := Pushing(p.cryptoCapacity))
    ensures Stuck(p, s)
  {
    forall a
      ensures !Enabled(p, s, a)
    {
      assert |s.cryptoQ| == p.cryptoCapacity && s.uploadQ == [];
      assert forall w :: 0 <= w < |s.crypto| ==> s.crypto[w].Exited?;
      assert forall u :: 0 <= u < |s.uploads| ==> s.uploads[u].Waiting?;
    }
  }
}
