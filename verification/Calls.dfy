/** Which nodes the upload workers call for a chunk: those of its list, in order, each once, until one
    acknowledges; a failure is reported only when the whole list has been called in vain. */
module Calls {
  import opened Types
  import opened Pipeline
  import opened PipelineControl
  import opened PipelineContent

  /** The node that a step calls for chunk `id`, if the call returns without an acknowledgement. */
  ghost function InVain(p: Params, s: State, a: Action, id: ChunkId): seq<Addr>
    requires Enabled(p, s, a)
  {
    if a.TrySave? && a.returned && !a.acked && s.uploads[a.u].job.chunk.id == id
    then [s.uploads[a.u].job.chunk.nodes[s.uploads[a.u].tried]] else []
  }

  /** All such calls of a run, in order. */
  ghost function CallsOf(p: Params, s: State, acts: seq<Action>, id: ChunkId): seq<Addr>
    requires Runs(p, s, acts)
    decreases |acts|
  {
    if acts == [] then [] else InVain(p, s, acts[0], id) + CallsOf(p, Apply(p, s, acts[0]), acts[1..], id)
  }

  /** No call was made for a chunk that is not issued, or still queued; those for a chunk at a worker are the
      nodes of its list before the next one. */
  ghost predicate CallsFit(s: State, calls: ChunkId -> seq<Addr>) {
    && (forall id :: id !in s.issued ==> calls(id) == [])
    && (forall i :: 0 <= i < |s.uploadQ| ==> calls(s.uploadQ[i].chunk.id) == [])
    && (forall u :: 0 <= u < |s.uploads| && s.uploads[u].Sending? ==>
          && s.uploads[u].tried <= |s.uploads[u].job.chunk.nodes|
          && calls(s.uploads[u].job.chunk.id) == s.uploads[u].job.chunk.nodes[..s.uploads[u].tried])
  }

  /** The calls after a step. */
  ghost function Later(p: Params, s: State, a: Action, calls: ChunkId -> seq<Addr>): ChunkId -> seq<Addr>
    requires Enabled(p, s, a)
  {
    id => if Enabled(p, s, a) then calls(id) + InVain(p, s, a, id) else []
  }

  lemma FrameCalls(s: State, s': State, calls: ChunkId -> seq<Addr>, calls': ChunkId -> seq<Addr>)
    requires CallsFit(s, calls) && s'.issued == s.issued && s'.uploadQ == s.uploadQ && s'.uploads == s.uploads
    requires forall id :: calls'(id) == calls(id)
    ensures CallsFit(s', calls')
  {
  }

  lemma SliceFits(p: Params, s: State, a: Action, calls: ChunkId -> seq<Addr>)
    requires CallsFit(s, calls) && FlightIssued(s) && Enabled(p, s, a) && a.SliceChunk? && !s.uploadClosed
    ensures CallsFit(Apply(p, s, a), Later(p, s, a, calls))
  {
    hide SealedOf, IsOrder, Placement.Picked;
    assert forall id :: Later(p, s, a, calls)(id) == calls(id) + [];
  }

  lemma TakeFits(p: Params, s: State, a: Action, calls: ChunkId -> seq<Addr>)
    requires CallsFit(s, calls) && Enabled(p, s, a) && (a.TakeJob? || a.SkipJob?)
    ensures CallsFit(Apply(p, s, a), Later(p, s, a, calls))
  {
    assert forall id :: Later(p, s, a, calls)(id) == calls(id) + [];
    assert calls(s.uploadQ[0].chunk.id) == [] == s.uploadQ[0].chunk.nodes[..0];
    assert forall i :: 0 <= i < |s.uploadQ| - 1 ==> s.uploadQ[1..][i] == s.uploadQ[i + 1];
  }

  lemma SaveFits(p: Params, s: State, a: Action, calls: ChunkId -> seq<Addr>)
    requires CallsFit(s, calls) && FlightIssued(s) && Once(s) && Enabled(p, s, a) && a.TrySave?
    ensures CallsFit(Apply(p, s, a), Later(p, s, a, calls))
  {
    hide RecordOf;
    var up, calls', s' := s.uploads[a.u], Later(p, s, a, calls), Apply(p, s, a);
    var nodes, id := up.job.chunk.nodes, up.job.chunk.id;
    assert nodes[..up.tried + 1] == nodes[..up.tried] + [nodes[up.tried]];
    assert forall other :: other != id ==> calls'(other) == calls(other) + [];
    assert SendingId(up, id);
    forall u | 0 <= u < |s'.uploads| && s'.uploads[u].Sending? && u != a.u
      ensures s'.uploads[u] == s.uploads[u] && s.uploads[u].job.chunk.id != id
    {
      assert !SendingId(s.uploads[u], id);
    }
  }

  lemma LeaveFits(p: Params, s: State, a: Action, calls: ChunkId -> seq<Addr>)
    requires CallsFit(s, calls) && Enabled(p, s, a) && (a.GiveUp? || a.UploadExit?)
    ensures CallsFit(Apply(p, s, a), Later(p, s, a, calls))
  {
    assert forall id :: Later(p, s, a, calls)(id) == calls(id) + [];
  }

  lemma MainCallsNone(p: Params, s: State, a: Action)
    requires Enabled(p, s, a)
    requires a.ReadBlock? || a.PushBlock? || a.FinishReading? || a.ReadFails? || a.CloseUploads? || a.JoinUploads?
          || a.CheckErrors? || a.PublishManifest?
    ensures var s' := Apply(p, s, a); s'.issued == s.issued && s'.uploadQ == s.uploadQ && s'.uploads == s.uploads
  {
    hide RollbackOf;
  }

  lemma CryptoCallsNone(p: Params, s: State, a: Action)
    requires Enabled(p, s, a) && (a.Boot? || a.CryptoFails? || a.StartBlock? || a.RecordBlock? || a.CryptoExit?)
    ensures var s' := Apply(p, s, a); s'.issued == s.issued && s'.uploadQ == s.uploadQ && s'.uploads == s.uploads
  {
    hide SealedOf, IsOrder;
  }

  lemma StepFits(p: Params, s: State, a: Action, calls: ChunkId -> seq<Addr>)
    requires Content(p, s) && Control(p, s) && Enabled(p, s, a) && CallsFit(s, calls)
    ensures CallsFit(Apply(p, s, a), Later(p, s, a, calls))
  {
    JobsAreIssued(s);
    assert a.SliceChunk? ==> CryptoControl(p, s, a.w, s.crypto[a.w]) && !s.uploadClosed;
    hide Content, Control, CryptoControl, Enabled, Apply, FlightIssued, CallsFit, Once, SettledRest, Later;
    match a {
      case SliceChunk(_, _, _) => SliceFits(p, s, a, calls);
      case TakeJob(_) | SkipJob(_) => TakeFits(p, s, a, calls);
      case TrySave(_, _, _, _) => SaveFits(p, s, a, calls);
      case GiveUp(_) | UploadExit(_) => LeaveFits(p, s, a, calls);
      case Boot(_) | CryptoFails(_) | StartBlock(_, _, _, _) | RecordBlock(_) | CryptoExit(_) =>
        CryptoCallsNone(p, s, a);
        SameCalls(p, s, a, calls);
      case ReadBlock | PushBlock | FinishReading | ReadFails | CloseUploads | JoinUploads | CheckErrors | PublishManifest(_, _) =>
        MainCallsNone(p, s, a);
        SameCalls(p, s, a, calls);
    }
  }

  lemma SameCalls(p: Params, s: State, a: Action, calls: ChunkId -> seq<Addr>)
    requires Enabled(p, s, a) && !a.TrySave? && CallsFit(s, calls)
    requires var s' := Apply(p, s, a); s'.issued == s.issued && s'.uploadQ == s.uploadQ && s'.uploads == s.uploads
    ensures CallsFit(Apply(p, s, a), Later(p, s, a, calls))
  {
    hide Apply, Enabled;
    assert forall id :: Later(p, s, a, calls)(id) == calls(id) + [];
    FrameCalls(s, Apply(p, s, a), calls, Later(p, s, a, calls));
  }

  /** The calls after a run. */
  ghost function After(p: Params, s: State, acts: seq<Action>, calls: ChunkId -> seq<Addr>): ChunkId -> seq<Addr>
    requires Runs(p, s, acts)
  {
    id => if Runs(p, s, acts) then calls(id) + CallsOf(p, s, acts, id) else []
  }

  lemma AfterFirst(p: Params, s: State, acts: seq<Action>, calls: ChunkId -> seq<Addr>, id: ChunkId)
    requires Runs(p, s, acts) && acts != []
    ensures After(p, Apply(p, s, acts[0]), acts[1..], Later(p, s, acts[0], calls))(id) == After(p, s, acts, calls)(id)
  {
    hide Enabled, Apply, InVain;
    var now, rest := InVain(p, s, acts[0], id), CallsOf(p, Apply(p, s, acts[0]), acts[1..], id);
    assert (calls(id) + now) + rest == calls(id) + (now + rest);
  }

  lemma {:induction false} RunFits(p: Params, s: State, acts: seq<Action>, calls: ChunkId -> seq<Addr>)
    requires Content(p, s) && Control(p, s) && Runs(p, s, acts) && CallsFit(s, calls)
    ensures CallsFit(Exec(p, s, acts), After(p, s, acts, calls))
    decreases |acts|
  {
    hide Content, Control, Enabled, Apply, CallsFit;
    if acts == [] {
      assert forall id :: After(p, s, acts, calls)(id) == calls(id) + [] == calls(id);
      FrameCalls(s, s, calls, After(p, s, acts, calls));
    } else {
      var s', mid := Apply(p, s, acts[0]), Later(p, s, acts[0], calls);
      StepFits(p, s, acts[0], calls);
      ContentStep(p, s, acts[0]);
      RunFits(p, s', acts[1..], mid);
      var end := Exec(p, s', acts[1..]);
      forall id
        ensures After(p, s', acts[1..], mid)(id) == After(p, s, acts, calls)(id)
      {
        AfterFirst(p, s, acts, calls, id);
      }
      hide *;
      FrameCalls(end, end, After(p, s', acts[1..], mid), After(p, s, acts, calls));
    }
  }

  function NoCalls(id: ChunkId): seq<Addr> {
    []
  }

  /** In every run, the calls made in vain for the chunk at an upload worker are the nodes of its list before the
      next one, in order. So the node that acknowledges is the first of the list that does, and when the failure
      of a chunk is reported, its whole list has been called in vain. */
  lemma CalledInOrder(p: Params, acts: seq<Action>, u: nat)
    requires ValidParams(p) && Runs(p, Init(p), acts)
    requires u < |Exec(p, Init(p), acts).uploads| && Exec(p, Init(p), acts).uploads[u].Sending?
    ensures var s := Exec(p, Init(p), acts);
      var job, tried := s.uploads[u].job, s.uploads[u].tried;
      && tried <= |job.chunk.nodes| && CallsOf(p, Init(p), acts, job.chunk.id) == job.chunk.nodes[..tried]
      && (Enabled(p, s, GiveUp(u)) ==> CallsOf(p, Init(p), acts, job.chunk.id) == job.chunk.nodes)
  {
    hide *;
    Beginning(p);
    RunFits(p, Init(p), acts, NoCalls);
    var s := Exec(p, Init(p), acts);
    FitsAt(s, After(p, Init(p), acts, NoCalls), u);
    AfterNone(p, acts, s.uploads[u].job.chunk.id);
    if Enabled(p, s, GiveUp(u)) {
      GiveUpIsLast(p, s, u);
    }
  }

  lemma Beginning(p: Params)
    requires ValidParams(p)
    ensures Content(p, Init(p)) && Control(p, Init(p)) && CallsFit(Init(p), NoCalls)
  {
    ContentInit(p);
    ControlInit(p);
    hide Content, Control, ValidParams;
  }

  lemma GiveUpIsLast(p: Params, s: State, u: nat)
    requires u < |s.uploads| && s.uploads[u].Sending? && s.uploads[u].tried <= |s.uploads[u].job.chunk.nodes|
    requires Enabled(p, s, GiveUp(u))
    ensures s.uploads[u].job.chunk.nodes[..s.uploads[u].tried] == s.uploads[u].job.chunk.nodes
  {
  }

  lemma FitsAt(s: State, calls: ChunkId -> seq<Addr>, u: nat)
    requires CallsFit(s, calls) && u < |s.uploads| && s.uploads[u].Sending?
    ensures s.uploads[u].tried <= |s.uploads[u].job.chunk.nodes|
    ensures calls(s.uploads[u].job.chunk.id) == s.uploads[u].job.chunk.nodes[..s.uploads[u].tried]
  {
  }

  lemma AfterNone(p: Params, acts: seq<Action>, id: ChunkId)
    requires Runs(p, Init(p), acts)
    ensures After(p, Init(p), acts, NoCalls)(id) == CallsOf(p, Init(p), acts, id)
  {
    hide Runs, CallsOf, Init;
    var calls: ChunkId -> seq<Addr> := NoCalls;
    assert After(p, Init(p), acts, calls)(id) == calls(id) + CallsOf(p, Init(p), acts, id) && calls(id) == [];
  }
}
