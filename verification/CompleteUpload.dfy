/** When an upload can complete at all. */
module CompleteUpload {
  import opened Types
  import opened Placement
  import opened Codec
  import opened Pipeline
  import opened PipelineControl
  import opened PipelineContent
  import opened PipelineProgress
  import opened Upload
  import opened Hanging

  /** Nothing has gone wrong so far, and every chunk has a node to go to. */
  ghost predicate Clean(p: Params, s: State) {
    && !s.reported && s.skipped == {} && s.unacked == {} && Hopeful(s) && NoneHung(s)
    && (forall j :: 0 <= j < |s.uploadQ| ==> s.uploadQ[j].chunk.nodes != [])
    && (forall w :: 0 <= w < |s.crypto| && s.crypto[w].Slicing? ==> p.blocks != [])
    && (s.main.Returned? ==> s.main.outcome == Success)
  }

  predicate AllStart(p: Params) {
    forall w :: 0 <= w < |p.rsOk| ==> p.rsOk[w]
  }

  /** There is a node for every chunk. */
  predicate Served(p: Params) {
    p.blocks == [] || (p.nodes != [] && p.tolerance > 0)
  }

  ghost predicate AtReturn(p: Params, s: State, acts: seq<Action>) {
    Runs(p, s, acts) && Exec(p, s, acts).main == Returned(Success) && Exec(p, s, acts).skipped == {}
  }

  lemma SmoothMain(p: Params, s: State, a: Action)
    requires Control(p, s) && Clean(p, s) && Enabled(p, s, a) && Smooth(p, a) && !s.main.Returned?
    requires a.ReadBlock? || a.PushBlock? || a.FinishReading? || a.CloseUploads? || a.JoinUploads? || a.CheckErrors?
          || a.PublishManifest?
    ensures Clean(p, Apply(p, s, a))
  {
    hide SealedOf, RollbackOf, RecordOf, IsOrder, Picked, Queue, CryptoControl, UploadControl, Phase, Lawful;
  }

  lemma SmoothCrypto(p: Params, s: State, a: Action)
    requires Clean(p, s) && Enabled(p, s, a) && Smooth(p, a) && Served(p)
    requires a.Boot? || a.StartBlock? || a.SliceChunk? || a.RecordBlock? || a.CryptoExit?
    ensures Clean(p, Apply(p, s, a))
  {
    hide SealedOf, RollbackOf, RecordOf, Lawful;
  }

  lemma SmoothUpload(p: Params, s: State, a: Action)
    requires Clean(p, s) && Enabled(p, s, a) && Smooth(p, a)
    requires a.TakeJob? || a.TrySave? || a.UploadExit?
    ensures Clean(p, Apply(p, s, a))
  {
    hide SealedOf, RollbackOf, RecordOf, IsOrder, Picked, Lawful;
  }

  lemma SmoothStep(p: Params, s: State, a: Action)
    requires Control(p, s) && Clean(p, s) && Enabled(p, s, a) && Smooth(p, a) && !s.main.Returned? && Served(p)
    ensures Clean(p, Apply(p, s, a))
  {
    hide Control, Clean, Enabled, Apply, Served;
    match a {
      case ReadBlock | PushBlock | FinishReading | CloseUploads | JoinUploads | CheckErrors | PublishManifest(_, _) =>
        SmoothMain(p, s, a);
      case Boot(_) | StartBlock(_, _, _, _) | SliceChunk(_, _, _) | RecordBlock(_) | CryptoExit(_) => SmoothCrypto(p, s, a);
      case TakeJob(_) | TrySave(_, _, _, _) | UploadExit(_) => SmoothUpload(p, s, a);
      case _ =>
    }
  }

  /** As long as nothing failed, there is a step in which nothing fails. */
  lemma SmoothMove(p: Params, s: State) returns (a: Action)
    requires ValidParams(p) && AllStart(p) && Control(p, s) && Hopeful(s) && NoneHung(s) && !s.main.Returned?
    ensures Enabled(p, s, a) && Smooth(p, a)
  {
    assert !AllDead(p) by {
      assert p.rsOk[0];
    }
    hide Control, Enabled, Hopeful, NoneHung;
    var move := UploadersMove(p, s);
    if move.None? {
      move := CryptoMoves(p, s);
      if move.None? {
        var last := MainMoves(p, s);
        move := Some(last);
      }
    }
    a := move.value;
  }

  lemma MainNotReturned(p: Params, s: State, a: Action)
    requires Control(p, s) && Clean(p, s) && Enabled(p, s, a) && !s.main.Returned?
    requires a.ReadBlock? || a.PushBlock? || a.FinishReading? || a.CloseUploads? || a.JoinUploads? || a.CheckErrors?
    ensures !Apply(p, s, a).main.Returned?
  {
    hide RollbackOf, Queue, CryptoControl, UploadControl, Phase, Hopeful, NoneHung;
  }

  lemma CryptoNotReturned(p: Params, s: State, a: Action)
    requires Enabled(p, s, a) && (a.Boot? || a.StartBlock? || a.SliceChunk? || a.RecordBlock? || a.CryptoExit?)
    ensures Apply(p, s, a).main == s.main
  {
    hide SealedOf, IsOrder, Picked, NextChunk;
  }

  lemma UploadNotReturned(p: Params, s: State, a: Action)
    requires Enabled(p, s, a) && (a.TakeJob? || a.TrySave? || a.UploadExit?)
    ensures Apply(p, s, a).main == s.main
  {
    hide RecordOf;
  }

  /** Without a failure the main goroutine returns only from publishing. */
  lemma NotYetReturned(p: Params, s: State, a: Action)
    requires Control(p, s) && Clean(p, s) && Enabled(p, s, a) && Smooth(p, a) && !s.main.Returned? && !s.main.Publishing?
    ensures !Apply(p, s, a).main.Returned?
  {
    assert !a.PublishManifest?;
    hide Control, Clean, Enabled, Apply;
    match a {
      case ReadBlock | PushBlock | FinishReading | CloseUploads | JoinUploads | CheckErrors => MainNotReturned(p, s, a);
      case Boot(_) | StartBlock(_, _, _, _) | SliceChunk(_, _, _) | RecordBlock(_) | CryptoExit(_) => CryptoNotReturned(p, s, a);
      case TakeJob(_) | TrySave(_, _, _, _) | UploadExit(_) => UploadNotReturned(p, s, a);
      case _ =>
    }
  }

  /** An upload in which nothing fails gets to the point where it sends its manifest. */
  lemma {:induction false} ToManifest(p: Params, s: State) returns (acts: seq<Action>)
    requires ValidParams(p) && AllStart(p) && Served(p) && Control(p, s) && Clean(p, s) && !s.main.Returned?
    ensures Runs(p, s, acts) && Exec(p, s, acts).main == Publishing && Clean(p, Exec(p, s, acts))
    decreases Measure(p, s)
  {
    if s.main.Publishing? {
      acts := [];
    } else {
      var a := SmoothMove(p, s);
      SmoothStep(p, s, a);
      NotYetReturned(p, s, a);
      ControlStep(p, s, a);
      StepFalls(p, s, a);
      hide Control, Clean, Enabled, Apply, ValidParams, Measure, AllStart, Served;
      var rest := ToManifest(p, Apply(p, s, a));
      acts := [a] + rest;
      assert acts[1..] == rest;
    }
  }

  lemma InitIsClean(p: Params)
    requires ValidParams(p)
    ensures Control(p, Init(p)) && Clean(p, Init(p))
  {
    ControlInit(p);
    hide Control, Lawful;
  }

  /** Success needs every crypto worker to have started, and a node for the chunks. */
  lemma SuccessNeeds(p: Params, s: State)
    requires ValidParams(p) && Reachable(p, s) && s.main == Returned(Success) && s.skipped == {}
    ensures AllStart(p) && Served(p)
  {
    ReachableKeeps(p, s);
    SuccessIsComplete(p, s);
    hide Content, Lawful, BlockOk;
    forall w | 0 <= w < |p.rsOk|
      ensures p.rsOk[w]
    {
      assert CryptoControl(p, s, w, s.crypto[w]);
    }
    if p.blocks != [] {
      assert 0 in s.split;
      BlockNeedsNode(p, s);
    }
  }

  lemma BlockNeedsNode(p: Params, s: State)
    requires ValidParams(p) && 0 in s.split && 0 in s.secrets && BlockOk(p, s.issued, 0, s.secrets[0], s.split[0])
    requires forall c :: Listed(s, c) ==> Acknowledged(p, s, c)
    ensures p.nodes != [] && p.tolerance > 0
  {
    LawfulSizes(p.crypto);
    hide Lawful, SealedOf;
    var c := s.split[0].chunks[0];
    assert ChunkOk(p, s.issued, 0, SealedOf(p, 0, s.secrets[0]), c, 0);
    assert Listed(s, c);
    assert Acknowledged(p, s, c);
  }

  /** A complete upload is possible exactly when reedsolomon.New succeeds in every crypto worker and,
      unless the file is empty, at least one node was allocated and is used for each chunk. */
  lemma CompletePossibleIff(p: Params)
    requires ValidParams(p)
    ensures (exists acts :: AtReturn(p, Init(p), acts)) <==> AllStart(p) && Served(p)
  {
    if AllStart(p) && Served(p) {
      InitIsClean(p);
      hide Control, Lawful, Clean, Init, AllStart, Served, Runs, Exec;
      var acts := ToManifest(p, Init(p));
      Confirm(p, Exec(p, Init(p), acts));
      RunAppend(p, Init(p), acts, PublishManifest(true, true));
      assert AtReturn(p, Init(p), acts + [PublishManifest(true, true)]);
    }
    if acts :| AtReturn(p, Init(p), acts) {
      hide Init, AllStart, Served;
      SuccessNeeds(p, Exec(p, Init(p), acts));
    }
  }

  lemma Confirm(p: Params, s: State)
    requires s.main == Publishing && Clean(p, s)
    ensures Enabled(p, s, PublishManifest(true, true))
    ensures var s' := Apply(p, s, PublishManifest(true, true)); s'.main == Returned(Success) && s'.skipped == {}
  {
    hide RollbackOf, Hopeful, NoneHung;
  }

  // ---- A lost confirmation ----

  /** The bootstrap server may store the manifest and its answer be lost. The upload then deletes every copy that
      the stored manifest lists as acknowledged, and nothing takes the manifest back. */
  lemma LostConfirmationStrands(p: Params) returns (acts: seq<Action>)
    requires ValidParams(p) && AllStart(p) && Served(p)
    ensures Runs(p, Init(p), acts)
    ensures var s := Exec(p, Init(p), acts);
      && s.main == Returned(ManifestFailed) && s.manifestStored
      && (forall b: nat :: b < |p.blocks| <==> b in s.split)
      && (forall c :: Listed(s, c) ==> c.id in s.successful && (s.successful[c.id], c.id) in s.deletions)
  {
    InitIsClean(p);
    var lost := PublishManifest(true, false);
    hide Control, ValidParams, Clean, Init, AllStart, Served, Runs, Exec, Listed, Reachable;
    var first := ToManifest(p, Init(p));
    LoseConfirmation(p, Exec(p, Init(p), first));
    RunAppend(p, Init(p), first, lost);
    acts := first + [lost];
    ReachedBy(p, acts);
    var s := Exec(p, Init(p), acts);
    forall c | Listed(s, c)
      ensures c.id in s.successful && (s.successful[c.id], c.id) in s.deletions
    {
      ListedIsAcked(p, s, c);
    }
    ReachableKeeps(p, s);
    hide Content;
    UnreportedIsRecorded(p, s);
  }

  lemma ReachedBy(p: Params, acts: seq<Action>)
    requires Runs(p, Init(p), acts)
    ensures Reachable(p, Exec(p, Init(p), acts))
  {
  }

  lemma LoseConfirmation(p: Params, s: State)
    requires s.main == Publishing && Clean(p, s)
    ensures Enabled(p, s, PublishManifest(true, false))
    ensures var s' := Apply(p, s, PublishManifest(true, false));
      && s'.main == Returned(ManifestFailed) && s'.manifestStored && s'.skipped == {} && !s'.reported
      && s'.deletions == RollbackOf(s'.successful)
  {
    hide RollbackOf, Hopeful, NoneHung;
  }

  lemma UnreportedIsRecorded(p: Params, s: State)
    requires ValidParams(p) && Content(p, s) && Control(p, s) && s.main == Returned(ManifestFailed) && !s.reported
    ensures forall b: nat :: b < |p.blocks| <==> b in s.split
  {
    AllRecorded(p, s);
  }

  lemma ListedIsAcked(p: Params, s: State, c: Chunk)
    requires ValidParams(p) && Reachable(p, s) && s.main == Returned(ManifestFailed) && !s.reported && s.skipped == {}
    requires s.deletions == RollbackOf(s.successful) && Listed(s, c)
    ensures c.id in s.successful && (s.successful[c.id], c.id) in s.deletions
  {
    ReachableKeeps(p, s);
    hide Listed, Content, Lawful, Reachable;
    ListedIsIssued(p, s, c);
    IssuedIsSettled(p, s, c.id);
  }

  // ---- Success with nothing stored ----

  /** Nothing has gone wrong, and no chunk was sent anywhere. */
  ghost predicate Unsent(s: State) {
    && !s.reported && s.successful == map[]
    && (forall u :: 0 <= u < |s.uploads| ==> !s.uploads[u].Sending?)
    && (s.main.Returned? ==> s.main.outcome == Success)
  }

  predicate Skipping(p: Params, a: Action) {
    a.SkipJob? || (Smooth(p, a) && !a.TakeJob? && !a.TrySave?)
  }

  lemma SkippingMain(p: Params, s: State, a: Action)
    requires Control(p, s) && Unsent(s) && Enabled(p, s, a) && Skipping(p, a) && !s.main.Returned?
    requires a.ReadBlock? || a.PushBlock? || a.FinishReading? || a.CloseUploads? || a.JoinUploads? || a.CheckErrors?
          || a.PublishManifest?
    ensures Unsent(Apply(p, s, a))
  {
    hide SealedOf, RollbackOf, RecordOf, IsOrder, Picked, Queue, CryptoControl, UploadControl, Phase, Lawful;
  }

  lemma SkippingWorkers(p: Params, s: State, a: Action)
    requires Unsent(s) && Enabled(p, s, a) && Skipping(p, a)
    requires a.Boot? || a.StartBlock? || a.SliceChunk? || a.RecordBlock? || a.CryptoExit? || a.SkipJob? || a.UploadExit?
    ensures Unsent(Apply(p, s, a))
  {
    hide SealedOf, RollbackOf, RecordOf, IsOrder, Picked, Lawful;
  }

  lemma SkippingStep(p: Params, s: State, a: Action)
    requires Control(p, s) && Unsent(s) && Enabled(p, s, a) && Skipping(p, a) && !s.main.Returned?
    ensures Unsent(Apply(p, s, a))
  {
    hide Control, Unsent, Enabled, Apply;
    match a {
      case ReadBlock | PushBlock | FinishReading | CloseUploads | JoinUploads | CheckErrors | PublishManifest(_, _) =>
        SkippingMain(p, s, a);
      case _ => SkippingWorkers(p, s, a);
    }
  }

  lemma SkippingMove(p: Params, s: State) returns (a: Action)
    requires ValidParams(p) && AllStart(p) && Control(p, s) && Unsent(s) && !s.main.Returned?
    ensures Enabled(p, s, a) && Skipping(p, a)
  {
    hide Control, Lawful, Picked, IsOrder, SealedOf;
    a := SmoothMove(p, s);
    if a.TakeJob? {
      a := SkipJob(a.u);
    }
  }

  lemma {:induction false} SkipAll(p: Params, s: State) returns (acts: seq<Action>)
    requires ValidParams(p) && AllStart(p) && Control(p, s) && Unsent(s)
    ensures Runs(p, s, acts) && Exec(p, s, acts).main == Returned(Success) && Unsent(Exec(p, s, acts))
    decreases Measure(p, s)
  {
    if s.main.Returned? {
      acts := [];
    } else {
      var a := SkippingMove(p, s);
      SkippingStep(p, s, a);
      ControlStep(p, s, a);
      StepFalls(p, s, a);
      hide Control, Unsent, Enabled, Apply, ValidParams, Measure, AllStart;
      var rest := SkipAll(p, Apply(p, s, a));
      acts := [a] + rest;
      assert acts[1..] == rest;
    }
  }

  /** Since a marshalling or signing failure is skipped without a report, every upload whose crypto workers
      start has a run that succeeds although none of the chunks in its manifest was stored. */
  lemma HollowSuccess(p: Params) returns (acts: seq<Action>)
    requires ValidParams(p) && AllStart(p)
    ensures Runs(p, Init(p), acts)
    ensures var s := Exec(p, Init(p), acts);
      && s.main == Returned(Success)
      && (forall b: nat :: b < |p.blocks| <==> b in s.split)
      && (forall c :: Listed(s, c) ==> !Acknowledged(p, s, c))
  {
    ControlInit(p);
    assert Unsent(Init(p));
    acts := SkipAll(p, Init(p));
    var s := Exec(p, Init(p), acts);
    hide Control, Content, Lawful, Init, BlockOk;
    assert Reachable(p, s);
    SuccessIsComplete(p, s);
  }

  // ---- A read failure ----

  /** The read after the first block, if that is full, may fail when a copy of its first chunk is already
      stored and acknowledged. Nothing deletes that copy, then or (ReadFailureLeaks) later. */
  lemma ReadFailureStrands(p: Params, w: nat) returns (acts: seq<Action>, place: Place)
    requires ValidParams(p) && w < |p.rsOk| && p.rsOk[w] && p.blocks != [] && |p.blocks[0]| == p.blockSize
    requires p.nodes != [] && p.tolerance > 0
    ensures Runs(p, Init(p), acts)
    ensures var s := Exec(p, Init(p), acts);
      s.main == Returned(ReadFailed) && place in s.store && place !in p.before && s.deletions == {}
  {
    hide Lawful, Runs, Exec, Init;
    var first := TakeFirst(p, w, p.nodes[0]);
    var s := Exec(p, Init(p), first);
    place := StoreAndFail(p, s, p.nodes[0]);
    hide Enabled, Apply, FirstTaken;
    RunAppend(p, Init(p), first, TrySave(0, true, true, true));
    RunAppend(p, Init(p), first + [TrySave(0, true, true, true)], ReadFails);
    acts := first + [TrySave(0, true, true, true)] + [ReadFails];
  }

  lemma StoreAndFail(p: Params, s: State, a: Addr) returns (place: Place)
    requires ValidParams(p) && FirstTaken(p, s, a) && p.blocks != [] && |p.blocks[0]| == p.blockSize
    ensures Enabled(p, s, TrySave(0, true, true, true))
    ensures Enabled(p, Apply(p, s, TrySave(0, true, true, true)), ReadFails)
    ensures var s' := Apply(p, Apply(p, s, TrySave(0, true, true, true)), ReadFails);
      s'.main == Returned(ReadFailed) && place in s'.store && place !in p.before && s'.deletions == {}
  {
    hide Lawful, RecordOf;
    place := (a, s.uploads[0].job.chunk.id);
    assert p.blocks[1 - 1] == p.blocks[0];
  }

  // ---- A lost acknowledgement ----

  lemma FailingMove(p: Params, s: State) returns (a: Action)
    requires ValidParams(p) && !AllDead(p) && Control(p, s) && NoneHung(s) && !s.main.Returned?
    ensures Enabled(p, s, a) && Steady(a) && (a.PublishManifest? ==> !a.confirmed)
  {
    var move := UploadersMove(p, s);
    hide Control, NoneHung, AllDead;
    if move.None? {
      move := CryptoMoves(p, s);
      if move.None? {
        var last := MainMoves(p, s);
        move := Some(last);
      }
    }
    a := if move.value.PublishManifest? then PublishManifest(false, false) else move.value;
  }

  lemma FailingStep(p: Params, s: State, a: Action)
    requires Enabled(p, s, a) && Steady(a) && (a.PublishManifest? ==> !a.confirmed)
    requires NoneHung(s) && !s.main.Returned?
    ensures var s' := Apply(p, s, a);
      NoneHung(s') && s.unacked <= s'.unacked && (s'.main.Returned? ==> RolledBack(s'.main))
  {
    hide SealedOf, RecordOf, IsOrder, Picked, RollbackOf, NextChunk;
  }

  /** An upload that has not returned can still fail and roll back. */
  lemma {:induction false} RollBack(p: Params, s: State) returns (acts: seq<Action>)
    requires ValidParams(p) && !AllDead(p) && Control(p, s) && NoneHung(s) && !s.main.Returned?
    ensures Runs(p, s, acts) && RolledBack(Exec(p, s, acts).main) && s.unacked <= Exec(p, s, acts).unacked
    decreases Measure(p, s)
  {
    var a := FailingMove(p, s);
    FailingStep(p, s, a);
    ControlStep(p, s, a);
    StepFalls(p, s, a);
    hide Control, NoneHung, Enabled, Apply, ValidParams, Measure, AllDead;
    var s' := Apply(p, s, a);
    var rest: seq<Action> := [];
    if !s'.main.Returned? {
      rest := RollBack(p, s');
    }
    acts := [a] + rest;
    assert acts[1..] == rest;
  }

  /** Witness for the failing side of RollbackLeavesNothingIff: a node stores a chunk, its answer is lost, and the
      upload fails. The rollback then leaves that copy behind. */
  lemma LostAcknowledgementStrands(p: Params, w: nat) returns (acts: seq<Action>)
    requires ValidParams(p) && w < |p.rsOk| && p.rsOk[w] && p.blocks != [] && p.nodes != [] && p.tolerance > 0
    ensures Runs(p, Init(p), acts)
    ensures var s := Exec(p, Init(p), acts);
      RolledBack(s.main) && s.unacked != {} && (Distinct(p.nodes) ==> After(s.store, s.deletions) != p.before)
  {
    var first := TakeFirst(p, w, p.nodes[0]);
    var lost := TrySave(0, true, false, true);
    LoseAnswer(p, Exec(p, Init(p), first), p.nodes[0]);
    assert !AllDead(p);
    hide Lawful, Runs, Exec, FirstTaken, Enabled, Apply, AllDead;
    RunAppend(p, Init(p), first, lost);
    ControlInit(p);
    RunsEnd(p, Init(p), first + [lost]);
    hide Init, Control;
    var rest := StrandedRun(p, first + [lost]);
    acts := first + [lost] + rest;
  }

  lemma LoseAnswer(p: Params, s: State, a: Addr)
    requires ValidParams(p) && FirstTaken(p, s, a)
    ensures Enabled(p, s, TrySave(0, true, false, true))
    ensures var s' := Apply(p, s, TrySave(0, true, false, true));
      s'.unacked != {} && !s'.main.Returned? && (NoneHung(s) ==> NoneHung(s'))
  {
    hide Lawful, RecordOf;
    var s' := Apply(p, s, TrySave(0, true, false, true));
    assert (a, s.uploads[0].job.chunk.id) in s'.unacked;
  }

  lemma StrandedRun(p: Params, acts: seq<Action>) returns (rest: seq<Action>)
    requires ValidParams(p) && !AllDead(p) && Runs(p, Init(p), acts)
    requires var s := Exec(p, Init(p), acts); Control(p, s) && NoneHung(s) && !s.main.Returned? && s.unacked != {}
    ensures Runs(p, Init(p), acts + rest)
    ensures var s := Exec(p, Init(p), acts + rest);
      RolledBack(s.main) && s.unacked != {} && (Distinct(p.nodes) ==> After(s.store, s.deletions) != p.before)
  {
    hide Control, NoneHung, ValidParams, Distinct, AllDead, Init;
    rest := RollBack(p, Exec(p, Init(p), acts));
    RunsJoin(p, Init(p), acts, rest);
    var s := Exec(p, Init(p), acts + rest);
    assert Reachable(p, s);
    hide Reachable, Runs, Exec, After, RolledBack;
    if Distinct(p.nodes) {
      RollbackLeavesNothingIff(p, s);
    }
  }
}
