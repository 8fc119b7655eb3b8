/** Deletion of an uploaded file, and rollback of a failed upload, among all the system's activity: whether
    any node still holds a chunk of the file. */
module Erasure {
  import opened Types
  import opened PipelineControl
  import C = PipelineContent
  import P = Pipeline
  import opened Upload
  import System
  import opened Durability
  import opened Retention
  import opened Refinement
  import opened EndToEnd
  import D = Deletion

  // ---- Once the upload has returned ----

  /** The upload has returned and its workers are gone. */
  predicate Ended(m: P.Main) {
    m.Returned? && m.outcome != P.ReadFailed
  }

  /** What the rest of the system does in a run. */
  function Actions(events: seq<Event>): (acts: seq<System.Action>)
    requires forall k :: 0 <= k < |events| ==> events[k].Other?
    ensures |acts| == |events|
    ensures forall k :: 0 <= k < |events| ==> acts[k] == events[k].action
  {
    seq(|events|, k requires 0 <= k < |events| => events[k].action)
  }

  lemma ActionsTail(events: seq<Event>)
    requires events != [] && forall k :: 0 <= k < |events| ==> events[k].Other?
    ensures Actions(events)[1..] == Actions(events[1..])
  {
  }

  lemma AloneStep(p: P.Params, j: Joint, e: Event)
    requires Whole(p, j) && Ended(j.pipe.main) && Enabled(p, j, e)
    ensures e.Other? && System.Enabled(j.sys, e.action)
    ensures Step(p, j, e) == Joint(j.pipe, System.Apply(j.sys, e.action))
    ensures forall place: Place :: place.1 in j.pipe.issued ==> !D.Saves(e.action, place)
  {
    hide Inv, Homes, C.Content, C.Reachable, P.Enabled, P.Apply, System.Enabled, System.Apply, FileAgrees, AcksAgree, Visible;
    if e.Own? {
      ReturnIsFinal(p, j.pipe, e.step);
    }
  }

  /** After its return an upload takes no more part in the run, and no chunk of its file is saved any more. */
  lemma {:induction false} AloneAfterwards(p: P.Params, j: Joint, events: seq<Event>)
    requires Whole(p, j) && Ended(j.pipe.main) && Runs(p, j, events)
    ensures forall k :: 0 <= k < |events| ==> events[k].Other?
    ensures System.Runs(j.sys, Actions(events))
    ensures Exec(p, j, events) == Joint(j.pipe, System.Exec(j.sys, Actions(events)))
    ensures forall k, place: Place :: 0 <= k < |events| && place.1 in j.pipe.issued ==> !D.Saves(Actions(events)[k], place)
    decreases |events|
  {
    hide Whole, Enabled, Step, System.Enabled, System.Apply, D.Saves;
    if events != [] {
      AloneStep(p, j, events[0]);
      StepKeepsWhole(p, j, events[0]);
      AloneAfterwards(p, Step(p, j, events[0]), events[1..]);
      assert forall k :: 0 < k < |events| ==> events[k] == events[1..][k - 1];
      ActionsTail(events);
    }
  }

  /** A deletion that arrives after the upload has returned is final. */
  lemma ArrivedForGood(p: P.Params, j: Joint, events: seq<Event>, place: Place)
    requires Whole(p, j) && Ended(j.pipe.main) && Runs(p, j, events)
    requires place.1 in j.pipe.issued && Other(System.Arrive(place)) in events
    ensures place !in Exec(p, j, events).sys.store
  {
    AloneAfterwards(p, j, events);
    var i :| 0 <= i < |events| && events[i] == Other(System.Arrive(place));
    var acts := Actions(events);
    assert acts[i] == System.Arrive(place) && D.NoSave(acts, place);
    hide *;
    D.ArrivedIn(acts, i, place);
    D.ArrivedIsGone(j.sys, acts, place);
  }

  /** What is stored of the file is a copy of a chunk that the upload issued, on a node of its list; it was
      acknowledged, or noted as unacknowledged. */
  lemma CopyIsKnown(p: P.Params, j: Joint, place: Place)
    requires Whole(p, j) && place in j.sys.store && j.sys.store[place].fileId == p.fileId
    ensures place.1 in j.pipe.issued && place in j.pipe.store
    ensures place in j.pipe.unacked || (place in j.sys.acked && System.Belongs(j.sys, place, p.fileId))
  {
    CopyIsOk(j.sys, place);
    hide Inv, Homes, Control, C.BlocksKept, C.AllIssuedOk, C.JobsKept, C.OnceInFlight, C.LostKept, C.Reachable, FileAgrees;
    assert C.CopyOk(p, j.pipe, place);
  }

  // ---- A user erases the file ----

  /** The manifest lists the place of every stored copy. */
  lemma StoredIsListed(p: P.Params, j: Joint, place: Place)
    requires Whole(p, j) && j.pipe.main == P.Returned(P.Success) && |p.rsOk| > 0
    requires place in j.sys.store && j.sys.store[place].fileId == p.fileId
    ensures place.1 in j.pipe.issued && place in Places(ManifestOf(p, j.pipe))
  {
    CopyIsKnown(p, j, place);
    hide Inv, Homes, Agrees, C.Reachable;
    AllRecorded(p, j.pipe);
    JobHasId(p, j.pipe, place.1);
    hide Control, C.BlocksKept, C.AllIssuedOk, C.JobsKept, C.OnceInFlight, C.LostKept, C.Recorded, C.StoreKept;
    CopyIsPlaced(p, j.pipe, place);
  }

  /** A server that holds a manifest of the file holds the one that the upload sent. */
  lemma HeldIsSent(p: P.Params, j: Joint, i: nat)
    requires Whole(p, j) && j.pipe.main == P.Returned(P.Success)
    requires i < |j.sys.net.servers| && p.fileId in j.sys.net.servers[i].manifests
    ensures p.fileId in j.sys.net.inserted && j.sys.net.inserted[p.fileId] == ManifestOf(p, j.pipe)
  {
    hide Inv, Homes, Control, C.Content, C.Reachable, ChunksAgree, AcksAgree;
  }

  /** The requests that arrive in a run. */
  ghost predicate AllIn(places: set<Place>, events: seq<Event>) {
    forall place :: place in places ==> Other(System.Arrive(place)) in events
  }

  ghost predicate NoChunkOf(y: System.State, f: FileId) {
    forall place :: place in y.store ==> y.store[place].fileId != f
  }

  lemma ErasedFrom(p: P.Params, j: Joint, later: seq<Event>, i: nat)
    requires Whole(p, j) && j.pipe.main == P.Returned(P.Success) && |p.rsOk| > 0 && Runs(p, j, later)
    requires i < |j.sys.net.servers| && p.fileId in j.sys.net.servers[i].manifests
    requires later != [] && later[0] == Other(System.Erase(p.fileId, i))
    ensures Places(ManifestOf(p, j.pipe)) <= Exec(p, j, later).sys.deletions
    ensures AllIn(Places(ManifestOf(p, j.pipe)), later) ==> NoChunkOf(Exec(p, j, later).sys, p.fileId)
    ensures (forall k :: 0 <= k < |later| ==> later[k].Other?) && System.Runs(j.sys, Actions(later))
    ensures D.SparesOthers(j.sys, Actions(later), p.fileId)
  {
    RunKeepsWhole(p, j, later);
    AloneAfterwards(p, j, later);
    HeldIsSent(p, j, i);
    assert Inv(j.sys) && System.Enabled(j.sys, System.Erase(p.fileId, i));
    hide *;
    D.EraseFrom(j.sys, Actions(later), p.fileId, i);
    var t := Exec(p, j, later);
    if AllIn(Places(ManifestOf(p, j.pipe)), later) {
      StoredHasArrived(p, j, later);
    }
  }

  lemma StoredHasArrived(p: P.Params, j: Joint, later: seq<Event>)
    requires Whole(p, j) && j.pipe.main == P.Returned(P.Success) && |p.rsOk| > 0 && Runs(p, j, later)
    requires AllIn(Places(ManifestOf(p, j.pipe)), later)
    ensures NoChunkOf(Exec(p, j, later).sys, p.fileId)
  {
    RunKeepsWhole(p, j, later);
    AloneAfterwards(p, j, later);
    hide Whole, Runs, Exec, System.Runs, System.Exec, ManifestOf, Places;
    var t := Exec(p, j, later);
    forall place | place in t.sys.store
      ensures t.sys.store[place].fileId != p.fileId
    {
      if t.sys.store[place].fileId == p.fileId {
        StoredIsListed(p, t, place);
        ArrivedForGood(p, j, later, place);
      }
    }
  }

  /** Erasing a file: in any system run, after a successful upload among any other activity, a user erases the
      file at any server that holds its manifest. Then the deletion of every listed place is asked for and can
      arrive at any later moment; once all have arrived, no node holds a chunk of the file; and no step that is
      taken for it touches a copy of another file. */
  lemma ErasedFileIsGone(servers: nat, earlier: seq<System.Action>, p: P.Params, events: seq<Event>, i: nat, later: seq<Event>)
    requires P.ValidParams(p) && System.Runs(System.Init(servers), earlier)
    requires p.fileId !in System.Exec(System.Init(servers), earlier).files
    requires Runs(p, Start(p, System.Exec(System.Init(servers), earlier)), events)
    requires var j := Exec(p, Start(p, System.Exec(System.Init(servers), earlier)), events);
      && j.pipe.main == P.Returned(P.Success)
      && i < |j.sys.net.servers| && p.fileId in j.sys.net.servers[i].manifests
      && Runs(p, j, later) && later != [] && later[0] == Other(System.Erase(p.fileId, i))
    ensures var j := Exec(p, Start(p, System.Exec(System.Init(servers), earlier)), events);
      var t := Exec(p, j, later);
      && (forall place :: place in Places(ManifestOf(p, j.pipe)) ==> System.Enabled(t.sys, System.Arrive(place)))
      && (AllIn(Places(ManifestOf(p, j.pipe)), later) ==> NoChunkOf(t.sys, p.fileId))
      && (forall k :: 0 <= k < |later| ==> later[k].Other?) && System.Runs(j.sys, Actions(later))
      && D.SparesOthers(j.sys, Actions(later), p.fileId)
  {
    assert |p.rsOk| > 0;
    hide *;
    EndIsWhole(servers, earlier, p, events);
    var j := Exec(p, Start(p, System.Exec(System.Init(servers), earlier)), events);
    ErasedFrom(p, j, later, i);
    D.CanArrive(Exec(p, j, later).sys);
  }

  // ---- An upload that was rolled back ----

  lemma AckedIs(p: P.Params, j: Joint)
    requires Whole(p, j)
    ensures System.AckedOf(j.sys, p.fileId) == P.RollbackOf(j.pipe.successful)
  {
    assert C.Content(p, j.pipe) && ChunksAgree(p, j.pipe, j.sys) && AcksAgree(j.pipe, j.sys);
    hide *;
    RollbackMatches(p, j.pipe, j.sys);
  }

  /** The deletion of every acknowledged copy is on its way. */
  lemma AckedAreRequested(p: P.Params, j: Joint)
    requires Whole(p, j) && RolledBack(j.pipe.main)
    ensures System.AckedOf(j.sys, p.fileId) <= j.sys.deletions
  {
    AckedIs(p, j);
    hide Inv, Homes, C.Content, ChunksAgree, AcksAgree, FileAgrees, C.Reachable, System.AckedOf, P.RollbackOf, Queue, Latch,
      CryptoControl, UploadControl;
  }

  lemma RolledBackFrom(p: P.Params, j: Joint, later: seq<Event>)
    requires Whole(p, j) && RolledBack(j.pipe.main) && Runs(p, j, later)
    ensures System.AckedOf(j.sys, p.fileId) <= Exec(p, j, later).sys.deletions
    ensures AllIn(System.AckedOf(j.sys, p.fileId), later) ==>
      forall place :: place in Exec(p, j, later).sys.store && Exec(p, j, later).sys.store[place].fileId == p.fileId ==>
        place in j.pipe.unacked
    ensures (forall k :: 0 <= k < |later| ==> later[k].Other?) && System.Runs(j.sys, Actions(later))
    ensures D.SparesOthers(j.sys, Actions(later), p.fileId)
  {
    AckedAreRequested(p, j);
    AloneAfterwards(p, j, later);
    assert Inv(j.sys);
    hide *;
    D.RequestsStay(j.sys, Actions(later));
    D.RunSparesOthers(j.sys, Actions(later), p.fileId);
    if AllIn(System.AckedOf(j.sys, p.fileId), later) {
      RestIsUnacked(p, j, later);
    }
  }

  lemma RestIsUnacked(p: P.Params, j: Joint, later: seq<Event>)
    requires Whole(p, j) && RolledBack(j.pipe.main) && Runs(p, j, later)
    requires AllIn(System.AckedOf(j.sys, p.fileId), later)
    ensures forall place :: place in Exec(p, j, later).sys.store && Exec(p, j, later).sys.store[place].fileId == p.fileId ==>
      place in j.pipe.unacked
  {
    RunKeepsWhole(p, j, later);
    AloneAfterwards(p, j, later);
    var t := Exec(p, j, later);
    AckedIs(p, j);
    AckedIs(p, t);
    hide Whole, Runs, Exec, System.Runs, System.Exec, System.Belongs, P.RollbackOf;
    forall place | place in t.sys.store && t.sys.store[place].fileId == p.fileId
      ensures place in j.pipe.unacked
    {
      CopyIsKnown(p, t, place);
      if place !in j.pipe.unacked {
        ArrivedForGood(p, j, later, place);
      }
    }
  }

  /** Rolling back an upload: in any system run, once an upload has failed after its file was read, the deletion
      of every acknowledged copy is asked for and can arrive at any later moment. When all have arrived, what the
      nodes still hold of the file are copies that were stored without an acknowledgement, and nothing if there
      were none; and no step that is taken for it touches a copy of another file. */
  lemma RolledBackIsGone(servers: nat, earlier: seq<System.Action>, p: P.Params, events: seq<Event>, later: seq<Event>)
    requires P.ValidParams(p) && System.Runs(System.Init(servers), earlier)
    requires p.fileId !in System.Exec(System.Init(servers), earlier).files
    requires Runs(p, Start(p, System.Exec(System.Init(servers), earlier)), events)
    requires var j := Exec(p, Start(p, System.Exec(System.Init(servers), earlier)), events);
      RolledBack(j.pipe.main) && Runs(p, j, later)
    ensures var j := Exec(p, Start(p, System.Exec(System.Init(servers), earlier)), events);
      var t := Exec(p, j, later);
      && (forall place :: place in System.AckedOf(j.sys, p.fileId) ==> System.Enabled(t.sys, System.Arrive(place)))
      && (AllIn(System.AckedOf(j.sys, p.fileId), later) ==>
            && (forall place :: place in t.sys.store && t.sys.store[place].fileId == p.fileId ==> place in j.pipe.unacked)
            && (j.pipe.unacked == {} ==> NoChunkOf(t.sys, p.fileId)))
      && (forall k :: 0 <= k < |later| ==> later[k].Other?) && System.Runs(j.sys, Actions(later))
      && D.SparesOthers(j.sys, Actions(later), p.fileId)
  {
    EndIsWhole(servers, earlier, p, events);
    hide Whole, Runs, Exec, System.Runs, System.Exec, System.AckedOf, System.Enabled, D.SparesOthers, AllIn, P.ValidParams, Start;
    var j := Exec(p, Start(p, System.Exec(System.Init(servers), earlier)), events);
    RolledBackFrom(p, j, later);
    D.CanArrive(Exec(p, j, later).sys);
  }

  // ---- Both can be completed ----

  function Arrivals(acts: seq<System.Action>): (events: seq<Event>)
    ensures |events| == |acts|
    ensures forall k :: 0 <= k < |acts| ==> events[k] == Other(acts[k])
  {
    seq(|acts|, k requires 0 <= k < |acts| => Other(acts[k]))
  }

  lemma {:induction false} OthersRun(p: P.Params, j: Joint, acts: seq<System.Action>)
    requires System.Runs(j.sys, acts) && forall k :: 0 <= k < |acts| ==> acts[k].Arrive?
    ensures Runs(p, j, Arrivals(acts))
    ensures Exec(p, j, Arrivals(acts)) == Joint(j.pipe, System.Exec(j.sys, acts))
    decreases |acts|
  {
    hide System.Apply, System.Enabled;
    if acts != [] {
      assert Arrivals(acts)[1..] == Arrivals(acts[1..]);
      assert Enabled(p, j, Other(acts[0]));
      OthersRun(p, Step(p, j, Other(acts[0])), acts[1..]);
    }
  }

  /** From every state after a successful upload in which some server holds the manifest, erasing the file can be
      carried through, with nothing but the request and its deletions; the nodes then hold exactly the copies of
      the other files that they held before. */
  lemma ErasureCanFinish(p: P.Params, j: Joint, i: nat) returns (later: seq<Event>)
    requires Whole(p, j) && j.pipe.main == P.Returned(P.Success) && |p.rsOk| > 0
    requires i < |j.sys.net.servers| && p.fileId in j.sys.net.servers[i].manifests
    ensures later != [] && later[0] == Other(System.Erase(p.fileId, i)) && Runs(p, j, later)
    ensures forall k :: 0 < k < |later| ==> later[k].Other? && later[k].action.Arrive?
    ensures var t := Exec(p, j, later);
      && (forall place :: place in t.sys.store <==> place in j.sys.store && j.sys.store[place].fileId != p.fileId)
      && (forall place :: place in t.sys.store ==> t.sys.store[place] == j.sys.store[place])
  {
    var erase := Other(System.Erase(p.fileId, i));
    EraseStep(p, j, i);
    hide *;
    var one := Step(p, j, erase);
    var places := Places(ManifestOf(p, j.pipe));
    var acts := D.AllArrive(one.sys, places);
    OthersRun(p, one, acts);
    later := [erase] + Arrivals(acts);
    RunAfter(p, j, erase, Arrivals(acts));
    forall place | place in j.sys.store
      ensures place in places <==> j.sys.store[place].fileId == p.fileId
    {
      ListedIffOwn(p, j, place);
    }
  }

  lemma RunAfter(p: P.Params, j: Joint, e: Event, rest: seq<Event>)
    requires Enabled(p, j, e) && Runs(p, Step(p, j, e), rest)
    ensures Runs(p, j, [e] + rest) && Exec(p, j, [e] + rest) == Exec(p, Step(p, j, e), rest)
  {
    hide Enabled, Step;
    assert ([e] + rest)[1..] == rest;
  }

  lemma EraseStep(p: P.Params, j: Joint, i: nat)
    requires Whole(p, j) && j.pipe.main == P.Returned(P.Success)
    requires i < |j.sys.net.servers| && p.fileId in j.sys.net.servers[i].manifests
    ensures Enabled(p, j, Other(System.Erase(p.fileId, i)))
    ensures var one := Step(p, j, Other(System.Erase(p.fileId, i)));
      one.pipe == j.pipe && one.sys.store == j.sys.store && Places(ManifestOf(p, j.pipe)) <= one.sys.deletions
  {
    HeldIsSent(p, j, i);
    assert Inv(j.sys);
    hide Whole, Inv, Places, ManifestOf, System.ErasedPlaces;
    D.ErasedAre(j.sys, p.fileId, i);
  }

  /** Of the stored copies the manifest lists those of its own file. */
  lemma ListedIffOwn(p: P.Params, j: Joint, place: Place)
    requires Whole(p, j) && j.pipe.main == P.Returned(P.Success) && |p.rsOk| > 0 && place in j.sys.store
    ensures place in Places(ManifestOf(p, j.pipe)) <==> j.sys.store[place].fileId == p.fileId
  {
    if j.sys.store[place].fileId == p.fileId {
      StoredIsListed(p, j, place);
    } else if place in Places(ManifestOf(p, j.pipe)) {
      ManifestListsOwn(p, j.pipe, j.sys);
      CopyIsOk(j.sys, place);
      hide Inv, Homes, Control, C.Content, C.Reachable, Agrees, Places;
    }
  }

  /** From every state after a rollback the deletions alone can be carried through; the nodes then hold what they
      held before except the acknowledged copies of the file. */
  lemma RollbackCanFinish(p: P.Params, j: Joint) returns (later: seq<Event>)
    requires Whole(p, j) && RolledBack(j.pipe.main)
    ensures Runs(p, j, later) && forall k :: 0 <= k < |later| ==> later[k].Other? && later[k].action.Arrive?
    ensures Exec(p, j, later).sys.store == j.sys.store - System.AckedOf(j.sys, p.fileId)
  {
    AckedAreRequested(p, j);
    hide Whole, System.AckedOf;
    var acts := D.AllArrive(j.sys, System.AckedOf(j.sys, p.fileId));
    OthersRun(p, j, acts);
    later := Arrivals(acts);
  }
}
