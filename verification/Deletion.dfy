/** What deletion requests achieve: those of a user who erases a file, and those of a rollback. */
module Deletion {
  import opened Types
  import Gossip
  import A = Absence
  import opened StorageNode
  import opened System
  import opened Durability

  predicate Saves(a: Action, place: Place) {
    a.Save? && a.place == place
  }

  ghost predicate NoSave(acts: seq<Action>, place: Place) {
    forall k :: 0 <= k < |acts| ==> !Saves(acts[k], place)
  }

  /** A request to delete `place` arrives during the run, and no copy is saved there after it. */
  ghost predicate Arrived(acts: seq<Action>, place: Place) {
    exists i :: 0 <= i < |acts| && acts[i] == Arrive(place) && NoSave(acts[i + 1..], place)
  }

  lemma ArrivedIn(acts: seq<Action>, i: nat, place: Place)
    requires i < |acts| && acts[i] == Arrive(place) && NoSave(acts, place)
    ensures Arrived(acts, place)
  {
    assert NoSave(acts[i + 1..], place);
  }

  // ---- Single steps ----

  lemma AbsentStep(s: State, a: Action, place: Place)
    requires Enabled(s, a) && (a == Arrive(place) || (place !in s.store && !Saves(a, place)))
    ensures place !in Apply(s, a).store
  {
    hide Gossip.Apply, Gossip.Enabled, Places, Expired, Condemned, Confirmed, Belongs, ErasedPlaces, ListsOwn, AckedOf;
  }

  /** A request that was sent is never withdrawn: it may arrive at any later moment. */
  lemma RequestStep(s: State, a: Action)
    requires Enabled(s, a)
    ensures s.deletions <= Apply(s, a).deletions
  {
    hide Gossip.Apply, Gossip.Enabled, Places, Expired, Condemned, Confirmed, Belongs, ErasedPlaces, ListsOwn, AckedOf;
  }

  /** A step touches the one copy that it names, and no other. */
  lemma OneCopyChanges(s: State, a: Action, place: Place)
    requires Enabled(s, a) && !((a.Save? || a.Arrive? || a.Reap?) && a.place == place)
    ensures place in Apply(s, a).store <==> place in s.store
    ensures place in s.store ==> Apply(s, a).store[place] == s.store[place]
  {
    hide Gossip.Apply, Gossip.Enabled, Places, Expired, Condemned, Confirmed, Belongs, ErasedPlaces, ListsOwn, AckedOf;
  }

  /** The step with which an upload is rolled back: after an error, or because its manifest was not confirmed. */
  predicate RollsBack(a: Action, f: FileId) {
    a == Abort(f, true) || (a.Publish? && a.manifest.fileId == f && !a.confirmed)
  }

  /** Nothing is asked to be deleted but what a user erases, by the manifest that was inserted, and the
      acknowledged copies of a file that is rolled back. */
  lemma OnlyAskedFor(s: State, a: Action, place: Place)
    requires Inv(s) && Enabled(s, a)
    ensures place in Apply(s, a).deletions <==>
      || place in s.deletions
      || (a.Erase? && a.f in s.net.servers[a.i].manifests && a.f in s.net.inserted && place in Places(s.net.inserted[a.f]))
      || (place in s.acked && place.1 in s.issued && RollsBack(a, s.issued[place.1].fileId))
  {
    if a.Erase? && a.f in s.net.servers[a.i].manifests {
      ErasedAre(s, a.f, a.i);
    }
    if place in s.acked {
      AckedIsTracked(s, place);
    }
    hide Inv, Gossip.Apply, Gossip.Enabled, Places, Expired, Condemned, Confirmed, ListsOwn;
  }

  lemma AckedIsTracked(s: State, place: Place)
    requires Inv(s) && place in s.acked
    ensures Tracked(s, place)
  {
  }

  lemma ErasedAre(s: State, f: FileId, i: nat)
    requires Inv(s) && i < |s.net.servers| && f in s.net.servers[i].manifests
    ensures f in s.net.inserted && ErasedPlaces(s, f, i) == Places(s.net.inserted[f])
  {
    hide WellKept, FirmKept, Places;
    assert Gossip.TablesOk(s.net, s.net.servers[i].nodes, s.net.servers[i].manifests);
  }

  /** The steps that erasing or rolling back file `f` consists of. */
  ghost predicate TakenFor(s: State, a: Action, f: FileId) {
    match a
    case Erase(g, _) => g == f
    case EraseManifest(g, _) => g == f
    case Arrive(place) => place.1 in s.issued && s.issued[place.1].fileId == f
    case _ => RollsBack(a, f)
  }

  /** Every copy of another file is where it was, with its contents, and only copies of `f` are newly
      asked to be deleted. */
  ghost predicate OthersKept(s: State, s': State, f: FileId) {
    && (forall place :: place in s.store && s.store[place].fileId != f ==> place in s'.store && s'.store[place] == s.store[place])
    && (forall place :: place in s'.deletions && place !in s.deletions ==> Belongs(s, place, f))
  }

  lemma OthersStep(s: State, a: Action, f: FileId)
    requires Inv(s) && Enabled(s, a) && TakenFor(s, a, f)
    ensures OthersKept(s, Apply(s, a), f)
  {
    if a.Arrive? && a.place in s.store {
      CopyIsOk(s, a.place);
    }
    if a.Erase? {
      forall place | place in ErasedPlaces(s, f, a.i)
        ensures Belongs(s, place, f)
      {
        ErasedBelong(s, f, a.i, place);
      }
    }
    hide Inv, Gossip.Apply, Gossip.Enabled, Places, Expired, Condemned, Confirmed, ErasedPlaces, ListsOwn;
  }

  /** ... at every step of a run that is taken for `f`. */
  ghost predicate SparesOthers(s: State, acts: seq<Action>, f: FileId)
    requires Runs(s, acts)
    decreases |acts|
  {
    acts != [] ==>
      (TakenFor(s, acts[0], f) ==> OthersKept(s, Apply(s, acts[0]), f)) && SparesOthers(Apply(s, acts[0]), acts[1..], f)
  }

  // ---- Runs ----

  lemma {:induction false} AbsentStays(s: State, acts: seq<Action>, place: Place)
    requires Runs(s, acts) && place !in s.store && NoSave(acts, place)
    ensures place !in Exec(s, acts).store
    decreases |acts|
  {
    hide Enabled, Apply, Saves;
    if acts != [] {
      AbsentStep(s, acts[0], place);
      AbsentStays(Apply(s, acts[0]), acts[1..], place);
    }
  }

  /** A deletion that has arrived is carried out: no copy is left there, unless one is saved later. */
  lemma {:induction false} ArrivedIsGone(s: State, acts: seq<Action>, place: Place)
    requires Runs(s, acts) && Arrived(acts, place)
    ensures place !in Exec(s, acts).store
    decreases |acts|
  {
    hide Enabled, Apply, Saves;
    var i :| 0 <= i < |acts| && acts[i] == Arrive(place) && NoSave(acts[i + 1..], place);
    if i == 0 {
      AbsentStep(s, acts[0], place);
      AbsentStays(Apply(s, acts[0]), acts[1..], place);
    } else {
      assert acts[1..][i - 1] == Arrive(place) && acts[1..][i..] == acts[i + 1..];
      ArrivedIsGone(Apply(s, acts[0]), acts[1..], place);
    }
  }

  lemma {:induction false} RequestsStay(s: State, acts: seq<Action>)
    requires Runs(s, acts)
    ensures s.deletions <= Exec(s, acts).deletions
    decreases |acts|
  {
    hide Enabled, Apply;
    if acts != [] {
      RequestStep(s, acts[0]);
      RequestsStay(Apply(s, acts[0]), acts[1..]);
    }
  }

  lemma {:induction false} RunSparesOthers(s: State, acts: seq<Action>, f: FileId)
    requires Inv(s) && Runs(s, acts)
    ensures SparesOthers(s, acts, f)
    decreases |acts|
  {
    hide Inv, Enabled, Apply, TakenFor, OthersKept;
    if acts != [] {
      StepKeeps(s, acts[0]);
      if TakenFor(s, acts[0], f) {
        OthersStep(s, acts[0], f);
      }
      RunSparesOthers(Apply(s, acts[0]), acts[1..], f);
    }
  }

  lemma CanArrive(s: State)
    ensures forall place :: place in s.deletions ==> Enabled(s, Arrive(place))
  {
  }

  // ---- A user erases a file ----

  /** In any run of the system: when a user erases a file at a server that holds its manifest, the deletion of
      every place of the manifest is asked for and can arrive at any later moment. Where it has arrived, and no
      copy was saved afterwards, none is stored; and no step that is taken for the file touches another one's
      copies. */
  lemma EraseDeletes(servers: nat, before: seq<Action>, acts: seq<Action>, f: FileId, i: nat)
    requires Runs(Init(servers), before)
    requires Runs(Exec(Init(servers), before), acts) && acts != [] && acts[0] == Erase(f, i)
    requires Enabled(Exec(Init(servers), before), Erase(f, i)) && f in Exec(Init(servers), before).net.servers[i].manifests
    ensures var s := Exec(Init(servers), before);
      && f in s.net.inserted
      && (forall place :: place in Places(s.net.inserted[f]) ==> Enabled(Exec(s, acts), Arrive(place)))
      && (forall place :: place in Places(s.net.inserted[f]) && Arrived(acts, place) ==> place !in Exec(s, acts).store)
      && SparesOthers(s, acts, f)
  {
    InitInv(servers);
    RunKeeps(Init(servers), before);
    hide *;
    var s := Exec(Init(servers), before);
    EraseFrom(s, acts, f, i);
    CanArrive(Exec(s, acts));
  }

  lemma EraseFrom(s: State, acts: seq<Action>, f: FileId, i: nat)
    requires Inv(s) && Runs(s, acts) && acts != [] && acts[0] == Erase(f, i)
    requires Enabled(s, Erase(f, i)) && f in s.net.servers[i].manifests
    ensures f in s.net.inserted && Places(s.net.inserted[f]) <= Exec(s, acts).deletions
    ensures forall place :: place in Places(s.net.inserted[f]) && Arrived(acts, place) ==> place !in Exec(s, acts).store
    ensures SparesOthers(s, acts, f)
  {
    ErasedAre(s, f, i);
    RunSparesOthers(s, acts, f);
    assert ErasedPlaces(s, f, i) <= Apply(s, acts[0]).deletions;
    hide Inv, Enabled, Apply, Places, ErasedPlaces, SparesOthers, Arrived;
    RequestsStay(Apply(s, acts[0]), acts[1..]);
    forall place | Arrived(acts, place)
      ensures place !in Exec(s, acts).store
    {
      ArrivedIsGone(s, acts, place);
    }
  }

  // ---- The manifest of an erased file ----

  /** No server but `i`, and no message, holds the manifest of `f`. */
  ghost predicate NowhereElse(net: Gossip.State, f: FileId, i: nat) {
    && (forall j :: 0 <= j < |net.servers| && j != i ==> f !in net.servers[j].manifests)
    && (forall t :: 0 <= t < |net.tasks| ==> f !in Gossip.Cargo(net.tasks[t]).manifests)
  }

  /** The manifest of an erased file goes from the server that is asked, and from no other; it is then nowhere
      exactly when it was nowhere else. */
  lemma EraseManifestLeaves(s: State, f: FileId, i: nat)
    requires Enabled(s, EraseManifest(f, i))
    ensures var s' := Apply(s, EraseManifest(f, i));
      && |s'.net.servers| == |s.net.servers|
      && s'.net.servers[i].manifests == s.net.servers[i].manifests - {f}
      && (forall j :: 0 <= j < |s.net.servers| && j != i ==> s'.net.servers[j] == s.net.servers[j])
      && (A.NoManifest(s'.net, f) <==> NowhereElse(s.net, f, i))
  {
    var s' := Apply(s, EraseManifest(f, i));
    var any, notF := A.AnyEntry(), A.NotKey(f);
    assert A.NoManifest(s'.net, f) ==> NowhereElse(s.net, f, i) by {
      if A.NoManifest(s'.net, f) {
        forall j | 0 <= j < |s.net.servers| && j != i
          ensures f !in s.net.servers[j].manifests
        {
          assert A.AllIn(s'.net.servers[j].nodes, s'.net.servers[j].manifests, any, notF);
        }
        forall t | 0 <= t < |s.net.tasks|
          ensures f !in Gossip.Cargo(s.net.tasks[t]).manifests
        {
          assert A.AllIn(Gossip.Cargo(s'.net.tasks[t]).nodes, Gossip.Cargo(s'.net.tasks[t]).manifests, any, notF);
        }
      }
    }
  }

  lemma AbsentManifestStep(s: State, a: Action, f: FileId)
    requires Enabled(s, a) && A.NoManifest(s.net, f) && f in s.net.inserted
    ensures A.NoManifest(Apply(s, a).net, f)
  {
    var any, notF := A.AnyEntry(), A.NotKey(f);
    hide A.Everywhere, Gossip.Apply, ListsOwn, Places, Expired, ErasedPlaces, AckedOf, Condemned, Confirmed;
    match a {
      case Publish(m, i, _) => A.StepPasses(s.net, Gossip.Insert(i, m), any, notF);
      case EraseManifest(g, i) => A.StepPasses(s.net, Gossip.Delete(i, g), any, notF);
      case Network(step) => A.StepPasses(s.net, step, any, notF);
      case _ =>
    }
  }

  lemma {:induction false} AbsentManifestStays(s: State, acts: seq<Action>, f: FileId)
    requires Inv(s) && Runs(s, acts) && A.NoManifest(s.net, f) && f in s.net.inserted
    ensures A.NoManifest(Exec(s, acts).net, f)
    decreases |acts|
  {
    if acts != [] {
      AbsentManifestStep(s, acts[0], f);
      StepKeeps(s, acts[0]);
      NetKept(s, acts[0]);
      hide Inv, Enabled, Apply, A.NoManifest;
      AbsentManifestStays(Apply(s, acts[0]), acts[1..], f);
    }
  }

  /** In any run of the system: once the manifest of an erased file is deleted at the last server that held it, with
      no message on its way that carries it, no server ever holds it again. */
  lemma ErasedManifestIsGone(servers: nat, before: seq<Action>, acts: seq<Action>, f: FileId, i: nat)
    requires Runs(Init(servers), before)
    requires var s := Exec(Init(servers), before);
      && Runs(s, acts) && acts != [] && acts[0] == EraseManifest(f, i) && Enabled(s, EraseManifest(f, i))
      && f in s.net.inserted && NowhereElse(s.net, f, i)
    ensures !A.HasManifest(Exec(Exec(Init(servers), before), acts).net, f)
  {
    InitInv(servers);
    RunKeeps(Init(servers), before);
    var s := Exec(Init(servers), before);
    EraseManifestLeaves(s, f, i);
    StepKeeps(s, acts[0]);
    NetKept(s, acts[0]);
    hide *;
    GoneFrom(s, acts, f);
  }

  lemma GoneFrom(s: State, acts: seq<Action>, f: FileId)
    requires Runs(s, acts) && acts != []
    requires var one := Apply(s, acts[0]); Inv(one) && A.NoManifest(one.net, f) && f in one.net.inserted
    ensures !A.HasManifest(Exec(s, acts).net, f)
  {
    hide Inv, Enabled, Apply, A.NoManifest;
    AbsentManifestStays(Apply(s, acts[0]), acts[1..], f);
    A.ManifestAbsentEverywhere(Exec(s, acts).net, f);
  }

  // ---- A rollback ----

  /** In any run of the system: when an upload is rolled back, the deletion of every copy acknowledged so far is
      asked for and can arrive at any later moment. Where it has arrived, and no copy was saved afterwards, none
      is stored; and no step that is taken for the file touches another one's copies. */
  lemma RollbackDeletes(servers: nat, before: seq<Action>, acts: seq<Action>, f: FileId)
    requires Runs(Init(servers), before)
    requires Runs(Exec(Init(servers), before), acts) && acts != [] && RollsBack(acts[0], f)
    ensures var s := Exec(Init(servers), before);
      && (forall place :: place in s.acked && Belongs(s, place, f) ==> Enabled(Exec(s, acts), Arrive(place)))
      && (forall place :: place in s.acked && Belongs(s, place, f) && Arrived(acts, place) ==> place !in Exec(s, acts).store)
      && SparesOthers(s, acts, f)
  {
    InitInv(servers);
    RunKeeps(Init(servers), before);
    hide Inv, Runs, Exec, Enabled, Apply, Belongs, SparesOthers, Arrived, Init, RollsBack;
    var s := Exec(Init(servers), before);
    RunSparesOthers(s, acts, f);
    RollbackRequests(s, acts, f);
    CanArrive(Exec(s, acts));
    forall place | Arrived(acts, place)
      ensures place !in Exec(s, acts).store
    {
      ArrivedIsGone(s, acts, place);
    }
  }

  lemma RollbackRequests(s: State, acts: seq<Action>, f: FileId)
    requires Runs(s, acts) && acts != [] && RollsBack(acts[0], f)
    ensures AckedOf(s, f) <= Exec(s, acts).deletions
  {
    assert AckedOf(s, f) <= Apply(s, acts[0]).deletions by {
      hide Gossip.Apply, ListsOwn, Belongs, Runs;
      assert Enabled(s, acts[0]);
    }
    hide Apply, Enabled;
    RequestsStay(Apply(s, acts[0]), acts[1..]);
  }

  // ---- The deletions can always be completed ----

  lemma {:induction false} AllArrive(s: State, places: set<Place>) returns (acts: seq<Action>)
    requires places <= s.deletions
    ensures Runs(s, acts) && Exec(s, acts) == s.(store := s.store - places)
    ensures forall a :: a in acts ==> a.Arrive? && a.place in places
    decreases places
  {
    if places == {} {
      acts := [];
      assert s.store - places == s.store;
    } else {
      var place :| place in places;
      var s' := Apply(s, Arrive(place));
      var rest := AllArrive(s', places - {place});
      acts := [Arrive(place)] + rest;
      assert s'.store - (places - {place}) == s.store - places;
    }
  }
}
