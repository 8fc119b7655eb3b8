/** A published file outlives every interleaving of the system's steps, until its release date plus
    seven days. */
module Durability {
  import opened Types
  import Gossip
  import opened StorageNode
  import opened System

  // ---- What is being proved ----

  predicate Young(s: State, id: ChunkId) {
    id in s.issued && Unix(s.net.now) - s.issued[id].createdAt <= 7200
  }

  /** The manifest was stored within two hours of the creation of each chunk. */
  ghost predicate Timely(s: State, f: FileId) {
    && IsPublished(s, f)
    && forall id :: id in s.issued && s.issued[id].fileId == f ==>
         Unix(s.files[f].phase.at) - s.issued[id].createdAt <= 7200
  }

  /** Published in time, not deleted, every orphan check answered with a manifest, and the release date
      not more than seven days ago. */
  ghost predicate Protected(s: State, f: FileId) {
    && Timely(s, f) && f !in s.erased && f !in s.unconfirmed
    && !Expired(s.files[f].release, s.net.now)
  }

  /** Every acknowledged copy of a chunk of `f` is where it was, with its contents. */
  ghost predicate Intact(s: State, f: FileId) {
    forall place :: place in s.acked && Belongs(s, place, f) ==>
      place in s.store && s.store[place] == RecordFor(place.1, s.issued[place.1])
  }

  // ---- The invariant ----

  /** A chunk that nothing may delete yet. */
  ghost predicate Firm(s: State, id: ChunkId) {
    && id in s.issued && s.issued[id].fileId in s.files
    && var f := s.issued[id].fileId;
      && f !in s.erased && !Expired(s.files[f].release, s.net.now)
      && ((s.files[f].phase.Uploading? && Young(s, id)) || (f !in s.unconfirmed && Timely(s, f)))
  }

  ghost predicate IssueOk(s: State, id: ChunkId)
    requires id in s.issued
  {
    && s.issued[id].fileId in s.files
    && s.issued[id].release == s.files[s.issued[id].fileId].release
  }

  /** A place that the chunk was sent to. */
  predicate Tracked(s: State, place: Place) {
    place.1 in s.issued && place.0 in s.issued[place.1].nodes
  }

  ghost predicate CopyOk(s: State, place: Place)
    requires place in s.store
  {
    Tracked(s, place) && s.store[place] == RecordFor(place.1, s.issued[place.1])
  }

  ghost predicate ManifestOk(s: State, f: FileId)
    requires f in s.net.inserted
  {
    && f in s.files && !s.files[f].phase.Uploading?
    && s.net.inserted[f].release == s.files[f].release
    && s.net.inserted[f].fileId == f && ListsOwn(s, s.net.inserted[f])
  }

  ghost predicate WellKept(s: State) {
    && (forall id :: id in s.issued ==> IssueOk(s, id))
    && (forall place :: place in s.store ==> CopyOk(s, place))
    && (forall f :: f in s.net.inserted ==> ManifestOk(s, f))
    && (forall place :: place in s.acked || place in s.doomed || place in s.deletions ==> Tracked(s, place))
  }

  /** Copies of firm chunks are stored, and no deletion of them is on its way. */
  ghost predicate FirmKept(s: State) {
    && (forall place :: place in s.acked && Firm(s, place.1) ==> place in s.store)
    && (forall place :: place in s.doomed ==> !Firm(s, place.1))
    && (forall place :: place in s.deletions ==> !Firm(s, place.1))
  }

  ghost predicate Inv(s: State) {
    Gossip.Agreement(s.net) && WellKept(s) && FirmKept(s)
  }

  // ---- Network steps ----

  lemma NetworkStep(s: Gossip.State, a: Gossip.Action)
    requires Gossip.Agreement(s) && Gossip.Enabled(s, a)
    ensures var s' := Gossip.Apply(s, a);
      && Gossip.Agreement(s') && |s'.servers| == |s.servers| && s.now <= s'.now
      && s'.inserted == if a.Insert? then s.inserted[a.manifest.fileId := a.manifest] else s.inserted
  {
    if a.Advance? {
      Gossip.AdvanceKeeps(s, a);
    } else {
      Gossip.OtherKeeps(s, a);
    }
    hide Gossip.Agreement;
  }

  /** The part of a step that concerns the bootstrap servers. */
  lemma NetKept(s: State, a: Action)
    requires Gossip.Agreement(s.net) && Enabled(s, a)
    ensures var s' := Apply(s, a);
      && Gossip.Agreement(s'.net) && |s'.net.servers| == |s.net.servers| && s.net.now <= s'.net.now
      && s'.net.inserted == if a.Publish? then s.net.inserted[a.manifest.fileId := a.manifest] else s.net.inserted
  {
    hide Gossip.Agreement, Gossip.Apply;
    match a {
      case Publish(m, i, _) => NetworkStep(s.net, Gossip.Insert(i, m));
      case EraseManifest(f, i) => NetworkStep(s.net, Gossip.Delete(i, f));
      case Network(step) => NetworkStep(s.net, step);
      case _ =>
    }
  }

  // ---- Well-kept records ----

  lemma IssuesStep(s: State, a: Action, id: ChunkId)
    requires Inv(s) && Enabled(s, a) && id in Apply(s, a).issued
    ensures IssueOk(Apply(s, a), id)
  {
    assert id in s.issued ==> IssueOk(s, id);
    hide Gossip.Agreement, Gossip.Apply, Gossip.Enabled, Inv, AckedOf, ErasedPlaces, Condemned, Confirmed, Places, ListsOwn;
  }

  lemma CopiesStep(s: State, a: Action, place: Place)
    requires Inv(s) && Enabled(s, a) && place in Apply(s, a).store
    ensures CopyOk(Apply(s, a), place)
  {
    assert place in s.store ==> CopyOk(s, place);
    hide Gossip.Agreement, Gossip.Apply, Gossip.Enabled, Inv, AckedOf, ErasedPlaces, Condemned, Confirmed, Places, ListsOwn;
  }

  // ---- Firm chunks ----

  lemma ExpiryIsFinal(release: Option<int>, now: nat, later: nat)
    requires now <= later && !Expired(release, later)
    ensures !Expired(release, now) && Unix(now) <= Unix(later)
  {
  }

  /** How a step may change what is known about a file: it is published at the time of the step, and
      history only grows. */
  lemma HistoryStep(s: State, a: Action, f: FileId)
    requires Enabled(s, a) && f in s.files
    ensures var s' := Apply(s, a);
      && f in s'.files && s'.files[f].release == s.files[f].release
      && (s'.files[f].phase != s.files[f].phase ==>
            s.files[f].phase.Uploading? && (s'.files[f].phase.Published? ==> s'.files[f].phase.at == s.net.now))
      && s.erased <= s'.erased && s.unconfirmed <= s'.unconfirmed
      && (forall id :: id in s.issued ==> id in s'.issued && s'.issued[id] == s.issued[id])
  {
    hide Gossip.Apply, Gossip.Enabled, AckedOf, ErasedPlaces, Condemned, Confirmed, Expired, ListsOwn, Places;
  }

  lemma ListsOwnLater(s: State, s': State, m: FileManifest)
    requires ListsOwn(s, m) && forall id :: id in s.issued ==> id in s'.issued && s'.issued[id] == s.issued[id]
    ensures ListsOwn(s', m)
  {
    hide Places;
  }

  lemma ManifestsStep(s: State, a: Action, f: FileId)
    requires Inv(s) && Enabled(s, a) && f in Apply(s, a).net.inserted
    ensures ManifestOk(Apply(s, a), f)
  {
    NetKept(s, a);
    var s' := Apply(s, a);
    if f in s.net.inserted {
      assert ManifestOk(s, f);
      HistoryStep(s, a, f);
      hide Inv, Gossip.Agreement, Apply, ListsOwn;
      assert !(a.Publish? && a.manifest.fileId == f);
      ListsOwnLater(s, s', s'.net.inserted[f]);
    } else {
      HistoryStep(s, a, f);
      hide Inv, Gossip.Agreement, Gossip.Apply, ListsOwn, AckedOf;
      ListsOwnLater(s, s', a.manifest);
    }
  }

  /** A chunk that is firm after a step was firm before it. */
  lemma FirmBefore(s: State, a: Action, id: ChunkId)
    requires Inv(s) && Enabled(s, a) && id in s.issued && Firm(Apply(s, a), id)
    ensures Firm(s, id)
  {
    NetKept(s, a);
    assert IssueOk(s, id);
    var s' := Apply(s, a);
    var f := s.issued[id].fileId;
    HistoryStep(s, a, f);
    ExpiryIsFinal(s.files[f].release, s.net.now, s'.net.now);
    hide Gossip.Agreement, Inv, Enabled, Apply, Expired, Unix;
    if s'.files[f].phase == s.files[f].phase && s.files[f].phase.Published? {
      assert forall other :: other in s.issued ==> other in s'.issued && s'.issued[other] == s.issued[other];
    }
  }

  /** An entry that a chunk collector condemns is not firm any more. */
  lemma CondemnedIsNotFirm(s: State, a: Action)
    requires Inv(s) && Enabled(s, a) && a.Judge?
    requires Condemned(s.store[a.place], s.net.now, Confirmed(s, s.store[a.place].fileId, a.asked))
    ensures !Firm(Apply(s, a), a.place.1) && s.store[a.place].chunkId == a.place.1
  {
    assert CopyOk(s, a.place);
    assert IssueOk(s, a.place.1);
    hide Gossip.Agreement, FirmKept, WellKept, Expired, Unix, Confirmed;
  }

  /** Places listed in a manifest of `f`, wherever it is read, are places of `f`. */
  lemma ErasedBelong(s: State, f: FileId, i: nat, place: Place)
    requires Inv(s) && i < |s.net.servers| && place in ErasedPlaces(s, f, i)
    ensures Belongs(s, place, f)
  {
    hide FirmKept, Places;
    assert Gossip.TablesOk(s.net, s.net.servers[i].nodes, s.net.servers[i].manifests);
    assert ManifestOk(s, f);
  }

  lemma CopyIsOk(s: State, place: Place)
    requires Inv(s) && place in s.store
    ensures CopyOk(s, place)
  {
  }

  /** What a step adds to the two sets of pending deletions is not firm after it. */
  lemma NewDeletion(s: State, a: Action, place: Place)
    requires Inv(s) && Enabled(s, a)
    requires place in Apply(s, a).doomed + Apply(s, a).deletions && place !in s.doomed + s.deletions
    ensures Tracked(s, place) && !Firm(Apply(s, a), place.1)
  {
    hide Gossip.Agreement, Gossip.Apply, WellKept, FirmKept, Places, Expired, ErasedPlaces, ListsOwn, Confirmed;
    if a.Judge? {
      CondemnedIsNotFirm(s, a);
      CopyIsOk(s, a.place);
    } else if a.Erase? {
      ErasedBelong(s, a.f, a.i, place);
    }
  }

  lemma TrackedLater(s: State, a: Action, place: Place)
    requires Inv(s) && Enabled(s, a) && Tracked(s, place)
    ensures Tracked(Apply(s, a), place)
  {
    hide Gossip.Agreement, Gossip.Apply, WellKept, FirmKept, Places, ErasedPlaces, ListsOwn, AckedOf;
  }

  lemma TrackedStep(s: State, a: Action, place: Place)
    requires Inv(s) && Enabled(s, a)
    requires var s' := Apply(s, a); place in s'.acked || place in s'.doomed || place in s'.deletions
    ensures Tracked(s, place) && Tracked(Apply(s, a), place)
  {
    hide Gossip.Agreement, Gossip.Apply, FirmKept, Places, Expired, ErasedPlaces, ListsOwn, Confirmed, Condemned, Firm, AckedOf, Belongs;
    var s' := Apply(s, a);
    if place in s'.doomed + s'.deletions && place !in s.doomed + s.deletions {
      NewDeletion(s, a, place);
    }
    TrackedLater(s, a, place);
  }

  lemma FirmKeptStep(s: State, a: Action)
    requires Inv(s) && Enabled(s, a)
    ensures FirmKept(Apply(s, a))
  {
    var s' := Apply(s, a);
    hide Inv, Firm, Apply, Enabled;
    forall place | place in s'.acked && Firm(s', place.1)
      ensures place in s'.store
    {
      AckedStays(s, a, place);
    }
    forall place | place in s'.doomed || place in s'.deletions
      ensures !Firm(s', place.1)
    {
      UnfirmStays(s, a, place);
    }
  }

  /** Copies vanish only by a deletion that was pending, and acknowledged copies are stored. */
  lemma StoreStep(s: State, a: Action, place: Place)
    requires Enabled(s, a)
    ensures place in s.store && place !in Apply(s, a).store ==> place in s.deletions || place in s.doomed
    ensures place in Apply(s, a).acked && place !in s.acked ==> place in Apply(s, a).store
  {
    hide Gossip.Apply, Gossip.Enabled, Places, Expired, Condemned, Confirmed, Belongs, ErasedPlaces, ListsOwn, AckedOf;
  }

  lemma AckedStays(s: State, a: Action, place: Place)
    requires Inv(s) && Enabled(s, a) && place in Apply(s, a).acked && Firm(Apply(s, a), place.1)
    ensures place in Apply(s, a).store
  {
    TrackedStep(s, a, place);
    FirmBefore(s, a, place.1);
    StoreStep(s, a, place);
    hide Gossip.Agreement, WellKept, Firm, Apply, Enabled;
  }

  lemma UnfirmStays(s: State, a: Action, place: Place)
    requires Inv(s) && Enabled(s, a) && (place in Apply(s, a).doomed || place in Apply(s, a).deletions)
    ensures !Firm(Apply(s, a), place.1)
  {
    TrackedStep(s, a, place);
    if Firm(Apply(s, a), place.1) {
      FirmBefore(s, a, place.1);
      if place !in s.doomed + s.deletions {
        NewDeletion(s, a, place);
      }
    }
  }

  lemma StepKeeps(s: State, a: Action)
    requires Inv(s) && Enabled(s, a)
    ensures Inv(Apply(s, a))
  {
    NetKept(s, a);
    FirmKeptStep(s, a);
    var s' := Apply(s, a);
    hide Gossip.Agreement, Enabled, Apply, FirmKept, CopyOk, IssueOk, ManifestOk, Tracked;
    forall place | place in s'.acked || place in s'.doomed || place in s'.deletions
      ensures Tracked(s', place)
    {
      TrackedStep(s, a, place);
    }
    forall id | id in s'.issued
      ensures IssueOk(s', id)
    {
      IssuesStep(s, a, id);
    }
    forall place | place in s'.store
      ensures CopyOk(s', place)
    {
      CopiesStep(s, a, place);
    }
    forall f | f in s'.net.inserted
      ensures ManifestOk(s', f)
    {
      ManifestsStep(s, a, f);
    }
  }

  lemma InitInv(servers: nat)
    ensures Inv(Init(servers))
  {
    Gossip.AgreementInit(servers);
    hide Gossip.Agreement;
  }

  lemma {:induction false} RunKeeps(s: State, acts: seq<Action>)
    requires Inv(s) && Runs(s, acts)
    ensures Inv(Exec(s, acts))
    decreases |acts|
  {
    hide Inv, Enabled, Apply;
    if acts != [] {
      StepKeeps(s, acts[0]);
      RunKeeps(Apply(s, acts[0]), acts[1..]);
    }
  }

  /** Durability: over all runs of the whole system, a file published in time, not deleted by a user,
      whose orphan checks were all answered with a manifest, keeps every acknowledged copy of every
      chunk until its release date plus seven days. */
  lemma PublishedFilesLast(servers: nat, acts: seq<Action>, f: FileId)
    requires Runs(Init(servers), acts) && Protected(Exec(Init(servers), acts), f)
    ensures Intact(Exec(Init(servers), acts), f)
  {
    InitInv(servers);
    RunKeeps(Init(servers), acts);
    ProtectedIsIntact(Exec(Init(servers), acts), f);
  }

  lemma ProtectedIsIntact(s: State, f: FileId)
    requires Inv(s) && Protected(s, f)
    ensures Intact(s, f)
  {
    hide Gossip.Agreement, Expired, Places, ListsOwn;
  }
}
