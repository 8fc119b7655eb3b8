/** Consequences and limits of durability: the server that confirmed a manifest keeps it; orphan checks
    answered by it never cost a chunk; one answered without a manifest does. */
module Retention {
  import opened Types
  import Gossip
  import opened StorageNode
  import opened System
  import opened Durability

  // ---- The home server keeps the manifest ----

  lemma EffectKeepsManifest(s: Gossip.State, t: Gossip.Task, key: string, id: FileId)
    requires Gossip.Agreement(s) && Gossip.Placed(t, |s.servers|) && Gossip.Changes(t) && Gossip.PurgeOk(s, t)
    requires id in s.servers[Gossip.Site(t)].manifests && !Expired(s.inserted[id].release, s.now)
    ensures id in Gossip.Effect(s.servers[Gossip.Site(t)], t, key).manifests
  {
    hide Gossip.Agreement, Expired;
  }

  /** A server loses a manifest that is not expired only by a deletion request. */
  lemma ManifestStays(s: Gossip.State, a: Gossip.Action, i: nat, id: FileId)
    requires Gossip.Agreement(s) && Gossip.Enabled(s, a) && i < |s.servers| && id in s.servers[i].manifests
    requires a != Gossip.Delete(i, id) && id in s.inserted && !Expired(s.inserted[id].release, s.now)
    ensures |Gossip.Apply(s, a).servers| == |s.servers| && id in Gossip.Apply(s, a).servers[i].manifests
  {
    hide Gossip.Agreement, Gossip.Next, Gossip.Effect, Expired;
    if a.Advance? {
      var task := s.tasks[a.t];
      assert Gossip.PurgeOk(s, task) by {
        TaskIsOk(s, a.t);
      }
      if Gossip.Changes(task) && Gossip.Site(task) == i {
        EffectKeepsManifest(s, task, a.key, id);
      }
    }
  }

  lemma TaskIsOk(s: Gossip.State, t: nat)
    requires Gossip.Agreement(s) && t < |s.tasks|
    ensures Gossip.PurgeOk(s, s.tasks[t])
  {
  }

  ghost predicate HomeHolds(s: State, f: FileId)
    requires IsPublished(s, f)
  {
    var home := s.files[f].phase.home;
    home < |s.net.servers| && f in s.net.inserted && f in s.net.servers[home].manifests
  }

  /** Every live published file has its manifest on its home server. */
  ghost predicate Homes(s: State) {
    forall f :: IsPublished(s, f) && f !in s.erased && !Expired(s.files[f].release, s.net.now) ==> HomeHolds(s, f)
  }

  lemma HomeIfLive(s: State, f: FileId)
    requires Homes(s) && IsPublished(s, f)
    ensures HomeHolds(s, f) || f in s.erased || Expired(s.files[f].release, s.net.now)
  {
  }

  lemma HomeStep(s: State, a: Action, f: FileId)
    requires Inv(s) && Homes(s) && Enabled(s, a)
    requires var s' := Apply(s, a);
      IsPublished(s', f) && f !in s'.erased && !Expired(s'.files[f].release, s'.net.now)
    ensures HomeHolds(Apply(s, a), f)
  {
    var s' := Apply(s, a);
    NetKept(s, a);
    if !a.Begin? || a.f != f {
      HistoryStep(s, a, f);
    }
    ExpiryIsFinal(s'.files[f].release, s.net.now, s'.net.now);
    if IsPublished(s, f) {
      assert HomeHolds(s, f);
      assert ManifestOk(s, f);
      hide Inv, WellKept, FirmKept, Gossip.Agreement, Gossip.Apply, Expired, ListsOwn, AckedOf, ErasedPlaces, Condemned, Confirmed;
      HomeNetStep(s, a, f);
    } else {
      hide Inv, WellKept, FirmKept, Gossip.Agreement, Expired, ListsOwn, AckedOf, ErasedPlaces, Condemned, Confirmed;
    }
  }

  lemma HomeNetStep(s: State, a: Action, f: FileId)
    requires Gossip.Agreement(s.net) && Enabled(s, a) && IsPublished(s, f) && HomeHolds(s, f)
    requires f !in Apply(s, a).erased && !Expired(s.net.inserted[f].release, s.net.now)
    ensures f in Apply(s, a).net.servers[s.files[f].phase.home].manifests
  {
    var home := s.files[f].phase.home;
    hide Gossip.Agreement, Gossip.Apply, Expired, ListsOwn, AckedOf, ErasedPlaces, Condemned, Confirmed;
    NetKept(s, a);
    match a {
      case Publish(m, i, _) => ManifestStays(s.net, Gossip.Insert(i, m), home, f);
      case EraseManifest(g, i) => ManifestStays(s.net, Gossip.Delete(i, g), home, f);
      case Network(step) => ManifestStays(s.net, step, home, f);
      case _ =>
    }
  }

  lemma HomesStep(s: State, a: Action)
    requires Inv(s) && Homes(s) && Enabled(s, a)
    ensures Inv(Apply(s, a)) && Homes(Apply(s, a))
  {
    hide Inv, Enabled, Apply, HomeHolds, Expired;
    StepKeeps(s, a);
    var s' := Apply(s, a);
    forall f | IsPublished(s', f) && f !in s'.erased && !Expired(s'.files[f].release, s'.net.now)
      ensures HomeHolds(s', f)
    {
      HomeStep(s, a, f);
    }
  }

  lemma {:induction false} RunKeepsHomes(s: State, acts: seq<Action>)
    requires Inv(s) && Homes(s) && Runs(s, acts)
    ensures Inv(Exec(s, acts)) && Homes(Exec(s, acts))
    decreases |acts|
  {
    hide Inv, Homes, Enabled, Apply;
    if acts != [] {
      HomesStep(s, acts[0]);
      RunKeepsHomes(Apply(s, acts[0]), acts[1..]);
    }
  }

  /** Over all runs the server that confirmed a manifest holds it, unchanged, until a user deletes
      the file or its release date is seven days past. */
  lemma ManifestsLast(servers: nat, acts: seq<Action>, f: FileId)
    requires Runs(Init(servers), acts)
    requires var s := Exec(Init(servers), acts);
      IsPublished(s, f) && f !in s.erased && !Expired(s.files[f].release, s.net.now)
    ensures var s := Exec(Init(servers), acts);
      && HomeHolds(s, f)
      && s.net.servers[s.files[f].phase.home].manifests[f] == ManifestBlob(s.net.inserted[f])
  {
    InitInv(servers);
    RunKeepsHomes(Init(servers), acts);
    var s := Exec(Init(servers), acts);
    HomeIfLive(s, f);
    HomeManifest(s, f);
  }

  lemma HomeManifest(s: State, f: FileId)
    requires Inv(s) && IsPublished(s, f) && HomeHolds(s, f)
    ensures s.net.servers[s.files[f].phase.home].manifests[f] == ManifestBlob(s.net.inserted[f])
  {
    var home := s.net.servers[s.files[f].phase.home];
    assert Gossip.TablesOk(s.net, home.nodes, home.manifests);
  }

  // ---- Orphan checks ----

  /** An orphan check of a published file's chunk asks its home server. */
  ghost predicate AsksHome(s: State, a: Action) {
    a.Judge? && a.place in s.store && IsPublished(s, s.store[a.place].fileId) ==>
      a.asked == Some(s.files[s.store[a.place].fileId].phase.home)
  }

  ghost predicate AllAskHome(s: State, acts: seq<Action>)
    requires Runs(s, acts)
    decreases |acts|
  {
    acts != [] ==> AsksHome(s, acts[0]) && AllAskHome(Apply(s, acts[0]), acts[1..])
  }

  /** Only deleted or expired files were ever left unconfirmed. */
  ghost predicate Excused(s: State) {
    forall f :: f in s.unconfirmed ==> f in s.files && (f in s.erased || Expired(s.files[f].release, s.net.now))
  }

  lemma ExcusedStep(s: State, a: Action)
    requires Inv(s) && Homes(s) && Excused(s) && Enabled(s, a) && AsksHome(s, a)
    ensures Excused(Apply(s, a))
  {
    var s' := Apply(s, a);
    NetKept(s, a);
    forall f | f in s'.unconfirmed
      ensures f in s'.files && (f in s'.erased || Expired(s'.files[f].release, s'.net.now))
    {
      if f in s.unconfirmed {
        HistoryStep(s, a, f);
        hide Inv, Apply, Enabled, Gossip.Agreement;
      } else {
        JudgedIsExcused(s, a, f);
      }
    }
  }

  lemma JudgedIsExcused(s: State, a: Action, f: FileId)
    requires Inv(s) && Homes(s) && Enabled(s, a) && AsksHome(s, a)
    requires f in Apply(s, a).unconfirmed && f !in s.unconfirmed
    ensures f in Apply(s, a).files && (f in Apply(s, a).erased || Expired(Apply(s, a).files[f].release, Apply(s, a).net.now))
  {
    hide Gossip.Agreement, Gossip.Apply, FirmKept, Expired, ListsOwn, AckedOf, ErasedPlaces;
    assert a.Judge?;
    assert CopyOk(s, a.place) && IssueOk(s, a.place.1);
    hide Inv, WellKept, Unix;
    assert IsPublished(s, f);
    hide Homes;
    HomeIfLive(s, f);
  }

  lemma {:induction false} RunExcused(s: State, acts: seq<Action>)
    requires Inv(s) && Homes(s) && Excused(s) && Runs(s, acts) && AllAskHome(s, acts)
    ensures Inv(Exec(s, acts)) && Excused(Exec(s, acts))
    decreases |acts|
  {
    hide Inv, Homes, Excused, Enabled, Apply;
    if acts != [] {
      ExcusedStep(s, acts[0]);
      HomesStep(s, acts[0]);
      RunExcused(Apply(s, acts[0]), acts[1..]);
    }
  }

  /** Durability without a hypothesis on the answers: it is enough that orphan checks reach the server
      that confirmed the file, as they do when there is one bootstrap server and it can be reached. */
  lemma AskingHomeSuffices(servers: nat, acts: seq<Action>, f: FileId)
    requires Runs(Init(servers), acts) && AllAskHome(Init(servers), acts)
    requires var s := Exec(Init(servers), acts);
      Timely(s, f) && f !in s.erased && !Expired(s.files[f].release, s.net.now)
    ensures Intact(Exec(Init(servers), acts), f)
  {
    InitInv(servers);
    RunExcused(Init(servers), acts);
    ProtectedIsIntact(Exec(Init(servers), acts), f);
  }

  lemma TwoSteps(s: State, a: Action, b: Action)
    requires Enabled(s, a) && Enabled(Apply(s, a), b)
    ensures Runs(s, [a, b]) && Exec(s, [a, b]) == Apply(Apply(s, a), b)
  {
    hide Enabled, Apply;
    assert [a, b][1..] == [b] && [b][1..] == [];
    assert Runs(Apply(s, a), [b]) && Exec(Apply(s, a), [b]) == Apply(Apply(s, a), b);
  }

  /** The limit of durability: an old chunk of a protected file survives its orphan check exactly when
      the answer is a manifest. A server that lacks it, or cannot be reached, costs the copy, even if
      every other server holds the manifest. */
  lemma OrphanCheckDecides(s: State, f: FileId, place: Place, asked: Option<nat>)
    requires Inv(s) && Protected(s, f) && place in s.acked && Belongs(s, place, f)
    requires s.issued[place.1].createdAt > 0 && !Young(s, place.1)
    requires asked.Some? ==> asked.value < |s.net.servers|
    ensures Enabled(s, Judge(place, asked))
    ensures asked.Some? && f in s.net.servers[asked.value].manifests <==> Apply(s, Judge(place, asked)) == s
    ensures asked.None? || f !in s.net.servers[asked.value].manifests ==>
      Runs(s, [Judge(place, asked), Reap(place)]) && !Intact(Exec(s, [Judge(place, asked), Reap(place)]), f)
  {
    ProtectedIsIntact(s, f);
    FirmIsNotDoomed(s, f, place);
    assert IssueOk(s, place.1);
    hide Inv;
    JudgeEffect(s, f, place, asked);
    hide Protected, Apply, Enabled, Belongs;
    if !Confirmed(s, f, asked) {
      TwoSteps(s, Judge(place, asked), Reap(place));
    }
  }

  lemma FirmIsNotDoomed(s: State, f: FileId, place: Place)
    requires Inv(s) && Protected(s, f) && Belongs(s, place, f)
    ensures place !in s.doomed
  {
    hide Gossip.Agreement, WellKept, Expired;
    assert Firm(s, place.1);
  }

  /** The two collector steps on a stored old copy of a protected file. */
  lemma JudgeEffect(s: State, f: FileId, place: Place, asked: Option<nat>)
    requires Protected(s, f) && Intact(s, f) && place in s.acked && Belongs(s, place, f) && place !in s.doomed
    requires s.issued[place.1].createdAt > 0 && !Young(s, place.1)
    requires s.issued[place.1].release == s.files[f].release
    requires asked.Some? ==> asked.value < |s.net.servers|
    ensures Enabled(s, Judge(place, asked))
    ensures Confirmed(s, f, asked) <==> Apply(s, Judge(place, asked)) == s
    ensures !Confirmed(s, f, asked) ==>
      var s' := Apply(s, Judge(place, asked));
      Enabled(s', Reap(place)) && !Intact(Apply(s', Reap(place)), f)
  {
    hide Expired, Unix, Gossip.Apply, Gossip.Enabled, AckedOf, ErasedPlaces, ListsOwn, Timely;
    if !Confirmed(s, f, asked) {
      var s' := Apply(s, Judge(place, asked));
      assert place in Apply(s', Reap(place)).acked && Belongs(Apply(s', Reap(place)), place, f);
    }
  }

  /** Why durability asks for a timely upload: when an upload takes more than two hours, an old acknowledged
      copy can be collected as an orphan before the manifest is stored. The file is then published, neither
      deleted nor expired nor ever left unconfirmed after its publication, and has lost that copy. */
  lemma LateUploadLoses(s: State, f: FileId, place: Place, asked: Option<nat>, m: FileManifest, i: nat)
    requires Inv(s) && IsUploading(s, f) && place in s.acked && place in s.store && Belongs(s, place, f)
    requires s.issued[place.1].createdAt > 0 && !Young(s, place.1)
    requires f !in s.erased && f !in s.unconfirmed && !Expired(s.files[f].release, s.net.now)
    requires asked.Some? ==> asked.value < |s.net.servers|
    requires m.fileId == f && Enabled(s, Publish(m, i, true))
    ensures var acts := [Judge(place, asked), Reap(place), Publish(m, i, true)];
      && Runs(s, acts)
      && var s' := Exec(s, acts);
        && IsPublished(s', f) && f !in s'.erased && f !in s'.unconfirmed && !Expired(s'.files[f].release, s'.net.now)
        && !Timely(s', f) && !Intact(s', f)
  {
    NotYetConfirmed(s, f, asked);
    CopyIsOk(s, place);
    assert IssueOk(s, place.1);
    hide Inv, Gossip.Agreement;
    LateSteps(s, f, place, asked, m, i);
    var a, b, c := Judge(place, asked), Reap(place), Publish(m, i, true);
    var one := Apply(s, a);
    hide Apply, Enabled, Confirmed, Belongs, Expired, Timely, Intact;
    TwoSteps(one, b, c);
    assert [a, b, c][1..] == [b, c];
  }

  lemma NotYetConfirmed(s: State, f: FileId, asked: Option<nat>)
    requires Inv(s) && IsUploading(s, f) && (asked.Some? ==> asked.value < |s.net.servers|)
    ensures !Confirmed(s, f, asked)
  {
    assert f in s.net.inserted ==> ManifestOk(s, f);
    if asked.Some? {
      assert Gossip.TablesOk(s.net, s.net.servers[asked.value].nodes, s.net.servers[asked.value].manifests);
    }
    hide Gossip.Agreement, WellKept, FirmKept;
  }

  lemma LateSteps(s: State, f: FileId, place: Place, asked: Option<nat>, m: FileManifest, i: nat)
    requires IsUploading(s, f) && place in s.acked && place in s.store && Belongs(s, place, f)
    requires CopyOk(s, place) && IssueOk(s, place.1)
    requires s.issued[place.1].createdAt > 0 && !Young(s, place.1)
    requires f !in s.erased && f !in s.unconfirmed && !Expired(s.files[f].release, s.net.now)
    requires (asked.Some? ==> asked.value < |s.net.servers|) && !Confirmed(s, f, asked)
    requires m.fileId == f && Enabled(s, Publish(m, i, true))
    ensures Enabled(s, Judge(place, asked))
    ensures var one := Apply(s, Judge(place, asked));
      && Enabled(one, Reap(place))
      && var two := Apply(one, Reap(place));
        && Enabled(two, Publish(m, i, true))
        && var s' := Apply(two, Publish(m, i, true));
          && IsPublished(s', f) && f !in s'.erased && f !in s'.unconfirmed && !Expired(s'.files[f].release, s'.net.now)
          && !Timely(s', f) && !Intact(s', f)
  {
    hide Expired, Unix, Gossip.Apply, Gossip.Enabled, AckedOf, ErasedPlaces, Places, Confirmed;
    var one := Apply(s, Judge(place, asked));
    assert place in one.doomed && one.net == s.net && one.issued == s.issued && one.files == s.files && one.acked == s.acked;
    var two := Apply(one, Reap(place));
    assert two.net == s.net && two.issued == s.issued && two.files == s.files && place !in two.store && place in two.acked;
    assert ListsOwn(two, m);
    NetNow(two, m, i);
    var s' := Apply(two, Publish(m, i, true));
    assert s'.issued[place.1].fileId == f && Belongs(s', place, f);
  }

  lemma NetNow(s: State, m: FileManifest, i: nat)
    requires Enabled(s, Publish(m, i, true))
    ensures Apply(s, Publish(m, i, true)).net.now == s.net.now
  {
    hide AckedOf, ListsOwn;
  }

  /** What is held against a file as unconfirmed: an orphan check of one of its chunks, more than 7200 s old and
      not expired, after its publication, that was not answered with a manifest. */
  lemma UnconfirmedIff(s: State, a: Action, f: FileId)
    requires Enabled(s, a)
    ensures f in Apply(s, a).unconfirmed <==> f in s.unconfirmed || (a.Judge? && OrphanCheck(s, a.place, a.asked, f))
  {
    hide Gossip.Apply, Gossip.Enabled, Expired, ListsOwn, AckedOf, ErasedPlaces, Places;
  }

  predicate OrphanCheck(s: State, place: Place, asked: Option<nat>, f: FileId)
    requires place in s.store && (asked.Some? ==> asked.value < |s.net.servers|)
  {
    var r := s.store[place];
    && r.fileId == f && IsPublished(s, f) && !Expired(r.release, s.net.now)
    && r.createdAt > 0 && s.net.now / 1_000_000_000 - r.createdAt > 7200
    && (asked.None? || f !in s.net.servers[asked.value].manifests)
  }

  // ---- What stays as it is ----

  lemma IssuedStep(s: State, a: Action, f: FileId, id: ChunkId)
    requires Inv(s) && Enabled(s, a) && IsPublished(s, f)
    ensures IsPublished(Apply(s, a), f)
    ensures id in Apply(s, a).issued && Apply(s, a).issued[id].fileId == f <==> id in s.issued && s.issued[id].fileId == f
  {
    HistoryStep(s, a, f);
    hide Inv, Gossip.Apply, Gossip.Enabled, Expired, ListsOwn, AckedOf, ErasedPlaces, Condemned, Confirmed;
  }

  /** The chunks of a published file are those that it was published with: over all runs none is added or lost. */
  lemma {:induction false} PublishedIsSettled(s: State, acts: seq<Action>, f: FileId, id: ChunkId)
    requires Inv(s) && Runs(s, acts) && IsPublished(s, f)
    ensures IsPublished(Exec(s, acts), f)
    ensures id in Exec(s, acts).issued && Exec(s, acts).issued[id].fileId == f <==> id in s.issued && s.issued[id].fileId == f
    decreases |acts|
  {
    hide Inv, Enabled, Apply, IsPublished;
    if acts != [] {
      IssuedStep(s, acts[0], f, id);
      StepKeeps(s, acts[0]);
      PublishedIsSettled(Apply(s, acts[0]), acts[1..], f, id);
    }
  }

  lemma DoomedStep(s: State, a: Action, place: Place)
    requires Inv(s) && Enabled(s, a) && place !in s.doomed && !(a.Judge? && a.place == place)
    ensures place !in Apply(s, a).doomed
  {
    if a.Judge? {
      CopyIsOk(s, a.place);
    }
    hide Inv, Gossip.Apply, Gossip.Enabled, Expired, ListsOwn, AckedOf, ErasedPlaces, Condemned, Confirmed;
  }

  lemma {:induction false} UnjudgedStays(s: State, acts: seq<Action>, place: Place)
    requires Inv(s) && Runs(s, acts) && place !in s.doomed
    requires forall k :: 0 <= k < |acts| ==> !(acts[k].Judge? && acts[k].place == place)
    ensures !Enabled(Exec(s, acts), Reap(place))
    decreases |acts|
  {
    if acts != [] {
      DoomedStep(s, acts[0], place);
      StepKeeps(s, acts[0]);
      hide Inv, Enabled, Apply;
      UnjudgedStays(Apply(s, acts[0]), acts[1..], place);
    }
  }

  /** The chunk collector deletes once for each judgement: a copy that is saved again where it deleted one is not
      deleted by it before it was judged itself. */
  lemma JudgedAnew(s: State, acts: seq<Action>, place: Place)
    requires Inv(s) && Enabled(s, Reap(place)) && Runs(Apply(s, Reap(place)), acts)
    requires forall k :: 0 <= k < |acts| ==> !(acts[k].Judge? && acts[k].place == place)
    ensures !Enabled(Exec(Apply(s, Reap(place)), acts), Reap(place))
  {
    StepKeeps(s, Reap(place));
    assert place !in Apply(s, Reap(place)).doomed;
    hide Inv, Apply, Enabled, Runs, Exec;
    UnjudgedStays(Apply(s, Reap(place)), acts, place);
  }

  /** What a failed upload left behind, if its manifest never reached a server, is collected: every
      copy older than two hours is removed whatever server answers. */
  lemma ResidueIsCollected(s: State, place: Place, asked: Option<nat>)
    requires Inv(s) && place in s.store && s.store[place].fileId !in s.net.inserted
    requires s.store[place].createdAt > 0 && !Young(s, place.1)
    requires asked.Some? ==> asked.value < |s.net.servers|
    ensures Runs(s, [Judge(place, asked), Reap(place)])
    ensures place !in Exec(s, [Judge(place, asked), Reap(place)]).store
  {
    ResidueSteps(s, place, asked);
    hide *;
    TwoSteps(s, Judge(place, asked), Reap(place));
  }

  lemma ResidueSteps(s: State, place: Place, asked: Option<nat>)
    requires Inv(s) && place in s.store && s.store[place].fileId !in s.net.inserted
    requires s.store[place].createdAt > 0 && !Young(s, place.1)
    requires asked.Some? ==> asked.value < |s.net.servers|
    ensures Enabled(s, Judge(place, asked)) && Enabled(Apply(s, Judge(place, asked)), Reap(place))
    ensures place !in Apply(Apply(s, Judge(place, asked)), Reap(place)).store
  {
    CopyIsOk(s, place);
    if asked.Some? {
      assert Gossip.TablesOk(s.net, s.net.servers[asked.value].nodes, s.net.servers[asked.value].manifests);
    }
    hide Inv, Gossip.Agreement, Gossip.Apply, Expired, ListsOwn, AckedOf, ErasedPlaces;
  }
}
