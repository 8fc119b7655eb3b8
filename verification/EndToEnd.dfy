/** One upload among all the system's activity, from its first read to a download long after. */
module EndToEnd {
  import opened Types
  import Blocks
  import opened Reconstruct
  import opened PipelineControl
  import C = PipelineContent
  import P = Pipeline
  import opened Upload
  import opened RoundTrip
  import PipelineProgress
  import opened Stamps
  import System
  import opened Durability
  import opened Retention
  import opened Refinement

  ghost function Step(p: P.Params, j: Joint, e: Event): Joint
    requires Enabled(p, j, e)
  {
    match e
    case Own(a, server) =>
      var seen := Visible(p, j.pipe, a, server);
      // OwnStep shows that the system can always take the visible step
      Joint(P.Apply(p, j.pipe, a),
            if seen.Some? && System.Enabled(j.sys, seen.value) then System.Apply(j.sys, seen.value) else j.sys)
    case Other(a) => Joint(j.pipe, System.Apply(j.sys, a))
  }

  ghost predicate Runs(p: P.Params, j: Joint, events: seq<Event>)
    decreases |events|
  {
    events == [] || (Enabled(p, j, events[0]) && Runs(p, Step(p, j, events[0]), events[1..]))
  }

  ghost function Exec(p: P.Params, j: Joint, events: seq<Event>): Joint
    requires Runs(p, j, events)
    decreases |events|
  {
    if events == [] then j else Exec(p, Step(p, j, events[0]), events[1..])
  }

  /** The upload begins in a system that has been running. */
  ghost function Start(p: P.Params, y: System.State): Joint
    requires p.fileId !in y.files
  {
    Joint(P.Init(p), System.Apply(y, System.Begin(p.fileId, p.release)))
  }

  ghost predicate Whole(p: P.Params, j: Joint) {
    JointInv(p, j) && Homes(j.sys) && C.Reachable(p, j.pipe)
  }

  /** Refinement: every step of the pipeline, seen from outside, is a possible step of the system, or
      none at all, and the two states go on agreeing. */
  lemma OwnStep(p: P.Params, j: Joint, a: P.Action, server: nat)
    requires JointInv(p, j) && Enabled(p, j, Own(a, server))
    ensures var seen := Visible(p, j.pipe, a, server);
      && (seen.Some? ==> System.Enabled(j.sys, seen.value))
      && Agrees(p, P.Apply(p, j.pipe, a), Step(p, j, Own(a, server)).sys)
  {
    var s, y := j.pipe, j.sys;
    hide Inv, Control, C.Content, Agrees, P.Apply, P.Enabled, System.Apply, System.Enabled, ManifestOf, IssueOf, JobOf;
    match a {
      case SliceChunk(_, _, _) => SliceStep(p, s, y, a, server);
      case TrySave(_, stored, _, _) =>
        if stored {
          SaveStep(p, s, y, a, server);
        } else {
          SilentStep(p, s, y, a, server);
        }
      case CheckErrors =>
        if s.latch.Some? {
          FailureStep(p, s, y, a, server);
        } else {
          SilentStep(p, s, y, a, server);
        }
      case PublishManifest(stored, _) =>
        if stored {
          PublishStep(p, s, y, a, server);
        } else {
          FailureStep(p, s, y, a, server);
        }
      case ReadFails => FailureStep(p, s, y, a, server);
      case _ => SilentStep(p, s, y, a, server);
    }
  }

  lemma ReachableStep(p: P.Params, s: P.State, a: P.Action)
    requires C.Reachable(p, s) && P.Enabled(p, s, a)
    ensures C.Reachable(p, P.Apply(p, s, a))
  {
    hide P.Enabled, P.Apply, P.Init;
    var acts :| P.Runs(p, P.Init(p), acts) && P.Exec(p, P.Init(p), acts) == s;
    PipelineProgress.RunAppend(p, P.Init(p), acts, a);
  }

  lemma StepKeepsWhole(p: P.Params, j: Joint, e: Event)
    requires Whole(p, j) && Enabled(p, j, e)
    ensures Whole(p, Step(p, j, e))
  {
    hide Inv, Homes, Control, C.Content, Agrees, P.Apply, P.Enabled, System.Apply, System.Enabled, C.Reachable, Visible;
    match e {
      case Own(a, server) =>
        OwnStep(p, j, a, server);
        C.ContentStep(p, j.pipe, a);
        ReachableStep(p, j.pipe, a);
        var seen := Visible(p, j.pipe, a, server);
        if seen.Some? {
          HomesStep(j.sys, seen.value);
        }
      case Other(a) =>
        ForeignStep(p, j.pipe, j.sys, a);
        HomesStep(j.sys, a);
    }
  }

  lemma {:induction false} RunKeepsWhole(p: P.Params, j: Joint, events: seq<Event>)
    requires Whole(p, j) && Runs(p, j, events)
    ensures Whole(p, Exec(p, j, events))
    decreases |events|
  {
    hide Whole, Enabled, Step;
    if events != [] {
      StepKeepsWhole(p, j, events[0]);
      RunKeepsWhole(p, Step(p, j, events[0]), events[1..]);
    }
  }

  lemma StartIsWhole(p: P.Params, y: System.State)
    requires P.ValidParams(p) && Inv(y) && Homes(y) && p.fileId !in y.files
    ensures Whole(p, Start(p, y))
  {
    var j := Start(p, y);
    HomesStep(y, System.Begin(p.fileId, p.release));
    C.ContentInit(p);
    ControlInit(p);
    StartAgrees(p, y);
    var none: seq<P.Action> := [];
    assert P.Runs(p, P.Init(p), none) && P.Exec(p, P.Init(p), none) == j.pipe;
    hide Inv, Homes, Control, C.Content, Agrees, P.Init, System.Apply;
  }

  lemma StartAgrees(p: P.Params, y: System.State)
    requires Inv(y) && p.fileId !in y.files
    ensures Agrees(p, Start(p, y).pipe, Start(p, y).sys)
  {
    forall id | id in y.issued
      ensures y.issued[id].fileId != p.fileId
    {
      assert IssueOk(y, id);
    }
    hide Inv;
  }

  /** Whatever the system did before, an upload can begin in its state. */
  lemma BeginningIsSound(servers: nat, earlier: seq<System.Action>)
    requires System.Runs(System.Init(servers), earlier)
    ensures Inv(System.Exec(System.Init(servers), earlier)) && Homes(System.Exec(System.Init(servers), earlier))
  {
    InitInv(servers);
    assert Homes(System.Init(servers));
    hide *;
    RunKeepsHomes(System.Init(servers), earlier);
  }

  lemma EndIsWhole(servers: nat, earlier: seq<System.Action>, p: P.Params, events: seq<Event>)
    requires P.ValidParams(p) && System.Runs(System.Init(servers), earlier)
    requires p.fileId !in System.Exec(System.Init(servers), earlier).files
    requires Runs(p, Start(p, System.Exec(System.Init(servers), earlier)), events)
    ensures Whole(p, Exec(p, Start(p, System.Exec(System.Init(servers), earlier)), events))
  {
    hide *;
    BeginningIsSound(servers, earlier);
    var y := System.Exec(System.Init(servers), earlier);
    StartIsWhole(p, y);
    RunKeepsWhole(p, Start(p, y), events);
  }

  // ---- Creation times ----

  /** The clock never goes back. */
  lemma ClockStep(p: P.Params, j: Joint, e: Event)
    requires Whole(p, j) && Enabled(p, j, e)
    ensures j.sys.net.now <= Step(p, j, e).sys.net.now
  {
    hide Agrees, Control, C.Content, C.Reachable, P.Apply, P.Enabled, System.Apply, System.Enabled, FirmKept, WellKept, Homes;
    match e {
      case Own(a, server) =>
        var seen := Visible(p, j.pipe, a, server);
        if seen.Some? && System.Enabled(j.sys, seen.value) {
          NetKept(j.sys, seen.value);
        }
      case Other(a) => NetKept(j.sys, a);
    }
  }

  lemma DatedStep(p: P.Params, j: Joint, e: Event, begin: int)
    requires Whole(p, j) && Enabled(p, j, e) && Dated(j.pipe, begin, Unix(j.sys.net.now))
    ensures Dated(Step(p, j, e).pipe, begin, Unix(Step(p, j, e).sys.net.now))
  {
    ClockStep(p, j, e);
    hide Whole, Dated, P.Apply, P.Enabled, System.Apply, System.Enabled, Visible, Unix;
    if e.Own? {
      PipelineDates(p, j.pipe, e.step, begin, Unix(j.sys.net.now));
    }
    LaterIsDated(Step(p, j, e).pipe, begin, j.sys.net.now, Step(p, j, e).sys.net.now);
  }

  lemma {:induction false} RunIsDated(p: P.Params, j: Joint, events: seq<Event>, begin: int)
    requires Whole(p, j) && Runs(p, j, events) && Dated(j.pipe, begin, Unix(j.sys.net.now))
    ensures Dated(Exec(p, j, events).pipe, begin, Unix(Exec(p, j, events).sys.net.now))
    decreases |events|
  {
    hide Whole, Dated, Enabled, Step, Unix;
    if events != [] {
      StepKeepsWhole(p, j, events[0]);
      DatedStep(p, j, events[0], begin);
      RunIsDated(p, Step(p, j, events[0]), events[1..], begin);
    }
  }

  lemma StartsDated(p: P.Params, y: System.State)
    requires p.fileId !in y.files
    ensures Dated(Start(p, y).pipe, Unix(y.net.now), Unix(Start(p, y).sys.net.now))
  {
  }

  lemma EndIsDated(servers: nat, earlier: seq<System.Action>, p: P.Params, events: seq<Event>)
    requires P.ValidParams(p) && System.Runs(System.Init(servers), earlier)
    requires p.fileId !in System.Exec(System.Init(servers), earlier).files
    requires Runs(p, Start(p, System.Exec(System.Init(servers), earlier)), events)
    ensures var y := System.Exec(System.Init(servers), earlier);
      var j := Exec(p, Start(p, y), events);
      Whole(p, j) && Dated(j.pipe, Unix(y.net.now), Unix(j.sys.net.now))
  {
    hide *;
    BeginningIsSound(servers, earlier);
    var y := System.Exec(System.Init(servers), earlier);
    StartIsWhole(p, y);
    RunKeepsWhole(p, Start(p, y), events);
    StartsDated(p, y);
    RunIsDated(p, Start(p, y), events, Unix(y.net.now));
  }

  /** In every run, hence at every moment of it, a chunk that the upload has issued, and every stored copy of one,
      carries a creation time between the beginning of the upload and that moment. */
  lemma CreationTimes(servers: nat, earlier: seq<System.Action>, p: P.Params, events: seq<Event>)
    requires P.ValidParams(p) && System.Runs(System.Init(servers), earlier)
    requires p.fileId !in System.Exec(System.Init(servers), earlier).files
    requires Runs(p, Start(p, System.Exec(System.Init(servers), earlier)), events)
    ensures var y := System.Exec(System.Init(servers), earlier);
      var j := Exec(p, Start(p, y), events);
      && (forall id :: id in j.pipe.issued ==>
            y.net.now / 1_000_000_000 <= j.pipe.issued[id].createdAt <= j.sys.net.now / 1_000_000_000)
      && (forall place :: place in j.sys.store && j.sys.store[place].fileId == p.fileId ==>
            y.net.now / 1_000_000_000 <= j.sys.store[place].createdAt <= j.sys.net.now / 1_000_000_000)
  {
    EndIsDated(servers, earlier, p, events);
    hide Inv, Homes, System.Runs, System.Exec, Runs, Exec, P.ValidParams, Start, Control, C.Content, FileAgrees, AcksAgree, C.Reachable;
    var j := Exec(p, Start(p, System.Exec(System.Init(servers), earlier)), events);
    forall place | place in j.sys.store && j.sys.store[place].fileId == p.fileId
      ensures place.1 in j.pipe.issued && j.pipe.issued[place.1].createdAt == j.sys.store[place].createdAt
    {
      CopyIsOk(j.sys, place);
    }
  }

  /** Published within two hours of the state `y` in which the upload began, not deleted by a user, every orphan
      check answered with a manifest, and the release date not more than seven days ago. */
  ghost predicate SafeSince(y: System.State, s: System.State, f: FileId) {
    && System.IsPublished(s, f)
    && s.files[f].phase.at / 1_000_000_000 - y.net.now / 1_000_000_000 <= 7200
    && f !in s.erased && f !in s.unconfirmed && !Expired(s.files[f].release, s.net.now)
  }

  /** An upload that takes at most two hours is timely. */
  lemma SafeIsProtected(p: P.Params, y: System.State, j: Joint)
    requires Whole(p, j) && Dated(j.pipe, Unix(y.net.now), Unix(j.sys.net.now)) && SafeSince(y, j.sys, p.fileId)
    ensures Protected(j.sys, p.fileId)
  {
    hide Inv, Homes, Control, C.Content, C.Reachable, FileAgrees, AcksAgree, Expired;
  }

  // ---- Reading back ----

  /** What the nodes of `up` answer for the chunks of file `f`. */
  function Answers(y: System.State, f: FileId, up: set<Addr>): Net {
    map place | place in y.store && place.0 in up && y.store[place].fileId == f :: y.store[place]
  }

  /** How many of the chunks were acknowledged by a node that is up. */
  function CountUp(chunks: seq<Chunk>, at: nat, successful: map<ChunkId, Addr>, up: set<Addr>): nat
    requires at <= |chunks|
    decreases |chunks| - at
  {
    if at == |chunks| then 0
    else
      (if chunks[at].id in successful && successful[chunks[at].id] in up then 1 else 0)
        + CountUp(chunks, at + 1, successful, up)
  }

  lemma {:induction false} UpIsRetrievable(chunks: seq<Chunk>, at: nat, successful: map<ChunkId, Addr>, up: set<Addr>, net: Net)
    requires at <= |chunks|
    requires forall c :: c in chunks && c.id in successful && successful[c.id] in up ==> Retrievable(c, net)
    ensures CountRetrievable(chunks, at, net) >= CountUp(chunks, at, successful, up)
    decreases |chunks| - at
  {
    hide Retrievable;
    if at < |chunks| {
      UpIsRetrievable(chunks, at + 1, successful, up, net);
    }
  }

  lemma AnswersAreHonest(p: P.Params, j: Joint, up: set<Addr>)
    requires JointInv(p, j)
    ensures Honest(Answers(j.sys, p.fileId, up), j.pipe.store)
  {
    var net := Answers(j.sys, p.fileId, up);
    hide Control, FirmKept, C.BlocksKept, C.AllIssuedOk, C.JobsKept, C.OnceInFlight, C.LostKept, FileAgrees, AcksAgree, ManifestOk;
    forall place | place in net
      ensures place in j.pipe.store && net[place] == j.pipe.store[place]
    {
      assert CopyOk(j.sys, place);
      assert place.1 in j.pipe.issued;
      assert C.CopyOk(p, j.pipe, place);
      JobHasId(p, j.pipe, place.1);
    }
  }

  lemma JobHasId(p: P.Params, s: P.State, id: ChunkId)
    requires C.Content(p, s) && id in s.issued
    ensures s.issued[id].chunk.id == id
  {
    hide C.BlocksKept, C.JobsKept, C.OnceInFlight, C.StoreKept, C.LostKept;
    assert C.IssuedOk(p, s, id);
  }

  /** An acknowledged chunk of a protected file can be had from its node. */
  lemma AckedIsRetrievable(p: P.Params, j: Joint, up: set<Addr>, c: Chunk)
    requires JointInv(p, j) && Protected(j.sys, p.fileId) && Listed(j.pipe, c)
    requires c.id in j.pipe.successful && j.pipe.successful[c.id] in up
    ensures Retrievable(c, Answers(j.sys, p.fileId, up))
  {
    ListedIsIssued(p, j.pipe, c);
    ProtectedIsIntact(j.sys, p.fileId);
    var place := (j.pipe.successful[c.id], c.id);
    AckIsOnList(p, j.pipe, c.id);
    hide Inv, Control, C.Content, Protected;
    assert place in j.sys.acked && System.Belongs(j.sys, place, p.fileId);
    assert place in Answers(j.sys, p.fileId, up);
  }

  lemma AckIsOnList(p: P.Params, s: P.State, id: ChunkId)
    requires C.Content(p, s) && id in s.successful
    ensures id in s.issued && s.successful[id] in s.issued[id].chunk.nodes
  {
    hide C.BlocksKept, C.AllIssuedOk, C.JobsKept, C.OnceInFlight, C.LostKept;
    assert C.CopyOk(p, s, (s.successful[id], id));
  }

  lemma AllRetrievable(p: P.Params, j: Joint, up: set<Addr>, b: nat)
    requires JointInv(p, j) && Protected(j.sys, p.fileId) && b in j.pipe.split
    ensures var chunks := j.pipe.split[b].chunks;
      CountRetrievable(chunks, 0, Answers(j.sys, p.fileId, up)) >= CountUp(chunks, 0, j.pipe.successful, up)
  {
    var chunks := j.pipe.split[b].chunks;
    var net := Answers(j.sys, p.fileId, up);
    forall c | c in chunks && c.id in j.pipe.successful && j.pipe.successful[c.id] in up
      ensures Retrievable(c, net)
    {
      assert Listed(j.pipe, c);
      AckedIsRetrievable(p, j, up, c);
    }
    UpIsRetrievable(chunks, 0, j.pipe.successful, up, net);
  }

  /** The chunk is stored, with the record it was sent with, on a node of its own list. */
  ghost predicate OnItsList(p: P.Params, j: Joint, c: Chunk) {
    exists a :: a in c.nodes && (a, c.id) in j.sys.store && c.id in j.pipe.issued
      && j.sys.store[(a, c.id)] == P.RecordOf(p, j.pipe.issued[c.id])
  }

  lemma AckedStays(p: P.Params, j: Joint, c: Chunk)
    requires JointInv(p, j) && Protected(j.sys, p.fileId) && Listed(j.pipe, c) && c.id in j.pipe.successful
    ensures OnItsList(p, j, c)
  {
    ListedIsIssued(p, j.pipe, c);
    ProtectedIsIntact(j.sys, p.fileId);
    AckIsOnList(p, j.pipe, c.id);
    JobHasId(p, j.pipe, c.id);
    var a := j.pipe.successful[c.id];
    hide Inv, Control, C.Content, Protected;
    assert (a, c.id) in j.sys.acked && System.Belongs(j.sys, (a, c.id), p.fileId);
    assert j.sys.store[(a, c.id)] == P.RecordOf(p, j.pipe.issued[c.id]);
  }

  /** Durability as promised: after a successful upload that skipped no job, in any system run and among any
      other activity, every chunk of the manifest stays on a node of its own list, if the upload took at most
      two hours, as long as the file is safe. */
  lemma ListedChunksStay(servers: nat, earlier: seq<System.Action>, p: P.Params, events: seq<Event>)
    requires P.ValidParams(p) && System.Runs(System.Init(servers), earlier)
    requires p.fileId !in System.Exec(System.Init(servers), earlier).files
    requires Runs(p, Start(p, System.Exec(System.Init(servers), earlier)), events)
    requires var j := Exec(p, Start(p, System.Exec(System.Init(servers), earlier)), events);
      && j.pipe.main == P.Returned(P.Success) && j.pipe.skipped == {}
      && SafeSince(System.Exec(System.Init(servers), earlier), j.sys, p.fileId)
    ensures var j := Exec(p, Start(p, System.Exec(System.Init(servers), earlier)), events);
      && (forall b: nat :: b < |p.blocks| <==> b in j.pipe.split)
      && (forall c :: Listed(j.pipe, c) ==> OnItsList(p, j, c))
  {
    EndIsDated(servers, earlier, p, events);
    hide Inv, Homes, System.Runs, System.Exec, Runs, Exec, P.ValidParams, Protected, SafeSince, Dated, OnItsList, Start, Control,
      C.Content, Agrees, C.Reachable, Listed, Acknowledged;
    var y := System.Exec(System.Init(servers), earlier);
    var j := Exec(p, Start(p, y), events);
    SafeIsProtected(p, y, j);
    SuccessIsComplete(p, j.pipe);
    forall c | Listed(j.pipe, c)
      ensures OnItsList(p, j, c)
    {
      AckedById(p, j, c);
      AckedStays(p, j, c);
    }
  }

  lemma AckedById(p: P.Params, j: Joint, c: Chunk)
    requires Acknowledged(p, j.pipe, c)
    ensures c.id in j.pipe.successful
  {
  }

  /** A file that was uploaded successfully, in any system run and among any other activity, can be
      read back, octet for octet, with the manifest that its home server still holds, at any time from
      its round until seven days after its release date, if the upload took at most two hours, as long as
      it is safe and each block has k chunks that were acknowledged by nodes that are up. */
  lemma FilesStayReadable(
    servers: nat, earlier: seq<System.Action>, p: P.Params, events: seq<Event>,
    file: Bytes, up: set<Addr>, clock: nat -> nat, writes: nat)
    requires P.ValidParams(p) && System.Runs(System.Init(servers), earlier)
    requires p.fileId !in System.Exec(System.Init(servers), earlier).files
    requires Runs(p, Start(p, System.Exec(System.Init(servers), earlier)), events)
    requires var j := Exec(p, Start(p, System.Exec(System.Init(servers), earlier)), events);
      && j.pipe.main == P.Returned(P.Success)
      && SafeSince(System.Exec(System.Init(servers), earlier), j.sys, p.fileId)
      && (forall b :: b in j.pipe.split ==> CountUp(j.pipe.split[b].chunks, 0, j.pipe.successful, up) >= p.crypto.k)
    requires p.blocks == Blocks.Cut(file, p.blockSize) && file != [] && writes >= |p.blocks|
    requires forall b: nat :: b < |p.blocks| ==> clock(b) >= p.round
    ensures var j := Exec(p, Start(p, System.Exec(System.Init(servers), earlier)), events);
      var m := ManifestOf(p, j.pipe);
      && HomeHolds(j.sys, p.fileId)
      && j.sys.net.servers[j.sys.files[p.fileId].phase.home].manifests[p.fileId] == ManifestBlob(m)
      && ManifestInRange(m)
      && var (written, error) := Stream(Outcomes(p.crypto, m, Answers(j.sys, p.fileId, up), clock), writes, 0);
        error.None? && Blocks.Join(written) == file
  {
    EndIsDated(servers, earlier, p, events);
    hide Inv, Whole, Stream, Outcomes, ManifestInRange, CountUp, Answers, ManifestOf, P.ValidParams, HomeHolds, Protected,
      SafeSince, Dated, Runs, Exec, System.Runs, System.Exec;
    var y := System.Exec(System.Init(servers), earlier);
    var j := Exec(p, Start(p, y), events);
    SafeIsProtected(p, y, j);
    ReadableNow(p, j, file, up, clock, writes);
  }

  lemma ReadableNow(p: P.Params, j: Joint, file: Bytes, up: set<Addr>, clock: nat -> nat, writes: nat)
    requires P.ValidParams(p) && Whole(p, j) && j.pipe.main == P.Returned(P.Success) && Protected(j.sys, p.fileId)
    requires forall b :: b in j.pipe.split ==> CountUp(j.pipe.split[b].chunks, 0, j.pipe.successful, up) >= p.crypto.k
    requires p.blocks == Blocks.Cut(file, p.blockSize) && file != [] && writes >= |p.blocks|
    requires forall b: nat :: b < |p.blocks| ==> clock(b) >= p.round
    ensures HomeHolds(j.sys, p.fileId) && ManifestInRange(ManifestOf(p, j.pipe))
    ensures j.sys.net.servers[j.sys.files[p.fileId].phase.home].manifests[p.fileId] == ManifestBlob(ManifestOf(p, j.pipe))
    ensures var (written, error) :=
        Stream(Outcomes(p.crypto, ManifestOf(p, j.pipe), Answers(j.sys, p.fileId, up), clock), writes, 0);
      error.None? && Blocks.Join(written) == file
  {
    var net := Answers(j.sys, p.fileId, up);
    assert System.IsPublished(j.sys, p.fileId);
    HomeIfLive(j.sys, p.fileId);
    HomeManifest(j.sys, p.fileId);
    AnswersAreHonest(p, j, up);
    hide P.ValidParams, Inv, Homes, Control, C.Content, C.Reachable, Honest, CountUp, CountRetrievable, Answers, ManifestOf,
      Stream, Outcomes;
    forall b | b in j.pipe.split
      ensures CountRetrievable(j.pipe.split[b].chunks, 0, net) >= p.crypto.k
    {
      AllRetrievable(p, j, up, b);
    }
    RoundTripIff(p, j.pipe, file, net, clock, writes);
  }
}
