/** N bootstrap servers and everything in flight between them. Each database access of a handler is
    a step of its own, so digests, replies, alignments and pushes interleave freely with each other,
    with insertions, heartbeats and deletions, and with the collectors. */
module Gossip {
  import opened Types
  import opened Sync
  import opened Bootstrap

  /** A handler or background job at the point it has reached. */
  datatype Task =
    | Opening(src: nat, dst: nat, nodeKeys: set<string>)
    | Digest(src: nat, dst: nat, nodeKeys: set<string>, manifestKeys: set<string>)
    | Listing(src: nat, dst: nat, nodeKeys: set<string>, manifestKeys: set<string>, localNodes: set<string>)
    | Answering(src: nat, dst: nat, giveNodes: set<string>, giveManifests: set<string>, payload: Payload)
    | Reply(src: nat, dst: nat, payload: Payload)
    | Aligning(at: nat, payload: Payload, peer: Option<nat>)
    | Putting(at: nat, key: string, payload: Payload, peer: Option<nat>)
    | Gathering(src: nat, dst: nat, payload: Payload)
    | Push(dst: nat, payload: Payload)
    | Evicting(at: nat, addrs: set<string>)
    | Purging(at: nat, ids: set<string>)
    | Over

  /** The last two fields are history: the manifests inserted and the subscriptions made. */
  datatype State = State(
    servers: seq<Server>,
    tasks: seq<Task>,
    now: nat,
    inserted: map<FileId, FileManifest>,
    subscribed: set<(Addr, NodeRecord)>)

  datatype Action =
    | Tick(elapsed: nat)
    | Subscribe(i: nat, addr: Addr, publicKey: Bytes)
    | Insert(i: nat, manifest: FileManifest)
    | Delete(i: nat, id: FileId)
    | StartSync(i: nat, j: nat)
    | StartEvict(i: nat)
    | StartPurge(i: nat)
    | Advance(t: nat, key: string)
    | Drop(t: nat)

  const NO_PAYLOAD: Payload := Payload(map[], map[], {}, {})

  /** The records a task carries. */
  function Cargo(t: Task): Payload {
    if t.Answering? || t.Reply? || t.Aligning? || t.Putting? || t.Gathering? || t.Push? then t.payload else NO_PAYLOAD
  }

  predicate Placed(t: Task, n: nat) {
    match t
    case Opening(src, dst, _) => src < n && dst < n
    case Digest(src, dst, _, _) => src < n && dst < n
    case Listing(src, dst, _, _, _) => src < n && dst < n
    case Answering(src, dst, _, _, _) => src < n && dst < n
    case Reply(src, dst, _) => src < n && dst < n
    case Aligning(at, _, peer) => at < n && (peer.Some? ==> peer.value < n)
    case Putting(at, _, _, peer) => at < n && (peer.Some? ==> peer.value < n)
    case Gathering(src, dst, _) => src < n && dst < n
    case Push(dst, _) => dst < n
    case Evicting(at, _) => at < n
    case Purging(at, _) => at < n
    case Over => true
  }

  /** One database access, or one message, of a task; `key` is the map key the loop visits next. */
  function Next(servers: seq<Server>, t: Task, key: string): Task
    requires Placed(t, |servers|)
  {
    match t
    case Opening(src, dst, nodeKeys) =>
      Digest(src, dst, nodeKeys, servers[src].manifests.Keys)
    case Digest(src, dst, nodeKeys, manifestKeys) =>
      Listing(src, dst, nodeKeys, manifestKeys, servers[dst].nodes.Keys)
    case Listing(src, dst, nodeKeys, manifestKeys, localNodes) =>
      Answering(src, dst, localNodes - nodeKeys, servers[dst].manifests.Keys - manifestKeys,
                Payload(map[], map[], nodeKeys - localNodes, manifestKeys - servers[dst].manifests.Keys))
    case Answering(src, dst, giveNodes, giveManifests, payload) =>
      if key in giveNodes then
        Answering(src, dst, giveNodes - {key}, giveManifests, payload.(nodes := payload.nodes + Pick(servers[dst].nodes, {key})))
      else if giveNodes == {} && key in giveManifests then
        Answering(src, dst, {}, giveManifests - {key},
                  payload.(manifests := payload.manifests + Pick(servers[dst].manifests, {key})))
      else if giveNodes == {} && giveManifests == {} then Reply(src, dst, payload)
      else t
    case Reply(src, dst, payload) =>
      Aligning(src, payload, Some(dst))
    case Aligning(at, payload, peer) =>
      if key in payload.nodes then Aligning(at, payload.(nodes := payload.nodes - {key}), peer)
      else if payload.nodes == map[] && key in payload.manifests then
        if key in servers[at].manifests then Aligning(at, payload.(manifests := payload.manifests - {key}), peer)
        else Putting(at, key, payload, peer)
      else if payload.nodes == map[] && payload.manifests == map[] then
        if peer.Some? && (payload.askNodes != {} || payload.askManifests != {}) then Gathering(at, peer.value, payload) else Over
      else t
    case Putting(at, k, payload, peer) =>
      Aligning(at, payload.(manifests := payload.manifests - {k}), peer)
    case Gathering(src, dst, payload) =>
      if key in payload.askNodes then
        Gathering(src, dst, payload.(askNodes := payload.askNodes - {key}, nodes := payload.nodes + Pick(servers[src].nodes, {key})))
      else if payload.askNodes == {} && key in payload.askManifests then
        Gathering(src, dst, payload.(askManifests := payload.askManifests - {key},
                                     manifests := payload.manifests + Pick(servers[src].manifests, {key})))
      else if payload.askNodes == {} && payload.askManifests == {} then Push(dst, payload)
      else t
    case Push(dst, payload) => Aligning(dst, payload, None)
    case Evicting(at, addrs) => if key in addrs then Evicting(at, addrs - {key}) else t
    case Purging(at, ids) => if key in ids then Purging(at, ids - {key}) else t
    case Over => Over
  }

  /** What that access does to the server it runs on. */
  function Effect(s: Server, t: Task, key: string): Server {
    match t
    case Aligning(_, payload, _) => if key in payload.nodes then s.(nodes := s.nodes[key := payload.nodes[key]]) else s
    case Putting(_, k, payload, _) =>
      if k in payload.manifests then s.(manifests := s.manifests[k := payload.manifests[k]]) else s
    case Evicting(_, addrs) => if key in addrs then s.(nodes := s.nodes - {key}) else s
    case Purging(_, ids) => if key in ids then s.(manifests := s.manifests - {key}) else s
    case _ => s
  }

  /** The server that the access may change. */
  function Site(t: Task): nat {
    if t.Aligning? || t.Putting? || t.Evicting? || t.Purging? then t.at else 0
  }

  predicate Changes(t: Task) {
    t.Aligning? || t.Putting? || t.Evicting? || t.Purging?
  }

  /** A key that the loop of a task may visit next. */
  ghost function Todo(t: Task): string {
    var keys := match t {
      case Answering(_, _, giveNodes, giveManifests, _) => if giveNodes != {} then giveNodes else giveManifests
      case Gathering(_, _, payload) => if payload.askNodes != {} then payload.askNodes else payload.askManifests
      case Aligning(_, payload, _) => if payload.nodes != map[] then payload.nodes.Keys else payload.manifests.Keys
      case Evicting(_, addrs) => addrs
      case Purging(_, ids) => ids
      case _ => {}
    };
    if keys == {} then "" else var k :| k in keys; k
  }

  predicate Enabled(s: State, a: Action) {
    match a
    case Tick(_) => true
    case Subscribe(i, _, _) => i < |s.servers|
    case Insert(i, m) => i < |s.servers| && (m.fileId in s.inserted ==> s.inserted[m.fileId] == m)
    case Delete(i, _) => i < |s.servers|
    case StartSync(i, j) => i < |s.servers| && j < |s.servers| && i != j
    case StartEvict(i) => i < |s.servers|
    case StartPurge(i) => i < |s.servers|
    case Advance(t, _) => t < |s.tasks| && Placed(s.tasks[t], |s.servers|)
    case Drop(t) => t < |s.tasks|
  }

  function Apply(s: State, a: Action): State
    requires Enabled(s, a)
  {
    match a
    case Tick(elapsed) => s.(now := s.now + elapsed)
    case Subscribe(i, addr, publicKey) =>
      var record := NodeRecord(publicKey, s.now);
      s.(servers := s.servers[i := s.servers[i].(nodes := s.servers[i].nodes[addr := NodeBlob(record)])],
         subscribed := s.subscribed + {(addr, record)})
    case Insert(i, m) =>
      s.(servers := s.servers[i := s.servers[i].(manifests := s.servers[i].manifests[m.fileId := ManifestBlob(m)])],
         inserted := s.inserted[m.fileId := m])
    case Delete(i, id) =>
      s.(servers := s.servers[i := s.servers[i].(manifests := s.servers[i].manifests - {id})])
    case StartSync(i, j) => s.(tasks := s.tasks + [Opening(i, j, s.servers[i].nodes.Keys)])
    case StartEvict(i) => s.(tasks := s.tasks + [Evicting(i, SilentNodes(s.servers[i].nodes, s.now))])
    case StartPurge(i) => s.(tasks := s.tasks + [Purging(i, ExpiredIds(s.servers[i].manifests, s.now))])
    case Advance(t, key) =>
      var task := s.tasks[t];
      s.(tasks := s.tasks[t := Next(s.servers, task, key)],
         servers := if Changes(task) then s.servers[Site(task) := Effect(s.servers[Site(task)], task, key)] else s.servers)
    case Drop(t) => s.(tasks := s.tasks[t := Over])
  }

  predicate Runs(s: State, acts: seq<Action>)
    decreases |acts|
  {
    acts == [] || (Enabled(s, acts[0]) && Runs(Apply(s, acts[0]), acts[1..]))
  }

  function Exec(s: State, acts: seq<Action>): State
    requires Runs(s, acts)
    decreases |acts|
  {
    if acts == [] then s else Exec(Apply(s, acts[0]), acts[1..])
  }

  lemma {:induction false} RunsJoin(s: State, acts: seq<Action>, more: seq<Action>)
    requires Runs(s, acts) && Runs(Exec(s, acts), more)
    ensures Runs(s, acts + more) && Exec(s, acts + more) == Exec(Exec(s, acts), more)
    decreases |acts|
  {
    hide Enabled, Apply;
    if acts == [] {
      assert acts + more == more;
    } else {
      RunsJoin(Apply(s, acts[0]), acts[1..], more);
      assert (acts + more)[1..] == acts[1..] + more;
    }
  }

  function Init(n: nat): State {
    State(seq(n, _ => Server(map[], map[])), [], 0, map[], {})
  }

  // ---- Agreement, and nothing invented ----

  ghost predicate NodesOk(s: State, t: Table) {
    forall k :: k in t ==> t[k].NodeBlob? && (k, t[k].node) in s.subscribed
  }

  ghost predicate ManifestsOk(s: State, t: Table) {
    forall k :: k in t ==> k in s.inserted && t[k] == ManifestBlob(s.inserted[k])
  }

  ghost predicate TablesOk(s: State, nodes: Table, manifests: Table) {
    NodesOk(s, nodes) && ManifestsOk(s, manifests)
  }

  /** Ids that a collector is about to delete belong to expired manifests. */
  ghost predicate PurgeOk(s: State, t: Task) {
    t.Purging? ==> forall id :: id in t.ids ==> id in s.inserted && Expired(s.inserted[id].release, s.now)
  }

  /** Every manifest copy, on a server or in flight, is the one inserted under its id, and every
      node record was created by a subscription, not in the future. */
  ghost predicate Agreement(s: State) {
    && (forall i :: 0 <= i < |s.servers| ==> TablesOk(s, s.servers[i].nodes, s.servers[i].manifests))
    && (forall t :: 0 <= t < |s.tasks| ==> TablesOk(s, Cargo(s.tasks[t]).nodes, Cargo(s.tasks[t]).manifests))
    && (forall t :: 0 <= t < |s.tasks| ==> PurgeOk(s, s.tasks[t]) && Placed(s.tasks[t], |s.servers|))
    && (forall id :: id in s.inserted ==> s.inserted[id].fileId == id)
    && (forall sub :: sub in s.subscribed ==> sub.1.timestamp <= s.now)
  }

  lemma AgreementInit(n: nat)
    ensures Agreement(Init(n))
  {
  }

  /** Nothing known is forgotten, and the clock does not go back. */
  ghost predicate Later(s: State, s': State) {
    && s.subscribed <= s'.subscribed && s.now <= s'.now
    && (forall id :: id in s.inserted ==> id in s'.inserted && s'.inserted[id] == s.inserted[id])
  }

  lemma LaterKeeps(s: State, s': State, nodes: Table, manifests: Table)
    requires TablesOk(s, nodes, manifests) && Later(s, s')
    ensures TablesOk(s', nodes, manifests)
  {
  }

  lemma NodesPick(s: State, base: Table, t: Table, key: string)
    requires NodesOk(s, base) && NodesOk(s, t)
    ensures NodesOk(s, base + Pick(t, {key})) && NodesOk(s, base - {key})
  {
  }

  lemma ManifestsPick(s: State, base: Table, t: Table, key: string)
    requires ManifestsOk(s, base) && ManifestsOk(s, t)
    ensures ManifestsOk(s, base + Pick(t, {key})) && ManifestsOk(s, base - {key})
  {
  }

  lemma EmptyOk(s: State)
    ensures TablesOk(s, map[], map[])
  {
  }

  lemma NextIsOk(s: State, t: Task, key: string)
    requires Agreement(s) && Placed(t, |s.servers|) && TablesOk(s, Cargo(t).nodes, Cargo(t).manifests) && PurgeOk(s, t)
    ensures var t' := Next(s.servers, t, key);
      TablesOk(s, Cargo(t').nodes, Cargo(t').manifests) && PurgeOk(s, t') && Placed(t', |s.servers|)
  {
    var at := if t.Answering? then t.dst else if t.Gathering? then t.src else if t.Aligning? || t.Putting? then t.at else 0;
    if t.Answering? || t.Gathering? || t.Aligning? || t.Putting? {
      assert TablesOk(s, s.servers[at].nodes, s.servers[at].manifests);
      var k := if t.Putting? then t.key else key;
      NodesPick(s, t.payload.nodes, s.servers[at].nodes, k);
      ManifestsPick(s, t.payload.manifests, s.servers[at].manifests, k);
    }
    EmptyOk(s);
    hide Expired, NodesOk, ManifestsOk, Pick, Agreement;
  }

  lemma EffectIsOk(s: State, t: Task, key: string)
    requires Agreement(s) && Placed(t, |s.servers|) && TablesOk(s, Cargo(t).nodes, Cargo(t).manifests) && Changes(t)
    ensures var srv := Effect(s.servers[Site(t)], t, key);
      TablesOk(s, srv.nodes, srv.manifests)
  {
    hide Expired;
  }

  lemma AdvanceKeeps(s: State, a: Action)
    requires Agreement(s) && Enabled(s, a) && a.Advance?
    ensures Agreement(Apply(s, a))
  {
    var task := s.tasks[a.t];
    NextIsOk(s, task, a.key);
    if Changes(task) {
      EffectIsOk(s, task, a.key);
    }
    hide Next, Effect, Cargo, Expired, NodesOk, ManifestsOk, Placed;
    var s' := Apply(s, a);
    forall i | 0 <= i < |s'.servers|
      ensures TablesOk(s', s'.servers[i].nodes, s'.servers[i].manifests)
    {
      LaterKeeps(s, s', s'.servers[i].nodes, s'.servers[i].manifests);
    }
    forall t | 0 <= t < |s'.tasks|
      ensures TablesOk(s', Cargo(s'.tasks[t]).nodes, Cargo(s'.tasks[t]).manifests)
      ensures PurgeOk(s', s'.tasks[t]) && Placed(s'.tasks[t], |s'.servers|)
    {
      LaterKeeps(s, s', Cargo(s'.tasks[t]).nodes, Cargo(s'.tasks[t]).manifests);
    }
  }

  lemma ExpiredLater(release: Option<int>, now: nat, later: nat)
    requires Expired(release, now) && now <= later
    ensures Expired(release, later)
  {
  }

  /** An action other than a task step, after which all tables are known to be right. */
  lemma TasksKeep(s: State, s': State)
    requires Agreement(s) && Later(s, s') && |s'.servers| == |s.servers|
    requires forall t :: 0 <= t < |s'.tasks| ==> (
        || (t < |s.tasks| && s'.tasks[t] == s.tasks[t])
        || (Cargo(s'.tasks[t]) == NO_PAYLOAD && PurgeOk(s', s'.tasks[t]) && Placed(s'.tasks[t], |s.servers|)))
    ensures forall t :: 0 <= t < |s'.tasks| ==>
      && TablesOk(s', Cargo(s'.tasks[t]).nodes, Cargo(s'.tasks[t]).manifests)
      && PurgeOk(s', s'.tasks[t]) && Placed(s'.tasks[t], |s'.servers|)
  {
    hide Cargo, Expired, Placed;
    forall t | 0 <= t < |s'.tasks|
      ensures TablesOk(s', Cargo(s'.tasks[t]).nodes, Cargo(s'.tasks[t]).manifests)
      ensures PurgeOk(s', s'.tasks[t]) && Placed(s'.tasks[t], |s'.servers|)
    {
      if t < |s.tasks| && s'.tasks[t] == s.tasks[t] {
        LaterKeeps(s, s', Cargo(s.tasks[t]).nodes, Cargo(s.tasks[t]).manifests);
        if s.tasks[t].Purging? {
          forall id | id in s.tasks[t].ids
            ensures id in s'.inserted && Expired(s'.inserted[id].release, s'.now)
          {
            ExpiredLater(s.inserted[id].release, s.now, s'.now);
          }
        }
      }
    }
  }

  lemma OtherKeeps(s: State, a: Action)
    requires Agreement(s) && Enabled(s, a) && !a.Advance?
    ensures Agreement(Apply(s, a))
  {
    OtherServers(s, a);
    var s' := Apply(s, a);
    assert Later(s, s');
    if a.StartPurge? {
      PurgeStartOk(s, a.i);
    }
    hide Expired, ExpiredIds, SilentNodes, NodesOk, ManifestsOk;
    TasksKeep(s, s');
  }

  lemma OtherServers(s: State, a: Action)
    requires Agreement(s) && Enabled(s, a) && !a.Advance?
    ensures var s' := Apply(s, a);
      forall i :: 0 <= i < |s'.servers| ==> TablesOk(s', s'.servers[i].nodes, s'.servers[i].manifests)
  {
    var s' := Apply(s, a);
    assert Later(s, s');
    hide Expired, Placed, Cargo, PurgeOk, ExpiredIds, SilentNodes;
    forall i | 0 <= i < |s'.servers|
      ensures TablesOk(s', s'.servers[i].nodes, s'.servers[i].manifests)
    {
      LaterKeeps(s, s', s.servers[i].nodes, s.servers[i].manifests);
    }
  }

  lemma PurgeStartOk(s: State, i: nat)
    requires Agreement(s) && i < |s.servers|
    ensures PurgeOk(s, Purging(i, ExpiredIds(s.servers[i].manifests, s.now)))
  {
    assert ManifestsOk(s, s.servers[i].manifests);
    hide Expired;
  }

  lemma {:induction false} RunsAgree(s: State, acts: seq<Action>)
    requires Agreement(s) && Runs(s, acts)
    ensures Agreement(Exec(s, acts))
    decreases |acts|
  {
    if acts != [] {
      hide Agreement;
      if acts[0].Advance? {
        AdvanceKeeps(s, acts[0]);
      } else {
        OtherKeeps(s, acts[0]);
      }
      RunsAgree(Apply(s, acts[0]), acts[1..]);
    }
  }

  /** In every run each server keeps manifests under their own ids, so an atomic pass of its manifest
      collector removes exactly the expired ones. */
  lemma CollectorIsExact(n: nat, acts: seq<Action>, i: nat, now: nat)
    requires Runs(Init(n), acts) && i < |Exec(Init(n), acts).servers|
    ensures var s := Exec(Init(n), acts);
      var manifests := s.servers[i].manifests;
      && (forall id :: id in manifests ==> id in s.inserted)
      && manifests - ExpiredIds(manifests, now)
         == map id | id in manifests && id in s.inserted && !Expired(s.inserted[id].release, now) :: ManifestBlob(s.inserted[id])
  {
    AgreementInit(n);
    RunsAgree(Init(n), acts);
    var s := Exec(Init(n), acts);
    var manifests := s.servers[i].manifests;
    AgreedIsTagged(s, i);
    ManifestPassIsExact(manifests, now);
    hide Agreement, Expired, ExpiredIds, Runs, Exec;
  }

  lemma AgreedIsTagged(s: State, i: nat)
    requires Agreement(s) && i < |s.servers|
    ensures TaggedManifests(s.servers[i].manifests)
    ensures ManifestsOk(s, s.servers[i].manifests)
  {
    assert ManifestsOk(s, s.servers[i].manifests);
  }
}
