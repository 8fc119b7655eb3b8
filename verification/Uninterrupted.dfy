/** The task steps of module Gossip against the one-piece exchange of module Sync: left alone, a
    synchronization task computes exactly that, in whatever order it visits the keys. */
module Uninterrupted {
  import opened Types
  import opened Sync
  import opened Bootstrap
  import opened Gossip
  import Convergence

  // ---- What a task will have done when it is over, if nothing else happens ----

  function Aligned(servers: seq<Server>, at: nat, nodes: Table, manifests: Table): (r: seq<Server>)
    requires at < |servers|
    ensures |r| == |servers|
  {
    servers[at := Align(servers[at], nodes, manifests)]
  }

  function AfterGathering(servers: seq<Server>, src: nat, dst: nat, p: Payload): seq<Server>
    requires src < |servers| && dst < |servers|
  {
    Aligned(servers, dst, p.nodes + Pick(servers[src].nodes, p.askNodes), p.manifests + Pick(servers[src].manifests, p.askManifests))
  }

  function AfterAligning(servers: seq<Server>, at: nat, p: Payload, peer: Option<nat>): seq<Server>
    requires at < |servers| && (peer.Some? ==> peer.value < |servers|)
  {
    var aligned := Aligned(servers, at, p.nodes, p.manifests);
    if peer.Some? && (p.askNodes != {} || p.askManifests != {})
    then AfterGathering(aligned, at, peer.value, Payload(map[], map[], p.askNodes, p.askManifests))
    else aligned
  }

  function AfterAnswering(servers: seq<Server>, src: nat, dst: nat, nodes: set<string>, manifests: set<string>, p: Payload)
    : seq<Server>
    requires src < |servers| && dst < |servers|
  {
    AfterAligning(servers, src,
      p.(nodes := p.nodes + Pick(servers[dst].nodes, nodes), manifests := p.manifests + Pick(servers[dst].manifests, manifests)),
      Some(dst))
  }

  function AfterListing(servers: seq<Server>, src: nat, dst: nat, nodeKeys: set<string>, manifestKeys: set<string>, local: set<string>)
    : seq<Server>
    requires src < |servers| && dst < |servers|
  {
    var held := servers[dst].manifests.Keys;
    AfterAnswering(servers, src, dst, local - nodeKeys, held - manifestKeys,
                   Payload(map[], map[], nodeKeys - local, manifestKeys - held))
  }

  /** The servers once a task is over. */
  function Forecast(servers: seq<Server>, t: Task): seq<Server>
    requires Placed(t, |servers|)
  {
    match t
    case Opening(src, dst, nodeKeys) =>
      AfterListing(servers, src, dst, nodeKeys, servers[src].manifests.Keys, servers[dst].nodes.Keys)
    case Digest(src, dst, nodeKeys, manifestKeys) =>
      AfterListing(servers, src, dst, nodeKeys, manifestKeys, servers[dst].nodes.Keys)
    case Listing(src, dst, nodeKeys, manifestKeys, local) => AfterListing(servers, src, dst, nodeKeys, manifestKeys, local)
    case Answering(src, dst, nodes, manifests, p) => AfterAnswering(servers, src, dst, nodes, manifests, p)
    case Reply(src, dst, p) => AfterAligning(servers, src, p, Some(dst))
    case Aligning(at, p, peer) => AfterAligning(servers, at, p, peer)
    case Putting(at, k, p, peer) =>
      var s := servers[at];
      var put := if k in p.manifests then s.(manifests := s.manifests[k := p.manifests[k]]) else s;
      AfterAligning(servers[at := put], at, p.(manifests := p.manifests - {k}), peer)
    case Gathering(src, dst, p) => AfterGathering(servers, src, dst, p)
    case Push(dst, p) => Aligned(servers, dst, p.nodes, p.manifests)
    case Evicting(at, addrs) => servers[at := servers[at].(nodes := servers[at].nodes - addrs)]
    case Purging(at, ids) => servers[at := servers[at].(manifests := servers[at].manifests - ids)]
    case Over => servers
  }

  /** What one access of a task leaves of the servers. */
  function Accessed(servers: seq<Server>, t: Task, key: string): (r: seq<Server>)
    requires Placed(t, |servers|)
    ensures |r| == |servers|
  {
    if Changes(t) then servers[Site(t) := Effect(servers[Site(t)], t, key)] else servers
  }

  lemma PickSplit(base: Table, t: Table, keys: set<string>, key: string)
    requires key in keys
    ensures base + Pick(t, keys) == (base + Pick(t, {key})) + Pick(t, keys - {key})
  {
  }

  lemma PutOver(s: Table, given: Table, key: string)
    requires key in given
    ensures s + given == s[key := given[key]] + (given - {key})
  {
  }

  lemma PutUnder(s: Table, given: Table, key: string)
    requires key in given
    ensures key in s ==> given + s == (given - {key}) + s
    ensures key !in s ==> given + s == (given - {key}) + s[key := given[key]]
  {
  }

  lemma AligningKept(servers: seq<Server>, t: Task, key: string)
    requires Placed(t, |servers|) && (t.Aligning? || t.Putting?)
    ensures Placed(Next(servers, t, key), |servers|)
    ensures Forecast(Accessed(servers, t, key), Next(servers, t, key)) == Forecast(servers, t)
  {
    hide AfterGathering, Pick;
    var s := servers[t.at];
    assert servers[t.at := s] == servers;
    if t.Aligning? {
      if key in t.payload.nodes {
        PutOver(s.nodes, t.payload.nodes, key);
        var put := s.(nodes := s.nodes[key := t.payload.nodes[key]]);
        assert Align(put, t.payload.nodes - {key}, t.payload.manifests) == Align(s, t.payload.nodes, t.payload.manifests);
        assert Aligned(servers[t.at := put], t.at, t.payload.nodes - {key}, t.payload.manifests)
            == Aligned(servers, t.at, t.payload.nodes, t.payload.manifests);
      } else if key in t.payload.manifests {
        PutUnder(s.manifests, t.payload.manifests, key);
        var put := s.(manifests := s.manifests[key := t.payload.manifests[key]]);
        var rest := t.payload.manifests - {key};
        assert key in s.manifests ==> Align(s, t.payload.nodes, rest) == Align(s, t.payload.nodes, t.payload.manifests);
        assert key !in s.manifests ==> (
          Aligned(servers[t.at := put], t.at, t.payload.nodes, rest)
          == Aligned(servers, t.at, t.payload.nodes, t.payload.manifests));
      } else if t.payload.nodes == map[] && t.payload.manifests == map[] {
        assert s.nodes + map[] == s.nodes && map[] + s.manifests == s.manifests;
        assert Align(s, map[], map[]) == s;
      }
    }
  }

  lemma ReadingKept(servers: seq<Server>, t: Task, key: string)
    requires Placed(t, |servers|) && (t.Answering? || t.Gathering?)
    ensures Placed(Next(servers, t, key), |servers|)
    ensures Forecast(Accessed(servers, t, key), Next(servers, t, key)) == Forecast(servers, t)
  {
    hide AfterAligning, Aligned;
    var from := servers[if t.Answering? then t.dst else t.src];
    var nodes := if t.Answering? then t.giveNodes else t.payload.askNodes;
    var manifests := if t.Answering? then t.giveManifests else t.payload.askManifests;
    if key in nodes {
      PickSplit(t.payload.nodes, from.nodes, nodes, key);
    } else if key in manifests {
      PickSplit(t.payload.manifests, from.manifests, manifests, key);
    }
    assert t.payload.nodes + Pick(from.nodes, {}) == t.payload.nodes;
    assert t.payload.manifests + Pick(from.manifests, {}) == t.payload.manifests;
    hide Pick;
  }

  lemma DroppingKept(servers: seq<Server>, t: Task, key: string)
    requires Placed(t, |servers|) && (t.Evicting? || t.Purging?)
    ensures Placed(Next(servers, t, key), |servers|)
    ensures Forecast(Accessed(servers, t, key), Next(servers, t, key)) == Forecast(servers, t)
  {
    var keys, s := if t.Evicting? then t.addrs else t.ids, servers[t.at];
    if key in keys {
      assert s.nodes - {key} - (keys - {key}) == s.nodes - keys;
      assert s.manifests - {key} - (keys - {key}) == s.manifests - keys;
    }
  }

  /** No access of a task changes what it will have done in the end. */
  lemma ForecastKept(servers: seq<Server>, t: Task, key: string)
    requires Placed(t, |servers|)
    ensures Placed(Next(servers, t, key), |servers|)
    ensures Forecast(Accessed(servers, t, key), Next(servers, t, key)) == Forecast(servers, t)
  {
    match t {
      case Aligning(_, _, _) | Putting(_, _, _, _) => AligningKept(servers, t, key);
      case Answering(_, _, _, _, _) | Gathering(_, _, _) => ReadingKept(servers, t, key);
      case Evicting(_, _) | Purging(_, _) => DroppingKept(servers, t, key);
      case _ => hide AfterAnswering, AfterAligning, Pick;
    }
  }

  /** A task left alone: only its own steps happen. */
  predicate Alone(acts: seq<Action>, t: nat) {
    forall i :: 0 <= i < |acts| ==> acts[i].Advance? && acts[i].t == t
  }

  lemma {:induction false} RunKeepsForecast(s: State, acts: seq<Action>, t: nat)
    requires t < |s.tasks| && Placed(s.tasks[t], |s.servers|) && Runs(s, acts) && Alone(acts, t)
    ensures var s' := Exec(s, acts);
      && t < |s'.tasks| && Placed(s'.tasks[t], |s'.servers|)
      && Forecast(s'.servers, s'.tasks[t]) == Forecast(s.servers, s.tasks[t])
    decreases |acts|
  {
    if acts != [] {
      ForecastKept(s.servers, s.tasks[t], acts[0].key);
      assert Apply(s, acts[0]).servers == Accessed(s.servers, s.tasks[t], acts[0].key);
      hide Forecast, Next, Accessed, Placed;
      RunKeepsForecast(Apply(s, acts[0]), acts[1..], t);
    }
  }

  lemma {:induction false} AloneKeepsOthers(s: State, acts: seq<Action>, t: nat)
    requires Runs(s, acts) && Alone(acts, t)
    ensures var s' := Exec(s, acts);
      |s'.tasks| == |s.tasks| && s'.now == s.now && forall o :: 0 <= o < |s.tasks| && o != t ==> s'.tasks[o] == s.tasks[o]
    decreases |acts|
  {
    if acts != [] {
      assert acts[0].Advance? && acts[0].t == t;
      hide Next, Effect, Placed;
      AloneKeepsOthers(Apply(s, acts[0]), acts[1..], t);
    }
  }

  lemma OpeningIsExchange(servers: seq<Server>, i: nat, j: nat)
    requires i < |servers| && j < |servers| && i != j
    ensures Forecast(servers, Opening(i, j, servers[i].nodes.Keys)) == Convergence.ExchangeAt(servers, i, j)
  {
    var a, b := servers[i], servers[j];
    var reply := Answer(b, a.nodes.Keys, a.manifests.Keys);
    assert map[] + Pick(b.nodes, b.nodes.Keys - a.nodes.Keys) == reply.nodes;
    assert map[] + Pick(b.manifests, b.manifests.Keys - a.manifests.Keys) == reply.manifests;
    var a' := Align(a, reply.nodes, reply.manifests);
    assert map[] + Pick(a'.nodes, reply.askNodes) == Pick(a'.nodes, reply.askNodes);
    assert map[] + Pick(a'.manifests, reply.askManifests) == Pick(a'.manifests, reply.askManifests);
    if reply.askNodes == {} && reply.askManifests == {} {
      assert servers[i := a'][j := b] == servers[i := a'];
    }
    hide Pick;
  }

  /** A synchronization that nothing interferes with ends as the exchange of module Sync, on its two
      servers and no other, whatever order its loops take. */
  lemma UninterruptedSync(s: State, i: nat, j: nat, acts: seq<Action>)
    requires Enabled(s, StartSync(i, j))
    requires Alone(acts, |s.tasks|) && Runs(Apply(s, StartSync(i, j)), acts)
    requires var s' := Exec(Apply(s, StartSync(i, j)), acts); |s.tasks| < |s'.tasks| && s'.tasks[|s.tasks|] == Over
    ensures Exec(Apply(s, StartSync(i, j)), acts).servers == Convergence.ExchangeAt(s.servers, i, j)
  {
    RunKeepsForecast(Apply(s, StartSync(i, j)), acts, |s.tasks|);
    OpeningIsExchange(s.servers, i, j);
    hide Runs, Exec;
  }

  /** A heartbeat or manifest pass that nothing interferes with removes what an atomic pass removes. */
  lemma UninterruptedPass(s: State, i: nat, evict: bool, acts: seq<Action>)
    requires i < |s.servers| && Alone(acts, |s.tasks|)
    requires Runs(Apply(s, if evict then StartEvict(i) else StartPurge(i)), acts)
    requires var s' := Exec(Apply(s, if evict then StartEvict(i) else StartPurge(i)), acts);
      |s.tasks| < |s'.tasks| && s'.tasks[|s.tasks|] == if evict then Evicting(i, {}) else Purging(i, {})
    ensures Exec(Apply(s, if evict then StartEvict(i) else StartPurge(i)), acts).servers
         == s.servers[i := if evict then s.servers[i].(nodes := s.servers[i].nodes - SilentNodes(s.servers[i].nodes, s.now))
                           else s.servers[i].(manifests := s.servers[i].manifests - ExpiredIds(s.servers[i].manifests, s.now))]
  {
    var a := if evict then StartEvict(i) else StartPurge(i);
    RunKeepsForecast(Apply(s, a), acts, |s.tasks|);
    var servers := Exec(Apply(s, a), acts).servers;
    hide Runs, Exec, SilentNodes, ExpiredIds;
    assert servers[i].nodes - {} == servers[i].nodes && servers[i].manifests - {} == servers[i].manifests;
    assert servers[i := servers[i]] == servers;
  }

  // ---- Left alone, a task finishes ----

  predicate Done(t: Task) {
    t.Over? || (t.Evicting? && t.addrs == {}) || (t.Purging? && t.ids == {})
  }

  function Phase(t: Task): nat {
    match t
    case Opening(_, _, _) => 10
    case Digest(_, _, _, _) => 9
    case Listing(_, _, _, _, _) => 8
    case Answering(_, _, _, _, _) => 7
    case Reply(_, _, _) => 6
    case Aligning(_, _, peer) => if peer.Some? then 5 else 2
    case Putting(_, _, _, peer) => if peer.Some? then 5 else 2
    case Gathering(_, _, _) => 4
    case Push(_, _) => 3
    case Evicting(_, _) => 1
    case Purging(_, _) => 1
    case Over => 0
  }

  /** Accesses left in the phase, where storing a manifest takes two. */
  function Left(t: Task): nat {
    match t
    case Answering(_, _, giveNodes, giveManifests, _) => |giveNodes| + |giveManifests|
    case Gathering(_, _, payload) => |payload.askNodes| + |payload.askManifests|
    case Aligning(_, payload, _) => |payload.nodes.Keys| + 2 * |payload.manifests.Keys|
    case Putting(_, k, payload, _) => |payload.nodes.Keys| + 2 * |payload.manifests.Keys - {k}| + 1
    case Evicting(_, addrs) => |addrs|
    case Purging(_, ids) => |ids|
    case _ => 0
  }

  predicate Nearer(next: Task, t: Task) {
    Phase(next) < Phase(t) || (Phase(next) == Phase(t) && Left(next) < Left(t))
  }

  lemma DropKey(t: Table, k: string)
    ensures (t - {k}).Keys == t.Keys - {k}
    ensures k in t ==> |t.Keys - {k}| == |t.Keys| - 1
  {
  }

  lemma AligningMoves(servers: seq<Server>, t: Task, k: string)
    requires Placed(t, |servers|) && t.Aligning?
    requires if t.payload.nodes != map[] then k in t.payload.nodes
      else t.payload.manifests != map[] ==> k in t.payload.manifests
    ensures Nearer(Next(servers, t, k), t)
  {
    DropKey(t.payload.nodes, k);
    DropKey(t.payload.manifests, k);
  }

  lemma PuttingMoves(servers: seq<Server>, t: Task, k: string)
    requires Placed(t, |servers|) && t.Putting?
    ensures Nearer(Next(servers, t, k), t)
  {
    DropKey(t.payload.manifests, t.key);
  }

  lemma DropElement(keys: set<string>, k: string)
    ensures k in keys ==> |keys - {k}| == |keys| - 1
  {
  }

  lemma AnsweringMoves(servers: seq<Server>, t: Task, k: string)
    requires Placed(t, |servers|) && t.Answering?
    requires if t.giveNodes != {} then k in t.giveNodes else t.giveManifests != {} ==> k in t.giveManifests
    ensures Nearer(Next(servers, t, k), t)
  {
    DropElement(t.giveNodes, k);
    DropElement(t.giveManifests, k);
    hide Pick;
  }

  lemma GatheringMoves(servers: seq<Server>, t: Task, k: string)
    requires Placed(t, |servers|) && t.Gathering?
    requires if t.payload.askNodes != {} then k in t.payload.askNodes
      else t.payload.askManifests != {} ==> k in t.payload.askManifests
    ensures Nearer(Next(servers, t, k), t)
  {
    DropElement(t.payload.askNodes, k);
    DropElement(t.payload.askManifests, k);
    hide Pick;
  }

  lemma OtherMoves(servers: seq<Server>, t: Task)
    requires Placed(t, |servers|) && !Done(t) && !t.Aligning? && !t.Putting? && !t.Answering? && !t.Gathering?
    ensures Nearer(Next(servers, t, Todo(t)), t)
  {
    hide Pick;
  }

  /** Each step of a task on a key it still has to visit brings it nearer to its end. */
  lemma TaskMoves(servers: seq<Server>, t: Task)
    requires Placed(t, |servers|) && !Done(t)
    ensures Nearer(Next(servers, t, Todo(t)), t)
  {
    hide Nearer, Next, Placed;
    match t {
      case Aligning(_, _, _) => AligningMoves(servers, t, Todo(t));
      case Putting(_, _, _, _) => PuttingMoves(servers, t, Todo(t));
      case Answering(_, _, _, _, _) => AnsweringMoves(servers, t, Todo(t));
      case Gathering(_, _, _) => GatheringMoves(servers, t, Todo(t));
      case _ => OtherMoves(servers, t);
    }
  }

  /** Any task can finish without help: the premises of UninterruptedSync and UninterruptedPass can
      be met from every state. */
  lemma {:induction false} TaskFinishes(s: State, t: nat) returns (acts: seq<Action>)
    requires t < |s.tasks| && Placed(s.tasks[t], |s.servers|)
    ensures Runs(s, acts) && Alone(acts, t)
    ensures t < |Exec(s, acts).tasks| && Done(Exec(s, acts).tasks[t])
    decreases Phase(s.tasks[t]), Left(s.tasks[t])
  {
    hide Done, Phase, Left, Apply, Enabled, Placed, Nearer;
    if Done(s.tasks[t]) {
      acts := [];
    } else {
      var a := Advance(t, Todo(s.tasks[t]));
      AdvanceNearer(s, t);
      var rest := TaskFinishes(Apply(s, a), t);
      acts := [a] + rest;
      assert acts[1..] == rest;
    }
  }

  lemma AdvanceNearer(s: State, t: nat)
    requires t < |s.tasks| && Placed(s.tasks[t], |s.servers|) && !Done(s.tasks[t])
    ensures var a := Advance(t, Todo(s.tasks[t]));
      && Enabled(s, a)
      && var s' := Apply(s, a);
        && t < |s'.tasks| && Placed(s'.tasks[t], |s'.servers|)
        && (Phase(s'.tasks[t]) < Phase(s.tasks[t])
            || (Phase(s'.tasks[t]) == Phase(s.tasks[t]) && Left(s'.tasks[t]) < Left(s.tasks[t])))
  {
    TaskMoves(s.servers, s.tasks[t]);
    ForecastKept(s.servers, s.tasks[t], Todo(s.tasks[t]));
    hide Phase, Left, Next, Effect, Forecast, Accessed, Todo, Placed;
  }
}
