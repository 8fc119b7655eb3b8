/** Convergence of the real protocol: with no insertions, deletions or collector passes, any number of
    exchanges overlap step by step, and any of them may break off
    (internal/service/synchronization.go:35-151, internal/api/bootstrap_api.go:55-105). */
module AntiEntropy {
  import opened Types
  import opened Placement
  import opened Sync
  import opened Gossip
  import opened Convergence
  import opened Uninterrupted

  /** Steps of synchronization only; `Drop` is a lost message or a server that stops half-way. */
  predicate Calm(a: Action) {
    a.Tick? || a.StartSync? || a.Advance? || a.Drop?
  }

  predicate AllCalm(acts: seq<Action>) {
    forall k :: 0 <= k < |acts| ==> Calm(acts[k])
  }

  function KeysOf(nodes: set<string>, manifests: set<string>): set<Key> {
    (set a | a in nodes :: NodeKey(a)) + (set id | id in manifests :: ManifestKey(id))
  }

  function CargoKeys(p: Payload): set<Key> {
    KeysOf(p.nodes.Keys, p.manifests.Keys)
  }

  function AskedKeys(p: Payload): set<Key> {
    KeysOf(p.askNodes, p.askManifests)
  }

  lemma HeldIsKeys(s: Server)
    ensures Held(s) == KeysOf(s.nodes.Keys, s.manifests.Keys)
  {
  }

  predicate Known(t: Task, n: nat, all: set<Key>) {
    Placed(t, n) && !t.Evicting? && !t.Purging? && CargoKeys(Cargo(t)) <= all
  }

  /** No collector is at work, and what is in flight is also on some server. */
  ghost predicate SyncOnly(s: State) {
    forall t :: 0 <= t < |s.tasks| ==> Known(s.tasks[t], |s.servers|, All(s.servers))
  }

  /** Every server holds at least what it held. */
  ghost predicate Grown(servers: seq<Server>, servers': seq<Server>) {
    |servers| == |servers'| && forall m :: 0 <= m < |servers| ==> Held(servers[m]) <= Held(servers'[m])
  }

  // ---- One access ----

  /** The key that an access stores. */
  function Stored(t: Task, key: string): set<Key> {
    match t
    case Aligning(_, p, _) => if key in p.nodes then {NodeKey(key)} else {}
    case Putting(_, k, p, _) => if k in p.manifests then {ManifestKey(k)} else {}
    case _ => {}
  }

  lemma EffectHeld(s: Server, t: Task, key: string)
    requires !t.Evicting? && !t.Purging?
    ensures Held(Effect(s, t, key)) == Held(s) + Stored(t, key)
    ensures Stored(t, key) <= CargoKeys(Cargo(t))
  {
  }

  /** What a step carries on it carried before, or read on a server. */
  lemma NextCargo(servers: seq<Server>, t: Task, key: string, all: set<Key>)
    requires Known(t, |servers|, all)
    requires forall m :: 0 <= m < |servers| ==> KeysOf(servers[m].nodes.Keys, servers[m].manifests.Keys) <= all
    ensures Known(Next(servers, t, key), |servers|, all)
  {
    assert CargoKeys(NO_PAYLOAD) == {};
    if t.Answering? || t.Gathering? {
      PickedKeys(t.payload, servers[if t.Answering? then t.dst else t.src], key, all);
      hide KeysOf, Pick;
    } else if t.Aligning? || t.Putting? {
      DroppedKeys(t.payload, if t.Putting? then t.key else key, all);
      hide KeysOf, Pick;
    } else {
      hide KeysOf, Pick;
    }
  }

  lemma PickedKeys(p: Payload, s: Server, key: string, all: set<Key>)
    requires CargoKeys(p) <= all && KeysOf(s.nodes.Keys, s.manifests.Keys) <= all
    ensures KeysOf((p.nodes + Pick(s.nodes, {key})).Keys, p.manifests.Keys) <= all
    ensures KeysOf(p.nodes.Keys, (p.manifests + Pick(s.manifests, {key})).Keys) <= all
  {
    forall k | k in KeysOf((p.nodes + Pick(s.nodes, {key})).Keys, p.manifests.Keys)
            || k in KeysOf(p.nodes.Keys, (p.manifests + Pick(s.manifests, {key})).Keys)
      ensures k in all
    {
      assert k in CargoKeys(p) || k in KeysOf(s.nodes.Keys, s.manifests.Keys);
    }
  }

  lemma DroppedKeys(p: Payload, key: string, all: set<Key>)
    requires CargoKeys(p) <= all
    ensures KeysOf((p.nodes - {key}).Keys, p.manifests.Keys) <= all
    ensures KeysOf(p.nodes.Keys, (p.manifests - {key}).Keys) <= all
  {
    forall k | k in KeysOf((p.nodes - {key}).Keys, p.manifests.Keys) || k in KeysOf(p.nodes.Keys, (p.manifests - {key}).Keys)
      ensures k in all
    {
      assert k in CargoKeys(p);
    }
  }

  lemma HeldInAll(servers: seq<Server>)
    ensures forall m :: 0 <= m < |servers| ==> KeysOf(servers[m].nodes.Keys, servers[m].manifests.Keys) <= All(servers)
  {
    hide KeysOf, Held, All;
    forall m | 0 <= m < |servers|
      ensures KeysOf(servers[m].nodes.Keys, servers[m].manifests.Keys) <= All(servers)
    {
      HeldIsKeys(servers[m]);
      HeldWithin(servers, m);
    }
  }

  // ---- Counting ----

  lemma {:induction false} LackingUpdate(c: Cluster, m: nat, x: Server, u: set<Key>)
    requires m < |c|
    ensures Lacking(c[m := x], u) + |u - Held(c[m])| == Lacking(c, u) + |u - Held(x)|
  {
    hide Held;
    var n := |c| - 1;
    if m < n {
      LackingUpdate(c[..n], m, x, u);
      assert c[m := x][..n] == c[..n][m := x];
    } else {
      assert c[m := x][..n] == c[..n];
    }
  }

  lemma OneMore(u: set<Key>, held: set<Key>, k: Key)
    requires k in u && k !in held
    ensures |u - held| == |u - (held + {k})| + 1
  {
    assert u - held == (u - (held + {k})) + {k};
  }

  /** The step stores a key on a server that did not hold it. */
  ghost predicate Writes(s: State, a: Action)
    requires Enabled(s, a)
  {
    a.Advance? && Changes(s.tasks[a.t]) && !(Stored(s.tasks[a.t], a.key) <= Held(s.servers[Site(s.tasks[a.t])]))
  }

  ghost function WriteCount(s: State, acts: seq<Action>): nat
    requires Runs(s, acts)
    decreases |acts|
  {
    if acts == [] then 0 else (if Writes(s, acts[0]) then 1 else 0) + WriteCount(Apply(s, acts[0]), acts[1..])
  }

  /** Storing keys of the union on a server keeps the union. */
  lemma AllSame(c: Cluster, m: nat, x: Server, stored: set<Key>)
    requires m < |c| && Held(x) == Held(c[m]) + stored && stored <= All(c)
    ensures All(c[m := x]) == All(c) && Grown(c, c[m := x])
  {
    hide Held;
    var c' := c[m := x];
    forall k
      ensures k in All(c') <==> k in All(c)
    {
      if k in All(c) {
        var i :| 0 <= i < |c| && k in Held(c[i]);
        assert k in Held(c'[i]);
      }
      if k in All(c') {
        var i :| 0 <= i < |c'| && k in Held(c'[i]);
        assert i != m ==> k in Held(c[i]);
        assert i == m && k !in stored ==> k in Held(c[m]);
      }
    }
  }

  /** Storing at most one key of the union. */
  lemma StoreCounts(c: Cluster, m: nat, x: Server, stored: set<Key>)
    requires m < |c| && Held(x) == Held(c[m]) + stored && stored <= All(c)
    requires stored == {} || exists k :: stored == {k}
    ensures Grown(c, c[m := x]) && All(c[m := x]) == All(c)
    ensures Missing(c) == Missing(c[m := x]) + if stored <= Held(c[m]) then 0 else 1
  {
    hide Held, All, Lacking, Grown;
    AllSame(c, m, x, stored);
    LackingUpdate(c, m, x, All(c));
    if stored <= Held(c[m]) {
      assert Held(x) == Held(c[m]);
    } else {
      var k :| stored == {k};
      OneMore(All(c), Held(c[m]), k);
    }
  }

  lemma StoredIsOne(t: Task, key: string)
    ensures Stored(t, key) == {} || exists k :: Stored(t, key) == {k}
  {
  }

  lemma AccessCounts(servers: seq<Server>, t: Task, key: string)
    requires Known(t, |servers|, All(servers)) && Changes(t)
    ensures var servers' := servers[Site(t) := Effect(servers[Site(t)], t, key)];
      && Grown(servers, servers') && All(servers') == All(servers)
      && Missing(servers) == Missing(servers') + if Stored(t, key) <= Held(servers[Site(t)]) then 0 else 1
  {
    var m := Site(t);
    EffectHeld(servers[m], t, key);
    StoredIsOne(t, key);
    hide Held, All, Effect, Missing, CargoKeys, Stored, Cargo, Grown;
    StoreCounts(servers, m, Effect(servers[m], t, key), Stored(t, key));
  }

  /** No step of synchronization loses or invents a key, and the missing records fall by one exactly
      with each effective write; this holds also for exchanges that overlap or break off. */
  lemma StepConverges(s: State, a: Action)
    requires SyncOnly(s) && Enabled(s, a) && Calm(a)
    ensures var s' := Apply(s, a);
      && SyncOnly(s') && Grown(s.servers, s'.servers) && All(s'.servers) == All(s.servers)
      && Missing(s.servers) == Missing(s'.servers) + if Writes(s, a) then 1 else 0
  {
    if a.Advance? {
      AdvanceConverges(s, a);
    } else {
      assert CargoKeys(NO_PAYLOAD) == {};
      assert Grown(s.servers, s.servers);
      hide Held, All, Lacking, CargoKeys, KeysOf;
    }
  }

  lemma AdvanceConverges(s: State, a: Action)
    requires SyncOnly(s) && Enabled(s, a) && a.Advance?
    ensures var s' := Apply(s, a);
      && SyncOnly(s') && Grown(s.servers, s'.servers) && All(s'.servers) == All(s.servers)
      && Missing(s.servers) == Missing(s'.servers) + if Writes(s, a) then 1 else 0
  {
    var t := s.tasks[a.t];
    assert Known(t, |s.servers|, All(s.servers));
    var servers' := Apply(s, a).servers;
    assert servers' == Accessed(s.servers, t, a.key) && Apply(s, a).tasks == s.tasks[a.t := Next(s.servers, t, a.key)];
    HeldInAll(s.servers);
    NextCargo(s.servers, t, a.key, All(s.servers));
    if Changes(t) {
      AccessCounts(s.servers, t, a.key);
    } else {
      assert Grown(s.servers, s.servers);
    }
    hide Apply, Next, Effect, Stored, Held, All, Missing, Known, Grown;
  }

  /** Over whole runs: the records still missing and the effective writes together are what was missing. */
  lemma {:induction false} WritesAreMissing(s: State, acts: seq<Action>)
    requires SyncOnly(s) && Runs(s, acts) && AllCalm(acts)
    ensures var s' := Exec(s, acts);
      && SyncOnly(s') && Grown(s.servers, s'.servers) && All(s'.servers) == All(s.servers)
      && Missing(s.servers) == Missing(s'.servers) + WriteCount(s, acts)
    decreases |acts|
  {
    hide Enabled, Apply, Held, All, Missing, SyncOnly, Writes;
    if acts != [] {
      StepConverges(s, acts[0]);
      WritesAreMissing(Apply(s, acts[0]), acts[1..]);
    }
  }

  // ---- One exchange among others ----

  /** The initiator `i` has, or will be given, the keys `b`; the peer `j` has, or is to be sent, the
      keys `a`. `given` are keys that `j` is about to read for the reply, `asked` those that `i` is to read
      for the push. */
  ghost predicate Replying(servers: seq<Server>, i: nat, j: nat, a: set<Key>, b: set<Key>, given: set<Key>, p: Payload)
    requires i < |servers| && j < |servers|
  {
    && b <= Held(servers[i]) + given + CargoKeys(p) && given <= Held(servers[j])
    && a <= Held(servers[j]) + AskedKeys(p) && AskedKeys(p) <= Held(servers[i])
  }

  ghost predicate Pushing(servers: seq<Server>, i: nat, j: nat, a: set<Key>, b: set<Key>, asked: set<Key>, cargo: set<Key>)
    requires i < |servers| && j < |servers|
  {
    b <= Held(servers[i]) && a <= Held(servers[j]) + asked + cargo && asked <= Held(servers[i])
  }

  function NodesOf(keys: set<Key>): set<Key> {
    set k | k in keys && k.NodeKey?
  }

  /** Task `t` is an exchange of `i` with `j` that will leave both with the keys `a` and `b`. */
  ghost predicate Brings(servers: seq<Server>, t: Task, i: nat, j: nat, a: set<Key>, b: set<Key>)
    requires i < |servers| && j < |servers|
  {
    && a <= Held(servers[i]) && b <= Held(servers[j])
    && match t
       case Opening(src, dst, nodeKeys) =>
         src == i && dst == j && NodesOf(a) <= KeysOf(nodeKeys, {}) <= Held(servers[i])
       case Digest(src, dst, nodeKeys, manifestKeys) =>
         src == i && dst == j && a <= KeysOf(nodeKeys, manifestKeys) <= Held(servers[i])
       case Listing(src, dst, nodeKeys, manifestKeys, local) =>
         src == i && dst == j && a <= KeysOf(nodeKeys, manifestKeys) <= Held(servers[i])
         && NodesOf(b) <= KeysOf(local, {}) <= Held(servers[j])
       case Answering(src, dst, nodes, manifests, p) =>
         src == i && dst == j && Replying(servers, i, j, a, b, KeysOf(nodes, manifests), p)
       case Reply(src, dst, p) => src == i && dst == j && Replying(servers, i, j, a, b, {}, p)
       case Aligning(at, p, Some(peer)) => at == i && peer == j && Replying(servers, i, j, a, b, {}, p)
       case Putting(at, _, p, Some(peer)) => at == i && peer == j && Replying(servers, i, j, a, b, {}, p)
       case Gathering(src, dst, p) => src == i && dst == j && Pushing(servers, i, j, a, b, AskedKeys(p), CargoKeys(p))
       case Push(dst, p) => dst == j && Pushing(servers, i, j, a, b, {}, CargoKeys(p))
       case Aligning(at, p, None) => at == j && Pushing(servers, i, j, a, b, {}, CargoKeys(p))
       case Putting(at, _, p, None) => at == j && Pushing(servers, i, j, a, b, {}, CargoKeys(p))
       case Over => Pushing(servers, i, j, a, b, {}, {})
       case Evicting(_, _) => false
       case Purging(_, _) => false
  }

  /** Servers that only gain keys do not disturb an exchange. */
  lemma OthersDoNotDisturb(servers: seq<Server>, servers': seq<Server>, t: Task, i: nat, j: nat, a: set<Key>, b: set<Key>)
    requires i < |servers| && j < |servers| && Brings(servers, t, i, j, a, b) && Grown(servers, servers')
    ensures Brings(servers', t, i, j, a, b)
  {
    hide Held, KeysOf, CargoKeys, AskedKeys, NodesOf;
    assert Held(servers[i]) <= Held(servers'[i]) && Held(servers[j]) <= Held(servers'[j]);
  }

  // ---- Its own steps ----

  lemma ReadsDigest(servers: seq<Server>, t: Task, key: string, i: nat, j: nat, a: set<Key>, b: set<Key>)
    requires i < |servers| && j < |servers| && Placed(t, |servers|) && Brings(servers, t, i, j, a, b)
    requires t.Opening? || t.Digest?
    ensures Brings(servers, Next(servers, t, key), i, j, a, b)
  {
    hide Cargo;
  }

  lemma ReadsListing(servers: seq<Server>, t: Task, key: string, i: nat, j: nat, a: set<Key>, b: set<Key>)
    requires i < |servers| && j < |servers| && Placed(t, |servers|) && Brings(servers, t, i, j, a, b) && t.Listing?
    ensures Brings(servers, Next(servers, t, key), i, j, a, b)
  {
    var next := Next(servers, t, key);
    var offered := KeysOf(t.nodeKeys, t.manifestKeys);
    forall k | k in b
      ensures k in Held(servers[i]) || k in KeysOf(next.giveNodes, next.giveManifests)
    {
      assert k in Held(servers[j]);
      assert k.NodeKey? ==> k in NodesOf(b) && k in KeysOf(t.localNodes, {}) && (k.addr in t.nodeKeys ==> k in offered);
      assert k.ManifestKey? ==> (k.id in t.manifestKeys ==> k in offered);
    }
    forall k | k in a
      ensures k in Held(servers[j]) || k in AskedKeys(next.payload)
    {
      assert k in offered;
      assert k.NodeKey? && k.addr in t.localNodes ==> k in KeysOf(t.localNodes, {});
    }
    assert KeysOf(next.giveNodes, next.giveManifests) <= Held(servers[j]) by {
      forall k | k in KeysOf(next.giveNodes, next.giveManifests)
        ensures k in Held(servers[j])
      {
        assert k.NodeKey? ==> k in KeysOf(t.localNodes, {});
      }
    }
    assert AskedKeys(next.payload) <= offered;
  }

  /** A loop step reads `key`, which its server still holds, into the payload. */
  lemma ReadsAnswer(servers: seq<Server>, t: Task, key: string, i: nat, j: nat, a: set<Key>, b: set<Key>)
    requires i < |servers| && j < |servers| && Placed(t, |servers|) && Brings(servers, t, i, j, a, b)
    requires t.Answering?
    ensures Brings(servers, Next(servers, t, key), i, j, a, b)
  {
    var next, from := Next(servers, t, key), servers[j];
    if key in t.giveNodes {
      TakenNode(t.giveNodes, t.giveManifests, t.payload, from, key);
    } else if t.giveNodes == {} && key in t.giveManifests {
      TakenManifest({}, t.giveManifests, t.payload, from, key);
    } else {
      assert KeysOf({}, {}) == {};
    }
    hide KeysOf, Held, CargoKeys, NodesOf, Pick;
  }

  lemma TakenNode(nodes: set<string>, manifests: set<string>, p: Payload, from: Server, key: string)
    requires key in nodes && KeysOf(nodes, manifests) <= Held(from)
    ensures var p' := p.(nodes := p.nodes + Pick(from.nodes, {key}));
      && KeysOf(nodes, manifests) + CargoKeys(p) == KeysOf(nodes - {key}, manifests) + CargoKeys(p')
      && KeysOf(nodes - {key}, manifests) <= KeysOf(nodes, manifests)
  {
    assert NodeKey(key) in KeysOf(nodes, manifests);
    assert key in from.nodes;
    var p' := p.(nodes := p.nodes + Pick(from.nodes, {key}));
    assert p'.nodes.Keys == p.nodes.Keys + {key};
    KeysAdd(nodes, manifests, p.nodes.Keys, p.manifests.Keys, key);
  }

  lemma TakenManifest(nodes: set<string>, manifests: set<string>, p: Payload, from: Server, key: string)
    requires key in manifests && KeysOf(nodes, manifests) <= Held(from)
    ensures var p' := p.(manifests := p.manifests + Pick(from.manifests, {key}));
      && KeysOf(nodes, manifests) + CargoKeys(p) == KeysOf(nodes, manifests - {key}) + CargoKeys(p')
      && KeysOf(nodes, manifests - {key}) <= KeysOf(nodes, manifests)
  {
    assert ManifestKey(key) in KeysOf(nodes, manifests);
    assert key in from.manifests;
    var p' := p.(manifests := p.manifests + Pick(from.manifests, {key}));
    assert p'.manifests.Keys == p.manifests.Keys + {key};
    KeysAdd(nodes, manifests, p.nodes.Keys, p.manifests.Keys, key);
  }

  /** Moving one key from one pair of key sets to another keeps the keys of both. */
  lemma KeysAdd(nodes: set<string>, manifests: set<string>, n: set<string>, m: set<string>, key: string)
    ensures key in nodes ==> (
      KeysOf(nodes, manifests) + KeysOf(n, m) == KeysOf(nodes - {key}, manifests) + KeysOf(n + {key}, m))
    ensures key in manifests ==> (
      KeysOf(nodes, manifests) + KeysOf(n, m) == KeysOf(nodes, manifests - {key}) + KeysOf(n, m + {key}))
    ensures KeysOf(nodes - {key}, manifests) <= KeysOf(nodes, manifests)
    ensures KeysOf(nodes, manifests - {key}) <= KeysOf(nodes, manifests)
  {
  }

  lemma ReadsPush(servers: seq<Server>, t: Task, key: string, i: nat, j: nat, a: set<Key>, b: set<Key>)
    requires i < |servers| && j < |servers| && Placed(t, |servers|) && Brings(servers, t, i, j, a, b)
    requires t.Gathering?
    ensures Brings(servers, Next(servers, t, key), i, j, a, b)
  {
    var from, p := servers[i], t.payload;
    if key in p.askNodes {
      TakenNode(p.askNodes, p.askManifests, p, from, key);
    } else if p.askNodes == {} && key in p.askManifests {
      TakenManifest({}, p.askManifests, p, from, key);
    } else {
      assert KeysOf({}, {}) == {};
    }
    hide KeysOf, Held, CargoKeys, NodesOf, Pick;
  }

  lemma CargoDrop(p: Payload, key: string)
    ensures CargoKeys(p) <= CargoKeys(p.(nodes := p.nodes - {key})) + {NodeKey(key)}
    ensures CargoKeys(p) <= CargoKeys(p.(manifests := p.manifests - {key})) + {ManifestKey(key)}
    ensures key !in p.manifests ==> CargoKeys(p) <= CargoKeys(p.(manifests := p.manifests - {key}))
    ensures p.nodes == map[] && p.manifests == map[] ==> CargoKeys(p) == {}
    ensures p.askNodes == {} && p.askManifests == {} ==> AskedKeys(p) == {}
  {
  }

  /** After an access of an alignment its server holds what the access took off the payload. */
  lemma StoresWhatItDrops(s: Server, t: Task, key: string, next: Task, s': Server, servers: seq<Server>)
    requires t.Aligning? || t.Putting?
    requires Placed(t, |servers|) && servers[t.at] == s && next == Next(servers, t, key) && s' == Effect(s, t, key)
    ensures Held(s) <= Held(s')
    ensures CargoKeys(t.payload) <= CargoKeys(Cargo(next)) + Held(s')
    ensures next.Aligning? || next.Putting? ==>
      next.at == t.at && next.peer == t.peer && AskedKeys(next.payload) == AskedKeys(t.payload)
    ensures next.Aligning? || next.Putting? || next.Over?
      || (next.Gathering? && next.src == t.at && t.peer == Some(next.dst) && next.payload == t.payload)
    ensures next.Over? ==> t.peer.None? || AskedKeys(t.payload) == {}
    ensures next.Over? || next.Gathering? ==> CargoKeys(t.payload) == {}
  {
    EffectHeld(s, t, key);
    CargoDrop(t.payload, key);
    CargoDrop(t.payload, if t.Putting? then t.key else key);
    assert t.Aligning? && key in s.manifests ==> ManifestKey(key) in Held(s);
    hide KeysOf, Held;
  }

  lemma StoresKept(servers: seq<Server>, t: Task, key: string, i: nat, j: nat, a: set<Key>, b: set<Key>)
    requires i < |servers| && j < |servers| && i != j && Placed(t, |servers|) && Brings(servers, t, i, j, a, b)
    requires t.Aligning? || t.Putting?
    ensures Brings(Accessed(servers, t, key), Next(servers, t, key), i, j, a, b)
  {
    var next, servers' := Next(servers, t, key), Accessed(servers, t, key);
    StoresWhatItDrops(servers[t.at], t, key, next, servers'[t.at], servers);
    assert servers'[i] == (if t.at == i then servers'[t.at] else servers[i]);
    assert servers'[j] == (if t.at == j then servers'[t.at] else servers[j]);
    if t.peer.Some? {
      ReplyStored(servers, servers', t, next, i, j, a, b);
    } else {
      PushStored(servers, servers', t, next, i, j, a, b);
    }
  }

  lemma ReplyStored(servers: seq<Server>, servers': seq<Server>, t: Task, next: Task, i: nat, j: nat, a: set<Key>, b: set<Key>)
    requires i < |servers| == |servers'| && j < |servers| && Brings(servers, t, i, j, a, b)
    requires (t.Aligning? || t.Putting?) && t.peer.Some? && servers'[j] == servers[j] && Held(servers[i]) <= Held(servers'[i])
    requires CargoKeys(t.payload) <= CargoKeys(Cargo(next)) + Held(servers'[i])
    requires if next.Aligning? || next.Putting? then
        next.at == t.at && next.peer == t.peer && AskedKeys(next.payload) == AskedKeys(t.payload)
      else if next.Gathering? then
        next.src == t.at && t.peer == Some(next.dst) && next.payload == t.payload && CargoKeys(t.payload) == {}
      else next.Over? && AskedKeys(t.payload) == {} && CargoKeys(t.payload) == {}
    ensures Brings(servers', next, i, j, a, b)
  {
    hide KeysOf, Held, CargoKeys, AskedKeys, NodesOf;
  }

  lemma PushStored(servers: seq<Server>, servers': seq<Server>, t: Task, next: Task, i: nat, j: nat, a: set<Key>, b: set<Key>)
    requires i < |servers| == |servers'| && j < |servers| && Brings(servers, t, i, j, a, b)
    requires (t.Aligning? || t.Putting?) && t.peer.None? && servers'[i] == servers[i] && Held(servers[j]) <= Held(servers'[j])
    requires CargoKeys(t.payload) <= CargoKeys(Cargo(next)) + Held(servers'[j])
    requires if next.Aligning? || next.Putting? then next.at == t.at && next.peer == t.peer
      else next.Over? && CargoKeys(t.payload) == {}
    ensures Brings(servers', next, i, j, a, b)
  {
    hide KeysOf, Held, CargoKeys, AskedKeys, NodesOf;
  }

  /** A step of the exchange itself keeps it on its way. */
  lemma OwnStep(servers: seq<Server>, t: Task, key: string, i: nat, j: nat, a: set<Key>, b: set<Key>)
    requires i < |servers| && j < |servers| && i != j && Placed(t, |servers|) && Brings(servers, t, i, j, a, b)
    ensures Brings(Accessed(servers, t, key), Next(servers, t, key), i, j, a, b)
  {
    match t {
      case Opening(_, _, _) | Digest(_, _, _, _) => ReadsDigest(servers, t, key, i, j, a, b);
      case Listing(_, _, _, _, _) => ReadsListing(servers, t, key, i, j, a, b);
      case Answering(_, _, _, _, _) => ReadsAnswer(servers, t, key, i, j, a, b);
      case Gathering(_, _, _) => ReadsPush(servers, t, key, i, j, a, b);
      case Aligning(_, _, _) | Putting(_, _, _, _) => StoresKept(servers, t, key, i, j, a, b);
      case Reply(_, _, _) | Push(_, _) | Over => hide KeysOf, Held, CargoKeys, AskedKeys, NodesOf;
    }
  }

  predicate Undropped(acts: seq<Action>, t: nat) {
    forall k :: 0 <= k < |acts| ==> acts[k] != Drop(t)
  }

  lemma StepBrings(s: State, act: Action, t: nat, i: nat, j: nat, a: set<Key>, b: set<Key>)
    requires SyncOnly(s) && Enabled(s, act) && Calm(act) && act != Drop(t) && t < |s.tasks|
    requires i < |s.servers| && j < |s.servers| && i != j && Brings(s.servers, s.tasks[t], i, j, a, b)
    ensures var s' := Apply(s, act);
      t < |s'.tasks| && |s'.servers| == |s.servers| && Brings(s'.servers, s'.tasks[t], i, j, a, b)
  {
    StepConverges(s, act);
    TaskAfter(s, act, t);
    var s' := Apply(s, act);
    assert Known(s.tasks[t], |s.servers|, All(s.servers));
    hide Apply, Enabled, Brings, Next, Accessed, All, SyncOnly, Missing, Held, Cargo, Placed, Writes, CargoKeys;
    if act.Advance? && act.t == t {
      OwnStep(s.servers, s.tasks[t], act.key, i, j, a, b);
    } else {
      OthersDoNotDisturb(s.servers, s'.servers, s.tasks[t], i, j, a, b);
    }
  }

  lemma TaskAfter(s: State, act: Action, t: nat)
    requires Enabled(s, act) && t < |s.tasks| && act != Drop(t)
    ensures var s' := Apply(s, act);
      && t < |s'.tasks|
      && if act.Advance? && act.t == t
         then s'.tasks[t] == Next(s.servers, s.tasks[t], act.key) && s'.servers == Accessed(s.servers, s.tasks[t], act.key)
         else s'.tasks[t] == s.tasks[t]
  {
    hide Next, Effect;
  }

  lemma {:induction false} RunBrings(s: State, acts: seq<Action>, t: nat, i: nat, j: nat, a: set<Key>, b: set<Key>)
    requires SyncOnly(s) && Runs(s, acts) && AllCalm(acts) && Undropped(acts, t) && t < |s.tasks|
    requires i < |s.servers| && j < |s.servers| && i != j && Brings(s.servers, s.tasks[t], i, j, a, b)
    ensures var s' := Exec(s, acts);
      t < |s'.tasks| && |s'.servers| == |s.servers| && Brings(s'.servers, s'.tasks[t], i, j, a, b)
    decreases |acts|
  {
    hide Enabled, Apply, Brings, SyncOnly, Held, All, Missing, Writes;
    if acts != [] {
      StepConverges(s, acts[0]);
      StepBrings(s, acts[0], t, i, j, a, b);
      RunBrings(Apply(s, acts[0]), acts[1..], t, i, j, a, b);
    }
  }

  /** Exchange (i, j) is opened, steps of any exchanges follow, and it is completed without being dropped. */
  ghost predicate Completes(s: State, i: nat, j: nat, acts: seq<Action>) {
    && Enabled(s, StartSync(i, j)) && Runs(Apply(s, StartSync(i, j)), acts)
    && AllCalm(acts) && Undropped(acts, |s.tasks|)
    && var s' := Exec(Apply(s, StartSync(i, j)), acts);
      |s.tasks| < |s'.tasks| && s'.tasks[|s.tasks|] == Over
  }

  ghost function Completed(s: State, i: nat, j: nat, acts: seq<Action>): State
    requires Completes(s, i, j, acts)
  {
    Exec(Apply(s, StartSync(i, j)), acts)
  }

  lemma OpeningBrings(s: State, i: nat, j: nat)
    requires Enabled(s, StartSync(i, j))
    ensures var s' := Apply(s, StartSync(i, j));
      Brings(s'.servers, s'.tasks[|s.tasks|], i, j, Held(s.servers[i]), Held(s.servers[j]))
  {
  }

  /** A completed exchange leaves both servers with every key that either held when it was opened,
      whatever else was interleaved. */
  lemma ExchangeDelivers(s: State, i: nat, j: nat, acts: seq<Action>)
    requires SyncOnly(s) && Completes(s, i, j, acts)
    ensures var s' := Completed(s, i, j, acts);
      && |s'.servers| == |s.servers| && SyncOnly(s') && Grown(s.servers, s'.servers) && All(s'.servers) == All(s.servers)
      && Held(s.servers[i]) + Held(s.servers[j]) <= Held(s'.servers[i])
      && Held(s.servers[i]) + Held(s.servers[j]) <= Held(s'.servers[j])
  {
    var open := Apply(s, StartSync(i, j));
    StepConverges(s, StartSync(i, j));
    OpeningBrings(s, i, j);
    WritesAreMissing(open, acts);
    hide SyncOnly, Grown, All, Missing, Held, Runs, Exec;
    RunBrings(open, acts, |s.tasks|, i, j, Held(s.servers[i]), Held(s.servers[j]));
    var s' := Exec(open, acts);
    assert Brings(s'.servers, Over, i, j, Held(s.servers[i]), Held(s.servers[j]));
    GrownTwice(s.servers, open.servers, s'.servers);
  }

  lemma GrownTwice(a: seq<Server>, b: seq<Server>, c: seq<Server>)
    requires Grown(a, b) && Grown(b, c)
    ensures Grown(a, c)
  {
    hide Held;
    forall m | 0 <= m < |a|
      ensures Held(a[m]) <= Held(c[m])
    {
      assert Held(a[m]) <= Held(b[m]) <= Held(c[m]);
    }
  }

  lemma FewerMissing(c: Cluster, c': Cluster, i: nat, j: nat)
    requires Grown(c, c') && All(c') == All(c) && i < |c| && j < |c|
    requires Held(c[i]) + Held(c[j]) <= Held(c'[i]) && Held(c[i]) + Held(c[j]) <= Held(c'[j])
    ensures Held(c[i]) != Held(c[j]) ==> Missing(c') < Missing(c)
  {
    hide Held, All, Lacking;
    forall m | 0 <= m < |c|
      ensures Held(c[m]) <= Held(c'[m]) <= All(c)
    {
      HeldWithin(c', m);
    }
    LackingFalls(c, c', All(c));
    if Held(c[i]) != Held(c[j]) {
      assert Held(c[i]) != Held(c'[i]) || Held(c[j]) != Held(c'[j]);
    }
  }

  /** If its servers differed when it was opened, fewer records are missing once it is completed. */
  lemma ExchangePays(s: State, i: nat, j: nat, acts: seq<Action>)
    requires SyncOnly(s) && Completes(s, i, j, acts) && Held(s.servers[i]) != Held(s.servers[j])
    ensures Missing(Completed(s, i, j, acts).servers) < Missing(s.servers)
  {
    hide SyncOnly, Grown, All, Missing, Held, Runs, Exec, AllCalm, Undropped;
    ExchangeDelivers(s, i, j, acts);
    FewerMissing(s.servers, Completed(s, i, j, acts).servers, i, j);
  }

  // ---- Exchanges that do not overlap each other ----

  /** Steps of any kind, then an exchange from its opening to its end. */
  datatype Episode = Episode(before: seq<Action>, i: nat, j: nat, during: seq<Action>)

  /** The exchange of an episode is completed, and its servers differed when it was opened. */
  ghost predicate IsProductive(s: State, e: Episode) {
    && Runs(s, e.before) && AllCalm(e.before)
    && var s' := Exec(s, e.before);
      Completes(s', e.i, e.j, e.during) && Held(s'.servers[e.i]) != Held(s'.servers[e.j])
  }

  ghost function AfterEpisode(s: State, e: Episode): State
    requires IsProductive(s, e)
  {
    Completed(Exec(s, e.before), e.i, e.j, e.during)
  }

  ghost predicate AllProductive(s: State, es: seq<Episode>)
    decreases |es|
  {
    es == [] || (IsProductive(s, es[0]) && AllProductive(AfterEpisode(s, es[0]), es[1..]))
  }

  ghost function AfterAll(s: State, es: seq<Episode>): State
    requires AllProductive(s, es)
    decreases |es|
  {
    if es == [] then s else AfterAll(AfterEpisode(s, es[0]), es[1..])
  }

  lemma EpisodePays(s: State, e: Episode)
    requires SyncOnly(s) && IsProductive(s, e)
    ensures SyncOnly(AfterEpisode(s, e)) && Missing(AfterEpisode(s, e).servers) < Missing(s.servers)
  {
    hide SyncOnly, All, Missing, Held, Completes, Completed, Grown, Runs, Exec;
    WritesAreMissing(s, e.before);
    var s' := Exec(s, e.before);
    ExchangeDelivers(s', e.i, e.j, e.during);
    ExchangePays(s', e.i, e.j, e.during);
  }

  /** Productive exchanges that do not overlap each other, whatever else overlaps them, are at most as many
      as records were missing. */
  lemma {:induction false} ProductiveEpisodes(s: State, es: seq<Episode>)
    requires SyncOnly(s) && AllProductive(s, es)
    ensures |es| + Missing(AfterAll(s, es).servers) <= Missing(s.servers)
    decreases |es|
  {
    hide SyncOnly, Missing, IsProductive, AfterEpisode;
    if es != [] {
      EpisodePays(s, es[0]);
      ProductiveEpisodes(AfterEpisode(s, es[0]), es[1..]);
    }
  }

  // ---- Exchanges that overlap ----

  lemma AloneIsCalm(acts: seq<Action>, t: nat)
    requires Alone(acts, t)
    ensures AllCalm(acts) && forall o :: Undropped(acts, o)
  {
  }

  /** An open exchange can be completed by its own steps. */
  lemma FinishExchange(s: State, t: nat, i: nat, j: nat, a: set<Key>, b: set<Key>) returns (acts: seq<Action>)
    requires SyncOnly(s) && t < |s.tasks| && i < |s.servers| && j < |s.servers| && i != j
    requires Brings(s.servers, s.tasks[t], i, j, a, b)
    ensures Runs(s, acts) && Alone(acts, t)
    ensures t < |Exec(s, acts).tasks| && Exec(s, acts).tasks[t] == Over
  {
    assert Known(s.tasks[t], |s.servers|, All(s.servers));
    acts := TaskFinishes(s, t);
    AloneIsCalm(acts, t);
    hide SyncOnly, Runs, Exec, Alone, AllCalm, Undropped, Held, KeysOf, NodesOf;
    RunBrings(s, acts, t, i, j, a, b);
  }

  /** Exchanges that do overlap can both be productive for the same missing record: from every state in
      which two servers differ, both can open an exchange with the other before either runs, and both
      exchanges can be completed. */
  lemma OverlapBoth(s: State, i: nat, j: nat) returns (acts: seq<Action>)
    requires SyncOnly(s) && i < |s.servers| && j < |s.servers| && Held(s.servers[i]) != Held(s.servers[j])
    ensures Completes(s, i, j, [StartSync(j, i)] + acts)
    ensures Completes(Apply(s, StartSync(i, j)), j, i, acts)
    ensures Apply(s, StartSync(i, j)).servers == s.servers
  {
    var a, b, n := StartSync(i, j), StartSync(j, i), |s.tasks|;
    var one := Apply(s, a);
    var two := Apply(one, b);
    var ki, kj := Held(s.servers[i]), Held(s.servers[j]);
    StepConverges(s, a);
    StepConverges(one, b);
    OpeningBrings(s, i, j);
    OpeningBrings(one, j, i);
    assert two.servers == one.servers == s.servers && two.tasks[n] == one.tasks[n] && |two.tasks| == n + 2;
    hide Held, All, Missing, Brings, Grown, SyncOnly, Apply, Enabled, Writes;
    var first := FinishExchange(two, n, i, j, ki, kj);
    var second := FinishSecond(two, n, first, j, i, kj, ki);
    acts := first + second;
    JoinedCompletes(s, i, j, acts);
  }

  lemma FinishSecond(s: State, n: nat, first: seq<Action>, i: nat, j: nat, a: set<Key>, b: set<Key>)
    returns (second: seq<Action>)
    requires SyncOnly(s) && |s.tasks| == n + 2 && i < |s.servers| && j < |s.servers| && i != j
    requires Runs(s, first) && Alone(first, n) && n < |Exec(s, first).tasks| && Exec(s, first).tasks[n] == Over
    requires Brings(s.servers, s.tasks[n + 1], i, j, a, b)
    ensures Runs(s, first + second) && AllCalm(first + second)
    ensures forall o :: Undropped(first + second, o)
    ensures var s' := Exec(s, first + second); |s'.tasks| == n + 2 && s'.tasks[n] == Over && s'.tasks[n + 1] == Over
  {
    AloneIsCalm(first, n);
    AloneKeepsOthers(s, first, n);
    WritesAreMissing(s, first);
    hide Brings, SyncOnly, Held, All, Missing, Grown, Runs, Exec, Alone, AllCalm, Undropped;
    RunBrings(s, first, n + 1, i, j, a, b);
    var s' := Exec(s, first);
    second := FinishExchange(s', n + 1, i, j, a, b);
    AloneIsCalm(second, n + 1);
    AloneKeepsOthers(s', second, n + 1);
    RunsJoin(s, first, second);
    CalmJoin(first, second);
  }

  lemma CalmJoin(acts: seq<Action>, more: seq<Action>)
    requires AllCalm(acts) && AllCalm(more)
    requires (forall o :: Undropped(acts, o)) && (forall o :: Undropped(more, o))
    ensures AllCalm(acts + more) && forall o :: Undropped(acts + more, o)
  {
    var all := acts + more;
    assert forall k :: 0 <= k < |all| ==> all[k] == if k < |acts| then acts[k] else more[k - |acts|];
    forall o | true
      ensures Undropped(all, o)
    {
      assert Undropped(acts, o) && Undropped(more, o);
    }
  }

  lemma JoinedCompletes(s: State, i: nat, j: nat, acts: seq<Action>)
    requires Enabled(s, StartSync(i, j)) && Enabled(Apply(s, StartSync(i, j)), StartSync(j, i))
    requires var two := Apply(Apply(s, StartSync(i, j)), StartSync(j, i));
      && Runs(two, acts) && AllCalm(acts) && (forall o :: Undropped(acts, o))
      && |Exec(two, acts).tasks| == |s.tasks| + 2
      && Exec(two, acts).tasks[|s.tasks|] == Over && Exec(two, acts).tasks[|s.tasks| + 1] == Over
    ensures Completes(s, i, j, [StartSync(j, i)] + acts)
    ensures Completes(Apply(s, StartSync(i, j)), j, i, acts)
  {
    var one := Apply(s, StartSync(i, j));
    var all := [StartSync(j, i)] + acts;
    assert all[0] == StartSync(j, i) && all[1..] == acts;
    assert |one.tasks| == |s.tasks| + 1;
    assert Runs(one, all) && Exec(one, all) == Exec(Apply(one, StartSync(j, i)), acts);
    assert AllCalm(all) && Undropped(all, |s.tasks|) by {
      forall k | 0 <= k < |all|
        ensures Calm(all[k]) && all[k] != Drop(|s.tasks|)
      {
        assert k > 0 ==> all[k] == acts[k - 1];
        assert Undropped(acts, |s.tasks|);
      }
    }
  }

  /** Counterexample: with one missing record two exchanges can be completed, both opened between servers
      with different keys. */
  lemma OverlapExceedsMissing(id: FileId, m: Blob) returns (s: State, acts: seq<Action>)
    ensures SyncOnly(s) && Missing(s.servers) == 1
    ensures |s.servers| == 2 && Held(s.servers[0]) != Held(s.servers[1])
    ensures Completes(s, 0, 1, [StartSync(1, 0)] + acts)
    ensures Completes(Apply(s, StartSync(0, 1)), 1, 0, acts) && Apply(s, StartSync(0, 1)).servers == s.servers
  {
    var a, b := Server(map[], map[id := m]), Server(map[], map[]);
    s := State([a, b], [], 0, map[], {});
    var k := ManifestKey(id);
    assert Held(a) == {k} && Held(b) == {};
    assert s.servers[0] == a && s.servers[1] == b;
    assert All(s.servers) == {k} by {
      assert k in Held(s.servers[0]);
    }
    assert s.servers[..1] == [a] && [a][..0] == [];
    assert {k} - {} == {k} && {k} - {k} == {};
    assert Lacking([], {k}) == 0 && Lacking([a], {k}) == 0 && Lacking(s.servers, {k}) == 1;
    acts := OverlapBoth(s, 0, 1);
  }
}
