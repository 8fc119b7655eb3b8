/** What the gossip of module Gossip cannot bring back: records held nowhere stay away until they are
    inserted or subscribed anew, and a silent node is forgotten for good. */
module Absence {
  import opened Types
  import opened Sync
  import opened Bootstrap
  import opened Gossip

  /** A test on the entries of a table. */
  type Test = (string, Blob) -> bool

  function AnyEntry(): Test {
    (_, _) => true
  }

  function NotKey(key: string): Test {
    (k, _) => k != key
  }

  /** The record of `addr`, if this is one, is a heartbeat not after `last`. */
  function NotAfter(addr: Addr, last: int): Test {
    (k: string, v: Blob) => k == addr ==> v.NodeBlob? && v.node.timestamp <= last
  }

  ghost predicate All(t: Table, p: Test) {
    forall k :: k in t ==> p(k, t[k])
  }

  ghost predicate AllIn(nodes: Table, manifests: Table, p: Test, q: Test) {
    All(nodes, p) && All(manifests, q)
  }

  /** Every node record and every manifest, on a server or in flight, passes its test. */
  ghost predicate Everywhere(s: State, p: Test, q: Test) {
    && (forall i :: 0 <= i < |s.servers| ==> AllIn(s.servers[i].nodes, s.servers[i].manifests, p, q))
    && (forall t :: 0 <= t < |s.tasks| ==> AllIn(Cargo(s.tasks[t]).nodes, Cargo(s.tasks[t]).manifests, p, q))
  }

  /** The record that an action creates, if any, passes its test. */
  ghost predicate Passes(s: State, a: Action, p: Test, q: Test) {
    && (a.Subscribe? ==> p(a.addr, NodeBlob(NodeRecord(a.publicKey, s.now))))
    && (a.Insert? ==> q(a.manifest.fileId, ManifestBlob(a.manifest)))
  }

  lemma AllPick(base: Table, t: Table, key: string, p: Test)
    requires All(base, p) && All(t, p)
    ensures All(base + Pick(t, {key}), p) && All(base - {key}, p)
    ensures forall k :: k in t ==> All(base[k := t[k]], p)
  {
  }

  lemma NextPasses(s: State, t: Task, key: string, p: Test, q: Test)
    requires Everywhere(s, p, q) && Placed(t, |s.servers|)
    requires AllIn(Cargo(t).nodes, Cargo(t).manifests, p, q)
    ensures var t' := Next(s.servers, t, key);
      AllIn(Cargo(t').nodes, Cargo(t').manifests, p, q)
  {
    var at := if t.Answering? then t.dst else if t.Gathering? then t.src else if t.Aligning? || t.Putting? then t.at else 0;
    if t.Answering? || t.Gathering? || t.Aligning? || t.Putting? {
      assert AllIn(s.servers[at].nodes, s.servers[at].manifests, p, q);
      var k := if t.Putting? then t.key else key;
      AllPick(t.payload.nodes, s.servers[at].nodes, k, p);
      AllPick(t.payload.manifests, s.servers[at].manifests, k, q);
    }
    assert AllIn(map[], map[], p, q);
    hide All, Pick, Everywhere;
  }

  lemma EffectPasses(s: State, t: Task, key: string, p: Test, q: Test)
    requires Everywhere(s, p, q) && Placed(t, |s.servers|) && Changes(t)
    requires AllIn(Cargo(t).nodes, Cargo(t).manifests, p, q)
    ensures var srv := Effect(s.servers[Site(t)], t, key);
      AllIn(srv.nodes, srv.manifests, p, q)
  {
    var srv := s.servers[Site(t)];
    assert AllIn(srv.nodes, srv.manifests, p, q);
    AllPick(srv.nodes, Cargo(t).nodes, key, p);
    AllPick(srv.manifests, Cargo(t).manifests, key, q);
    hide All, Everywhere;
  }

  lemma StepPasses(s: State, a: Action, p: Test, q: Test)
    requires Everywhere(s, p, q) && Enabled(s, a) && Passes(s, a, p, q)
    ensures Everywhere(Apply(s, a), p, q)
  {
    hide Next, Effect, Cargo, ExpiredIds, SilentNodes, All;
    if a.Advance? {
      var task := s.tasks[a.t];
      NextPasses(s, task, a.key, p, q);
      if Changes(task) {
        EffectPasses(s, task, a.key, p, q);
        assert Apply(s, a).servers == s.servers[Site(task) := Effect(s.servers[Site(task)], task, a.key)];
      }
    } else {
      OtherPasses(s, a, p, q);
    }
  }

  lemma OtherPasses(s: State, a: Action, p: Test, q: Test)
    requires Everywhere(s, p, q) && Enabled(s, a) && Passes(s, a, p, q) && !a.Advance?
    ensures Everywhere(Apply(s, a), p, q)
  {
    hide ExpiredIds, SilentNodes, Next, Effect, Placed;
    assert AllIn(map[], map[], p, q);
    var s' := Apply(s, a);
    forall i | 0 <= i < |s'.servers|
      ensures AllIn(s'.servers[i].nodes, s'.servers[i].manifests, p, q)
    {
      assert AllIn(s.servers[i].nodes, s.servers[i].manifests, p, q);
    }
    assert |s'.tasks| <= |s.tasks| || Cargo(s'.tasks[|s.tasks|]) == NO_PAYLOAD;
    hide AllIn;
  }

  // ---- Over runs ----

  ghost predicate NoNode(s: State, addr: Addr) {
    Everywhere(s, NotKey(addr), AnyEntry())
  }

  ghost predicate NoManifest(s: State, id: FileId) {
    Everywhere(s, AnyEntry(), NotKey(id))
  }

  /** No record of `addr`, wherever it is, is younger than `last`. */
  ghost predicate LastSeen(s: State, addr: Addr, last: int) {
    Everywhere(s, NotAfter(addr, last), AnyEntry())
  }

  predicate Subscribes(acts: seq<Action>, addr: Addr) {
    exists i :: 0 <= i < |acts| && acts[i].Subscribe? && acts[i].addr == addr
  }

  predicate Inserts(acts: seq<Action>, id: FileId) {
    exists i :: 0 <= i < |acts| && acts[i].Insert? && acts[i].manifest.fileId == id
  }

  /** A node record that is on no server and in no message stays away until a new subscription. */
  lemma {:induction false} NodeStaysGone(s: State, acts: seq<Action>, addr: Addr)
    requires NoNode(s, addr) && Runs(s, acts) && !Subscribes(acts, addr)
    ensures NoNode(Exec(s, acts), addr)
    decreases |acts|
  {
    if acts != [] {
      StepPasses(s, acts[0], NotKey(addr), AnyEntry());
      NodeStaysGone(Apply(s, acts[0]), acts[1..], addr);
    }
  }

  /** A manifest that is on no server and in no message stays away until a new insertion. */
  lemma {:induction false} ManifestStaysGone(s: State, acts: seq<Action>, id: FileId)
    requires NoManifest(s, id) && Runs(s, acts) && !Inserts(acts, id)
    ensures NoManifest(Exec(s, acts), id)
    decreases |acts|
  {
    if acts != [] {
      StepPasses(s, acts[0], AnyEntry(), NotKey(id));
      ManifestStaysGone(Apply(s, acts[0]), acts[1..], id);
    }
  }

  /** Synchronization does not refresh heartbeats: only a subscription makes a younger record. */
  lemma {:induction false} StaleStaysStale(s: State, acts: seq<Action>, addr: Addr, last: int)
    requires LastSeen(s, addr, last) && Runs(s, acts) && !Subscribes(acts, addr)
    ensures LastSeen(Exec(s, acts), addr, last)
    decreases |acts|
  {
    if acts != [] {
      StepPasses(s, acts[0], NotAfter(addr, last), AnyEntry());
      StaleStaysStale(Apply(s, acts[0]), acts[1..], addr, last);
    }
  }

  // ---- What is in flight can always arrive ----

  predicate HasNode(s: State, addr: Addr) {
    exists i :: 0 <= i < |s.servers| && addr in s.servers[i].nodes
  }

  predicate HasManifest(s: State, id: FileId) {
    exists i :: 0 <= i < |s.servers| && id in s.servers[i].manifests
  }

  /** How far a task that carries records is from storing them. */
  function Stage(t: Task): nat {
    match t
    case Answering(_, _, _, _, _) => 3
    case Gathering(_, _, _) => 3
    case Reply(_, _, _) => 2
    case Push(_, _) => 2
    case Putting(_, _, _, _) => 1
    case _ => 0
  }

  function Remaining(t: Task): nat {
    match t
    case Answering(_, _, giveNodes, giveManifests, _) => |giveNodes| + |giveManifests|
    case Gathering(_, _, payload) => |payload.askNodes| + |payload.askManifests|
    case Aligning(_, payload, _) => |payload.nodes|
    case _ => 0
  }

  /** One step of a task that still has to send, or to store other node records first. */
  lemma Onward(s: State, t: nat)
    requires t < |s.tasks| && Placed(s.tasks[t], |s.servers|)
    requires Stage(s.tasks[t]) > 0 || (s.tasks[t].Aligning? && s.tasks[t].payload.nodes != map[])
    ensures var next := Next(s.servers, s.tasks[t], Todo(s.tasks[t]));
      && Placed(next, |s.servers|)
      && (Stage(next) < Stage(s.tasks[t])
          || (Stage(next) == Stage(s.tasks[t]) && Remaining(next) < Remaining(s.tasks[t])))
      && (next.Aligning? || Stage(next) > 0)
      && (Stage(s.tasks[t]) > 0 ==> Cargo(s.tasks[t]).nodes.Keys <= Cargo(next).nodes.Keys)
      && (!s.tasks[t].Putting? ==> Cargo(s.tasks[t]).manifests.Keys <= Cargo(next).manifests.Keys)
  {
    var task := s.tasks[t];
    if task.Aligning? {
      var k := Todo(task);
      assert k in task.payload.nodes;
      assert (task.payload.nodes - {k}).Keys == task.payload.nodes.Keys - {k};
    }
  }

  /** A node record in flight can reach a server by task steps alone. */
  lemma {:induction false} NodeArrives(s: State, t: nat, addr: Addr) returns (acts: seq<Action>)
    requires t < |s.tasks| && Placed(s.tasks[t], |s.servers|) && addr in Cargo(s.tasks[t]).nodes
    ensures Runs(s, acts) && HasNode(Exec(s, acts), addr)
    ensures forall a :: a in acts ==> a.Advance?
    decreases Stage(s.tasks[t]), Remaining(s.tasks[t])
  {
    var task := s.tasks[t];
    if task.Aligning? {
      acts := [Advance(t, addr)];
      var s' := Apply(s, acts[0]);
      assert Exec(s', acts[1..]) == s';
      assert addr in s'.servers[task.at].nodes;
    } else {
      Onward(s, t);
      var a := Advance(t, Todo(task));
      hide Next, Effect, HasNode, Todo;
      var rest := NodeArrives(Apply(s, a), t, addr);
      acts := [a] + rest;
      assert acts[1..] == rest;
    }
  }

  lemma PutArrives(s: State, t: nat, id: FileId) returns (acts: seq<Action>)
    requires t < |s.tasks| && Placed(s.tasks[t], |s.servers|)
    requires s.tasks[t].Putting? && s.tasks[t].key == id && id in s.tasks[t].payload.manifests
    ensures Runs(s, acts) && HasManifest(Exec(s, acts), id)
    ensures forall a :: a in acts ==> a.Advance?
  {
    acts := [Advance(t, id)];
    var s' := Apply(s, acts[0]);
    assert Exec(s', acts[1..]) == s';
    assert id in s'.servers[s.tasks[t].at].manifests;
  }

  /** A manifest in flight can reach a server by task steps alone, unless the server has it already. */
  lemma {:induction false} ManifestArrives(s: State, t: nat, id: FileId) returns (acts: seq<Action>)
    requires t < |s.tasks| && Placed(s.tasks[t], |s.servers|) && id in Cargo(s.tasks[t]).manifests
    ensures Runs(s, acts) && HasManifest(Exec(s, acts), id)
    ensures forall a :: a in acts ==> a.Advance?
    decreases Stage(s.tasks[t]), Remaining(s.tasks[t])
  {
    var task := s.tasks[t];
    if task.Putting? && task.key == id {
      acts := PutArrives(s, t, id);
    } else if task.Aligning? && task.payload.nodes == map[] {
      if id in s.servers[task.at].manifests {
        acts := [];
      } else {
        var a := Advance(t, id);
        assert Apply(s, a).tasks[t] == Putting(task.at, id, task.payload, task.peer);
        hide Next, Effect, HasManifest, Cargo;
        var rest := PutArrives(Apply(s, a), t, id);
        acts := [a] + rest;
        assert acts[1..] == rest;
      }
    } else if task.Putting? {
      var a := Advance(t, id);
      assert Apply(s, a).tasks[t] == Aligning(task.at, task.payload.(manifests := task.payload.manifests - {task.key}), task.peer);
      assert id in Cargo(Apply(s, a).tasks[t]).manifests;
      hide Next, Effect, HasManifest;
      var rest := ManifestArrives(Apply(s, a), t, id);
      acts := [a] + rest;
      assert acts[1..] == rest;
    } else {
      Onward(s, t);
      var a := Advance(t, Todo(task));
      hide Next, Effect, HasManifest, Todo;
      var rest := ManifestArrives(Apply(s, a), t, id);
      acts := [a] + rest;
      assert acts[1..] == rest;
    }
  }

  ghost predicate AllPlaced(s: State) {
    forall t :: 0 <= t < |s.tasks| ==> Placed(s.tasks[t], |s.servers|)
  }

  /** A node's record can come back without a new subscription exactly when a server or a message
      still holds it. */
  lemma NodeReturnsIff(s: State, addr: Addr)
    requires AllPlaced(s)
    ensures NoNode(s, addr)
       <==> forall acts :: Runs(s, acts) && !Subscribes(acts, addr) ==> !HasNode(Exec(s, acts), addr)
  {
    hide Next, Effect, Placed, Apply;
    if NoNode(s, addr) {
      forall acts | Runs(s, acts) && !Subscribes(acts, addr)
        ensures !HasNode(Exec(s, acts), addr)
      {
        NodeStaysGone(s, acts, addr);
        AbsentEverywhere(Exec(s, acts), addr);
      }
    } else {
      PresentSomewhere(s, addr);
      if HasNode(s, addr) {
        var none: seq<Action> := [];
        assert Runs(s, none) && !Subscribes(none, addr) && Exec(s, none) == s;
      } else {
        var t :| 0 <= t < |s.tasks| && addr in Cargo(s.tasks[t]).nodes;
        var acts := NodeArrives(s, t, addr);
        assert forall i :: 0 <= i < |acts| ==> acts[i] in acts;
        assert !Subscribes(acts, addr);
      }
    }
  }

  lemma AbsentEverywhere(s: State, addr: Addr)
    requires NoNode(s, addr)
    ensures !HasNode(s, addr)
  {
    forall i | 0 <= i < |s.servers|
      ensures addr !in s.servers[i].nodes
    {
      assert AllIn(s.servers[i].nodes, s.servers[i].manifests, NotKey(addr), AnyEntry());
    }
  }

  lemma PresentSomewhere(s: State, addr: Addr)
    requires !NoNode(s, addr)
    ensures HasNode(s, addr) || exists t :: 0 <= t < |s.tasks| && addr in Cargo(s.tasks[t]).nodes
  {
  }

  /** A manifest can come back without a new insertion exactly when a server or a message still
      holds it. */
  lemma ManifestReturnsIff(s: State, id: FileId)
    requires AllPlaced(s)
    ensures NoManifest(s, id)
       <==> forall acts :: Runs(s, acts) && !Inserts(acts, id) ==> !HasManifest(Exec(s, acts), id)
  {
    hide Next, Effect, Placed, Apply;
    if NoManifest(s, id) {
      forall acts | Runs(s, acts) && !Inserts(acts, id)
        ensures !HasManifest(Exec(s, acts), id)
      {
        ManifestStaysGone(s, acts, id);
        ManifestAbsentEverywhere(Exec(s, acts), id);
      }
    } else {
      ManifestPresentSomewhere(s, id);
      if HasManifest(s, id) {
        var none: seq<Action> := [];
        assert Runs(s, none) && !Inserts(none, id) && Exec(s, none) == s;
      } else {
        var t :| 0 <= t < |s.tasks| && id in Cargo(s.tasks[t]).manifests;
        var acts := ManifestArrives(s, t, id);
        assert forall i :: 0 <= i < |acts| ==> acts[i] in acts;
        assert !Inserts(acts, id);
      }
    }
  }

  lemma ManifestAbsentEverywhere(s: State, id: FileId)
    requires NoManifest(s, id)
    ensures !HasManifest(s, id)
  {
    forall i | 0 <= i < |s.servers|
      ensures id !in s.servers[i].manifests
    {
      assert AllIn(s.servers[i].nodes, s.servers[i].manifests, AnyEntry(), NotKey(id));
    }
  }

  lemma ManifestPresentSomewhere(s: State, id: FileId)
    requires !NoManifest(s, id)
    ensures HasManifest(s, id) || exists t :: 0 <= t < |s.tasks| && id in Cargo(s.tasks[t]).manifests
  {
  }

  // ---- A lost message ----

  lemma OverStep(s: State, a: Action, t: nat)
    requires Enabled(s, a) && t < |s.tasks| && s.tasks[t].Over?
    ensures t < |Apply(s, a).tasks| && Apply(s, a).tasks[t].Over?
  {
    hide Effect, ExpiredIds, SilentNodes;
  }

  /** A message that is lost, or a handler that fails, is over: it never has an effect in any later run. */
  lemma LostIsOver(s: State, t: nat, acts: seq<Action>)
    requires Enabled(s, Drop(t)) && Runs(Apply(s, Drop(t)), acts)
    ensures Apply(s, Drop(t)).servers == s.servers
    ensures t < |Exec(Apply(s, Drop(t)), acts).tasks| && Exec(Apply(s, Drop(t)), acts).tasks[t].Over?
    ensures forall key :: Enabled(Exec(Apply(s, Drop(t)), acts), Advance(t, key)) ==>
      Apply(Exec(Apply(s, Drop(t)), acts), Advance(t, key)) == Exec(Apply(s, Drop(t)), acts)
  {
    OverStays(Apply(s, Drop(t)), t, acts);
    hide Runs, Exec;
  }

  lemma {:induction false} OverStays(s: State, t: nat, acts: seq<Action>)
    requires Runs(s, acts) && t < |s.tasks| && s.tasks[t].Over?
    ensures t < |Exec(s, acts).tasks| && Exec(s, acts).tasks[t].Over?
    decreases |acts|
  {
    if acts != [] {
      OverStep(s, acts[0], t);
      hide Enabled, Apply;
      OverStays(Apply(s, acts[0]), t, acts[1..]);
    }
  }

  // ---- A silent node ----

  /** No record is in flight and none will be: only collectors are at work. */
  predicate Quiet(s: State) {
    forall t :: 0 <= t < |s.tasks| ==> s.tasks[t].Over? || s.tasks[t].Evicting? || s.tasks[t].Purging?
  }

  /** Neither a new exchange nor a heartbeat of `addr`. */
  predicate Hushed(acts: seq<Action>, addr: Addr) {
    forall i :: 0 <= i < |acts| ==> !acts[i].StartSync? && !(acts[i].Subscribe? && acts[i].addr == addr)
  }

  /** Eviction passes begun since there were `base` tasks have removed `addr`, or are about to. */
  predicate Swept(s: State, addr: Addr, base: nat) {
    forall t :: base <= t < |s.tasks| && s.tasks[t].Evicting? && s.tasks[t].at < |s.servers| ==>
      addr in s.tasks[t].addrs || addr !in s.servers[s.tasks[t].at].nodes
  }

  /** Every server has finished an eviction pass begun since there were `base` tasks. */
  predicate AllSwept(s: State, base: nat) {
    forall i :: 0 <= i < |s.servers| ==> exists t :: base <= t < |s.tasks| && s.tasks[t] == Evicting(i, {})
  }

  lemma SweepStep(s: State, a: Action, addr: Addr, last: int, base: nat)
    requires Quiet(s) && LastSeen(s, addr, last) && s.now - last > 120_000_000_000 && Swept(s, addr, base)
    requires Enabled(s, a) && Hushed([a], addr)
    ensures var s' := Apply(s, a);
      Quiet(s') && LastSeen(s', addr, last) && s'.now - last > 120_000_000_000 && Swept(s', addr, base)
  {
    assert Hushed([a], addr) ==> !a.StartSync? && !(a.Subscribe? && a.addr == addr) by {
      assert [a][0] == a;
    }
    StepPasses(s, a, NotAfter(addr, last), AnyEntry());
    if a.StartEvict? {
      assert AllIn(s.servers[a.i].nodes, s.servers[a.i].manifests, NotAfter(addr, last), AnyEntry());
    }
    hide Everywhere, ExpiredIds;
  }

  /** A node whose last heartbeat is more than two minutes old is forgotten once every server has
      completed an eviction pass with no synchronization under way. The passes need not be atomic. */
  lemma {:induction false} SilentNodeIsForgotten(s: State, acts: seq<Action>, addr: Addr, last: int, base: nat)
    requires Quiet(s) && LastSeen(s, addr, last) && s.now - last > 120_000_000_000 && Swept(s, addr, base)
    requires Runs(s, acts) && Hushed(acts, addr) && AllSwept(Exec(s, acts), base)
    ensures NoNode(Exec(s, acts), addr)
    decreases |acts|
  {
    hide Apply, LastSeen;
    if acts == [] {
      SweptIsGone(s, addr, base);
    } else {
      assert acts[0] == [acts[0]][0];
      assert Hushed([acts[0]], addr) && Hushed(acts[1..], addr);
      SweepStep(s, acts[0], addr, last, base);
      SilentNodeIsForgotten(Apply(s, acts[0]), acts[1..], addr, last, base);
    }
  }

  lemma SweptIsGone(s: State, addr: Addr, base: nat)
    requires Quiet(s) && Swept(s, addr, base) && AllSwept(s, base)
    ensures NoNode(s, addr)
  {
    forall i | 0 <= i < |s.servers|
      ensures AllIn(s.servers[i].nodes, s.servers[i].manifests, NotKey(addr), AnyEntry())
    {
      var t :| base <= t < |s.tasks| && s.tasks[t] == Evicting(i, {});
      assert s.tasks[t].at == i;
    }
  }

  /** The whole story: two quiet minutes, a pass on every server, and the node never returns. */
  lemma SilentNodeIsGoneForGood(s: State, passes: seq<Action>, later: seq<Action>, addr: Addr, last: int)
    requires Quiet(s) && LastSeen(s, addr, last) && s.now - last > 120_000_000_000
    requires Runs(s, passes) && Hushed(passes, addr) && AllSwept(Exec(s, passes), |s.tasks|)
    requires Runs(Exec(s, passes), later) && !Subscribes(later, addr)
    ensures !HasNode(Exec(Exec(s, passes), later), addr)
  {
    hide Apply, LastSeen, AllSwept, Quiet, NoNode, Hushed, HasNode, Subscribes;
    SilentNodeIsForgotten(s, passes, addr, last, |s.tasks|);
    NodeStaysGone(Exec(s, passes), later, addr);
    AbsentEverywhere(Exec(Exec(s, passes), later), addr);
  }

  /** From every reachable state a node that stays silent is evicted: just over two minutes later a pass of the
      collector removes its record. */
  lemma SilentNodeCanBeEvicted(s: State, i: nat, addr: Addr) returns (acts: seq<Action>)
    requires Agreement(s) && i < |s.servers| && addr in s.servers[i].nodes
    ensures Runs(s, acts) && !Subscribes(acts, addr) && Exec(s, acts).now == s.now + 120_000_000_001
    ensures i < |Exec(s, acts).servers| && addr !in Exec(s, acts).servers[i].nodes
  {
    var wait, pass := Tick(120_000_000_001), StartEvict(i);
    var sweep := Advance(|s.tasks|, addr);
    assert TablesOk(s, s.servers[i].nodes, s.servers[i].manifests);
    var one := Apply(s, wait);
    assert Silent(one.servers[i].nodes[addr], one.now);
    var two := Apply(one, pass);
    assert two.tasks[|s.tasks|] == Evicting(i, SilentNodes(s.servers[i].nodes, one.now));
    var three := Apply(two, sweep);
    acts := [wait, pass, sweep];
    hide Agreement, Enabled, Apply;
    assert acts[1..] == [pass, sweep] && [pass, sweep][1..] == [sweep] && [sweep][1..] == [];
    assert Runs(two, [sweep]) && Exec(two, [sweep]) == three;
    assert Runs(one, [pass, sweep]) && Exec(one, [pass, sweep]) == three;
  }
}
