/** When a heartbeat survives: a server that has accepted one may lose it, or fall back to an older record,
    through what was already in flight (internal/service/clean_database.go:113-134,
    internal/service/synchronization.go:98-102 and 133-137). */
module Heartbeats {
  import opened Types
  import opened Sync
  import opened Bootstrap
  import opened Gossip
  import opened Uninterrupted
  import Absence
  import Convergence

  /** The record is not a heartbeat of `since` or later. */
  predicate Older(b: Blob, since: int) {
    !(b.NodeBlob? && b.node.timestamp >= since)
  }

  /** Server `i` lists `addr` with a heartbeat of `since` or later. */
  predicate Fresh(s: State, i: nat, addr: Addr, since: int) {
    i < |s.servers| && addr in s.servers[i].nodes && !Older(s.servers[i].nodes[addr], since)
  }

  // ---- Threats ----

  /** A pass of the heartbeat collector on `i` is about to delete `addr`. */
  predicate Evicts(t: Task, i: nat, addr: Addr) {
    t.Evicting? && t.at == i && addr in t.addrs
  }

  /** The server that the records in a task are for. */
  function Bound(t: Task): Option<nat> {
    match t
    case Answering(src, _, _, _, _) => Some(src)
    case Reply(src, _, _) => Some(src)
    case Aligning(at, _, _) => Some(at)
    case Putting(at, _, _, _) => Some(at)
    case Gathering(_, dst, _) => Some(dst)
    case Push(dst, _) => Some(dst)
    case _ => None
  }

  /** A record of `addr` from before `since` is on its way to `i`. */
  predicate Carries(t: Task, i: nat, addr: Addr, since: int) {
    Bound(t) == Some(i) && addr in Cargo(t).nodes && Older(Cargo(t).nodes[addr], since)
  }

  /** The server, if any, on which `t` may still look up `addr` for `i`, because `i` sent a digest
      without it, or asked for it. */
  function Lookup(t: Task, i: nat, addr: Addr): Option<nat> {
    match t
    case Opening(src, dst, nodeKeys) => if src == i && addr !in nodeKeys then Some(dst) else None
    case Digest(src, dst, nodeKeys, _) => if src == i && addr !in nodeKeys then Some(dst) else None
    case Listing(src, dst, nodeKeys, _, local) =>
      if src == i && addr !in nodeKeys && addr in local then Some(dst)
      else if dst == i && addr in nodeKeys && addr !in local then Some(src)
      else None
    case Answering(src, dst, nodes, _, p) =>
      if src == i && addr in nodes then Some(dst)
      else if dst == i && addr in p.askNodes then Some(src)
      else None
    case Reply(src, dst, p) => if dst == i && addr in p.askNodes then Some(src) else None
    case Aligning(at, p, Some(peer)) => if peer == i && addr in p.askNodes then Some(at) else None
    case Putting(at, _, p, Some(peer)) => if peer == i && addr in p.askNodes then Some(at) else None
    case Gathering(src, dst, p) => if dst == i && addr in p.askNodes then Some(src) else None
    case _ => None
  }

  /** Another server, or a message, holds a record of `addr` from before `since`. */
  predicate OlderElsewhere(s: State, i: nat, addr: Addr, since: int) {
    || (exists m :: 0 <= m < |s.servers| && m != i && addr in s.servers[m].nodes && Older(s.servers[m].nodes[addr], since))
    || (exists t :: 0 <= t < |s.tasks| && addr in Cargo(s.tasks[t]).nodes && Older(Cargo(s.tasks[t]).nodes[addr], since))
  }

  predicate IsThreat(s: State, t: Task, i: nat, addr: Addr, since: int) {
    || Evicts(t, i, addr)
    || Carries(t, i, addr, since)
    || (Lookup(t, i, addr).Some? && OlderElsewhere(s, i, addr, since))
  }

  predicate Threatened(s: State, i: nat, addr: Addr, since: int) {
    exists t :: 0 <= t < |s.tasks| && IsThreat(s, s.tasks[t], i, addr, since)
  }

  /** No server on which `addr` may still be looked up for `i` holds a heartbeat of `since` or later. At the
      moment of a heartbeat this leaves out a second one of the same node in the same nanosecond. */
  predicate NoTie(s: State, i: nat, addr: Addr, since: int) {
    forall t :: 0 <= t < |s.tasks| && Lookup(s.tasks[t], i, addr).Some? ==>
      var k := Lookup(s.tasks[t], i, addr).value;
      k < |s.servers| && addr in s.servers[k].nodes ==> Older(s.servers[k].nodes[addr], since)
  }

  // ---- What holds of tasks in every run ----

  /** An exchange is between two servers, and no node record is both given and asked for. */
  predicate Tidy(t: Task) {
    match t
    case Opening(src, dst, _) => src != dst
    case Digest(src, dst, _, _) => src != dst
    case Listing(src, dst, _, _, _) => src != dst
    case Answering(src, dst, nodes, _, p) =>
      src != dst && nodes !! p.nodes.Keys && nodes !! p.askNodes && p.nodes.Keys !! p.askNodes
    case Reply(src, dst, p) => src != dst && p.nodes.Keys !! p.askNodes
    case Aligning(at, p, Some(peer)) => at != peer && p.nodes.Keys !! p.askNodes
    case Putting(at, _, p, Some(peer)) => at != peer && p.nodes.Keys !! p.askNodes
    case Gathering(src, dst, p) => src != dst && p.nodes.Keys !! p.askNodes
    case _ => true
  }

  ghost predicate AllTidy(s: State) {
    forall t :: 0 <= t < |s.tasks| ==> Placed(s.tasks[t], |s.servers|) && Tidy(s.tasks[t])
  }

  lemma NextTidy(servers: seq<Server>, t: Task, key: string)
    requires Placed(t, |servers|) && Tidy(t)
    ensures Placed(Next(servers, t, key), |servers|) && Tidy(Next(servers, t, key))
  {
    if t.Answering? {
      PickKey(t.payload.nodes, servers[t.dst].nodes, key);
    } else if t.Gathering? {
      PickKey(t.payload.nodes, servers[t.src].nodes, key);
    }
    hide Pick;
  }

  lemma PickKey(base: Table, t: Table, key: string)
    ensures (base + Pick(t, {key})).Keys <= base.Keys + {key}
    ensures forall k :: k != key ==> (k in base + Pick(t, {key}) <==> k in base)
    ensures forall k :: k != key && k in base ==> (base + Pick(t, {key}))[k] == base[k]
  {
  }

  lemma StepTidy(s: State, a: Action)
    requires AllTidy(s) && Enabled(s, a)
    ensures AllTidy(Apply(s, a)) && |Apply(s, a).servers| == |s.servers| && s.now <= Apply(s, a).now
  {
    if a.Advance? {
      NextTidy(s.servers, s.tasks[a.t], a.key);
      hide Next, Placed, Effect, Tidy;
    } else {
      hide Next, Effect, SilentNodes, ExpiredIds;
    }
  }

  lemma {:induction false} RunTidy(s: State, acts: seq<Action>)
    requires AllTidy(s) && Runs(s, acts)
    ensures AllTidy(Exec(s, acts)) && |Exec(s, acts).servers| == |s.servers| && s.now <= Exec(s, acts).now
    decreases |acts|
  {
    hide AllTidy, Enabled, Apply;
    if acts != [] {
      StepTidy(s, acts[0]);
      RunTidy(Apply(s, acts[0]), acts[1..]);
    }
  }

  // ---- Survival ----

  lemma AccessFresh(s: State, t: Task, key: string, i: nat, addr: Addr, since: int)
    requires Placed(t, |s.servers|) && Fresh(s, i, addr, since)
    requires !Evicts(t, i, addr) && !Carries(t, i, addr, since)
    ensures Fresh(s.(servers := Accessed(s.servers, t, key)), i, addr, since)
  {
    hide Older;
  }

  lemma NextNoEvict(servers: seq<Server>, t: Task, key: string, i: nat, addr: Addr)
    requires Placed(t, |servers|) && !Evicts(t, i, addr)
    ensures !Evicts(Next(servers, t, key), i, addr)
  {
    hide Pick;
  }

  /** A task that neither carries nor looks up the record will not, as long as `i` lists it. */
  lemma NextHarmless(servers: seq<Server>, t: Task, key: string, i: nat, addr: Addr, since: int)
    requires Placed(t, |servers|) && Tidy(t) && i < |servers| && addr in servers[i].nodes
    requires !Carries(t, i, addr, since) && Lookup(t, i, addr).None?
    ensures !Carries(Next(servers, t, key), i, addr, since) && Lookup(Next(servers, t, key), i, addr).None?
  {
    hide Older;
    if t.Answering? {
      PickKey(t.payload.nodes, servers[t.dst].nodes, key);
      hide Pick;
    } else if t.Gathering? {
      PickKey(t.payload.nodes, servers[t.src].nodes, key);
      hide Pick;
    } else {
      hide Pick;
    }
  }

  ghost predicate NoneEvicts(s: State, i: nat, addr: Addr) {
    forall t :: 0 <= t < |s.tasks| ==> !Evicts(s.tasks[t], i, addr)
  }

  ghost predicate NoneHarms(s: State, i: nat, addr: Addr, since: int) {
    forall t :: 0 <= t < |s.tasks| ==> !Carries(s.tasks[t], i, addr, since) && Lookup(s.tasks[t], i, addr).None?
  }

  function NotOlder(addr: Addr, since: int): Absence.Test {
    (k: string, v: Blob) => k == addr ==> !Older(v, since)
  }

  /** No record of `addr` anywhere is from before `since`. */
  ghost predicate NoneOlder(s: State, addr: Addr, since: int) {
    Absence.Everywhere(s, NotOlder(addr, since), Absence.AnyEntry())
  }

  lemma FreshStep(s: State, a: Action, i: nat, addr: Addr, since: int)
    requires AllTidy(s) && Enabled(s, a) && Fresh(s, i, addr, since) && since <= s.now
    requires a.Advance? ==> !Evicts(s.tasks[a.t], i, addr) && !Carries(s.tasks[a.t], i, addr, since)
    ensures Fresh(Apply(s, a), i, addr, since)
  {
    if a.Advance? {
      AccessFresh(s, s.tasks[a.t], a.key, i, addr, since);
      assert Apply(s, a).servers == Accessed(s.servers, s.tasks[a.t], a.key);
    }
    hide Next, Effect, SilentNodes, ExpiredIds, Evicts, Carries, Tidy, Placed;
  }

  /** Within two minutes no eviction pass can take the heartbeat for a silent one. */
  lemma NoEvictStep(s: State, a: Action, i: nat, addr: Addr, since: int)
    requires AllTidy(s) && Enabled(s, a) && Fresh(s, i, addr, since) && s.now - since <= 120_000_000_000
    requires NoneEvicts(s, i, addr)
    ensures NoneEvicts(Apply(s, a), i, addr)
  {
    if a.Advance? {
      NextNoEvict(s.servers, s.tasks[a.t], a.key, i, addr);
      hide Next, Evicts;
    }
    hide Tidy, Placed, Effect, ExpiredIds;
  }

  lemma NoHarmStep(s: State, a: Action, i: nat, addr: Addr, since: int)
    requires AllTidy(s) && Enabled(s, a) && Fresh(s, i, addr, since) && NoneHarms(s, i, addr, since)
    ensures NoneHarms(Apply(s, a), i, addr, since)
  {
    if a.Advance? {
      assert Tidy(s.tasks[a.t]) && Placed(s.tasks[a.t], |s.servers|);
      NextHarmless(s.servers, s.tasks[a.t], a.key, i, addr, since);
      hide Next, Carries, Lookup;
    }
    hide Tidy, Placed, Effect, SilentNodes, ExpiredIds, Older;
  }

  /** Without a threat of the first kinds a heartbeat survives. */
  lemma {:induction false} SurvivesUnharmed(s: State, acts: seq<Action>, i: nat, addr: Addr, since: int)
    requires AllTidy(s) && Fresh(s, i, addr, since) && NoneEvicts(s, i, addr) && NoneHarms(s, i, addr, since)
    requires since <= s.now && Runs(s, acts) && Exec(s, acts).now - since <= 120_000_000_000
    ensures Fresh(Exec(s, acts), i, addr, since)
    decreases |acts|
  {
    RunTidy(s, acts);
    hide AllTidy, Fresh, NoneEvicts, NoneHarms, Enabled, Apply;
    if acts != [] {
      FreshStepUnharmed(s, acts[0], i, addr, since);
      NoEvictStep(s, acts[0], i, addr, since);
      NoHarmStep(s, acts[0], i, addr, since);
      StepTidy(s, acts[0]);
      SurvivesUnharmed(Apply(s, acts[0]), acts[1..], i, addr, since);
    }
  }

  lemma FreshStepUnharmed(s: State, a: Action, i: nat, addr: Addr, since: int)
    requires AllTidy(s) && Enabled(s, a) && Fresh(s, i, addr, since) && since <= s.now
    requires NoneEvicts(s, i, addr) && NoneHarms(s, i, addr, since)
    ensures Fresh(Apply(s, a), i, addr, since)
  {
    hide AllTidy, Fresh, Apply, Evicts, Carries, Lookup;
    FreshStep(s, a, i, addr, since);
  }

  /** Nor can it be lost when there is no older record to fall back to. */
  lemma {:induction false} SurvivesAlone(s: State, acts: seq<Action>, i: nat, addr: Addr, since: int)
    requires AllTidy(s) && Fresh(s, i, addr, since) && NoneEvicts(s, i, addr) && NoneOlder(s, addr, since)
    requires since <= s.now && Runs(s, acts) && Exec(s, acts).now - since <= 120_000_000_000
    ensures Fresh(Exec(s, acts), i, addr, since)
    decreases |acts|
  {
    RunTidy(s, acts);
    hide AllTidy, Fresh, NoneEvicts, Enabled, Apply, Absence.Everywhere;
    if acts != [] {
      FreshStepAlone(s, acts[0], i, addr, since);
      NoEvictStep(s, acts[0], i, addr, since);
      Absence.StepPasses(s, acts[0], NotOlder(addr, since), Absence.AnyEntry());
      StepTidy(s, acts[0]);
      SurvivesAlone(Apply(s, acts[0]), acts[1..], i, addr, since);
    }
  }

  lemma FreshStepAlone(s: State, a: Action, i: nat, addr: Addr, since: int)
    requires AllTidy(s) && Enabled(s, a) && Fresh(s, i, addr, since) && since <= s.now
    requires NoneEvicts(s, i, addr) && NoneOlder(s, addr, since)
    ensures Fresh(Apply(s, a), i, addr, since)
  {
    if a.Advance? {
      var t := s.tasks[a.t];
      assert Absence.AllIn(Cargo(t).nodes, Cargo(t).manifests, NotOlder(addr, since), Absence.AnyEntry());
      assert !Carries(t, i, addr, since);
    }
    hide AllTidy, Fresh, Apply, Evicts, Carries, Absence.Everywhere;
    FreshStep(s, a, i, addr, since);
  }

  // ---- Loss ----

  lemma DoneForecast(servers: seq<Server>, t: Task)
    requires Placed(t, |servers|) && Done(t)
    ensures Forecast(servers, t) == servers
  {
    if t.Evicting? {
      assert servers[t.at].nodes - {} == servers[t.at].nodes;
    } else if t.Purging? {
      assert servers[t.at].manifests - {} == servers[t.at].manifests;
    }
  }

  /** A task can run to its end alone, and then has done what was forecast. */
  lemma FinishAlone(s: State, t: nat) returns (acts: seq<Action>)
    requires AllTidy(s) && t < |s.tasks|
    ensures Runs(s, acts)
    ensures var s' := Exec(s, acts);
      && AllTidy(s') && s'.servers == Forecast(s.servers, s.tasks[t]) && s'.now == s.now
      && |s'.tasks| == |s.tasks| && forall o :: 0 <= o < |s.tasks| && o != t ==> s'.tasks[o] == s.tasks[o]
  {
    acts := TaskFinishes(s, t);
    hide AllTidy, Runs, Exec, Alone, Forecast, Done;
    AloneKeepsOthers(s, acts, t);
    RunKeepsForecast(s, acts, t);
    RunTidy(s, acts);
    DoneForecast(Exec(s, acts).servers, Exec(s, acts).tasks[t]);
  }

  /** Server `i` has the given record of `addr`. */
  predicate Lists(servers: seq<Server>, i: nat, addr: Addr, b: Blob) {
    i < |servers| && addr in servers[i].nodes && servers[i].nodes[addr] == b
  }

  lemma PickOther(t: Table, keys: set<string>, key: string)
    ensures key in Pick(t, keys) <==> key in keys && key in t
    ensures key in Pick(t, keys) ==> Pick(t, keys)[key] == t[key]
  {
  }

  /** A record of `addr` that is given to the initiator `at`, or not, and asked by the peer, or not. */
  lemma AligningForecast(servers: seq<Server>, at: nat, p: Payload, peer: Option<nat>, addr: Addr)
    requires at < |servers| && (peer.Some? ==> peer.value < |servers| && peer.value != at)
    ensures var r := AfterAligning(servers, at, p, peer);
      && |r| == |servers|
      && (addr in p.nodes ==> Lists(r, at, addr, p.nodes[addr]))
      && (addr !in p.nodes && addr in servers[at].nodes ==> Lists(r, at, addr, servers[at].nodes[addr]))
      && (peer.Some? && addr in p.askNodes && addr !in p.nodes && addr in servers[at].nodes ==>
            Lists(r, peer.value, addr, servers[at].nodes[addr]))
      && (forall x :: 0 <= x < |servers| && x != at && (peer == Some(x) ==> addr !in p.askNodes) ==>
            (addr in r[x].nodes <==> addr in servers[x].nodes)
            && (addr in servers[x].nodes ==> r[x].nodes[addr] == servers[x].nodes[addr]))
  {
    if peer.Some? {
      var aligned := Aligned(servers, at, p.nodes, p.manifests);
      PickOther(aligned[at].nodes, p.askNodes, addr);
    }
    hide Pick;
  }

  lemma AnsweringForecast(servers: seq<Server>, t: Task, addr: Addr)
    requires Placed(t, |servers|) && Tidy(t) && t.Answering?
    ensures var given, r := Pick(servers[t.dst].nodes, t.giveNodes), Forecast(servers, t);
      && |r| == |servers|
      && (addr in given ==> Lists(r, t.src, addr, servers[t.dst].nodes[addr]))
      && (addr !in given && addr in t.payload.nodes ==> Lists(r, t.src, addr, t.payload.nodes[addr]))
      && (addr in t.payload.askNodes && addr in servers[t.src].nodes ==> Lists(r, t.dst, addr, servers[t.src].nodes[addr]))
      && (forall x :: 0 <= x < |servers| && x != t.src && (x == t.dst ==> addr !in t.payload.askNodes) ==>
            (addr in r[x].nodes <==> addr in servers[x].nodes)
            && (addr in servers[x].nodes ==> r[x].nodes[addr] == servers[x].nodes[addr]))
  {
    var p := t.payload.(nodes := t.payload.nodes + Pick(servers[t.dst].nodes, t.giveNodes),
                        manifests := t.payload.manifests + Pick(servers[t.dst].manifests, t.giveManifests));
    PickOther(servers[t.dst].nodes, t.giveNodes, addr);
    AligningForecast(servers, t.src, p, Some(t.dst), addr);
    hide AfterAligning, Pick;
  }

  lemma GatheringForecast(servers: seq<Server>, t: Task, addr: Addr)
    requires Placed(t, |servers|) && Tidy(t) && t.Gathering?
    ensures var r := Forecast(servers, t);
      && |r| == |servers|
      && (addr in t.payload.askNodes && addr in servers[t.src].nodes ==> Lists(r, t.dst, addr, servers[t.src].nodes[addr]))
      && (addr in t.payload.nodes ==> Lists(r, t.dst, addr, t.payload.nodes[addr]))
      && (forall x :: 0 <= x < |servers| && x != t.dst ==> r[x] == servers[x])
  {
    PickOther(servers[t.src].nodes, t.payload.askNodes, addr);
    hide Pick;
  }

  /** The records of server `x`, as far as `addr` goes, are the same. */
  predicate Untouched(servers: seq<Server>, servers': seq<Server>, x: nat, addr: Addr)
    requires x < |servers| && x < |servers'|
  {
    && (addr in servers'[x].nodes <==> addr in servers[x].nodes)
    && (addr in servers[x].nodes ==> servers'[x].nodes[addr] == servers[x].nodes[addr])
  }

  /** Left alone, a task stores the record that it carries, and no other of `addr`. */
  lemma CarriedArrives(servers: seq<Server>, t: Task, addr: Addr)
    requires Placed(t, |servers|) && Tidy(t) && addr in Cargo(t).nodes
    ensures Bound(t).Some? && |Forecast(servers, t)| == |servers|
    ensures Lists(Forecast(servers, t), Bound(t).value, addr, Cargo(t).nodes[addr])
    ensures forall x :: 0 <= x < |servers| && x != Bound(t).value ==> Untouched(servers, Forecast(servers, t), x, addr)
  {
    match t {
      case Answering(_, _, _, _, _) =>
        AnsweringForecast(servers, t, addr);
        PickOther(servers[t.dst].nodes, t.giveNodes, addr);
        hide Forecast, Pick;
      case Reply(src, dst, p) => AligningForecast(servers, src, p, Some(dst), addr); hide AfterAligning;
      case Aligning(at, p, peer) => AligningForecast(servers, at, p, peer, addr); hide AfterAligning;
      case Putting(at, k, p, peer) =>
        var s := servers[at];
        var put := if k in p.manifests then s.(manifests := s.manifests[k := p.manifests[k]]) else s;
        AligningForecast(servers[at := put], at, p.(manifests := p.manifests - {k}), peer, addr);
        hide AfterAligning;
      case Gathering(_, _, _) => GatheringForecast(servers, t, addr); hide Forecast;
      case Push(_, _) =>
      case _ =>
    }
  }

  /** Left alone, a task stores at `i` the record that it looks up. */
  lemma LookedUpArrives(servers: seq<Server>, t: Task, i: nat, addr: Addr)
    requires Placed(t, |servers|) && Tidy(t) && Lookup(t, i, addr).Some?
    ensures Lookup(t, i, addr).value < |servers| && Lookup(t, i, addr).value != i
    ensures addr !in Cargo(t).nodes
    ensures var k := Lookup(t, i, addr).value;
      addr in servers[k].nodes ==> Lists(Forecast(servers, t), i, addr, servers[k].nodes[addr])
  {
    match t {
      case Opening(src, dst, nodeKeys) =>
        Answered(servers, src, dst, nodeKeys, servers[src].manifests.Keys, servers[dst].nodes.Keys, addr);
        hide AfterListing;
      case Digest(src, dst, nodeKeys, manifestKeys) =>
        Answered(servers, src, dst, nodeKeys, manifestKeys, servers[dst].nodes.Keys, addr);
        hide AfterListing;
      case Listing(src, dst, nodeKeys, manifestKeys, local) =>
        Answered(servers, src, dst, nodeKeys, manifestKeys, local, addr);
        hide AfterListing;
      case Answering(_, _, _, _, _) =>
        AnsweringForecast(servers, t, addr);
        PickOther(servers[t.dst].nodes, t.giveNodes, addr);
        hide Forecast, Pick;
      case Reply(src, dst, p) => AligningForecast(servers, src, p, Some(dst), addr); hide AfterAligning;
      case Aligning(at, p, peer) => AligningForecast(servers, at, p, peer, addr); hide AfterAligning;
      case Putting(at, k, p, peer) =>
        var s := servers[at];
        var put := if k in p.manifests then s.(manifests := s.manifests[k := p.manifests[k]]) else s;
        AligningForecast(servers[at := put], at, p.(manifests := p.manifests - {k}), peer, addr);
        hide AfterAligning;
      case Gathering(_, _, _) => GatheringForecast(servers, t, addr); hide Forecast;
      case _ =>
    }
  }

  lemma Answered(servers: seq<Server>, src: nat, dst: nat, nodeKeys: set<string>, manifestKeys: set<string>, local: set<string>,
                 addr: Addr)
    requires src < |servers| && dst < |servers| && src != dst
    ensures var r := AfterListing(servers, src, dst, nodeKeys, manifestKeys, local);
      && (addr in local && addr !in nodeKeys && addr in servers[dst].nodes ==> Lists(r, src, addr, servers[dst].nodes[addr]))
      && (addr !in local && addr in nodeKeys && addr in servers[src].nodes ==> Lists(r, dst, addr, servers[src].nodes[addr]))
  {
    var held := servers[dst].manifests.Keys;
    var t := Answering(src, dst, local - nodeKeys, held - manifestKeys,
                       Payload(map[], map[], nodeKeys - local, manifestKeys - held));
    AnsweringForecast(servers, t, addr);
    PickOther(servers[dst].nodes, local - nodeKeys, addr);
    hide Pick, AfterAnswering;
  }

  /** By a new exchange server `k` can get the record that `m` holds. */
  lemma Fetch(s: State, k: nat, m: nat, addr: Addr) returns (acts: seq<Action>)
    requires AllTidy(s) && k < |s.servers| && m < |s.servers| && k != m
    requires addr !in s.servers[k].nodes && addr in s.servers[m].nodes
    ensures Runs(s, acts) && AllTidy(Exec(s, acts)) && Exec(s, acts).now == s.now
    ensures |s.tasks| <= |Exec(s, acts).tasks| && forall o :: 0 <= o < |s.tasks| ==> Exec(s, acts).tasks[o] == s.tasks[o]
    ensures Lists(Exec(s, acts).servers, k, addr, s.servers[m].nodes[addr])
  {
    var a := StartSync(k, m);
    StepTidy(s, a);
    var one := Apply(s, a);
    var t := Opening(k, m, s.servers[k].nodes.Keys);
    assert one.servers == s.servers && one.tasks == s.tasks + [t] && one.now == s.now && Enabled(s, a);
    assert Placed(one.tasks[|s.tasks|], |one.servers|) && Tidy(one.tasks[|s.tasks|]);
    LookedUpArrives(s.servers, t, k, addr);
    hide AllTidy, Forecast, Apply, Enabled;
    var rest := FinishAlone(one, |s.tasks|);
    acts := [a] + rest;
    assert acts[1..] == rest;
  }

  /** When an older record exists, the server on which a pending lookup is made can come to hold one. */
  lemma Seed(s: State, t: nat, i: nat, addr: Addr, since: int) returns (acts: seq<Action>)
    requires AllTidy(s) && t < |s.tasks| && Lookup(s.tasks[t], i, addr).Some?
    requires OlderElsewhere(s, i, addr, since) && NoTie(s, i, addr, since)
    requires forall o :: 0 <= o < |s.tasks| ==> !Carries(s.tasks[o], i, addr, since)
    ensures Runs(s, acts) && AllTidy(Exec(s, acts)) && Exec(s, acts).now == s.now
    ensures t < |Exec(s, acts).tasks| && Exec(s, acts).tasks[t] == s.tasks[t]
    ensures var k, servers := Lookup(s.tasks[t], i, addr).value, Exec(s, acts).servers;
      k < |servers| && addr in servers[k].nodes && Older(servers[k].nodes[addr], since)
  {
    LookedUpArrives(s.servers, s.tasks[t], i, addr);
    var k := Lookup(s.tasks[t], i, addr).value;
    hide Tidy, Placed, Lookup, Older;
    if addr in s.servers[k].nodes {
      acts := [];
    } else if m :| 0 <= m < |s.servers| && m != i && addr in s.servers[m].nodes && Older(s.servers[m].nodes[addr], since) {
      acts := Fetch(s, k, m, addr);
    } else {
      var o :| 0 <= o < |s.tasks| && addr in Cargo(s.tasks[o]).nodes && Older(Cargo(s.tasks[o]).nodes[addr], since);
      acts := SeedFromCargo(s, o, k, addr, since);
    }
  }

  lemma SeedFromCargo(s: State, o: nat, k: nat, addr: Addr, since: int) returns (acts: seq<Action>)
    requires AllTidy(s) && o < |s.tasks| && k < |s.servers| && addr !in s.servers[k].nodes
    requires addr in Cargo(s.tasks[o]).nodes && Older(Cargo(s.tasks[o]).nodes[addr], since)
    ensures Runs(s, acts) && AllTidy(Exec(s, acts)) && Exec(s, acts).now == s.now
    ensures |s.tasks| <= |Exec(s, acts).tasks|
    ensures forall x :: 0 <= x < |s.tasks| && x != o ==> Exec(s, acts).tasks[x] == s.tasks[x]
    ensures var servers := Exec(s, acts).servers;
      k < |servers| && addr in servers[k].nodes && Older(servers[k].nodes[addr], since)
  {
    CarriedArrives(s.servers, s.tasks[o], addr);
    var m := Bound(s.tasks[o]).value;
    var first := FinishAlone(s, o);
    var s' := Exec(s, first);
    if m == k {
      acts := first;
    } else {
      assert Untouched(s.servers, s'.servers, k, addr);
      hide AllTidy, Forecast, Runs, Exec, Older, Cargo, Bound;
      var second := Fetch(s', k, m, addr);
      RunsJoin(s, first, second);
      acts := first + second;
    }
  }

  /** A threat can be carried out at once, while the clock stands. */
  lemma ThreatStrikes(s: State, i: nat, addr: Addr, since: int) returns (acts: seq<Action>)
    requires AllTidy(s) && i < |s.servers| && Threatened(s, i, addr, since) && NoTie(s, i, addr, since)
    ensures Runs(s, acts) && Exec(s, acts).now == s.now && !Fresh(Exec(s, acts), i, addr, since)
  {
    hide Tidy, Placed, Lookup, Older, Cargo, Bound;
    if t :| 0 <= t < |s.tasks| && Evicts(s.tasks[t], i, addr) {
      acts := FinishAlone(s, t);
    } else if t :| 0 <= t < |s.tasks| && Carries(s.tasks[t], i, addr, since) {
      CarriedArrives(s.servers, s.tasks[t], addr);
      hide Forecast;
      acts := FinishAlone(s, t);
    } else {
      var t :| 0 <= t < |s.tasks| && IsThreat(s, s.tasks[t], i, addr, since);
      hide OlderElsewhere, NoTie, Forecast, Runs, Exec, Carries, Evicts;
      acts := LookupStrikes(s, t, i, addr, since);
    }
  }

  lemma LookupStrikes(s: State, t: nat, i: nat, addr: Addr, since: int) returns (acts: seq<Action>)
    requires AllTidy(s) && t < |s.tasks| && i < |s.servers| && Lookup(s.tasks[t], i, addr).Some?
    requires OlderElsewhere(s, i, addr, since) && NoTie(s, i, addr, since)
    requires forall o :: 0 <= o < |s.tasks| ==> !Carries(s.tasks[o], i, addr, since)
    ensures Runs(s, acts) && Exec(s, acts).now == s.now && !Fresh(Exec(s, acts), i, addr, since)
  {
    hide Older, Lookup, OlderElsewhere, NoTie, Forecast, Runs, Exec, Carries, Tidy, Placed;
    var first := Seed(s, t, i, addr, since);
    var s' := Exec(s, first);
    LookedUpArrives(s'.servers, s'.tasks[t], i, addr);
    var second := FinishAlone(s', t);
    RunsJoin(s, first, second);
    acts := first + second;
  }

  // ---- The condition ----

  /** In every later run, within two minutes, server `i` lists `addr` with this heartbeat or a later one. */
  ghost predicate Survives(s: State, i: nat, addr: Addr, since: int) {
    forall acts :: Runs(s, acts) && Exec(s, acts).now - since <= 120_000_000_000 ==> Fresh(Exec(s, acts), i, addr, since)
  }

  /** Accepting a heartbeat changes no threat. */
  lemma ThreatsSame(s: State, i: nat, addr: Addr, publicKey: Bytes)
    requires AllTidy(s) && i < |s.servers|
    ensures var s' := Apply(s, Subscribe(i, addr, publicKey));
      && AllTidy(s') && Fresh(s', i, addr, s.now) && s'.now == s.now
      && (Threatened(s', i, addr, s.now) <==> Threatened(s, i, addr, s.now))
      && (NoTie(s', i, addr, s.now) <==> NoTie(s, i, addr, s.now))
  {
    var s' := Apply(s, Subscribe(i, addr, publicKey));
    StepTidy(s, Subscribe(i, addr, publicKey));
    assert s'.tasks == s.tasks && |s'.servers| == |s.servers|;
    assert forall m :: 0 <= m < |s.servers| && m != i ==> s'.servers[m] == s.servers[m];
    assert OlderElsewhere(s', i, addr, s.now) <==> OlderElsewhere(s, i, addr, s.now);
    forall t | 0 <= t < |s.tasks| && Lookup(s.tasks[t], i, addr).Some?
      ensures Lookup(s.tasks[t], i, addr).value != i
    {
      LookedUpArrives(s.servers, s.tasks[t], i, addr);
    }
    hide OlderElsewhere, Lookup, Evicts, Carries, Tidy, Placed, Apply;
  }

  lemma UnthreatenedSurvives(s: State, i: nat, addr: Addr, since: int)
    requires AllTidy(s) && Fresh(s, i, addr, since) && since <= s.now && !Threatened(s, i, addr, since)
    ensures Survives(s, i, addr, since)
  {
    forall t | 0 <= t < |s.tasks|
      ensures !Evicts(s.tasks[t], i, addr) && !Carries(s.tasks[t], i, addr, since)
      ensures Lookup(s.tasks[t], i, addr).Some? ==> !OlderElsewhere(s, i, addr, since)
    {
      assert !IsThreat(s, s.tasks[t], i, addr, since);
    }
    if !OlderElsewhere(s, i, addr, since) {
      NothingOlder(s, i, addr, since);
    }
    hide AllTidy, Evicts, Carries, Lookup, OlderElsewhere, Threatened, Absence.Everywhere, Fresh, Runs, Exec;
    forall acts | Runs(s, acts) && Exec(s, acts).now - since <= 120_000_000_000
      ensures Fresh(Exec(s, acts), i, addr, since)
    {
      if OlderElsewhere(s, i, addr, since) {
        SurvivesUnharmed(s, acts, i, addr, since);
      } else {
        SurvivesAlone(s, acts, i, addr, since);
      }
    }
  }

  lemma NothingOlder(s: State, i: nat, addr: Addr, since: int)
    requires Fresh(s, i, addr, since) && !OlderElsewhere(s, i, addr, since)
    ensures NoneOlder(s, addr, since)
  {
    hide Older, Cargo;
  }

  /** A heartbeat that server `i` has just accepted survives in every later run within two minutes, if and
      only if nothing in flight threatens it: no eviction pass that lists the node, no older record on
      its way to `i`, and, if another server or a message holds an older record, no exchange begun earlier
      in which it may still be looked up for `i`. Exchanges opened afterwards are no threat. */
  lemma HeartbeatSurvivesIff(n: nat, earlier: seq<Action>, i: nat, addr: Addr, publicKey: Bytes)
    requires Runs(Init(n), earlier) && i < |Exec(Init(n), earlier).servers|
    requires var s := Exec(Init(n), earlier); NoTie(s, i, addr, s.now)
    ensures var s := Exec(Init(n), earlier);
      Survives(Apply(s, Subscribe(i, addr, publicKey)), i, addr, s.now) <==> !Threatened(s, i, addr, s.now)
  {
    assert AllTidy(Init(n));
    RunTidy(Init(n), earlier);
    var s := Exec(Init(n), earlier);
    ThreatsSame(s, i, addr, publicKey);
    var s' := Apply(s, Subscribe(i, addr, publicKey));
    hide AllTidy, Threatened, NoTie, Fresh, Apply, Runs, Exec;
    if Threatened(s', i, addr, s.now) {
      var acts := ThreatStrikes(s', i, addr, s.now);
    } else {
      UnthreatenedSurvives(s', i, addr, s.now);
    }
  }

  // ---- Both ways to lose one ----

  /** An eviction pass deletes by key what its snapshot showed: a heartbeat that arrives in between
      is lost, however young it is. */
  lemma HeartbeatLost(s: State, t: nat, addr: Addr, publicKey: Bytes)
    requires t < |s.tasks| && s.tasks[t].Evicting? && s.tasks[t].at < |s.servers| && addr in s.tasks[t].addrs
    ensures var acts := [Subscribe(s.tasks[t].at, addr, publicKey), Advance(t, addr)];
      && Runs(s, acts)
      && (addr, NodeRecord(publicKey, s.now)) in Exec(s, acts).subscribed
      && |Exec(s, acts).servers| == |s.servers|
      && addr !in Exec(s, acts).servers[s.tasks[t].at].nodes
      && Exec(s, acts).now == s.now
  {
    var a, b := Subscribe(s.tasks[t].at, addr, publicKey), Advance(t, addr);
    assert [a, b][1..] == [b] && [b][1..] == [];
    var s' := Apply(s, a);
    assert Enabled(s', b) && Exec(s, [a, b]) == Exec(s', [b]) == Apply(s', b);
  }

  /** Alignment writes what it carries over whatever is there: a heartbeat that arrived after the digest is
      replaced by the older record, which the next eviction pass may take for a silent node. */
  lemma HeartbeatOverwritten(s: State, t: nat, addr: Addr, publicKey: Bytes)
    requires t < |s.tasks| && s.tasks[t].Aligning? && Placed(s.tasks[t], |s.servers|)
    requires addr in s.tasks[t].payload.nodes && Older(s.tasks[t].payload.nodes[addr], s.now)
    ensures var acts := [Subscribe(s.tasks[t].at, addr, publicKey), Advance(t, addr)];
      && Runs(s, acts)
      && (addr, NodeRecord(publicKey, s.now)) in Exec(s, acts).subscribed && Exec(s, acts).now == s.now
      && Lists(Exec(s, acts).servers, s.tasks[t].at, addr, s.tasks[t].payload.nodes[addr])
      && !Fresh(Exec(s, acts), s.tasks[t].at, addr, s.now)
  {
    var a, b := Subscribe(s.tasks[t].at, addr, publicKey), Advance(t, addr);
    assert [a, b][1..] == [b] && [b][1..] == [];
    var s' := Apply(s, a);
    assert Enabled(s', b) && Exec(s, [a, b]) == Exec(s', [b]) == Apply(s', b);
  }
}
