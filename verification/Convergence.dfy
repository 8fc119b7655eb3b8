/** Anti-entropy converges: with no insertions, deletions or collector passes, completed exchanges
    between any picks of servers drive the number of missing records to zero
    (internal/service/synchronization.go:35-91). */
module Convergence {
  import opened Types
  import opened Placement
  import opened Sync

  type Cluster = seq<Server>

  datatype Key = NodeKey(addr: Addr) | ManifestKey(id: FileId)

  function Held(s: Server): set<Key> {
    (set a | a in s.nodes :: NodeKey(a)) + (set id | id in s.manifests :: ManifestKey(id))
  }

  /** Every key that some server holds. */
  function All(c: Cluster): set<Key> {
    set i, k | 0 <= i < |c| && k in Held(c[i]) :: k
  }

  /** The number of pairs of a server and a key of `u` that it lacks. */
  function Lacking(c: Cluster, u: set<Key>): nat {
    if c == [] then 0 else Lacking(c[..|c| - 1], u) + |u - Held(c[|c| - 1])|
  }

  function Missing(c: Cluster): nat {
    Lacking(c, All(c))
  }

  /** performSync at server `i` with the chosen server `j`; the own address is skipped. */
  function ExchangeAt(c: Cluster, i: nat, j: nat): (c': Cluster)
    requires i < |c| && j < |c|
    ensures |c'| == |c|
  {
    if i == j then c
    else
      var (a, b) := Exchange(c[i], c[j]);
      c[i := a][j := b]
  }

  type Picks = seq<(nat, nat)>

  predicate InRange(c: Cluster, picks: Picks) {
    forall p :: p in picks ==> p.0 < |c| && p.1 < |c|
  }

  function Rounds(c: Cluster, picks: Picks): (c': Cluster)
    requires InRange(c, picks)
    ensures |c'| == |c|
    decreases |picks|
  {
    if picks == [] then c
    else
      assert picks[0] in picks;
      Rounds(ExchangeAt(c, picks[0].0, picks[0].1), picks[1..])
  }

  /** How many of the exchanges were between servers with different keys. */
  function Productive(c: Cluster, picks: Picks): nat
    requires InRange(c, picks)
    decreases |picks|
  {
    if picks == [] then 0
    else
      assert picks[0] in picks;
      (if Held(c[picks[0].0]) != Held(c[picks[0].1]) then 1 else 0)
        + Productive(ExchangeAt(c, picks[0].0, picks[0].1), picks[1..])
  }

  lemma HeldUnion(t: Server, a: Server, b: Server)
    requires t.nodes.Keys == a.nodes.Keys + b.nodes.Keys && t.manifests.Keys == a.manifests.Keys + b.manifests.Keys
    ensures Held(t) == Held(a) + Held(b)
  {
  }

  lemma ExchangeHeld(c: Cluster, i: nat, j: nat)
    requires i < |c| && j < |c|
    ensures var c' := ExchangeAt(c, i, j);
      && Held(c'[i]) == Held(c'[j]) == Held(c[i]) + Held(c[j])
      && forall m :: 0 <= m < |c| && m != i && m != j ==> c'[m] == c[m]
  {
    ExchangeIsUnion(c[i], c[j]);
    hide Exchange, Held;
    var (a, b) := Exchange(c[i], c[j]);
    HeldUnion(a, c[i], c[j]);
    HeldUnion(b, c[i], c[j]);
  }

  /** An exchange neither invents nor loses a key. */
  lemma AllKept(c: Cluster, i: nat, j: nat)
    requires i < |c| && j < |c|
    ensures All(ExchangeAt(c, i, j)) == All(c)
  {
    hide ExchangeAt, Held;
    ExchangeHeld(c, i, j);
    var c' := ExchangeAt(c, i, j);
    forall k
      ensures k in All(c') <==> k in All(c)
    {
      if k in All(c) {
        var m :| 0 <= m < |c| && k in Held(c[m]);
        assert k in Held(c'[m]);
      }
      if k in All(c') {
        var m :| 0 <= m < |c'| && k in Held(c'[m]);
        if m == i || m == j {
          assert k in Held(c[i]) || k in Held(c[j]);
        } else {
          assert k in Held(c[m]);
        }
      }
    }
  }

  lemma Larger(u: set<Key>, old': set<Key>, new': set<Key>)
    requires old' <= new'
    ensures |u - new'| <= |u - old'|
    ensures old' != new' && new' <= u ==> |u - new'| < |u - old'|
  {
    SubsetSize(u - new', u - old');
    if old' != new' && new' <= u {
      var k :| k in new' && k !in old';
      assert k in u - old' && k !in u - new';
    }
  }

  /** Servers that only gain keys lack no more, and strictly less if one of them gains one of `u`. */
  lemma {:induction false} LackingFalls(c: Cluster, c': Cluster, u: set<Key>)
    requires |c| == |c'|
    requires forall m :: 0 <= m < |c| ==> Held(c[m]) <= Held(c'[m]) <= u
    ensures Lacking(c', u) <= Lacking(c, u)
    ensures (exists m :: 0 <= m < |c| && Held(c[m]) != Held(c'[m])) ==> Lacking(c', u) < Lacking(c, u)
  {
    hide Held;
    if c != [] {
      var n := |c| - 1;
      LackingFalls(c[..n], c'[..n], u);
      Larger(u, Held(c[n]), Held(c'[n]));
      if m :| 0 <= m < |c| && Held(c[m]) != Held(c'[m]) && m < n {
        assert Held(c[..n][m]) != Held(c'[..n][m]);
      }
    }
  }

  /** An exchange never adds to the missing records, and takes some away exactly when the two servers
      differ; otherwise it changes nothing at all. */
  lemma ExchangeConverges(c: Cluster, i: nat, j: nat)
    requires i < |c| && j < |c|
    ensures Missing(ExchangeAt(c, i, j)) <= Missing(c)
    ensures Held(c[i]) != Held(c[j]) ==> Missing(ExchangeAt(c, i, j)) < Missing(c)
    ensures Held(c[i]) == Held(c[j]) ==> ExchangeAt(c, i, j) == c
  {
    if Held(c[i]) == Held(c[j]) {
      ExchangeStable(c, i, j);
    }
    hide Held, All, ExchangeAt, Lacking;
    AllKept(c, i, j);
    ExchangeHeld(c, i, j);
    var c' := ExchangeAt(c, i, j);
    forall m | 0 <= m < |c|
      ensures Held(c[m]) <= Held(c'[m]) <= All(c)
    {
      HeldWithin(c', m);
    }
    LackingFalls(c, c', All(c));
    if Held(c[i]) != Held(c[j]) {
      assert Held(c[i]) != Held(c'[i]) || Held(c[j]) != Held(c'[j]);
    }
  }

  lemma ExchangeStable(c: Cluster, i: nat, j: nat)
    requires i < |c| && j < |c| && Held(c[i]) == Held(c[j])
    ensures ExchangeAt(c, i, j) == c
  {
    SameKeys(c[i], c[j]);
    ExchangeIdle(c[i], c[j]);
  }

  lemma HeldWithin(c: Cluster, m: nat)
    requires m < |c|
    ensures Held(c[m]) <= All(c)
  {
    hide Held;
  }

  lemma SameKeys(a: Server, b: Server)
    requires Held(a) == Held(b)
    ensures a.nodes.Keys == b.nodes.Keys && a.manifests.Keys == b.manifests.Keys
  {
    forall x
      ensures x in a.nodes <==> x in b.nodes
      ensures x in a.manifests <==> x in b.manifests
    {
      assert x in a.nodes <==> NodeKey(x) in Held(a);
      assert x in b.nodes <==> NodeKey(x) in Held(b);
      assert x in a.manifests <==> ManifestKey(x) in Held(a);
      assert x in b.manifests <==> ManifestKey(x) in Held(b);
    }
  }

  lemma {:induction false} LackingZero(c: Cluster, u: set<Key>)
    ensures Lacking(c, u) == 0 <==> forall m :: 0 <= m < |c| ==> u <= Held(c[m])
  {
    hide Held;
    if c != [] {
      var n := |c| - 1;
      LackingZero(c[..n], u);
      assert |u - Held(c[n])| == 0 <==> u <= Held(c[n]) by {
        var rest := u - Held(c[n]);
        if rest == {} {
          assert forall k :: k in u ==> k in Held(c[n]) || k in rest;
        } else {
          var k :| k in rest;
        }
      }
      assert forall m :: 0 <= m < n ==> c[..n][m] == c[m];
      if Lacking(c, u) == 0 {
        forall m | 0 <= m < |c|
          ensures u <= Held(c[m])
        {
          if m < n {
            assert u <= Held(c[..n][m]);
          }
        }
      }
    }
  }

  /** Nothing is missing exactly when every server holds the union, and exactly when no exchange
      could be productive any more. */
  lemma ConvergedIff(c: Cluster)
    ensures Missing(c) == 0 <==> forall m :: 0 <= m < |c| ==> Held(c[m]) == All(c)
    ensures Missing(c) == 0 <==> forall i, j :: 0 <= i < |c| && 0 <= j < |c| ==> Held(c[i]) == Held(c[j])
  {
    hide Held;
    LackingZero(c, All(c));
    forall m | 0 <= m < |c|
      ensures Held(c[m]) <= All(c)
    {
      HeldWithin(c, m);
    }
    if forall i, j :: 0 <= i < |c| && 0 <= j < |c| ==> Held(c[i]) == Held(c[j]) {
      forall m | 0 <= m < |c|
        ensures All(c) <= Held(c[m])
      {
      }
    }
  }

  /** However the servers pick each other, at most Missing(c) exchanges are productive, and no key
      is gained or lost overall. */
  lemma {:induction false} ProductiveBound(c: Cluster, picks: Picks)
    requires InRange(c, picks)
    ensures Productive(c, picks) + Missing(Rounds(c, picks)) <= Missing(c)
    ensures All(Rounds(c, picks)) == All(c)
    decreases |picks|
  {
    hide Held, All, Missing, ExchangeAt;
    if picks != [] {
      assert picks[0] in picks;
      var (i, j) := picks[0];
      ExchangeConverges(c, i, j);
      AllKept(c, i, j);
      ProductiveBound(ExchangeAt(c, i, j), picks[1..]);
    }
  }
}
