/** One delta-sync exchange between two bootstrap servers, as functions on what they hold
    (internal/service/synchronization.go, internal/api/bootstrap_api.go:42-105). */
module Sync {
  import opened Types

  /** A namespace of a database. */
  type Table = map<string, Blob>

  /** What a bootstrap server holds. */
  datatype Server = Server(nodes: Table, manifests: Table)

  /** Records offered and keys asked for. */
  datatype Payload = Payload(nodes: Table, manifests: Table, askNodes: set<string>, askManifests: set<string>)

  /** The entries of `t` under the given keys; absent keys are skipped. */
  function Pick(t: Table, keys: set<string>): Table {
    map k | k in keys && k in t :: t[k]
  }

  /** Answer to a digest: records the sender lacks, keys the receiver lacks. */
  function Answer(local: Server, nodeKeys: set<string>, manifestKeys: set<string>): Payload {
    Payload(Pick(local.nodes, local.nodes.Keys - nodeKeys), Pick(local.manifests, local.manifests.Keys - manifestKeys),
            nodeKeys - local.nodes.Keys, manifestKeys - local.manifests.Keys)
  }

  /** ProcessAlignment: node records are overwritten, manifests only added. */
  function Align(s: Server, nodes: Table, manifests: Table): Server {
    Server(s.nodes + nodes, manifests + s.manifests)
  }

  /** A whole exchange started by `a` with `b`, without interference. */
  function Exchange(a: Server, b: Server): (Server, Server) {
    var reply := Answer(b, a.nodes.Keys, a.manifests.Keys);
    var a' := Align(a, reply.nodes, reply.manifests);
    if reply.askNodes == {} && reply.askManifests == {} then (a', b)
    else (a', Align(b, Pick(a'.nodes, reply.askNodes), Pick(a'.manifests, reply.askManifests)))
  }

  /** `t` holds the keys of both tables, its own old values, and the peer's for the rest. */
  ghost predicate UnionOf(t: Table, own: Table, peer: Table) {
    && t.Keys == own.Keys + peer.Keys
    && (forall k :: k in own ==> t[k] == own[k])
    && (forall k :: k in peer && k !in own ==> t[k] == peer[k])
  }

  /** One table: what the initiator `a` and the peer `b` hold after reply, alignment and push. */
  lemma TableUnion(a: Table, b: Table, overwrite: bool)
    ensures var given := Pick(b, b.Keys - a.Keys);
      var a' := if overwrite then a + given else given + a;
      var pushed := Pick(a', a.Keys - b.Keys);
      && UnionOf(a', a, b)
      && UnionOf(if overwrite then b + pushed else pushed + b, b, a)
      && (a.Keys - b.Keys == {} ==> UnionOf(b, b, a))
  {
  }

  /** One full exchange gives both servers the union of their keys, leaves every value held before as
      it was, and takes each gained value from the peer. */
  lemma ExchangeIsUnion(a: Server, b: Server)
    ensures var (a', b') := Exchange(a, b);
      && UnionOf(a'.nodes, a.nodes, b.nodes) && UnionOf(a'.manifests, a.manifests, b.manifests)
      && UnionOf(b'.nodes, b.nodes, a.nodes) && UnionOf(b'.manifests, b.manifests, a.manifests)
  {
    hide UnionOf, Pick;
    TableUnion(a.nodes, b.nodes, true);
    TableUnion(a.manifests, b.manifests, false);
  }

  /** An exchange between servers that agree changes nothing. */
  lemma ExchangeIdle(a: Server, b: Server)
    requires a.nodes.Keys == b.nodes.Keys && a.manifests.Keys == b.manifests.Keys
    ensures Exchange(a, b) == (a, b)
  {
    ExchangeIsUnion(a, b);
    var (a', b') := Exchange(a, b);
    assert a'.nodes == a.nodes && a'.manifests == a.manifests;
    assert b'.nodes == b.nodes && b'.manifests == b.manifests;
  }

  /** Deletions are not propagated: a manifest deleted on one server is back after an exchange with a
      peer, whichever side starts it, exactly when the peer holds it. */
  lemma DeletedManifestReturnsIff(a: Server, b: Server, id: FileId)
    ensures var deleted := a.(manifests := a.manifests - {id});
      && (id in Exchange(deleted, b).0.manifests <==> id in b.manifests)
      && (id in Exchange(b, deleted).1.manifests <==> id in b.manifests)
      && (id in b.manifests ==> Exchange(deleted, b).0.manifests[id] == b.manifests[id])
  {
    var deleted := a.(manifests := a.manifests - {id});
    ExchangeIsUnion(deleted, b);
    ExchangeIsUnion(b, deleted);
    hide Exchange;
  }
}
