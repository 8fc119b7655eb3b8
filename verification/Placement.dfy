/** Where chunks go: the allocation of nodes to an upload, the random choice of target nodes
    for one chunk, and the load that this necessarily puts on some node. */
module Placement {
  import opened Types

  /** ceil(a / b), as the float division of internal/api/bootstrap_api.go computes it. */
  function CeilDiv(a: nat, b: nat): nat
    requires b > 0
  {
    (a + b - 1) / b
  }

  ghost predicate Distinct<T>(s: seq<T>) {
    forall i, j :: 0 <= i < j < |s| ==> s[i] != s[j]
  }

  function Elements<T(==)>(s: seq<T>): set<T> {
    set x | x in s
  }

  lemma {:induction false} SubsetSize<T>(a: set<T>, b: set<T>)
    requires a <= b
    ensures |a| <= |b| && (a != b ==> |a| < |b|)
  {
    if a != {} {
      var x :| x in a;
      SubsetSize(a - {x}, b - {x});
      assert a == (a - {x}) + {x} && b == (b - {x}) + {x};
    }
  }

  lemma {:induction false} DistinctCount<T>(s: seq<T>)
    requires Distinct(s)
    ensures |Elements(s)| == |s|
  {
    if s == [] {
      assert Elements(s) == {};
    } else {
      var init := s[..|s| - 1];
      DistinctCount(init);
      assert Elements(s) == Elements(init) + {s[|s| - 1]};
      assert s[|s| - 1] !in Elements(init);
    }
  }

  /** What a random selection of `n` items of `list` may be: as many as there are, and no item
      more often than the list has it. */
  ghost predicate Picked<T>(list: seq<T>, n: nat, selected: seq<T>) {
    && |selected| == Min(n, |list|)
    && multiset(selected) <= multiset(list)
  }

  lemma {:induction false} DistinctMultiset<T>(s: seq<T>)
    ensures Distinct(s) <==> forall x :: multiset(s)[x] <= 1
  {
    if s != [] {
      var init, last := s[..|s| - 1], s[|s| - 1];
      assert s == init + [last];
      DistinctMultiset(init);
      assert multiset(s) == multiset(init) + multiset{last};
      if Distinct(s) {
        assert last !in init;
      } else if Distinct(init) {
        var i, j :| 0 <= i < j < |s| && s[i] == s[j];
        assert j == |s| - 1 && init[i] == last;
        assert last in multiset(init);
        assert multiset(s)[last] >= 2;
      } else {
        var x :| multiset(init)[x] > 1;
        assert multiset(s)[x] > 1;
      }
    }
  }

  /** A selection lists only items of the list, and distinct ones when the list's are. */
  lemma PickedIsDistinct<T>(list: seq<T>, n: nat, selected: seq<T>)
    requires Picked(list, n, selected)
    ensures forall x :: x in selected ==> x in list
    ensures Distinct(list) ==> Distinct(selected)
  {
    DistinctMultiset(list);
    DistinctMultiset(selected);
    forall x | x in selected
      ensures x in list
    {
      assert x in multiset(selected);
      assert x in multiset(list);
    }
  }

  /** pickRandomItems: draw at a random index, then move the last item into the gap. */
  method PickRandomItems(originalList: seq<Addr>, count: nat) returns (selected: seq<Addr>)
    ensures Picked(originalList, count, selected)
  {
    var list := originalList;
    selected := [];
    var n := if count > |list| then |list| else count;
    for i := 0 to n
      invariant |list| == |originalList| - i && |selected| == i
      invariant multiset(selected) + multiset(list) == multiset(originalList)
    {
      var randomIndex :| 0 <= randomIndex < |list|;
      SwapRemove(list, randomIndex);
      selected := selected + [list[randomIndex]];
      list := list[randomIndex := list[|list| - 1]];
      list := list[..|list| - 1];
    }
  }

  lemma SwapRemove<T>(s: seq<T>, at: nat)
    requires at < |s|
    ensures multiset(s) == multiset{s[at]} + multiset(s[at := s[|s| - 1]][..|s| - 1])
  {
    var last := |s| - 1;
    assert s == s[..last] + [s[last]];
    if at == last {
      assert s[at := s[last]][..last] == s[..last];
    } else {
      assert s[at := s[last]][..last] == s[..last][at := s[last]];
    }
  }

  // ---- Load ----

  /** The chunks that `held` puts on node `a`. */
  ghost function Load(held: map<ChunkId, Addr>, a: Addr): set<ChunkId> {
    set c | c in held && held[c] == a
  }

  function Product(q: nat, m: nat): nat {
    q * m
  }

  /** More than q chunks for each node put more than q chunks on some node. */
  lemma {:induction false} Pigeonhole(held: map<ChunkId, Addr>, nodes: set<Addr>, q: nat) returns (a: Addr)
    requires forall c :: c in held ==> held[c] in nodes
    requires |held| > Product(q, |nodes|)
    ensures a in nodes && |Load(held, a)| > q
    decreases nodes
  {
    hide Load, Product;
    a := Holder(held, nodes);
    if |Load(held, a)| <= q {
      RemoveLoad(held, a, nodes);
      Budget(q, |nodes|, |held|, |Load(held, a)|);
      var b := Pigeonhole(held - Load(held, a), nodes - {a}, q);
      OtherLoad(held, a, b);
      a := b;
    }
  }

  lemma Holder(held: map<ChunkId, Addr>, nodes: set<Addr>) returns (a: Addr)
    requires forall c :: c in held ==> held[c] in nodes
    requires |held| > 0
    ensures a in nodes
  {
    assert held.Keys != {};
    var c :| c in held;
    a := held[c];
  }

  lemma RemoveLoad(held: map<ChunkId, Addr>, a: Addr, nodes: set<Addr>)
    requires forall c :: c in held ==> held[c] in nodes
    requires a in nodes
    ensures |held - Load(held, a)| == |held| - |Load(held, a)| && |nodes - {a}| == |nodes| - 1
    ensures forall c :: c in held - Load(held, a) ==> (held - Load(held, a))[c] in nodes - {a}
  {
    assert (held - Load(held, a)).Keys == held.Keys - Load(held, a);
    assert Load(held, a) <= held.Keys;
  }

  lemma OtherLoad(held: map<ChunkId, Addr>, a: Addr, b: Addr)
    requires a != b
    ensures Load(held - Load(held, a), b) == Load(held, b)
  {
  }

  lemma Budget(q: nat, nodes: nat, held: nat, load: nat)
    requires nodes > 0 && held > Product(q, nodes) && load <= q
    ensures held - load > Product(q, nodes - 1)
  {
  }

  /** The allocation rule gives so few nodes that more than `tolerance - 1` chunks meet on one. */
  lemma FewNodes(chunks: nat, tolerance: nat)
    requires tolerance > 0 && chunks > Product(tolerance - 1, tolerance - 1)
    ensures chunks > Product(tolerance - 1, CeilDiv(chunks, tolerance))
  {
    var t, m := tolerance - 1, CeilDiv(chunks, tolerance);
    assert chunks + t == (t + 1) * m + (chunks + t) % tolerance;
    Few(chunks, t, m);
  }

  lemma Few(chunks: nat, t: nat, m: nat)
    requires chunks > t * t && t * m + m <= chunks + t
    ensures chunks > t * m
  {
    if m <= t {
      Mul(m, t, t);
    } else {
      assert t < m;
    }
  }

  lemma Mul(x: nat, y: nat, k: nat)
    requires x <= y
    ensures k * x <= k * y
  {
  }
}
