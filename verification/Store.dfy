/** The namespaced key/value store of internal/database/badger.go: one flat, byte-ordered map
    whose keys are `namespace:key`, read by a seek / valid-for-prefix / next loop.
    A `char` stands for one octet of a Go string. */
module Store {
  import opened Types

  datatype Item = Item(key: string, value: Blob)

  /** Byte order of keys, as the iterator compares them. */
  predicate Less(a: string, b: string) {
    b != [] && (a == [] || a[0] < b[0] || (a[0] == b[0] && Less(a[1..], b[1..])))
  }

  ghost predicate Sorted(items: seq<Item>) {
    forall i, j :: 0 <= i < j < |items| ==> Less(items[i].key, items[j].key)
  }

  ghost predicate SmallerAt(a: string, b: string, i: nat) {
    i < |a| && i < |b| && a[..i] == b[..i] && a[i] < b[i]
  }

  /** Byte order in plain words: a proper prefix comes first, and otherwise the smaller octet at the first
      place where the two differ decides. */
  ghost predicate Before(a: string, b: string) {
    (a <= b && |a| < |b|) || exists i: nat :: SmallerAt(a, b, i)
  }

  ghost predicate Ascending(keys: seq<string>) {
    forall i, j :: 0 <= i < j < |keys| ==> Before(keys[i], keys[j])
  }

  predicate ColonFree(ns: string) {
    ':' !in ns
  }

  function MakeKey(ns: string, key: string): string {
    ns + ":" + key
  }

  // ---- Byte order ----

  lemma {:induction false} LessIsBefore(a: string, b: string)
    ensures Less(a, b) <==> Before(a, b)
  {
    if a != [] && b != [] && a[0] == b[0] {
      LessIsBefore(a[1..], b[1..]);
      assert a == [a[0]] + a[1..] && b == [b[0]] + b[1..];
      if i: nat :| SmallerAt(a, b, i) {
        assert a[1..][..i - 1] == a[..i][1..] && b[1..][..i - 1] == b[..i][1..];
        assert SmallerAt(a[1..], b[1..], i - 1);
      }
      if i: nat :| SmallerAt(a[1..], b[1..], i) {
        assert a[..i + 1] == [a[0]] + a[1..][..i] && b[..i + 1] == [b[0]] + b[1..][..i];
        assert SmallerAt(a, b, i + 1);
      }
    } else if a != [] && b != [] {
      assert a[0] < b[0] ==> SmallerAt(a, b, 0);
      if i: nat :| SmallerAt(a, b, i) && i > 0 {
        SameStart(a, b, i);
      }
    }
  }

  lemma SameStart(a: string, b: string, i: nat)
    requires SmallerAt(a, b, i) && i > 0
    ensures a[0] == b[0]
  {
    assert a[..i][0] == a[0] && b[..i][0] == b[0];
  }

  lemma {:induction false} LessIrreflexive(a: string)
    ensures !Less(a, a)
  {
    if a != [] {
      LessIrreflexive(a[1..]);
    }
  }

  lemma {:induction false} LessTransitive(a: string, b: string, c: string)
    requires Less(a, b) && Less(b, c)
    ensures Less(a, c)
  {
    if a != [] && a[0] == b[0] == c[0] {
      LessTransitive(a[1..], b[1..], c[1..]);
    }
  }

  lemma {:induction false} LessTotal(a: string, b: string)
    ensures Less(a, b) || a == b || Less(b, a)
  {
    if a != [] && b != [] && a[0] == b[0] {
      LessTotal(a[1..], b[1..]);
      assert a == [a[0]] + a[1..] && b == [b[0]] + b[1..];
    }
  }

  /** Stripping a common prefix keeps the order. */
  lemma {:induction false} LessStrip(p: string, a: string, b: string)
    ensures Less(p + a, p + b) == Less(a, b)
  {
    if p == [] {
      assert p + a == a && p + b == b;
    } else {
      LessStrip(p[1..], a, b);
      assert (p + a)[1..] == p[1..] + a && (p + b)[1..] == p[1..] + b;
    }
  }

  /** A prefix is the least of all keys that carry it. */
  lemma PrefixIsLeast(p: string, k: string)
    requires p <= k
    ensures !Less(k, p)
  {
    assert k == p + k[|p|..] && p == p + [];
    LessStrip(p, k[|p|..], []);
  }

  /** Keys that carry a prefix are contiguous: nothing lies between two of them. */
  lemma {:induction false} PrefixIsConvex(p: string, a: string, b: string, c: string)
    requires p <= a && p <= c && !Less(b, a) && !Less(c, b)
    ensures p <= b
  {
    if p != [] {
      assert b != [] && b[0] == p[0];
      PrefixIsConvex(p[1..], a[1..], b[1..], c[1..]);
      assert b == [b[0]] + b[1..] && p == [p[0]] + p[1..];
    }
  }

  // ---- The flat map and its namespaces ----

  /** `flat` holds exactly the items. */
  ghost predicate IsFlat(items: seq<Item>, flat: map<string, Blob>) {
    && (forall i :: 0 <= i < |items| ==> items[i].key in flat && flat[items[i].key] == items[i].value)
    && (forall k :: k in flat ==> exists i :: 0 <= i < |items| && items[i].key == k)
  }

  lemma FlatExists(items: seq<Item>) returns (flat: map<string, Blob>)
    requires Sorted(items)
    ensures IsFlat(items, flat)
  {
    forall i, j | 0 <= i < |items| && 0 <= j < |items| && items[i].key == items[j].key
      ensures i == j
    {
      LessIrreflexive(items[i].key);
    }
    flat := map i | 0 <= i < |items| :: items[i].key := items[i].value;
  }

  ghost function Flatten(items: seq<Item>): (flat: map<string, Blob>)
    requires Sorted(items)
    ensures IsFlat(items, flat)
  {
    assert exists flat :: IsFlat(items, flat) by {
      var flat := FlatExists(items);
    }
    var flat :| IsFlat(items, flat);
    flat
  }

  /** `space` holds what `flat` holds under the keys of namespace `ns`. */
  ghost predicate IsSpace(flat: map<string, Blob>, ns: string, space: map<string, Blob>) {
    forall k :: (k in space <==> MakeKey(ns, k) in flat) && (k in space ==> space[k] == flat[MakeKey(ns, k)])
  }

  lemma SpaceExists(flat: map<string, Blob>, ns: string) returns (space: map<string, Blob>)
    ensures IsSpace(flat, ns, space)
  {
    var p := MakeKey(ns, "");
    var keys := set x | x in flat.Keys && p <= x :: x[|p|..];
    forall k
      ensures k in keys <==> MakeKey(ns, k) in flat
    {
      if MakeKey(ns, k) in flat {
        assert p <= MakeKey(ns, k) && MakeKey(ns, k)[|p|..] == k;
      }
      if k in keys {
        var x :| x in flat.Keys && p <= x && x[|p|..] == k;
        assert x == p + x[|p|..] == MakeKey(ns, k);
      }
    }
    space := map k | k in keys :: flat[MakeKey(ns, k)];
  }

  /** The simple map that a namespace stands for. */
  ghost function Space(flat: map<string, Blob>, ns: string): (space: map<string, Blob>)
    ensures IsSpace(flat, ns, space)
  {
    assert exists space :: IsSpace(flat, ns, space) by {
      var space := SpaceExists(flat, ns);
    }
    var space :| IsSpace(flat, ns, space);
    space
  }

  lemma MakeKeyInjective(ns: string, key: string, ns': string, key': string)
    requires ColonFree(ns) && ColonFree(ns')
    requires MakeKey(ns, key) == MakeKey(ns', key')
    ensures ns == ns' && key == key'
  {
    var x := MakeKey(ns, key);
    assert x[|ns|] == ':' && x[|ns'|] == ':';
    assert forall i :: 0 <= i < |ns| ==> x[i] == ns[i] && x[i] != ':';
    assert forall i :: 0 <= i < |ns'| ==> x[i] == ns'[i] && x[i] != ':';
    assert ns == x[..|ns|] && ns' == x[..|ns'|];
    assert key == x[|ns| + 1..] && key' == x[|ns'| + 1..];
  }

  lemma SpaceUnique(flat: map<string, Blob>, ns: string, space: map<string, Blob>)
    requires IsSpace(flat, ns, space)
    ensures space == Space(flat, ns)
  {
    assert forall k :: k in space <==> k in Space(flat, ns);
  }

  lemma FlatUnique(items: seq<Item>, flat: map<string, Blob>)
    requires Sorted(items) && IsFlat(items, flat)
    ensures flat == Flatten(items)
  {
    assert forall k :: k in flat <==> k in Flatten(items);
  }

  lemma SameFullKey(ns: string, key: string, other: string, k: string)
    requires ColonFree(ns) && ColonFree(other)
    ensures MakeKey(other, k) == MakeKey(ns, key) <==> other == ns && k == key
  {
    if MakeKey(other, k) == MakeKey(ns, key) {
      MakeKeyInjective(other, k, ns, key);
    }
  }

  /** Writing or removing one key of a namespace is writing or removing it in that
      namespace's map. Keys may contain colons. */
  lemma UpdateOwnSpace(flat: map<string, Blob>, ns: string, key: string, v: Blob)
    requires ColonFree(ns)
    ensures Space(flat[MakeKey(ns, key) := v], ns) == Space(flat, ns)[key := v]
    ensures Space(flat - {MakeKey(ns, key)}, ns) == Space(flat, ns) - {key}
  {
    var full := MakeKey(ns, key);
    var put, cut := Space(flat, ns)[key := v], Space(flat, ns) - {key};
    forall k
      ensures (k in put <==> MakeKey(ns, k) in flat[full := v]) && (k in put ==> put[k] == flat[full := v][MakeKey(ns, k)])
      ensures (k in cut <==> MakeKey(ns, k) in flat - {full}) && (k in cut ==> cut[k] == (flat - {full})[MakeKey(ns, k)])
    {
      SameFullKey(ns, key, ns, k);
    }
    SpaceUnique(flat[full := v], ns, put);
    SpaceUnique(flat - {full}, ns, cut);
  }

  /** ... and leaves every other colon-free namespace as it was. */
  lemma UpdateOtherSpace(flat: map<string, Blob>, ns: string, key: string, v: Blob, other: string)
    requires ColonFree(ns) && ColonFree(other) && other != ns
    ensures Space(flat[MakeKey(ns, key) := v], other) == Space(flat, other)
    ensures Space(flat - {MakeKey(ns, key)}, other) == Space(flat, other)
  {
    var full, space := MakeKey(ns, key), Space(flat, other);
    forall k
      ensures (k in space <==> MakeKey(other, k) in flat[full := v]) && (k in space ==> space[k] == flat[full := v][MakeKey(other, k)])
      ensures (k in space <==> MakeKey(other, k) in flat - {full}) && (k in space ==> space[k] == (flat - {full})[MakeKey(other, k)])
    {
      SameFullKey(ns, key, other, k);
    }
    SpaceUnique(flat[full := v], other, space);
    SpaceUnique(flat - {full}, other, space);
  }

  /** Exactly when a scan of namespace `p` can meet a key written in namespace `q`:
      one of `p:` and `q:` begins with the other. Colon-free namespaces meet only themselves. */
  lemma ScanMeets(p: string, q: string)
    ensures (exists k :: MakeKey(p, "") <= MakeKey(q, k))
       <==> (MakeKey(p, "") <= MakeKey(q, "") || MakeKey(q, "") <= MakeKey(p, ""))
    ensures ColonFree(p) && ColonFree(q) ==> ((exists k :: MakeKey(p, "") <= MakeKey(q, k)) <==> p == q)
  {
    var ps, qs := MakeKey(p, ""), MakeKey(q, "");
    if k :| ps <= MakeKey(q, k) {
      assert MakeKey(q, k) == qs + k;
      if |ps| > |qs| {
        assert qs == MakeKey(q, k)[..|qs|] == ps[..|qs|];
      } else {
        assert ps == (qs + k)[..|ps|] == qs[..|ps|];
      }
      if ColonFree(p) && ColonFree(q) {
        assert MakeKey(q, k) == MakeKey(p, MakeKey(q, k)[|ps|..]);
        MakeKeyInjective(q, k, p, MakeKey(q, k)[|ps|..]);
      }
    }
    if ps <= qs {
      assert ps <= MakeKey(q, "");
    } else if qs <= ps {
      assert MakeKey(q, ps[|qs|..]) == ps;
      assert ps <= MakeKey(q, ps[|qs|..]);
    }
    if p == q {
      assert ps <= MakeKey(q, "");
    }
  }

  /** A namespace that contains a colon leaks: the hypothesis above is needed. */
  lemma ColonInNamespaceLeaks(v: Blob)
    ensures Space(map[MakeKey("a:b", "k") := v], "a") == map["b:k" := v]
  {
    var flat := map[MakeKey("a:b", "k") := v];
    assert MakeKey("a:b", "k") == MakeKey("a", "b:k");
    forall k | k in Space(flat, "a")
      ensures k == "b:k"
    {
      assert MakeKey("a", k) == MakeKey("a", "b:k");
      assert k == MakeKey("a", k)[2..] == MakeKey("a", "b:k")[2..];
    }
  }

  /** A seek position and the first later position off the prefix bracket the namespace. */
  lemma BracketIsSpace(items: seq<Item>, ns: string, lo: nat, hi: nat)
    requires Sorted(items) && lo <= hi <= |items|
    requires forall i :: 0 <= i < lo ==> Less(items[i].key, MakeKey(ns, ""))
    requires forall i :: lo <= i < hi ==> MakeKey(ns, "") <= items[i].key
    requires hi < |items| ==> !(MakeKey(ns, "") <= items[hi].key)
    requires lo < |items| ==> !Less(items[lo].key, MakeKey(ns, ""))
    ensures forall i :: 0 <= i < |items| && MakeKey(ns, "") <= items[i].key ==> lo <= i < hi
  {
    var p := MakeKey(ns, "");
    forall i | 0 <= i < |items| && p <= items[i].key
      ensures lo <= i < hi
    {
      PrefixIsLeast(p, items[i].key);
      if hi <= i {
        OutOfOrder(items, lo, hi);
        OutOfOrder(items, hi, i);
        if lo == hi {
          LessTotal(p, items[hi].key);
          PrefixIsConvex(p, p, items[hi].key, items[i].key);
        } else {
          PrefixIsConvex(p, items[lo].key, items[hi].key, items[i].key);
        }
      }
    }
  }

  lemma OutOfOrder(items: seq<Item>, i: nat, j: nat)
    requires Sorted(items) && i <= j < |items|
    ensures !Less(items[j].key, items[i].key)
  {
    LessIrreflexive(items[i].key);
    if Less(items[j].key, items[i].key) {
      LessTransitive(items[i].key, items[j].key, items[i].key);
    }
  }

  /** The scan result: the bracketed keys, stripped of the namespace, are the namespace's
      keys, each once and in byte order. */
  lemma StrippedBracket(items: seq<Item>, ns: string, lo: nat, hi: nat, keys: seq<string>)
    requires Sorted(items) && lo <= hi <= |items| && |keys| == hi - lo
    requires forall i :: 0 <= i < |keys| ==> items[lo + i].key == MakeKey(ns, keys[i])
    requires forall i :: 0 <= i < |items| && MakeKey(ns, "") <= items[i].key ==> lo <= i < hi
    ensures Ascending(keys)
    ensures forall k :: k in keys <==> k in Space(Flatten(items), ns)
    ensures forall i :: 0 <= i < |keys| ==> Space(Flatten(items), ns)[keys[i]] == items[lo + i].value
  {
    var flat := Flatten(items);
    forall i, j | 0 <= i < j < |keys|
      ensures Before(keys[i], keys[j])
    {
      assert Less(items[lo + i].key, items[lo + j].key);
      LessStrip(ns + ":", keys[i], keys[j]);
      LessIsBefore(keys[i], keys[j]);
    }
    forall k | k in Space(flat, ns)
      ensures k in keys
    {
      var i :| 0 <= i < |items| && items[i].key == MakeKey(ns, k);
      assert MakeKey(ns, "") <= items[i].key;
      assert items[lo + (i - lo)].key == MakeKey(ns, keys[i - lo]);
      assert k == MakeKey(ns, k)[|ns| + 1..] == MakeKey(ns, keys[i - lo])[|ns| + 1..] == keys[i - lo];
    }
    forall k | k in keys
      ensures k in Space(flat, ns)
    {
      var i :| 0 <= i < |keys| && keys[i] == k;
      assert items[lo + i].key == MakeKey(ns, k);
    }
    forall i | 0 <= i < |keys|
      ensures keys[i] in Space(flat, ns) && Space(flat, ns)[keys[i]] == items[lo + i].value
    {
      assert items[lo + i].key == MakeKey(ns, keys[i]);
    }
  }

  lemma InsertSorted(items: seq<Item>, at: nat, item: Item, out: seq<Item>)
    requires Sorted(items) && at <= |items|
    requires forall i :: 0 <= i < at ==> Less(items[i].key, item.key)
    requires at < |items| ==> Less(item.key, items[at].key)
    requires out == items[..at] + [item] + items[at..]
    ensures Sorted(out)
  {
    forall i, j | 0 <= i < j < |out|
      ensures Less(out[i].key, out[j].key)
    {
      if i == at && at < j - 1 {
        LessTransitive(item.key, items[at].key, items[j - 1].key);
      }
    }
  }

  lemma InsertFlat(items: seq<Item>, at: nat, item: Item, out: seq<Item>)
    requires Sorted(items) && at <= |items| && Sorted(out)
    requires out == items[..at] + [item] + items[at..]
    ensures Flatten(out) == Flatten(items)[item.key := item.value]
  {
    var flat := Flatten(items)[item.key := item.value];
    forall i | 0 <= i < |out|
      ensures out[i].key in flat && flat[out[i].key] == out[i].value
    {
      LessIrreflexive(item.key);
      if i < at {
        assert out[i] == items[i] && Less(out[i].key, out[at].key);
      } else if at < i {
        assert out[i] == items[i - 1] && Less(out[at].key, out[i].key);
      }
    }
    forall k | k in flat
      ensures exists i :: 0 <= i < |out| && out[i].key == k
    {
      if k == item.key {
        assert out[at].key == k;
      } else {
        var i :| 0 <= i < |items| && items[i].key == k;
        assert out[if i < at then i else i + 1].key == k;
      }
    }
    FlatUnique(out, flat);
  }

  lemma ReplaceSorted(items: seq<Item>, at: nat, v: Blob)
    requires Sorted(items) && at < |items|
    ensures Sorted(items[at := Item(items[at].key, v)])
    ensures Flatten(items[at := Item(items[at].key, v)]) == Flatten(items)[items[at].key := v]
  {
    var out := items[at := Item(items[at].key, v)];
    assert forall i :: 0 <= i < |items| ==> out[i].key == items[i].key;
    var flat := Flatten(items)[items[at].key := v];
    forall i | 0 <= i < |out|
      ensures out[i].key in flat && flat[out[i].key] == out[i].value
    {
      LessIrreflexive(items[at].key);
    }
    forall k | k in flat
      ensures exists i :: 0 <= i < |out| && out[i].key == k
    {
      var i :| 0 <= i < |items| && items[i].key == k;
      assert out[i].key == k;
    }
    FlatUnique(out, flat);
  }

  lemma RemoveSorted(items: seq<Item>, at: nat, out: seq<Item>)
    requires Sorted(items) && at < |items|
    requires out == items[..at] + items[at + 1..]
    ensures Sorted(out)
  {
  }

  lemma RemoveFlat(items: seq<Item>, at: nat, out: seq<Item>)
    requires Sorted(items) && at < |items| && Sorted(out)
    requires out == items[..at] + items[at + 1..]
    ensures Flatten(out) == Flatten(items) - {items[at].key}
  {
    var flat := Flatten(items) - {items[at].key};
    forall i | 0 <= i < |out|
      ensures out[i].key in flat && flat[out[i].key] == out[i].value
    {
      LessIrreflexive(items[at].key);
      if i < at {
        assert out[i] == items[i] && Less(items[i].key, items[at].key);
      } else {
        assert out[i] == items[i + 1] && Less(items[at].key, items[i + 1].key);
      }
    }
    forall k | k in flat
      ensures exists i :: 0 <= i < |out| && out[i].key == k
    {
      var i :| 0 <= i < |items| && items[i].key == k;
      assert out[if i < at then i else i - 1].key == k;
    }
    FlatUnique(out, flat);
  }

  /** The database of one process. */
  class Db {
    // The entries in iteration order.
    var items: seq<Item>

    ghost predicate Valid()
      reads this
    {
      Sorted(items)
    }

    /** The whole flat store. */
    ghost function Flat(): map<string, Blob>
      requires Valid()
      reads this
    {
      Flatten(items)
    }

    /** The map that namespace `ns` stands for. */
    ghost function Of(ns: string): map<string, Blob>
      requires Valid()
      reads this
    {
      Space(Flatten(items), ns)
    }

    constructor ()
      ensures Valid() && Flat() == map[]
    {
      items := [];
    }

    /** Position of the least key that is not below `target`. */
    method Seek(target: string) returns (at: nat)
      requires Valid()
      ensures at <= |items|
      ensures forall i :: 0 <= i < at ==> Less(items[i].key, target)
      ensures at < |items| ==> !Less(items[at].key, target)
    {
      at := 0;
      while at < |items| && Less(items[at].key, target)
        invariant at <= |items|
        invariant forall i :: 0 <= i < at ==> Less(items[i].key, target)
      {
        at := at + 1;
      }
    }

    method Find(ns: string, key: string) returns (found: bool, at: nat)
      requires Valid()
      ensures found <==> MakeKey(ns, key) in Flat()
      ensures found ==> at < |items| && items[at].key == MakeKey(ns, key)
      ensures !found ==> at <= |items| && (forall i :: 0 <= i < at ==> Less(items[i].key, MakeKey(ns, key)))
                         && (at < |items| ==> Less(MakeKey(ns, key), items[at].key))
    {
      var full := MakeKey(ns, key);
      at := Seek(full);
      found := at < |items| && items[at].key == full;
      if !found {
        if at < |items| {
          LessTotal(items[at].key, full);
        }
        forall i | 0 <= i < |items|
          ensures items[i].key != full
        {
          LessIrreflexive(full);
          if at < i {
            OutOfOrder(items, at, i);
          }
        }
      }
    }

    method GetData(ns: string, key: string) returns (value: Option<Blob>)
      requires Valid()
      ensures value == if key in Of(ns) then Some(Of(ns)[key]) else None
    {
      var found, at := Find(ns, key);
      value := if found then Some(items[at].value) else None;
    }

    method ExistsKey(ns: string, key: string) returns (exist: bool)
      requires Valid()
      ensures exist <==> key in Of(ns)
    {
      var found, at := Find(ns, key);
      exist := found;
    }

    method PutData(ns: string, key: string, data: Blob)
      requires Valid() && ColonFree(ns)
      modifies this
      ensures Valid()
      ensures Of(ns) == old(Of(ns))[key := data]
      ensures forall other {:trigger Of(other)} :: ColonFree(other) && other != ns ==> Of(other) == old(Of(other))
    {
      var full := MakeKey(ns, key);
      ghost var flat := Flat();
      var found, at := Find(ns, key);
      if found {
        ReplaceSorted(items, at, data);
        items := items[at := Item(full, data)];
      } else {
        ghost var was := items;
        items := items[..at] + [Item(full, data)] + items[at..];
        InsertSorted(was, at, Item(full, data), items);
        InsertFlat(was, at, Item(full, data), items);
      }
      UpdateOwnSpace(flat, ns, key, data);
      forall other | ColonFree(other) && other != ns
        ensures Of(other) == Space(flat, other)
      {
        UpdateOtherSpace(flat, ns, key, data, other);
      }
    }

    method DeleteKey(ns: string, key: string)
      requires Valid() && ColonFree(ns)
      modifies this
      ensures Valid()
      ensures Of(ns) == old(Of(ns)) - {key}
      ensures forall other {:trigger Of(other)} :: ColonFree(other) && other != ns ==> Of(other) == old(Of(other))
    {
      ghost var flat := Flat();
      var found, at := Find(ns, key);
      if found {
        ghost var was := items;
        items := items[..at] + items[at + 1..];
        RemoveSorted(was, at, items);
        RemoveFlat(was, at, items);
        ghost var v := was[at].value;
        UpdateOwnSpace(flat, ns, key, v);
        forall other | ColonFree(other) && other != ns
          ensures Of(other) == Space(flat, other)
        {
          UpdateOtherSpace(flat, ns, key, v, other);
        }
      }
    }

    /** The keys of a namespace, by the iterator loop. */
    method GetAllKeys(ns: string) returns (keys: seq<string>)
      requires Valid()
      ensures Ascending(keys)
      ensures forall k :: k in keys <==> k in Of(ns)
    {
      var prefix := MakeKey(ns, "");
      var at := Seek(prefix);
      ghost var lo := at;
      keys := [];
      while at < |items| && prefix <= items[at].key
        invariant lo <= at <= |items| && |keys| == at - lo
        invariant forall i :: lo <= i < at ==> prefix <= items[i].key
        invariant forall i :: 0 <= i < |keys| ==> items[lo + i].key == MakeKey(ns, keys[i])
      {
        assert items[at].key == prefix + items[at].key[|prefix|..];
        keys := keys + [items[at].key[|prefix|..]];
        at := at + 1;
      }
      BracketIsSpace(items, ns, lo, at);
      StrippedBracket(items, ns, lo, at, keys);
    }

    /** The calls that the callback of the scan receives, in order. */
    method IterateAndProcess(ns: string) returns (calls: seq<(string, Blob)>)
      requires Valid()
      ensures forall i, j :: 0 <= i < j < |calls| ==> Before(calls[i].0, calls[j].0)
      ensures forall i :: 0 <= i < |calls| ==> calls[i].0 in Of(ns) && Of(ns)[calls[i].0] == calls[i].1
      ensures forall k :: k in Of(ns) ==> (k, Of(ns)[k]) in calls
    {
      hide Sorted, Less, Before;
      var prefix := MakeKey(ns, "");
      var at := Seek(prefix);
      ghost var lo := at;
      calls := [];
      ghost var keys := [];
      while at < |items| && prefix <= items[at].key
        invariant lo <= at <= |items| && |calls| == |keys| == at - lo
        invariant forall i :: lo <= i < at ==> prefix <= items[i].key
        invariant forall i :: 0 <= i < |keys| ==> items[lo + i].key == MakeKey(ns, keys[i])
        invariant forall i :: 0 <= i < |keys| ==> calls[i] == (keys[i], items[lo + i].value)
      {
        assert items[at].key == prefix + items[at].key[|prefix|..];
        keys := keys + [items[at].key[|prefix|..]];
        calls := calls + [(items[at].key[|prefix|..], items[at].value)];
        at := at + 1;
      }
      BracketIsSpace(items, ns, lo, at);
      StrippedBracket(items, ns, lo, at, keys);
      forall k | k in Of(ns)
        ensures (k, Of(ns)[k]) in calls
      {
        var i :| 0 <= i < |keys| && keys[i] == k;
        assert calls[i] == (k, Of(ns)[k]);
      }
    }

    /** The whole namespace as a map, by the iterator loop. */
    method GetAllData(ns: string) returns (values: map<string, Blob>)
      requires Valid()
      ensures values == Of(ns)
    {
      hide Sorted, Less;
      var prefix := MakeKey(ns, "");
      var at := Seek(prefix);
      ghost var lo := at;
      ghost var keys := [];
      values := map[];
      while at < |items| && prefix <= items[at].key
        invariant lo <= at <= |items| && |keys| == at - lo
        invariant forall i :: lo <= i < at ==> prefix <= items[i].key
        invariant forall i :: 0 <= i < |keys| ==> items[lo + i].key == MakeKey(ns, keys[i])
        invariant forall k :: k in values <==> k in keys
        invariant forall k :: k in values ==> MakeKey(ns, k) in Flat() && values[k] == Flat()[MakeKey(ns, k)]
      {
        assert items[at].key == prefix + items[at].key[|prefix|..];
        assert MakeKey(ns, items[at].key[|prefix|..]) == items[at].key;
        keys := keys + [items[at].key[|prefix|..]];
        values := values[items[at].key[|prefix|..] := items[at].value];
        at := at + 1;
      }
      BracketIsSpace(items, ns, lo, at);
      StrippedBracket(items, ns, lo, at, keys);
    }
  }
}
