/** A value that meets the laws of module Codec. The erasure code takes the data shards as values of
    a polynomial at 0..k-1 and adds its values at k..n-1; the parts of a secret are values of a
    polynomial at 1..n whose constant term is the secret. Any k values determine the polynomial. */
module PolynomialCodes {
  import opened Types
  import opened Codec

  // ---- Polynomials, lowest coefficient first ----

  function Mul(a: real, b: real): real {
    a * b
  }

  function Eval(c: seq<real>, x: real): real {
    if c == [] then 0.0 else c[0] + Mul(x, Eval(c[1..], x))
  }

  function Add(c: seq<real>, d: seq<real>): (sum: seq<real>)
    ensures |sum| == if |c| >= |d| then |c| else |d|
  {
    if c == [] then d else if d == [] then c else [c[0] + d[0]] + Add(c[1..], d[1..])
  }

  function Scale(a: real, c: seq<real>): (scaled: seq<real>)
    ensures |scaled| == |c|
  {
    if c == [] then [] else [Mul(a, c[0])] + Scale(a, c[1..])
  }

  lemma MulSum(x: real, a: real, b: real)
    ensures Mul(x, a + b) == Mul(x, a) + Mul(x, b) && Mul(a + b, x) == Mul(a, x) + Mul(b, x)
  {
  }

  lemma MulSwap(a: real, b: real, c: real)
    ensures Mul(a, Mul(b, c)) == Mul(b, Mul(a, c)) && Mul(a, b) == Mul(b, a)
  {
  }

  lemma {:induction false} EvalAdd(c: seq<real>, d: seq<real>, x: real)
    ensures Eval(Add(c, d), x) == Eval(c, x) + Eval(d, x)
  {
    hide Mul;
    if c != [] && d != [] {
      EvalAdd(c[1..], d[1..], x);
      MulSum(x, Eval(c[1..], x), Eval(d[1..], x));
    }
  }

  lemma {:induction false} EvalScale(a: real, c: seq<real>, x: real)
    ensures Eval(Scale(a, c), x) == Mul(a, Eval(c, x))
  {
    if c == [] {
      assert Mul(a, 0.0) == 0.0;
    } else {
      hide Mul;
      EvalScale(a, c[1..], x);
      var rest := Eval(c[1..], x);
      MulSum(a, c[0], Mul(x, rest));
      MulSwap(a, x, rest);
    }
  }

  /** Division by x - r. */
  function Quotient(c: seq<real>, r: real): (q: seq<real>)
    requires c != []
    ensures |q| == |c| - 1
  {
    if |c| == 1 then [] else Add(c[1..], Scale(r, Quotient(c[1..], r)))
  }

  lemma {:induction false} Factor(c: seq<real>, r: real, x: real)
    requires c != []
    ensures Eval(c, x) == Eval(c, r) + Mul(x - r, Eval(Quotient(c, r), x))
  {
    var rest := c[1..];
    if rest == [] {
      assert Mul(x, 0.0) == Mul(r, 0.0) == Mul(x - r, 0.0) == 0.0;
    } else {
      hide Mul;
      var q := Eval(Quotient(rest, r), x);
      var t, tr := Eval(rest, x), Eval(rest, r);
      Factor(rest, r, x);
      EvalAdd(rest, Scale(r, Quotient(rest, r)), x);
      EvalScale(r, Quotient(rest, r), x);
      MulSum(t, x - r, r);
      MulSwap(t, x - r, 0.0);
      MulSwap(t, r, 0.0);
      MulSwap(t, x, 0.0);
      MulSum(r, tr, Mul(x - r, q));
      MulSwap(r, x - r, q);
      MulSum(x - r, t, Mul(r, q));
    }
  }

  /** A polynomial with as many roots as coefficients is zero everywhere. */
  lemma {:induction false} TooManyRoots(c: seq<real>, roots: set<nat>, x: real)
    requires |roots| >= |c|
    requires forall r :: r in roots ==> Eval(c, r as real) == 0.0
    ensures Eval(c, x) == 0.0
    decreases |c|
  {
    if c != [] {
      hide Quotient, Mul;
      var r: nat :| r in roots;
      var q := Quotient(c, r as real);
      forall s | s in roots - {r}
        ensures Eval(q, s as real) == 0.0
      {
        Factor(c, r as real, s as real);
        NoZeroDivisor((s - r) as real, Eval(q, s as real));
      }
      TooManyRoots(q, roots - {r}, x);
      Factor(c, r as real, x);
      MulZero(x - r as real);
    }
  }

  lemma MulZero(a: real)
    ensures Mul(a, 0.0) == 0.0
  {
  }

  lemma NoZeroDivisor(a: real, b: real)
    requires a != 0.0 && Mul(a, b) == 0.0
    ensures b == 0.0
  {
  }

  /** Two polynomials of the same length that agree on that many points agree everywhere. */
  lemma Unique(c: seq<real>, d: seq<real>, points: set<nat>, x: real)
    requires |c| == |d| <= |points|
    requires forall r :: r in points ==> Eval(c, r as real) == Eval(d, r as real)
    ensures Eval(c, x) == Eval(d, x)
  {
    hide Eval, Add, Scale;
    var minus := Scale(-1.0, d);
    var difference := Add(c, minus);
    forall r | r in points
      ensures Eval(difference, r as real) == 0.0
    {
      EvalAdd(c, minus, r as real);
      EvalScale(-1.0, d, r as real);
    }
    TooManyRoots(difference, points, x);
    EvalAdd(c, minus, x);
    EvalScale(-1.0, d, x);
  }

  // ---- Interpolation at 0, 1, 2, ... without fractions ----

  function Delta(v: seq<int>): seq<int>
    requires v != []
  {
    seq(|v| - 1, i requires 0 <= i < |v| - 1 => v[i + 1] - v[i])
  }

  /** The value at x of the polynomial with values v at 0..|v|-1. */
  function Extend(v: seq<int>, x: nat): int
    decreases |v|, x
  {
    if v == [] then 0
    else if x == 0 then v[0]
    else Extend(v, x - 1) + Extend(Delta(v), x - 1)
  }

  lemma {:induction false} ExtendIsSystematic(v: seq<int>, x: nat)
    requires x < |v|
    ensures Extend(v, x) == v[x]
    decreases x
  {
    if x > 0 {
      ExtendIsSystematic(v, x - 1);
      ExtendIsSystematic(Delta(v), x - 1);
    }
  }

  function Choose(x: nat, j: nat): nat {
    if j == 0 then 1 else if x == 0 then 0 else Choose(x - 1, j - 1) + Choose(x - 1, j)
  }

  function Times(a: int, b: int): int {
    a * b
  }

  /** Newton's form: the sum of d[i] times "x choose j + i". */
  function Newton(d: seq<int>, x: nat, j: nat): int {
    if d == [] then 0 else Times(d[0], Choose(x, j)) + Newton(d[1..], x, j + 1)
  }

  function Differences(v: seq<int>): (d: seq<int>)
    ensures |d| == |v|
    decreases |v|
  {
    if v == [] then [] else [v[0]] + Differences(Delta(v))
  }

  lemma {:induction false} NewtonStep(d: seq<int>, x: nat, j: nat)
    requires x > 0 && j > 0
    ensures Newton(d, x, j) == Newton(d, x - 1, j) + Newton(d, x - 1, j - 1)
  {
    if d != [] {
      NewtonStep(d[1..], x, j + 1);
      assert Times(d[0], Choose(x, j)) == Times(d[0], Choose(x - 1, j)) + Times(d[0], Choose(x - 1, j - 1));
    }
  }

  lemma {:induction false} NewtonAtZero(d: seq<int>, j: nat)
    requires j > 0
    ensures Newton(d, 0, j) == 0
  {
    if d != [] {
      NewtonAtZero(d[1..], j + 1);
    }
  }

  lemma {:induction false} ExtendIsNewton(v: seq<int>, x: nat)
    ensures Extend(v, x) == Newton(Differences(v), x, 0)
    decreases |v|, x
  {
    if v != [] {
      var d := Differences(v);
      assert d[1..] == Differences(Delta(v));
      if x == 0 {
        NewtonAtZero(d[1..], 1);
      } else {
        ExtendIsNewton(v, x - 1);
        ExtendIsNewton(Delta(v), x - 1);
        NewtonStep(d[1..], x, 1);
      }
    }
  }

  lemma {:induction false} ChooseStep(x: nat, j: nat)
    requires j > 0
    ensures j * Choose(x, j) == (x - (j - 1)) * Choose(x, j - 1)
    decreases x
  {
    if x == 0 {
      assert j > 1 ==> Choose(0, j - 1) == 0;
    } else if j == 1 {
      ChooseStep(x - 1, 1);
      assert Choose(x, 1) == 1 + Choose(x - 1, 1);
    } else {
      ChooseStep(x - 1, j);
      ChooseStep(x - 1, j - 1);
      ChooseArithmetic(x, j, Choose(x - 1, j - 2), Choose(x - 1, j - 1), Choose(x - 1, j));
    }
  }

  lemma ChooseArithmetic(x: int, j: int, a: int, b: int, c: int)
    requires j * c == (x - 1 - (j - 1)) * b
    requires (j - 1) * b == (x - 1 - (j - 2)) * a
    ensures j * (b + c) == (x - (j - 1)) * (a + b)
  {
    calc {
      j * (b + c);
      j * b + (x - j) * b;
      x * b;
      (j - 1) * b + (x - j + 1) * b;
      (x - j + 1) * a + (x - j + 1) * b;
      (x - (j - 1)) * (a + b);
    }
  }

  // ---- The interpolation is a polynomial ----

  /** "x choose j" as a polynomial in x. */
  function ChoosePoly(j: nat): (c: seq<real>)
    ensures |c| == j + 1
  {
    if j == 0 then [1.0]
    else
      var c := ChoosePoly(j - 1);
      Scale(1.0 / j as real, Add([0.0] + c, Scale(-((j - 1) as real), c)))
  }

  lemma {:induction false} EvalChoose(x: nat, j: nat)
    ensures Eval(ChoosePoly(j), x as real) == Choose(x, j) as real
  {
    if j == 0 {
      assert Mul(x as real, 0.0) == 0.0;
    } else {
      EvalChoose(x, j - 1);
      ChooseStep(x, j);
      var c, r := ChoosePoly(j - 1), x as real;
      Shifted(c, r);
      EvalScale(-((j - 1) as real), c, r);
      EvalAdd([0.0] + c, Scale(-((j - 1) as real), c), r);
      EvalScale(1.0 / j as real, Add([0.0] + c, Scale(-((j - 1) as real), c)), r);
      hide Eval, Add, Scale, Choose;
      ChooseReal(x, j, Choose(x, j), Choose(x, j - 1));
    }
  }

  lemma Shifted(c: seq<real>, x: real)
    ensures Eval([0.0] + c, x) == Mul(x, Eval(c, x))
  {
    assert ([0.0] + c)[1..] == c;
  }

  lemma ChooseReal(x: nat, j: nat, now: nat, before: nat)
    requires j > 0 && j * now == (x - (j - 1)) * before
    ensures Mul(1.0 / j as real, Mul(x as real, before as real) + Mul(-((j - 1) as real), before as real)) == now as real
  {
    var inner := Mul(x as real, before as real) + Mul(-((j - 1) as real), before as real);
    calc {
      inner;
      (x as real - (j - 1) as real) * (before as real);
      (x - (j - 1)) as real * (before as real);
      { AsRealProduct(x - (j - 1), before); }
      (j * now) as real;
      { AsRealProduct(j, now); }
      (j as real) * (now as real);
    }
    Cancel(j as real, now as real);
  }

  lemma AsRealProduct(a: int, b: int)
    ensures Times(a, b) as real == Mul(a as real, b as real)
  {
  }

  lemma Cancel(a: real, b: real)
    requires a != 0.0
    ensures Mul(1.0 / a, a * b) == b
  {
  }

  function NewtonPoly(d: seq<int>, j: nat): (c: seq<real>)
    ensures |c| == if d == [] then 0 else j + |d|
  {
    if d == [] then [] else Add(Scale(d[0] as real, ChoosePoly(j)), NewtonPoly(d[1..], j + 1))
  }

  lemma {:induction false} EvalNewton(d: seq<int>, x: nat, j: nat)
    ensures Eval(NewtonPoly(d, j), x as real) == Newton(d, x, j) as real
  {
    if d != [] {
      EvalNewton(d[1..], x, j + 1);
      EvalChoose(x, j);
      AsRealProduct(d[0], Choose(x, j));
      hide Times, Mul, Choose, ChoosePoly, Eval;
      EvalScale(d[0] as real, ChoosePoly(j), x as real);
      EvalAdd(Scale(d[0] as real, ChoosePoly(j)), NewtonPoly(d[1..], j + 1), x as real);
    }
  }

  /** Values of an extension at as many points as there were given determine the given ones. */
  lemma ExtendIsInjective(v: seq<int>, w: seq<int>, points: set<nat>)
    requires |v| == |w| <= |points|
    requires forall x :: x in points ==> Extend(v, x) == Extend(w, x)
    ensures v == w
  {
    hide Extend, NewtonPoly, Eval, Newton, Differences;
    var c, d := NewtonPoly(Differences(v), 0), NewtonPoly(Differences(w), 0);
    forall x: nat
      ensures Eval(c, x as real) == Extend(v, x) as real && Eval(d, x as real) == Extend(w, x) as real
    {
      ExtendIsNewton(v, x);
      ExtendIsNewton(w, x);
      EvalNewton(Differences(v), x, 0);
      EvalNewton(Differences(w), x, 0);
    }
    forall i | 0 <= i < |v|
      ensures v[i] == w[i]
    {
      Unique(c, d, points, i as real);
      ExtendIsSystematic(v, i);
      ExtendIsSystematic(w, i);
    }
  }

  // ---- The erasure code ----

  /** Integers as octet values. */
  function Fold(z: int): nat {
    if z >= 0 then 2 * z else -2 * z - 1
  }

  function Column(data: seq<Bytes>, j: nat): (v: seq<int>)
    requires forall i :: 0 <= i < |data| ==> j < |data[i]|
    ensures |v| == |data|
  {
    seq(|data|, i requires 0 <= i < |data| => data[i][j] as int)
  }

  ghost predicate Rectangular(data: seq<Bytes>, k: nat) {
    |data| == k && k > 0 && EqualSizes(data)
  }

  ghost function Shard(data: seq<Bytes>, x: nat): (shard: Bytes)
    requires Rectangular(data, |data|)
    ensures |shard| == |data[0]|
  {
    if x < |data| then data[x]
    else seq(|data[0]|, j requires 0 <= j < |data[0]| => Fold(Extend(Column(data, j), x)))
  }

  ghost function Encode(k: nat, n: nat, data: seq<Bytes>): seq<Bytes> {
    if Rectangular(data, k) then seq(n, x requires 0 <= x < n => Shard(data, x)) else data
  }

  ghost function Reconstruct(k: nat, n: nat, some: seq<Option<Bytes>>): Option<seq<Bytes>> {
    if data :| Rectangular(data, k) && PartOf(some, Encode(k, n, data)) then Some(Encode(k, n, data)) else None
  }

  /** Any k shards determine the data. */
  lemma ShardsDetermine(k: nat, data: seq<Bytes>, other: seq<Bytes>, points: set<nat>)
    requires Rectangular(data, k) && Rectangular(other, k) && |points| >= k
    requires forall x :: x in points ==> Shard(data, x) == Shard(other, x)
    ensures data == other
  {
    hide Extend;
    var size := |data[0]|;
    var some: nat :| some in points;
    assert |Shard(data, some)| == size && |Shard(other, some)| == |other[0]|;
    forall j: nat | j < size
      ensures Column(data, j) == Column(other, j)
    {
      forall x | x in points
        ensures Extend(Column(data, j), x) == Extend(Column(other, j), x)
      {
        ShardAt(data, x, j);
        ShardAt(other, x, j);
      }
      ExtendIsInjective(Column(data, j), Column(other, j), points);
    }
    forall i | 0 <= i < k
      ensures data[i] == other[i]
    {
      forall j | 0 <= j < size
        ensures data[i][j] == other[i][j]
      {
        assert Column(data, j)[i] == Column(other, j)[i];
      }
    }
  }

  /** What the symbol of a shard says about the extension of its column. */
  lemma ShardAt(data: seq<Bytes>, x: nat, j: nat)
    requires Rectangular(data, |data|) && j < |data[0]|
    ensures Extend(Column(data, j), x) == if x < |data| then Shard(data, x)[j] else Unfold(Shard(data, x)[j])
  {
    if x < |data| {
      ExtendIsSystematic(Column(data, j), x);
    } else {
      hide Extend;
      UnfoldFold(Extend(Column(data, j), x));
    }
  }

  function Unfold(m: nat): int {
    if m % 2 == 0 then m / 2 else -((m + 1) / 2)
  }

  lemma UnfoldFold(z: int)
    ensures Unfold(Fold(z)) == z
  {
  }

  lemma EncodeShape(k: nat, n: nat, data: seq<Bytes>)
    requires Rectangular(data, k) && k <= n
    ensures |Encode(k, n, data)| == n && data <= Encode(k, n, data) && EqualSizes(Encode(k, n, data))
  {
    hide Extend, Column;
    var code := Encode(k, n, data);
    assert code[..k] == data;
    forall x | 0 <= x < n
      ensures |code[x]| == |data[0]|
    {
      assert code[x] == Shard(data, x);
    }
  }

  lemma ReconstructsFrom(k: nat, n: nat, data: seq<Bytes>, some: seq<Option<Bytes>>)
    requires Rectangular(data, k) && k <= n
    requires PartOf(some, Encode(k, n, data)) && |Present(some)| >= k
    ensures Reconstruct(k, n, some) == Some(Encode(k, n, data))
  {
    hide Shard;
    forall other | Rectangular(other, k) && PartOf(some, Encode(k, n, other))
      ensures other == data
    {
      forall x | x in Present(some)
        ensures Shard(data, x) == Shard(other, x)
      {
        assert Encode(k, n, data)[x] == some[x].value == Encode(k, n, other)[x];
      }
      ShardsDetermine(k, data, other, Present(some));
    }
  }

  // ---- The secret sharing ----

  /** The polynomial that hides one symbol: the symbol, and k - 1 random coefficients. */
  function Hiding(symbol: nat, k: nat, coins: nat): (c: seq<real>)
    requires k > 0
    ensures |c| == k
  {
    [symbol as real] + seq(k - 1, _ => coins as real)
  }

  /** Its value at a natural number. */
  function PartOfSymbol(symbol: nat, k: nat, coins: nat, x: nat): nat
    requires k > 0
  {
    symbol + x * Repeated(coins, k - 1, x)
  }

  function Repeated(coins: nat, count: nat, x: nat): nat {
    if count == 0 then 0 else coins + x * Repeated(coins, count - 1, x)
  }

  lemma {:induction false} EvalRepeated(c: seq<real>, coins: nat, x: nat)
    requires forall i :: 0 <= i < |c| ==> c[i] == coins as real
    ensures Eval(c, x as real) == Repeated(coins, |c|, x) as real
  {
    if c != [] {
      EvalRepeated(c[1..], coins, x);
      AsRealProduct(x, Repeated(coins, |c| - 1, x));
    }
  }

  lemma EvalHiding(symbol: nat, k: nat, coins: nat, x: nat)
    requires k > 0
    ensures Eval(Hiding(symbol, k, coins), x as real) == PartOfSymbol(symbol, k, coins, x) as real
    ensures Eval(Hiding(symbol, k, coins), 0.0) == symbol as real
  {
    var rest := Hiding(symbol, k, coins)[1..];
    EvalRepeated(rest, coins, x);
    AsRealProduct(x, Repeated(coins, k - 1, x));
    assert Mul(0.0, Eval(rest, 0.0)) == 0.0;
  }

  function PartAt(secret: Bytes, k: nat, coins: nat, x: nat): (part: Bytes)
    requires k > 0
    ensures |part| == |secret|
  {
    seq(|secret|, j requires 0 <= j < |secret| => PartOfSymbol(secret[j], k, coins, x))
  }

  function Share(k: nat, n: nat, secret: Bytes, coins: nat): map<nat, Bytes>
    requires k > 0
  {
    map x: nat | x in Indexes(n) :: PartAt(secret, k, coins, x)
  }

  function Indexes(n: nat): (s: set<nat>)
    ensures |s| == n && forall x :: x in s <==> 1 <= x <= n
  {
    if n == 0 then {} else Indexes(n - 1) + {n}
  }

  ghost function Combine(k: nat, n: nat, some: map<nat, Bytes>): Option<Bytes>
    requires k > 0
  {
    if secret, coins: nat :| SubMap(some, Share(k, n, secret, coins)) then Some(secret) else None
  }

  /** Any k parts determine the secret. */
  lemma PartsDetermine(k: nat, secret: Bytes, coins: nat, other: Bytes, otherCoins: nat, points: set<nat>)
    requires 0 < k <= |points|
    requires forall x :: x in points ==> PartAt(secret, k, coins, x) == PartAt(other, k, otherCoins, x)
    ensures secret == other
  {
    var some: nat :| some in points;
    assert |PartAt(secret, k, coins, some)| == |PartAt(other, k, otherCoins, some)|;
    hide PartOfSymbol, Eval, Hiding;
    forall j | 0 <= j < |secret|
      ensures secret[j] == other[j]
    {
      var c, d := Hiding(secret[j], k, coins), Hiding(other[j], k, otherCoins);
      forall x | x in points
        ensures Eval(c, x as real) == Eval(d, x as real)
      {
        assert PartAt(secret, k, coins, x)[j] == PartAt(other, k, otherCoins, x)[j];
        EvalHiding(secret[j], k, coins, x);
        EvalHiding(other[j], k, otherCoins, x);
      }
      Unique(c, d, points, 0.0);
      EvalHiding(secret[j], k, coins, 0);
      EvalHiding(other[j], k, otherCoins, 0);
    }
  }

  lemma CombinesFrom(k: nat, n: nat, secret: Bytes, coins: nat, some: map<nat, Bytes>)
    requires 0 < k <= |some| && SubMap(some, Share(k, n, secret, coins))
    ensures Combine(k, n, some) == Some(secret)
  {
    hide PartAt;
    forall other, otherCoins: nat | SubMap(some, Share(k, n, other, otherCoins))
      ensures other == secret
    {
      forall x | x in some.Keys
        ensures PartAt(secret, k, coins, x) == PartAt(other, k, otherCoins, x)
      {
        assert Share(k, n, secret, coins)[x] == some[x] == Share(k, n, other, otherCoins)[x];
      }
      PartsDetermine(k, secret, coins, other, otherCoins, some.Keys);
    }
  }

  // ---- The value ----

  /** Codes as above; a cipher and a time lock that only append and prepend. */
  ghost function Instance(k: nat, n: nat): Crypto
    requires 0 < k <= n
  {
    Crypto(k, n,
      (_, _, data) => data + Zeros(TAG_SIZE),
      (_, _, data: Bytes) => if |data| >= TAG_SIZE then Some(data[..|data| - TAG_SIZE]) else None,
      (round, message, _) => [round] + message,
      (message: Bytes, now) => if message != [] && now >= message[0] then Some(message[1..]) else None,
      data => Encode(k, n, data),
      some => Reconstruct(k, n, some),
      (secret, coins) => Share(k, n, secret, coins),
      some => Combine(k, n, some))
  }

  lemma CipherIsLawful(k: nat, n: nat)
    requires 0 < k <= n
    ensures CipherLaws(Instance(k, n)) && LockLaws(Instance(k, n))
  {
    hide Encode, Reconstruct, Share, Combine;
    var c := Instance(k, n);
    forall key: Bytes, nonce: Bytes, data: Bytes
      ensures c.open(key, nonce, c.seal(key, nonce, data)) == Some(data)
    {
      assert (data + Zeros(TAG_SIZE))[..|data|] == data;
    }
    forall round: nat, message: Bytes, coins: nat, now: nat
      ensures c.unlock(c.lock(round, message, coins), now) == if now >= round then Some(message) else None
    {
      assert ([round] + message)[1..] == message;
    }
  }

  lemma ErasureIsLawful(k: nat, n: nat)
    requires 0 < k <= n
    ensures ErasureLaws(Instance(k, n))
  {
    hide Encode, Reconstruct, Share, Combine;
    var c := Instance(k, n);
    forall data | |data| == k && EqualSizes(data)
      ensures |c.encode(data)| == n && data <= c.encode(data) && EqualSizes(c.encode(data))
      ensures forall some :: PartOf(some, c.encode(data)) && |Present(some)| >= k ==>
        c.reconstruct(some) == Some(c.encode(data))
    {
      EncodeShape(k, n, data);
      forall some | PartOf(some, c.encode(data)) && |Present(some)| >= k
        ensures c.reconstruct(some) == Some(c.encode(data))
      {
        ReconstructsFrom(k, n, data, some);
      }
    }
  }

  lemma SharingIsLawful(k: nat, n: nat)
    requires 0 < k <= n
    ensures SharingLaws(Instance(k, n))
  {
    hide Encode, Reconstruct, Share, Combine;
    var c := Instance(k, n);
    forall secret: Bytes, coins: nat
      ensures |c.share(secret, coins)| == n
      ensures forall some :: SubMap(some, c.share(secret, coins)) && |some| >= k ==> c.combine(some) == Some(secret)
    {
      ShareCount(k, n, secret, coins);
      forall some | SubMap(some, c.share(secret, coins)) && |some| >= k
        ensures c.combine(some) == Some(secret)
      {
        CombinesFrom(k, n, secret, coins, some);
      }
    }
  }

  /** The laws of module Codec can be met, for any numbers of shards. */
  lemma InstanceIsLawful(k: nat, n: nat)
    requires 0 < k <= n
    ensures Lawful(Instance(k, n)) && Instance(k, n).k == k && Instance(k, n).n == n
  {
    CipherIsLawful(k, n);
    ErasureIsLawful(k, n);
    SharingIsLawful(k, n);
    hide CipherLaws, LockLaws, ErasureLaws, SharingLaws, Encode, Reconstruct, Share, Combine;
  }

  lemma ShareCount(k: nat, n: nat, secret: Bytes, coins: nat)
    requires k > 0
    ensures |Share(k, n, secret, coins)| == n
  {
    assert Share(k, n, secret, coins).Keys == Indexes(n);
  }
}
