/** Cutting a file into blocks: the read loop of StreamAndUploadFile. */
module Blocks {
  import opened Types
  import opened Placement

  datatype CryptoJob = CryptoJob(blockId: nat, data: Bytes)

  /** Reference definition: the file cut off at every multiple of the block size. */
  function Cut(file: Bytes, size: nat): (blocks: seq<Bytes>)
    requires size > 0
    decreases |file|
  {
    if file == [] then [] else [file[..Min(size, |file|)]] + Cut(file[Min(size, |file|)..], size)
  }

  function Join(blocks: seq<Bytes>): Bytes {
    if blocks == [] then [] else blocks[0] + Join(blocks[1..])
  }

  /** The `Blocks` field of the manifest (0 is replaced by 1). */
  function BlockCount(fileSize: nat, size: nat): nat
    requires size > 0
  {
    if CeilDiv(fileSize, size) == 0 then 1 else CeilDiv(fileSize, size)
  }

  lemma {:induction false} JoinAppend(blocks: seq<Bytes>, b: Bytes)
    ensures Join(blocks + [b]) == Join(blocks) + b
  {
    if blocks == [] {
      assert [b][1..] == [];
      assert Join([b]) == b + Join([]);
    } else {
      JoinAppend(blocks[1..], b);
      assert (blocks + [b])[1..] == blocks[1..] + [b];
    }
  }

  /** The blocks are the file, in order. */
  lemma {:induction false} CutJoin(file: Bytes, size: nat)
    requires size > 0
    ensures Join(Cut(file, size)) == file
    decreases |file|
  {
    if file != [] {
      var n := Min(size, |file|);
      CutJoin(file[n..], size);
      assert Cut(file, size)[1..] == Cut(file[n..], size);
      assert file == file[..n] + file[n..];
    }
  }

  /** There are ceil(|file| / size) blocks, also for exact multiples. */
  lemma {:induction false} CutCount(file: Bytes, size: nat)
    requires size > 0
    ensures |Cut(file, size)| == CeilDiv(|file|, size)
    decreases |file|
  {
    CeilSmall(|file|, size);
    hide CeilDiv;
    if file == [] {
      assert Cut(file, size) == [];
    } else if |file| <= size {
      assert file[|file|..] == [];
    } else {
      CutCount(file[size..], size);
      CeilStep(|file|, size);
    }
  }

  lemma CeilSmall(a: nat, size: nat)
    requires size > 0
    ensures a <= size ==> CeilDiv(a, size) == if a == 0 then 0 else 1
  {
    if a == 0 {
      Quotient(size - 1, size, 0, size - 1);
    } else if a <= size {
      Quotient(a + size - 1, size, 1, a - 1);
    }
  }

  /** Block i is the i-th stretch of `size` octets; only the last may be shorter, none is empty. */
  lemma {:induction false} CutAt(file: Bytes, size: nat, i: nat)
    requires size > 0 && i < |Cut(file, size)|
    ensures i * size < |file|
    ensures Cut(file, size)[i] == file[i * size..Min((i + 1) * size, |file|)]
    ensures Cut(file, size)[i] != []
    ensures i + 1 < |Cut(file, size)| ==> |Cut(file, size)[i]| == size
    decreases |file|
  {
    MulOrder(i, i, size);
    assert |file| <= size ==> file[Min(size, |file|)..] == [];
    if i > 0 {
      MulOrder(i - 1, i - 1, size);
      var rest := file[size..];
      CutAt(rest, size, i - 1);
      SliceOfRest(file, size, (i - 1) * size, Min(i * size, |rest|));
    }
  }

  lemma SliceOfRest(s: Bytes, n: nat, a: nat, b: nat)
    requires n <= |s| && a <= b <= |s| - n
    ensures s[n..][a..b] == s[n + a..n + b]
  {
  }

  lemma CeilStep(a: nat, size: nat)
    requires 0 < size <= a
    ensures CeilDiv(a, size) == 1 + CeilDiv(a - size, size)
  {
    var q := (a - 1) / size;
    assert a - 1 == q * size + (a - 1) % size;
    MulOrder(q, q + 1, size);
    Quotient(a + size - 1, size, q + 1, (a - 1) % size);
  }

  /** The manifest announces exactly the emitted blocks, unless the file is empty. */
  lemma CountMatches(file: Bytes, size: nat)
    requires size > 0
    ensures BlockCount(|file|, size) == |Cut(file, size)| <==> file != []
  {
    CutCount(file, size);
    if |file| > 0 {
      assert (|file| + size - 1) / size >= 1;
    }
  }

  /** io.ReadFull at offset `at`: the octets read. */
  function ReadFull(file: Bytes, at: nat, size: nat): Bytes
    requires at <= |file|
  {
    file[at..Min(at + size, |file|)]
  }

  /** Where read number q starts. */
  function Offset(q: nat, size: nat): nat {
    q * size
  }

  /** What read number q yields: block q, or nothing at the end of the file; a short read is the last. */
  lemma ReadAt(file: Bytes, size: nat, q: nat)
    requires size > 0 && Offset(q, size) <= |file|
    ensures var buffer := ReadFull(file, Offset(q, size), size);
      && q <= |file| / size
      && (buffer == [] <==> q == |Cut(file, size)|)
      && (buffer != [] ==> q < |Cut(file, size)| && buffer == Cut(file, size)[q])
      && (|buffer| < size ==> |file| / size == q && |Cut(file, size)| == if buffer == [] then q else q + 1)
      && (|buffer| >= size ==> Offset(q + 1, size) <= |file| && Offset(q + 1, size) == Offset(q, size) + size)
  {
    hide Cut;
    CutCount(file, size);
    QuotientAtLeast(|file|, size, q);
    MulOrder(q, q, size);
    var buffer := ReadFull(file, Offset(q, size), size);
    if |buffer| < size {
      LastRead(|file|, size, q);
    }
    if buffer != [] {
      LaterBlock(file, size, q);
      CutAt(file, size, q);
    }
  }

  /** The read loop. Read number `failing`, if it is reached, returns an I/O error. Without an
      error the jobs are the file's blocks, numbered from 0; with one they are those before it,
      and the error is hit exactly when the loop makes that many reads, |file| / size + 1. */
  method ReadLoop(file: Bytes, size: nat, failing: Option<nat>) returns (jobs: seq<CryptoJob>, failed: bool)
    requires size > 0
    ensures failed <==> failing.Some? && failing.value <= |file| / size
    ensures |jobs| == if failed then failing.value else |Cut(file, size)|
    ensures forall i :: 0 <= i < |jobs| ==> i < |Cut(file, size)| && jobs[i] == CryptoJob(i, Cut(file, size)[i])
  {
    var blockId := 0;
    var at := 0;
    jobs := [];
    assert Offset(0, size) == 0;
    hide Offset, Cut;
    while true
      invariant blockId == |jobs| <= |Cut(file, size)| && at == Offset(blockId, size) <= |file|
      invariant forall i :: 0 <= i < |jobs| ==> jobs[i] == CryptoJob(i, Cut(file, size)[i])
      invariant failing.Some? ==> blockId <= failing.value
      decreases |file| - at
    {
      ReadAt(file, size, blockId);
      if failing == Some(blockId) {
        return jobs, true;
      }
      var buffer := ReadFull(file, at, size);
      if buffer == [] {
        break;
      }
      jobs := jobs + [CryptoJob(blockId, buffer)];
      if |buffer| < size {
        break;
      }
      blockId := blockId + 1;
      at := at + size;
    }
    failed := false;
  }

  lemma QuotientAtLeast(a: nat, size: nat, q: nat)
    requires size > 0 && q * size <= a
    ensures q <= a / size
  {
    MulOrder(a / size + 1, q, size);
    assert a == (a / size) * size + a % size;
  }

  /** If the first q blocks were read and the last of them was full, the loop reads once more. */
  lemma ReadsBefore(file: Bytes, size: nat, q: nat)
    requires size > 0 && q <= |Cut(file, size)| && (q > 0 ==> |Cut(file, size)[q - 1]| == size)
    ensures q <= |file| / size
  {
    MulOrder(q, q, size);
    if q > 0 {
      CutAt(file, size, q - 1);
    }
    hide Cut;
    QuotientAtLeast(|file|, size, q);
  }

  lemma LastRead(a: nat, size: nat, q: nat)
    requires size > 0 && q * size <= a < (q + 1) * size
    ensures a / size == q
    ensures CeilDiv(a, size) == if a == q * size then q else q + 1
  {
    MulOrder(q, q, size);
    Quotient(a, size, q, a - q * size);
    if a == q * size {
      Quotient(a + size - 1, size, q, size - 1);
    } else {
      MulOrder(q, q, size);
      Quotient(a + size - 1, size, q + 1, a - q * size - 1);
    }
  }

  lemma MulOrder(x: nat, y: nat, k: nat)
    ensures x <= y ==> x * k <= y * k
    ensures (x + 1) * k == x * k + k && (x >= 1 ==> (x - 1) * k == x * k - k)
  {
  }

  lemma Quotient(a: nat, size: nat, q: nat, r: nat)
    requires size > 0 && a == q * size + r && r < size
    ensures a / size == q
  {
    var d, m := a / size, a % size;
    assert a == d * size + m;
    MulOrder(d + 1, q, size);
    MulOrder(q + 1, d, size);
  }

  lemma LaterBlock(file: Bytes, size: nat, q: nat)
    requires size > 0 && q * size < |file|
    ensures q < |Cut(file, size)|
  {
    CutCount(file, size);
    var m := CeilDiv(|file|, size);
    MulOrder(m, q, size);
    assert |file| + size - 1 == m * size + (|file| + size - 1) % size;
  }
}
