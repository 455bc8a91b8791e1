/** Sequences of batches: what a graph receives through its bulk-insert
    entry point, one batch per call. */
module Batches {

  /** All statements of `batches`, batch after batch. */
  function Flatten<T>(batches: seq<seq<T>>): (r: seq<T>)
    decreases |batches|
  {
    if batches == [] then [] else batches[0] + Flatten(batches[1..])
  }

  /** The size of each batch, in order. */
  function Sizes<T>(batches: seq<seq<T>>): seq<nat>
  {
    seq(|batches|, i requires 0 <= i < |batches| => |batches[i]|)
  }

  /** The total of `xs`. */
  function Sum(xs: seq<nat>): nat
    decreases |xs|
  {
    if xs == [] then 0 else xs[0] + Sum(xs[1..])
  }

  /** The sizes of two runs of batches are the sizes of the first followed
      by those of the second. */
  lemma SizesConcat<T>(a: seq<seq<T>>, b: seq<seq<T>>)
    ensures Sizes(a + b) == Sizes(a) + Sizes(b)
  {
  }

  /** The batch sizes add up to the number of items the batches hold. */
  lemma {:induction false} SizesSum<T>(batches: seq<seq<T>>)
    ensures Sum(Sizes(batches)) == |Flatten(batches)|
    decreases |batches|
  {
    if batches != [] {
      assert Sizes(batches)[1..] == Sizes(batches[1..]);
      SizesSum(batches[1..]);
    }
  }

  /** `s` cut, in order, into pieces of `n` items; only the last piece may
      be shorter, and no piece is empty. */
  function Chunks<T>(s: seq<T>, n: nat): (r: seq<seq<T>>)
    requires n > 0
    ensures Flatten(r) == s
    ensures forall i :: 0 <= i < |r| ==> 0 < |r[i]| <= n
    ensures forall i :: 0 <= i < |r| - 1 ==> |r[i]| == n
    decreases |s|
  {
    if s == [] then []
    else if |s| <= n then [s]
    else [s[..n]] + Chunks(s[n..], n)
  }

  lemma {:induction false} FlattenConcat<T>(a: seq<seq<T>>, b: seq<seq<T>>)
    ensures Flatten(a + b) == Flatten(a) + Flatten(b)
    decreases |a|
  {
    if a == [] {
      assert a + b == b;
    } else {
      assert (a + b)[1..] == a[1..] + b;
      FlattenConcat(a[1..], b);
    }
  }

  lemma FlattenSnoc<T>(batches: seq<seq<T>>, b: seq<T>)
    ensures Flatten(batches + [b]) == Flatten(batches) + b
  {
    FlattenConcat(batches, [b]);
    assert Flatten([b]) == b + Flatten([]);
  }

  /** Batches that all hold exactly `n` items hold `n` items per batch. */
  lemma {:induction false} FlattenFull<T>(batches: seq<seq<T>>, n: nat)
    requires forall i :: 0 <= i < |batches| ==> |batches[i]| == n
    ensures |Flatten(batches)| == n * |batches|
    decreases |batches|
  {
    if batches != [] {
      FlattenFull(batches[1..], n);
    }
  }

  /** Full batches followed by a shorter remainder are exactly the chunks
      of their concatenation: chunking is the only way to cut a sequence
      into full pieces and one short tail. */
  lemma {:induction false} ChunksOfFull<T>(full: seq<seq<T>>, rest: seq<T>, n: nat)
    requires n > 0
    requires forall i :: 0 <= i < |full| ==> |full[i]| == n
    requires |rest| < n
    ensures Chunks(Flatten(full) + rest, n) == full + (if rest == [] then [] else [rest])
    decreases |full|
  {
    var tailChunks := if rest == [] then [] else [rest];
    if full == [] {
      assert Flatten(full) + rest == rest;
    } else {
      var b := full[0];
      var tail := Flatten(full[1..]) + rest;
      var s := Flatten(full) + rest;
      assert s == b + tail;
      ChunksOfFull(full[1..], rest, n);
      assert Chunks(tail, n) == full[1..] + tailChunks;
      if tail == [] {
        assert s == b;
        assert Chunks(s, n) == [b];
        assert full[1..] == [];
        assert full == [b];
      } else {
        assert |s| > n;
        assert s[..n] == b;
        assert s[n..] == tail;
        assert Chunks(s, n) == [b] + Chunks(tail, n);
        assert full == [b] + full[1..];
      }
    }
  }

  /** A positive multiple of `c` is at least `c`. */
  lemma MulAtLeast(c: nat, k: nat)
    requires k >= 1
    ensures c * k >= c
  {
  }

  /** `c * m + p` with `0 <= p < c` has quotient `m` and remainder `p`. */
  lemma DivModOf(c: nat, m: nat, p: nat)
    requires 0 <= p < c
    ensures (c * m + p) / c == m && (c * m + p) % c == p
  {
    var x := c * m + p;
    var q, r := x / c, x % c;
    assert x == c * q + r && 0 <= r < c;
    if q < m {
      assert c * (m - q) == r - p;
      MulAtLeast(c, m - q);
      assert false;
    } else if q > m {
      assert c * (q - m) == p - r;
      MulAtLeast(c, q - m);
      assert false;
    }
  }

  /** The arithmetic of the last chunk: `m` full chunks and a last one of
      `l` items make ceil((n * m + l) / n) == m + 1 chunks, and the last one
      holds the remainder unless `n` divides the total. */
  lemma LastChunkArithmetic(n: nat, m: nat, l: nat)
    requires 0 < l <= n
    ensures (n * m + l + n - 1) / n == m + 1
    ensures l < n ==> (n * m + l) % n == l
    ensures l == n ==> (n * m + l) % n == 0
  {
    assert n * m + l + n - 1 == n * (m + 1) + (l - 1);
    DivModOf(n, m + 1, l - 1);
    if l < n {
      DivModOf(n, m, l);
    } else {
      assert n * m + l == n * (m + 1) + 0;
      DivModOf(n, m + 1, 0);
    }
  }

  /** The chunks of `s` are full chunks followed by a last, non-empty one. */
  lemma ChunksLast<T>(s: seq<T>, n: nat)
    requires n > 0 && s != []
    ensures var r := Chunks(s, n);
      |r| > 0 && |s| == n * (|r| - 1) + |r[|r| - 1]|
  {
  }

  /** There are ceil(|s| / n) chunks, and the last holds the remainder of
      `|s|` by `n`, or `n` when `n` divides `|s|`; the others hold `n`
      (the contract of `Chunks`). */
  lemma ChunkSizes<T>(s: seq<T>, n: nat)
    requires n > 0
    ensures |Chunks(s, n)| == (|s| + n - 1) / n
    ensures s != [] ==> |Chunks(s, n)[|Chunks(s, n)| - 1]| == if |s| % n == 0 then n else |s| % n
  {
    if s != [] {
      var r := Chunks(s, n);
      ChunksLast(s, n);
      LastChunkArithmetic(n, |r| - 1, |r[|r| - 1]|);
    }
  }
}
