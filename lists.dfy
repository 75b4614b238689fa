/** Sequence helpers for the Python list idioms the aggregator uses. */
module Lists {

  function Min(a: int, b: int): int
  {
    if a <= b then a else b
  }

  /** No element occurs twice: a Python `set` kept as a sequence. */
  predicate NoDup<T(==)>(s: seq<T>)
  {
    forall i, j :: 0 <= i < j < |s| ==> s[i] != s[j]
  }

  /** The slices `s[i:i + n]` for `i` in `range(0, len(s), n)`, in order. */
  function Chunks<T>(s: seq<T>, n: nat): seq<seq<T>>
    requires n > 0
    decreases |s|
  {
    if s == [] then []
    else
      var k := Min(n, |s|);
      [s[..k]] + Chunks(s[k..], n)
  }

  /** The concatenation of a sequence of sequences. */
  function Concat<T>(ss: seq<seq<T>>): seq<T>
  {
    if ss == [] then [] else ss[0] + Concat(ss[1..])
  }

  /** Every chunk holds between 1 and `n` elements. */
  lemma {:induction false} ChunksBounded<T>(s: seq<T>, n: nat)
    requires n > 0
    ensures forall c :: c in Chunks(s, n) ==> 1 <= |c| <= n
    decreases |s|
  {
    if s != [] {
      ChunksBounded(s[Min(n, |s|)..], n);
    }
  }

  /** Concatenating the chunks gives back the sequence. */
  lemma {:induction false} ChunksConcat<T>(s: seq<T>, n: nat)
    requires n > 0
    ensures Concat(Chunks(s, n)) == s
    decreases |s|
  {
    if s != [] {
      var k := Min(n, |s|);
      ChunksConcat(s[k..], n);
      assert Chunks(s, n)[1..] == Chunks(s[k..], n);
      assert s == s[..k] + s[k..];
    }
  }

  /** There are ceil(|s| / n) chunks: the fewest chunks of `n` elements that hold `s`. */
  lemma {:induction false} ChunksCount<T>(s: seq<T>, n: nat)
    requires n > 0
    ensures (|Chunks(s, n)| - 1) * n < |s| <= |Chunks(s, n)| * n
    decreases |s|
  {
    if s != [] {
      var k := Min(n, |s|);
      ChunksCount(s[k..], n);
      var c := |Chunks(s[k..], n)|;
      assert |Chunks(s, n)| == c + 1;
      assert (c + 1) * n == c * n + n;
    }
  }

  /** Every chunk but the last holds exactly `n` elements. */
  lemma {:induction false} ChunksFull<T>(s: seq<T>, n: nat)
    requires n > 0
    ensures forall i :: 0 <= i < |Chunks(s, n)| - 1 ==> |Chunks(s, n)[i]| == n
    decreases |s|
  {
    if s != [] {
      var k := Min(n, |s|);
      ChunksFull(s[k..], n);
    }
  }
}
