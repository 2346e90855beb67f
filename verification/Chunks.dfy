/** `_.chunk`: consecutive pieces of at most n elements. */
module Chunks {
  function Chunk<T>(s: seq<T>, n: nat): (chunks: seq<seq<T>>)
    requires n > 0
  {
    if s == [] then [] else if |s| <= n then [s] else [s[..n]] + Chunk(s[n..], n)
  }

  function Flatten<T>(ss: seq<seq<T>>): seq<T> {
    if ss == [] then [] else ss[0] + Flatten(ss[1..])
  }

  /** Chunking neither loses, repeats nor reorders anything, every piece holds 1 to n elements, and
      all but the last hold n. */
  lemma {:induction false} ChunkPartitions<T>(s: seq<T>, n: nat)
    requires n > 0
    ensures Flatten(Chunk(s, n)) == s
    ensures forall i :: 0 <= i < |Chunk(s, n)| ==> 1 <= |Chunk(s, n)[i]| <= n
    ensures forall i :: 0 <= i < |Chunk(s, n)| - 1 ==> |Chunk(s, n)[i]| == n
  {
    if s == [] {
    } else if |s| <= n {
      assert Flatten([s]) == s + Flatten([]) == s;
    } else {
      ChunkPartitions(s[n..], n);
      assert Chunk(s, n)[1..] == Chunk(s[n..], n);
      assert s[..n] + s[n..] == s;
    }
  }

  lemma {:induction false} InFlatten<T>(ss: seq<seq<T>>, x: T)
    requires x in Flatten(ss)
    ensures exists k :: 0 <= k < |ss| && x in ss[k]
  {
    if x !in ss[0] {
      InFlatten(ss[1..], x);
      var k :| 0 <= k < |ss[1..]| && x in ss[1..][k];
      assert x in ss[k + 1];
    }
  }
}
