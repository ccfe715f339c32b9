/** Flattening of a sequence of blocks: the order in which nested loops emit things. */
module Seqs {

  /** The blocks of `bs`, one after the other. */
  function Concat<T>(bs: seq<seq<T>>): seq<T>
    decreases |bs|
  {
    if bs == [] then [] else Concat(bs[..|bs| - 1]) + bs[|bs| - 1]
  }

  /** Appending one more block to a prefix. */
  lemma ConcatStep<T>(bs: seq<seq<T>>, i: nat)
    requires i < |bs|
    ensures Concat(bs[..i + 1]) == Concat(bs[..i]) + bs[i]
  {
    assert bs[..i + 1][..i] == bs[..i];
  }

  lemma AppendAssoc<T>(a: seq<T>, b: seq<T>, c: seq<T>)
    ensures a + b + c == a + (b + c)
  {
  }

  lemma ConcatWhole<T>(bs: seq<seq<T>>)
    ensures Concat(bs[..|bs|]) == Concat(bs)
  {
    assert bs[..|bs|] == bs;
  }

  /** An element is in the flattening exactly when it is in one of the blocks. */
  lemma {:induction false} ConcatMember<T>(bs: seq<seq<T>>, x: T)
    ensures x in Concat(bs) <==> exists i :: 0 <= i < |bs| && x in bs[i]
  {
    if bs != [] {
      var n := |bs| - 1;
      ConcatMember(bs[..n], x);
      if x in Concat(bs) && x !in bs[n] {
        var i :| 0 <= i < n && x in bs[..n][i];
        assert x in bs[i];
      }
      if exists i :: 0 <= i < |bs| && x in bs[i] {
        var i :| 0 <= i < |bs| && x in bs[i];
        if i < n {
          assert x in bs[..n][i];
        }
      }
    }
  }

  /** The length of the flattening of a prefix grows by the length of each block. */
  lemma {:induction false} ConcatLength<T>(bs: seq<seq<T>>, lens: seq<nat>)
    requires |lens| == |bs|
    requires forall i :: 0 <= i < |bs| ==> |bs[i]| == lens[i]
    ensures |Concat(bs)| == Total(lens)
  {
    if bs != [] {
      var n := |bs| - 1;
      ConcatLength(bs[..n], lens[..n]);
    }
  }

  /** Sum of a sequence of naturals. */
  function Total(ns: seq<nat>): nat
    decreases |ns|
  {
    if ns == [] then 0 else Total(ns[..|ns| - 1]) + ns[|ns| - 1]
  }
}
