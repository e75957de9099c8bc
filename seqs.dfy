/** Facts about sequences the proofs share. */
module Seqs {

  /** Concatenation is associative. */
  lemma AppendAssoc<T>(a: seq<T>, b: seq<T>, c: seq<T>)
    ensures (a + b) + c == a + (b + c)
  {
  }

  /** A slice of a suffix is a slice of the whole. */
  lemma SliceOfSlice<T>(s: seq<T>, a: nat, i: nat, j: nat)
    requires a + j <= |s| && i <= j
    ensures s[a..][i..j] == s[a + i..a + j]
  {
  }

  /** A slice that lies within the left operand of a concatenation is a slice of that operand. */
  lemma AppendSliceLeft<T>(a: seq<T>, b: seq<T>, i: nat, j: nat)
    requires i <= j <= |a|
    ensures (a + b)[i..j] == a[i..j]
  {
  }

  /** The right operand of a concatenation is the slice from |a| to |a| + |b|; the bounds are passed in the form the caller needs. */
  lemma AppendSliceRight<T>(a: seq<T>, b: seq<T>, i: nat, j: nat)
    requires i == |a| && j == |a| + |b|
    ensures (a + b)[i..j] == b
  {
  }

  /** The blocks of `blocks` one after another. */
  function Concat<T>(blocks: seq<seq<T>>): seq<T>
  {
    if blocks == [] then [] else Concat(blocks[..|blocks| - 1]) + blocks[|blocks| - 1]
  }

  /** One more block appends that block. */
  lemma ConcatSnoc<T>(blocks: seq<seq<T>>, b: seq<T>)
    ensures Concat(blocks + [b]) == Concat(blocks) + b
  {
    assert (blocks + [b])[..|blocks|] == blocks;
  }

  /** When every block has width w, the concatenation has w elements per block. */
  lemma {:induction false} ConcatLength<T>(blocks: seq<seq<T>>, w: nat)
    requires forall i :: 0 <= i < |blocks| ==> |blocks[i]| == w
    ensures |Concat(blocks)| == w * |blocks|
  {
    if blocks != [] {
      ConcatLength(blocks[..|blocks| - 1], w);
      MulStep(w, |blocks|);
    }
  }

  /** One more block of width w adds w elements. */
  lemma MulStep(w: nat, n: nat)
    requires n > 0
    ensures w * (n - 1) + w == w * n
  {
  }

  /** When every block has width w, block p is the slice from w * p to w * p + w of the concatenation. */
  lemma {:induction false} ConcatBlock<T>(blocks: seq<seq<T>>, w: nat, p: nat)
    requires forall i :: 0 <= i < |blocks| ==> |blocks[i]| == w
    requires p < |blocks|
    ensures w * p + w <= |Concat(blocks)|
    ensures Concat(blocks)[w * p..w * p + w] == blocks[p]
  {
    if p < |blocks| - 1 {
      ConcatBlock(blocks[..|blocks| - 1], w, p);
      ConcatBlockInit(blocks, w, p);
    } else {
      ConcatBlockLast(blocks, w);
    }
  }

  /** A block found in the concatenation of all blocks but the last is found in the whole. */
  lemma ConcatBlockInit<T>(blocks: seq<seq<T>>, w: nat, p: nat)
    requires p < |blocks| - 1
    requires w * p + w <= |Concat(blocks[..|blocks| - 1])|
    requires Concat(blocks[..|blocks| - 1])[w * p..w * p + w] == blocks[p]
    ensures w * p + w <= |Concat(blocks)|
    ensures Concat(blocks)[w * p..w * p + w] == blocks[p]
  {
    var pre := blocks[..|blocks| - 1];
    var lo := w * p;
    AppendSliceLeft(Concat(pre), blocks[|blocks| - 1], lo, lo + w);
  }

  /** The last block sits after the w * n elements of the n blocks before it. */
  lemma ConcatBlockLast<T>(blocks: seq<seq<T>>, w: nat)
    requires forall i :: 0 <= i < |blocks| ==> |blocks[i]| == w
    requires blocks != []
    ensures w * (|blocks| - 1) + w <= |Concat(blocks)|
    ensures Concat(blocks)[w * (|blocks| - 1)..w * (|blocks| - 1) + w] == blocks[|blocks| - 1]
  {
    var pre := blocks[..|blocks| - 1];
    var lo := w * (|blocks| - 1);
    ConcatLength(pre, w);
    AppendSliceRight(Concat(pre), blocks[|blocks| - 1], lo, lo + w);
  }

  /** A suffix of a suffix is a suffix of the whole. */
  lemma SuffixOfSuffix<T>(s: seq<T>, a: nat, i: nat)
    requires a + i <= |s|
    ensures s[a..][i..] == s[a + i..]
  {
  }
}
