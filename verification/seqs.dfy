/** Sequences of blocks laid end to end. */
module Seqs {

  /** The blocks concatenated in order. */
  function Flat<T>(blocks: seq<seq<T>>): seq<T>
    decreases |blocks|
  {
    if |blocks| == 0 then [] else Flat(blocks[..|blocks| - 1]) + blocks[|blocks| - 1]
  }

  /** Where block `i` begins in the concatenation. */
  function FlatOffset<T>(blocks: seq<seq<T>>, i: nat): nat
    requires i <= |blocks|
  {
    |Flat(blocks[..i])|
  }

  /** Element `j` of block `i` sits at `FlatOffset(i) + j`. */
  lemma {:induction false} FlatAt<T>(blocks: seq<seq<T>>, i: nat, j: nat)
    requires i < |blocks| && j < |blocks[i]|
    ensures FlatOffset(blocks, i) + j < |Flat(blocks)|
    ensures Flat(blocks)[FlatOffset(blocks, i) + j] == blocks[i][j]
    decreases |blocks|
  {
    var n := |blocks| - 1;
    if i < n {
      assert blocks[..n][..i] == blocks[..i];
      FlatAt(blocks[..n], i, j);
    }
  }

  /** Every element of the concatenation is element `j` of some block `i`. */
  lemma {:induction false} FlatOrigin<T>(blocks: seq<seq<T>>, t: nat) returns (i: nat, j: nat)
    requires t < |Flat(blocks)|
    ensures i < |blocks| && j < |blocks[i]|
    ensures t == FlatOffset(blocks, i) + j
    decreases |blocks|
  {
    var n := |blocks| - 1;
    if t < |Flat(blocks[..n])| {
      i, j := FlatOrigin(blocks[..n], t);
      assert blocks[..n][..i] == blocks[..i];
    } else {
      i, j := n, t - |Flat(blocks[..n])|;
    }
  }
}
