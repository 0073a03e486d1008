/** Merkle inclusion proofs over Bitcoin's transaction tree (bitcoin-spv/src/merkle.rs, crypto.rs). */
module Merkle {
  import opened Wrappers
  import opened Bytes
  import opened SpvTypes

  /** SHA256d, taken as an arbitrary function from byte strings to digests. */
  type Sha256d = seq<Byte> -> Digest

  function HashPair(sha: Sha256d, left: Digest, right: Digest): Digest { sha(left + right) }

  /** The two digests hashed at one step of a proof, in the order the index bit asks for. */
  function StepPreimage(current: Digest, index: nat, sibling: Digest): (p: seq<Byte>)
    ensures |p| == 64
  {
    if index % 2 == 1 then sibling + current else current + sibling
  }

  function Fold(sha: Sha256d, current: Digest, index: nat, proof: seq<Digest>): Digest
    decreases |proof|
  {
    if proof == [] then current
    else Fold(sha, sha(StepPreimage(current, index, proof[0])), index / 2, proof[1..])
  }

  method VerifyMerkleInclusion(sha: Sha256d, txid: Digest, txIndex: U32, proof: seq<Digest>, merkleRoot: Digest)
    returns (r: Result<(), SpvError>)
    ensures r == if Fold(sha, txid, txIndex, proof) == merkleRoot then Ok(()) else Err(MerkleProofInvalid)
  {
    var current: Digest := txid;
    var index: nat := txIndex;
    for i := 0 to |proof|
      invariant Fold(sha, current, index, proof[i..]) == Fold(sha, txid, txIndex, proof)
    {
      var sibling := proof[i];
      assert proof[i..][1..] == proof[i + 1..];
      current := if index % 2 == 1 then HashPair(sha, sibling, current) else HashPair(sha, current, sibling);
      index := index / 2;
    }
    r := if current == merkleRoot then Ok(()) else Err(MerkleProofInvalid);
  }

  // ---------------------------------------------------- Bitcoin's tree

  type Level = s: seq<Digest> | |s| > 0 witness [ZeroDigest()]

  /** The children hashed into node `j` of the next level; the last node of an odd level pairs with itself. */
  function Children(level: Level, j: nat): (p: seq<Byte>)
    requires j < (|level| + 1) / 2
    ensures |p| == 64
  {
    var left: seq<Byte> := level[2 * j];
    var right: seq<Byte> := level[if 2 * j + 1 < |level| then 2 * j + 1 else 2 * j];
    left + right
  }

  function NextLevel(sha: Sha256d, level: Level): (next: Level)
    ensures |next| == (|level| + 1) / 2
  {
    var next := seq<Digest>((|level| + 1) / 2, j requires 0 <= j < (|level| + 1) / 2 => sha(Children(level, j)));
    assert |next| > 0;
    next
  }

  function Root(sha: Sha256d, level: Level): Digest
    decreases |level|
  {
    if |level| == 1 then level[0] else Root(sha, NextLevel(sha, level))
  }

  function Depth(n: nat): nat
  {
    if n <= 1 then 0 else 1 + Depth((n + 1) / 2)
  }

  /** The sibling path of node `i`, leaf level first. */
  function Path(sha: Sha256d, level: Level, i: nat): (p: seq<Digest>)
    requires i < |level|
    ensures |p| == Depth(|level|)
    decreases |level|
  {
    if |level| == 1 then []
    else
      var sibling := if i % 2 == 1 then level[i - 1] else if i + 1 < |level| then level[i + 1] else level[i];
      [sibling] + Path(sha, NextLevel(sha, level), i / 2)
  }

  /** Completeness: every leaf's sibling path folds to the root. */
  lemma {:induction false} MerkleCompleteness(sha: Sha256d, level: Level, i: nat)
    requires i < |level|
    ensures Fold(sha, level[i], i, Path(sha, level, i)) == Root(sha, level)
    decreases |level|
  {
    if |level| > 1 {
      var path := Path(sha, level, i);
      assert StepPreimage(level[i], i, path[0]) == Children(level, i / 2);
      assert path[1..] == Path(sha, NextLevel(sha, level), i / 2);
      MerkleCompleteness(sha, NextLevel(sha, level), i / 2);
    }
  }

  // ------------------------------------------------------------ soundness

  /** The leaf an index leads to: its own when it names one, else the leaf duplicated in its place. */
  function Landing(n: nat, index: nat): (j: nat)
    requires n > 0
    ensures j < n
  {
    if n == 1 then 0
    else
      var j := 2 * Landing((n + 1) / 2, index / 2) + index % 2;
      if j < n then j else n - 1
  }

  lemma {:induction false} LandingOfPosition(n: nat, index: nat)
    requires index < n
    ensures Landing(n, index) == index
    decreases n
  {
    if n > 1 {
      LandingOfPosition((n + 1) / 2, index / 2);
    }
  }

  /** Every byte string hashed while building the levels above `level`. */
  ghost function TreePreimages(sha: Sha256d, level: Level): set<seq<Byte>>
    decreases |level|
  {
    if |level| == 1 then {}
    else (set j | 0 <= j < (|level| + 1) / 2 :: Children(level, j)) + TreePreimages(sha, NextLevel(sha, level))
  }

  /** Every byte string hashed while folding a proof. */
  ghost function FoldPreimages(sha: Sha256d, current: Digest, index: nat, proof: seq<Digest>): set<seq<Byte>>
    decreases |proof|
  {
    if proof == [] then {}
    else
      var p := StepPreimage(current, index, proof[0]);
      {p} + FoldPreimages(sha, sha(p), index / 2, proof[1..])
  }

  /** Two different strings, one from each set, with the same digest. */
  ghost predicate Collides(sha: Sha256d, a: set<seq<Byte>>, b: set<seq<Byte>>)
  {
    exists x, y :: x in a && y in b && x != y && sha(x) == sha(y)
  }

  lemma CollidesIntro(sha: Sha256d, a: set<seq<Byte>>, b: set<seq<Byte>>, x: seq<Byte>, y: seq<Byte>)
    requires x in a && y in b && x != y && sha(x) == sha(y)
    ensures Collides(sha, a, b)
  {
  }

  lemma CollidesMonotone(sha: Sha256d, a: set<seq<Byte>>, b: set<seq<Byte>>, a': set<seq<Byte>>, b': set<seq<Byte>>)
    requires Collides(sha, a, b) && a <= a' && b <= b'
    ensures Collides(sha, a', b')
  {
    var x, y :| x in a && y in b && x != y && sha(x) == sha(y);
    CollidesIntro(sha, a', b', x, y);
  }

  lemma ChildrenInTree(sha: Sha256d, level: Level, j: nat)
    requires |level| > 1 && j < (|level| + 1) / 2
    ensures Children(level, j) in TreePreimages(sha, level)
  {
  }

  /** Equal 64-byte preimages have equal halves, so the current node is one of the two children. */
  lemma StepIsChild(level: Level, current: Digest, index: nat, sibling: Digest, j: nat)
    requires j < (|level| + 1) / 2 && StepPreimage(current, index, sibling) == Children(level, j)
    ensures current == level[if 2 * j + index % 2 < |level| then 2 * j + index % 2 else |level| - 1]
  {
    var p, q := StepPreimage(current, index, sibling), Children(level, j);
    assert p[..32] == q[..32] && p[32..] == q[32..];
    assert p[..32] == if index % 2 == 1 then sibling else current;
    assert p[32..] == if index % 2 == 1 then current else sibling;
  }

  /** A proof of the right length that reaches the root started at the leaf its index leads to. */
  lemma {:induction false} Descend(sha: Sha256d, level: Level, current: Digest, index: nat, proof: seq<Digest>)
    requires |proof| == Depth(|level|)
    requires Fold(sha, current, index, proof) == Root(sha, level)
    ensures current == level[Landing(|level|, index)]
         || Collides(sha, TreePreimages(sha, level), FoldPreimages(sha, current, index, proof))
    decreases |level|
  {
    hide Children;
    hide StepPreimage;
    hide Collides;
    if |level| > 1 {
      var next := NextLevel(sha, level);
      var p := StepPreimage(current, index, proof[0]);
      var tree, fold := TreePreimages(sha, level), FoldPreimages(sha, current, index, proof);
      Descend(sha, next, sha(p), index / 2, proof[1..]);
      var j := Landing(|next|, index / 2);
      if sha(p) == next[j] {
        var q := Children(level, j);
        ChildrenInTree(sha, level, j);
        if p == q {
          StepIsChild(level, current, index, proof[0], j);
        } else {
          CollidesIntro(sha, tree, fold, q, p);
        }
      } else {
        CollidesMonotone(sha, TreePreimages(sha, next), FoldPreimages(sha, sha(p), index / 2, proof[1..]), tree, fold);
      }
    }
  }

  /** The level `k` steps above `level`. */
  function Up(sha: Sha256d, level: Level, k: nat): (up: Level)
    requires k <= Depth(|level|)
    ensures Depth(|up|) == Depth(|level|) - k
    decreases k
  {
    if k == 0 then level else Up(sha, NextLevel(sha, level), k - 1)
  }

  lemma {:induction false} UpFacts(sha: Sha256d, level: Level, k: nat)
    requires k <= Depth(|level|)
    ensures Root(sha, Up(sha, level, k)) == Root(sha, level)
    ensures TreePreimages(sha, Up(sha, level, k)) <= TreePreimages(sha, level)
    ensures k > 0 ==> forall j | 0 <= j < |Up(sha, level, k)| ::
                        exists x :: x in TreePreimages(sha, level) && |x| == 64 && sha(x) == Up(sha, level, k)[j]
    decreases k
  {
    if k == 1 {
      forall j | 0 <= j < |Up(sha, level, k)|
        ensures exists x :: x in TreePreimages(sha, level) && |x| == 64 && sha(x) == Up(sha, level, k)[j]
      {
        ChildrenInTree(sha, level, j);
        assert Up(sha, level, k) == NextLevel(sha, level);
      }
    } else if k > 1 {
      UpFacts(sha, NextLevel(sha, level), k - 1);
    }
  }

  /** A fold of two proofs end to end: where it stands after the first, and that the first ended in a 64-byte hash. */
  lemma {:induction false} FoldSplit(sha: Sha256d, current: Digest, index: nat, proof: seq<Digest>, n: nat)
    returns (middle: Digest, rest: nat)
    requires n <= |proof|
    ensures n == 0 ==> middle == current
    ensures Fold(sha, current, index, proof) == Fold(sha, middle, rest, proof[n..])
    ensures FoldPreimages(sha, middle, rest, proof[n..]) <= FoldPreimages(sha, current, index, proof)
    ensures n > 0 ==> exists x :: x in FoldPreimages(sha, current, index, proof) && |x| == 64 && sha(x) == middle
    decreases n
  {
    if n == 0 {
      middle, rest := current, index;
      assert proof[0..] == proof;
    } else {
      var p := StepPreimage(current, index, proof[0]);
      middle, rest := FoldSplit(sha, sha(p), index / 2, proof[1..], n - 1);
      assert proof[1..][n - 1..] == proof[n..];
    }
  }

  function Leaves(sha: Sha256d, txs: seq<seq<Byte>>): (level: Level)
    requires |txs| > 0
    ensures |level| == |txs|
  {
    seq<Digest>(|txs|, i requires 0 <= i < |txs| => sha(txs[i]))
  }

  /** Everything hashed to build a block's Merkle root, from its transactions up. */
  ghost function BlockPreimages(sha: Sha256d, txs: seq<seq<Byte>>): set<seq<Byte>>
    requires |txs| > 0
  {
    (set t | t in txs) + TreePreimages(sha, Leaves(sha, txs))
  }

  /** Everything hashed to check one inclusion proof. */
  ghost function ProofPreimages(sha: Sha256d, rawTx: seq<Byte>, index: nat, proof: seq<Digest>): set<seq<Byte>>
  {
    {rawTx} + FoldPreimages(sha, sha(rawTx), index, proof)
  }

  predicate No64ByteTransaction(txs: seq<seq<Byte>>) { forall t | t in txs :: |t| != 64 }

  lemma ProofOfFullDepth(sha: Sha256d, txs: seq<seq<Byte>>, rawTx: seq<Byte>, index: nat, proof: seq<Digest>)
    requires |txs| > 0 && |proof| == Depth(|txs|)
    requires Fold(sha, sha(rawTx), index, proof) == Root(sha, Leaves(sha, txs))
    ensures || rawTx == txs[Landing(|txs|, index)]
            || Collides(sha, BlockPreimages(sha, txs), ProofPreimages(sha, rawTx, index, proof))
  {
    var leaves, j := Leaves(sha, txs), Landing(|txs|, index);
    var block, used := BlockPreimages(sha, txs), ProofPreimages(sha, rawTx, index, proof);
    Descend(sha, leaves, sha(rawTx), index, proof);
    if sha(rawTx) != leaves[j] {
      CollidesMonotone(sha, TreePreimages(sha, leaves), FoldPreimages(sha, sha(rawTx), index, proof), block, used);
    } else if rawTx != txs[j] {
      CollidesIntro(sha, block, used, txs[j], rawTx);
    }
  }

  /** A proof that stops below the leaves would make `rawTx` the 64-byte preimage of an inner node. */
  lemma ProofTooShort(sha: Sha256d, txs: seq<seq<Byte>>, rawTx: seq<Byte>, index: nat, proof: seq<Digest>)
    requires |txs| > 0 && |rawTx| != 64 && |proof| < Depth(|txs|)
    requires Fold(sha, sha(rawTx), index, proof) == Root(sha, Leaves(sha, txs))
    ensures Collides(sha, BlockPreimages(sha, txs), ProofPreimages(sha, rawTx, index, proof))
  {
    var leaves, under := Leaves(sha, txs), Depth(|txs|) - |proof|;
    var block, used := BlockPreimages(sha, txs), ProofPreimages(sha, rawTx, index, proof);
    var start := Up(sha, leaves, under);
    UpFacts(sha, leaves, under);
    Descend(sha, start, sha(rawTx), index, proof);
    var j := Landing(|start|, index);
    if sha(rawTx) != start[j] {
      CollidesMonotone(sha, TreePreimages(sha, start), FoldPreimages(sha, sha(rawTx), index, proof), block, used);
    } else {
      var x :| x in TreePreimages(sha, leaves) && |x| == 64 && sha(x) == start[j];
      CollidesIntro(sha, block, used, x, rawTx);
    }
  }

  /** A proof that goes past the leaves would make a transaction the 64-byte preimage of a proof step. */
  lemma ProofTooLong(sha: Sha256d, txs: seq<seq<Byte>>, rawTx: seq<Byte>, index: nat, proof: seq<Digest>)
    requires |txs| > 0 && No64ByteTransaction(txs) && |proof| > Depth(|txs|)
    requires Fold(sha, sha(rawTx), index, proof) == Root(sha, Leaves(sha, txs))
    ensures Collides(sha, BlockPreimages(sha, txs), ProofPreimages(sha, rawTx, index, proof))
  {
    var leaves, over := Leaves(sha, txs), |proof| - Depth(|txs|);
    var block, used := BlockPreimages(sha, txs), ProofPreimages(sha, rawTx, index, proof);
    var middle, rest := FoldSplit(sha, sha(rawTx), index, proof, over);
    Descend(sha, leaves, middle, rest, proof[over..]);
    var j := Landing(|txs|, rest);
    if middle != leaves[j] {
      CollidesMonotone(sha, TreePreimages(sha, leaves), FoldPreimages(sha, middle, rest, proof[over..]), block, used);
    } else {
      var x :| x in FoldPreimages(sha, sha(rawTx), index, proof) && |x| == 64 && sha(x) == middle;
      CollidesIntro(sha, block, used, txs[j], x);
    }
  }

  /**
   * Soundness: an accepted proof against the root of a block without 64-byte
   * transactions has exactly the tree's depth and proves the transaction at
   * the position its index leads to, or the strings hashed by the block and
   * by the proof contain an explicit collision.
   */
  lemma MerkleSoundness(sha: Sha256d, txs: seq<seq<Byte>>, rawTx: seq<Byte>, index: nat, proof: seq<Digest>)
    requires |txs| > 0 && No64ByteTransaction(txs) && |rawTx| != 64
    requires Fold(sha, sha(rawTx), index, proof) == Root(sha, Leaves(sha, txs))
    ensures || (|proof| == Depth(|txs|) && rawTx == txs[Landing(|txs|, index)])
            || Collides(sha, BlockPreimages(sha, txs), ProofPreimages(sha, rawTx, index, proof))
  {
    if |proof| == Depth(|txs|) {
      ProofOfFullDepth(sha, txs, rawTx, index, proof);
    } else if |proof| < Depth(|txs|) {
      ProofTooShort(sha, txs, rawTx, index, proof);
    } else {
      ProofTooLong(sha, txs, rawTx, index, proof);
    }
  }

  /** With an index that names a transaction of the block, the proof binds that very position. */
  lemma MerklePositionBinding(sha: Sha256d, txs: seq<seq<Byte>>, rawTx: seq<Byte>, index: nat, proof: seq<Digest>)
    requires No64ByteTransaction(txs) && |rawTx| != 64 && index < |txs|
    requires Fold(sha, sha(rawTx), index, proof) == Root(sha, Leaves(sha, txs))
    ensures rawTx == txs[index] || Collides(sha, BlockPreimages(sha, txs), ProofPreimages(sha, rawTx, index, proof))
  {
    MerkleSoundness(sha, txs, rawTx, index, proof);
    LandingOfPosition(|txs|, index);
  }

  /**
   * Why 64-byte transactions are refused: in every block of two or more, the
   * preimage of each node just above the leaves folds to the root by a path
   * one step short, although it need not be a transaction.
   */
  lemma InnerNodeWouldPass(sha: Sha256d, txs: seq<seq<Byte>>, j: nat)
    requires |txs| >= 2 && j < (|txs| + 1) / 2
    ensures var leaves := Leaves(sha, txs);
            var proof := Path(sha, NextLevel(sha, leaves), j);
            && |Children(leaves, j)| == 64
            && |proof| == Depth(|txs|) - 1
            && Fold(sha, sha(Children(leaves, j)), j, proof) == Root(sha, leaves)
  {
    MerkleCompleteness(sha, NextLevel(sha, Leaves(sha, txs)), j);
  }
}
