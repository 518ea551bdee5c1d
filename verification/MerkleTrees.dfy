/** The Merkle tree as the code holds it, a list of layers of hexadecimal digests, and its
    verifier. Each method is proved against the definitions of `LeafTree`. */
module MerkleTrees {
  import opened Results
  import opened Encoding
  import opened Merkle
  import opened LeafTree

  /** The hexadecimal digests of a list of trees. */
  function HexLayer(sha: Sha256, ts: seq<Tree>): (r: seq<string>)
    ensures |r| == |ts|
    ensures forall i :: 0 <= i < |r| ==> r[i] == Hex(TreeDigest(sha, ts[i]))
  {
    seq(|ts|, i requires 0 <= i < |ts| => Hex(TreeDigest(sha, ts[i])))
  }

  /** `layers` is the lowest part of the tree over `ts`. */
  ghost predicate LowestLayers(sha: Sha256, ts: seq<Tree>, layers: seq<seq<string>>) {
    forall k :: 0 <= k < |layers| ==> layers[k] == HexLayer(sha, Layer(ts, k))
  }

  lemma LayersBelow(sha: Sha256, ts: seq<Tree>, layers: seq<seq<string>>, above: seq<seq<string>>)
    requires LowestLayers(sha, ts, layers) && |above| == |layers| + 1 && above[..|layers|] == layers
    requires above[|layers|] == HexLayer(sha, Layer(ts, |layers|))
    ensures LowestLayers(sha, ts, above)
  {
    hide HexLayer, Layer;
    forall k | 0 <= k < |above|
      ensures above[k] == HexLayer(sha, Layer(ts, k))
    {
      if k < |layers| {
        assert above[k] == layers[k];
      }
    }
  }

  lemma OneMoreLayer(sha: Sha256, ts: seq<Tree>, layers: seq<seq<string>>)
    requires layers != [] && LowestLayers(sha, ts, layers)
    ensures LowestLayers(sha, ts, layers + [HexLayer(sha, PairUp(Layer(ts, |layers| - 1)))])
  {
    hide HexLayer, PairUp, LowestLayers;
    var above := layers + [HexLayer(sha, PairUp(Layer(ts, |layers| - 1)))];
    assert LowestLayers(sha, ts, above) by {
      LayersBelow(sha, ts, layers, above);
    }
  }

  lemma HashNodeOfSiblings(sha: Sha256, ts: seq<Tree>, i: nat)
    requires i < |ts| && i % 2 == 0
    ensures HashNode(sha, HexLayer(sha, ts)[i], HexLayer(sha, ts)[Sibling(i, |ts|)])
         == Success(HexLayer(sha, PairUp(ts))[i / 2])
  {
    hide HashNode, Hex, PairInput;
    HashNodeOfDigests(sha, TreeDigest(sha, ts[i]), TreeDigest(sha, ts[Sibling(i, |ts|)]));
    assert PairUp(ts)[i / 2] == Node(ts[i], ts[Sibling(i, |ts|)]);
  }

  lemma OneMoreSibling(sha: Sha256, ts: seq<Tree>, i: nat, k: nat)
    requires i < |ts|
    ensures Ancestor(i, k) < |Layer(ts, k)|
    ensures var layer := HexLayer(sha, Layer(ts, k));
            ProofUpTo(sha, ts, i, k + 1) == ProofUpTo(sha, ts, i, k) + [layer[Sibling(Ancestor(i, k), |layer|)]]
  {
    AncestorInLayer(ts, i, k);
  }

  method SiblingIn(layer: seq<string>, idx: nat) returns (sibling: string)
    requires idx < |layer|
    ensures sibling == layer[Sibling(idx, |layer|)]
  {
    var siblingIdx := if idx % 2 == 0 then idx + 1 else idx - 1;
    sibling := if siblingIdx < |layer| then layer[siblingIdx] else layer[idx];
  }

  /** `above` holds the hashes of the pairs of `layer`. */
  ghost predicate PairsHashTo(sha: Sha256, layer: seq<string>, above: seq<string>) {
    && |above| == (|layer| + 1) / 2
    && forall i :: 0 <= i < |above| ==> HashNode(sha, layer[2 * i], layer[Sibling(2 * i, |layer|)]) == Success(above[i])
  }

  lemma PairUpHashes(sha: Sha256, ts: seq<Tree>)
    ensures PairsHashTo(sha, HexLayer(sha, ts), HexLayer(sha, PairUp(ts)))
  {
    var layer, above := HexLayer(sha, ts), HexLayer(sha, PairUp(ts));
    forall i | 0 <= i < |above|
      ensures HashNode(sha, layer[2 * i], layer[Sibling(2 * i, |layer|)]) == Success(above[i])
    {
      HashNodeOfSiblings(sha, ts, 2 * i);
    }
  }

  /** One pass over a layer, hashing the nodes in pairs. */
  method NextLayer(sha: Sha256, current: seq<string>, ghost above: seq<string>) returns (nextLayer: seq<string>)
    requires PairsHashTo(sha, current, above)
    ensures nextLayer == above
  {
    hide HashNode;
    nextLayer := [];
    var i := 0;
    while i < |current|
      invariant i == 2 * |nextLayer| && |nextLayer| <= |above|
      invariant nextLayer == above[..|nextLayer|]
    {
      var left := current[i];
      var right := if i + 1 < |current| then current[i + 1] else current[i];
      var node := HashNode(sha, left, right);
      assert node == Success(above[|nextLayer|]);
      nextLayer := nextLayer + [node.value];
      i := i + 2;
    }
  }

  class MerkleTree {
    const sha: Sha256
    var leafHashes: seq<string>
    var layers: seq<seq<string>>

    /** The object holds exactly the layers of the tree over `leaves`. */
    ghost predicate Represents(leaves: seq<string>)
      reads this
    {
      && leaves != []
      && leafHashes == HexLayer(sha, Leaves(leaves))
      && |layers| == Height(|leaves|) + 1
      && LowestLayers(sha, Leaves(leaves), layers)
    }

    constructor (sha: Sha256, leaves: seq<string>)
      requires leaves != []
      ensures Represents(leaves) && this.sha == sha
    {
      this.sha := sha;
      leafHashes := seq(|leaves|, i requires 0 <= i < |leaves| => HashLeaf(sha, leaves[i]));
      layers := [seq(|leaves|, i requires 0 <= i < |leaves| => HashLeaf(sha, leaves[i]))];
      new;
      Build(leaves);
    }

    /** The list of leaves must not be empty. */
    static method Create(sha: Sha256, leaves: seq<string>) returns (r: Result<MerkleTree>)
      ensures leaves == [] ==> r == Failure(ValueError)
      ensures leaves != [] ==> r.Success? && fresh(r.value) && r.value.sha == sha && r.value.Represents(leaves)
    {
      if leaves == [] {
        return Failure(ValueError);
      }
      var tree := new MerkleTree(sha, leaves);
      r := Success(tree);
    }

    method Build(ghost leaves: seq<string>)
      requires leaves != [] && leafHashes == HexLayer(sha, Leaves(leaves)) && layers == [leafHashes]
      modifies this`layers
      ensures Represents(leaves)
    {
      hide HexLayer, PairUp, HashNode, NodeInput, Hex, Leaves, PairsHashTo, TreeDigest;
      ghost var ts := Leaves(leaves);
      var current := layers[0];
      while |current| > 1
        invariant 1 <= |layers| <= Height(|leaves|) + 1
        invariant LowestLayers(sha, ts, layers)
        invariant current == layers[|layers| - 1]
        decreases |current|
      {
        LayerHeight(ts, |layers| - 1);
        PairUpHashes(sha, Layer(ts, |layers| - 1));
        var nextLayer := NextLayer(sha, current, HexLayer(sha, PairUp(Layer(ts, |layers| - 1))));
        OneMoreLayer(sha, ts, layers);
        layers := layers + [nextLayer];
        current := nextLayer;
      }
      LayerHeight(ts, |layers| - 1);
    }

    /** The root is the digest of the recursively defined tree. */
    method GetRoot(ghost leaves: seq<string>) returns (root: string)
      requires Represents(leaves)
      ensures root == Root(sha, leaves)
    {
      LayerSameTree(Leaves(leaves), Height(|leaves|));
      root := layers[|layers| - 1][0];
    }

    /** For an index in range, the proof of the leaf at that index; `InclusionComplete` says
        that it verifies. */
    method GetProof(index: int, ghost leaves: seq<string>) returns (r: Result<seq<string>>)
      requires Represents(leaves)
      ensures r == if 0 <= index < |leaves| then Success(InclusionProof(sha, leaves, index)) else Failure(IndexError)
    {
      hide Layer, HexLayer, Leaves;
      if index < 0 || index >= |leafHashes| {
        return Failure(IndexError);
      }
      ghost var ts := Leaves(leaves);
      var proof: seq<string> := [];
      var idx: nat := index;
      for k := 0 to |layers| - 1
        invariant idx == Ancestor(index, k)
        invariant proof == ProofUpTo(sha, ts, index, k)
      {
        OneMoreSibling(sha, ts, index, k);
        var sibling := SiblingIn(layers[k], idx);
        proof := proof + [sibling];
        idx := idx / 2;
      }
      r := Success(proof);
    }
  }

  lemma {:induction false} ClimbFails(sha: Sha256, leaf: string, proof: seq<string>, i: nat)
    requires i <= |proof| && Climb(sha, leaf, proof[..i]).Failure?
    ensures Climb(sha, leaf, proof) == Failure(ValueError)
    decreases |proof| - i
  {
    if i < |proof| {
      assert proof[..i + 1][..i] == proof[..i];
      ClimbFails(sha, leaf, proof, i + 1);
    } else {
      assert proof[..i] == proof;
    }
  }

  /** Checking a proof. An element that is not hexadecimal raises. */
  method VerifyProof(sha: Sha256, leaf: string, proof: seq<string>, root: string) returns (r: Result<bool>)
    ensures r == VerificationResult(sha, leaf, proof, root)
  {
    var current := HashLeaf(sha, leaf);
    for i := 0 to |proof|
      invariant Climb(sha, leaf, proof[..i]).Success? && current == Hex(Climb(sha, leaf, proof[..i]).value)
    {
      assert proof[..i + 1][..i] == proof[..i];
      var next := HashNode(sha, current, proof[i]);
      if next.Failure? {
        ClimbFails(sha, leaf, proof, i + 1);
        return Failure(next.error);
      }
      current := next.value;
    }
    assert proof[..|proof|] == proof;
    r := Success(current == root);
  }
}
