/** From a leaf list to its tree: the recursive definition, the layers the code builds, and
    the inclusion proof read off the layers. */
module LeafTree {
  import opened Results
  import opened Encoding
  import opened Merkle

  // ----- Sizes -----

  function Pow2(k: nat): (p: nat)
    ensures p >= 1
  {
    if k == 0 then 1 else 2 * Pow2(k - 1)
  }

  /** The number of layers above the leaves. */
  function Height(n: nat): nat {
    if n <= 1 then 0 else 1 + Height((n + 1) / 2)
  }

  lemma {:induction false} HeightIsLeast(n: nat)
    requires n >= 1
    ensures n <= Pow2(Height(n))
    ensures forall h: nat :: n <= Pow2(h) ==> Height(n) <= h
  {
    if n > 1 {
      HeightIsLeast((n + 1) / 2);
      forall h: nat | n <= Pow2(h)
        ensures Height(n) <= h
      {
        assert h > 0;
        assert (n + 1) / 2 <= Pow2(h - 1);
      }
    }
  }

  // ----- The tree, top down -----

  /** The tree of height `h` over a list of equally high trees: halves of `Pow2(h - 1)` trees, and a
      missing right half is a copy of the left one. */
  function TreeOf(h: nat, ts: seq<Tree>): Tree
    requires 1 <= |ts| <= Pow2(h)
  {
    if h == 0 then ts[0]
    else if |ts| <= Pow2(h - 1) then
      var half := TreeOf(h - 1, ts);
      Node(half, half)
    else
      Node(TreeOf(h - 1, ts[..Pow2(h - 1)]), TreeOf(h - 1, ts[Pow2(h - 1)..]))
  }

  function Leaves(leaves: seq<string>): (ts: seq<Tree>)
    ensures |ts| == |leaves|
    ensures forall i :: 0 <= i < |ts| ==> ts[i] == Leaf(leaves[i])
  {
    seq(|leaves|, i requires 0 <= i < |leaves| => Leaf(leaves[i]))
  }

  function CommitTree(leaves: seq<string>): Tree
    requires leaves != []
  {
    HeightIsLeast(|leaves|);
    TreeOf(Height(|leaves|), Leaves(leaves))
  }

  function Root(sha: Sha256, leaves: seq<string>): string
    requires leaves != []
  {
    Hex(TreeDigest(sha, CommitTree(leaves)))
  }

  /** The root of one leaf hashes a 0 and the leaf. */
  lemma RootOfOne(sha: Sha256, x: string)
    ensures Root(sha, [x]) == Hex(sha([0] + Utf8(x)))
  {
    assert Height(1) == 0;
  }

  /** The root of two leaves hashes a 1 and the hashes of the two, the smaller one first. */
  lemma RootOfTwo(sha: Sha256, x: string, y: string)
    ensures var (a, b) := (sha([0] + Utf8(x)), sha([0] + Utf8(y)));
            && (a == b ==> Root(sha, [x, y]) == Hex(sha([1] + a + a)))
            && (BytesBefore(a, b) ==> Root(sha, [x, y]) == Hex(sha([1] + a + b)))
            && (BytesBefore(b, a) ==> Root(sha, [x, y]) == Hex(sha([1] + b + a)))
            && (a == b || BytesBefore(a, b) || BytesBefore(b, a))
  {
    hide Hex, Utf8, BytesBefore, PairInput;
    var a, b := sha([0] + Utf8(x)), sha([0] + Utf8(y));
    var ts := Leaves([x, y]);
    assert Height(2) == 1 && Pow2(0) == 1 && Pow2(1) == 2;
    assert TreeOf(0, ts[..1]) == Leaf(x) && TreeOf(0, ts[1..]) == Leaf(y);
    assert TreeOf(1, ts) == Node(TreeOf(0, ts[..1]), TreeOf(0, ts[1..]));
    assert LeafInput(x) == [0] + Utf8(x) && LeafInput(y) == [0] + Utf8(y);
    assert TreeDigest(sha, Leaf(x)) == a && TreeDigest(sha, Leaf(y)) == b;
    assert TreeDigest(sha, CommitTree([x, y])) == Parent(sha, a, b);
    PairInputSorted(a, b);
    BeforeIsOneWay(a, b);
  }

  lemma {:induction false} TreeOfOccurs(h: nat, ts: seq<Tree>, data: string, depth: nat)
    requires 1 <= |ts| <= Pow2(h)
    requires forall i :: 0 <= i < |ts| ==> ts[i].Leaf?
    ensures OccursAt(TreeOf(h, ts), data, depth) <==> depth == h && Leaf(data) in ts
    decreases h
  {
    if h > 0 && depth > 0 {
      if |ts| <= Pow2(h - 1) {
        TreeOfOccurs(h - 1, ts, data, depth - 1);
      } else {
        assert ts == ts[..Pow2(h - 1)] + ts[Pow2(h - 1)..];
        TreeOfOccurs(h - 1, ts[..Pow2(h - 1)], data, depth - 1);
        TreeOfOccurs(h - 1, ts[Pow2(h - 1)..], data, depth - 1);
      }
    }
  }

  /** The leaves of the tree are the leaves of the list, all at the tree's height. */
  lemma CommitTreeOccurs(leaves: seq<string>, data: string, depth: nat)
    requires leaves != []
    ensures OccursAt(CommitTree(leaves), data, depth) <==> depth == Height(|leaves|) && data in leaves
  {
    HeightIsLeast(|leaves|);
    TreeOfOccurs(Height(|leaves|), Leaves(leaves), data, depth);
    if data in leaves {
      var i :| 0 <= i < |leaves| && leaves[i] == data;
      assert Leaves(leaves)[i] == Leaf(data);
    }
  }

  // ----- The layers, bottom up -----

  /** The other member of a node's pair. The last node of an odd layer is paired with itself. */
  function Sibling(i: nat, n: nat): (j: nat)
    requires i < n
    ensures j < n
  {
    if i % 2 == 1 then i - 1 else if i + 1 < n then i + 1 else i
  }

  function PairUp(ts: seq<Tree>): (r: seq<Tree>)
    ensures |r| == (|ts| + 1) / 2
  {
    seq((|ts| + 1) / 2, i requires 0 <= i < (|ts| + 1) / 2 => Node(ts[2 * i], ts[Sibling(2 * i, |ts|)]))
  }

  function Layer(ts: seq<Tree>, k: nat): seq<Tree> {
    if k == 0 then ts else PairUp(Layer(ts, k - 1))
  }

  lemma PairUpSlices(ts: seq<Tree>, q: nat)
    requires 2 * q <= |ts|
    ensures PairUp(ts[..2 * q]) == PairUp(ts)[..q]
    ensures PairUp(ts[2 * q..]) == PairUp(ts)[q..]
  {
    forall i | 0 <= i < |PairUp(ts[2 * q..])|
      ensures PairUp(ts[2 * q..])[i] == PairUp(ts)[q..][i]
    {
      assert PairUp(ts)[q..][i] == PairUp(ts)[q + i];
      assert Sibling(2 * (q + i), |ts|) == 2 * q + Sibling(2 * i, |ts| - 2 * q);
    }
  }

  /** Pairing up the bottom layer leaves the tree unchanged. */
  lemma {:induction false} PairUpSameTree(h: nat, ts: seq<Tree>)
    requires 1 <= |ts| <= Pow2(h + 1)
    ensures 1 <= |PairUp(ts)| <= Pow2(h)
    ensures TreeOf(h + 1, ts) == TreeOf(h, PairUp(ts))
    decreases h
  {
    if h > 0 {
      var p, q := Pow2(h), Pow2(h - 1);
      if |ts| <= p {
        PairUpSameTree(h - 1, ts);
      } else {
        PairUpSameTree(h - 1, ts[..p]);
        PairUpSameTree(h - 1, ts[p..]);
        PairUpSlices(ts, q);
      }
    }
  }

  lemma {:induction false} LayerHeight(ts: seq<Tree>, k: nat)
    requires ts != [] && k <= Height(|ts|)
    ensures Layer(ts, k) != [] && Height(|Layer(ts, k)|) == Height(|ts|) - k
  {
    if k > 0 {
      LayerHeight(ts, k - 1);
    }
  }

  /** Every layer is a list of subtrees whose tree is the tree of the leaves; the last one is the
      tree itself. */
  lemma {:induction false} LayerSameTree(ts: seq<Tree>, k: nat)
    requires ts != [] && k <= Height(|ts|)
    ensures |ts| <= Pow2(Height(|ts|)) && 1 <= |Layer(ts, k)| <= Pow2(Height(|ts|) - k)
    ensures TreeOf(Height(|ts|) - k, Layer(ts, k)) == TreeOf(Height(|ts|), ts)
    ensures k == Height(|ts|) ==> Layer(ts, k) == [TreeOf(Height(|ts|), ts)]
  {
    HeightIsLeast(|ts|);
    if k > 0 {
      LayerSameTree(ts, k - 1);
      LayerHeight(ts, k - 1);
      PairUpSameTree(Height(|ts|) - k, Layer(ts, k - 1));
    }
  }

  lemma HalvedSize(below: nat, p: nat, n: nat)
    requires (below - 1) * p < n <= below * p
    ensures ((below + 1) / 2 - 1) * (2 * p) < n <= (below + 1) / 2 * (2 * p)
  {
    var above := (below + 1) / 2;
    assert above * (2 * p) == 2 * above * p && (above - 1) * (2 * p) == (2 * above - 2) * p;
    if below % 2 == 0 {
      assert 2 * above == below;
      assert (below - 2) * p == (below - 1) * p - p;
    } else {
      assert 2 * above == below + 1;
      assert (below + 1) * p == below * p + p;
    }
  }

  /** Layer `k` over `n` leaves has `n / 2^k` nodes, rounded up. */
  lemma {:induction false} LayerSize(ts: seq<Tree>, k: nat)
    requires ts != []
    ensures (|Layer(ts, k)| - 1) * Pow2(k) < |ts| <= |Layer(ts, k)| * Pow2(k)
  {
    if k > 0 {
      LayerSize(ts, k - 1);
      HalvedSize(|Layer(ts, k - 1)|, Pow2(k - 1), |ts|);
    }
  }

  // ----- Inclusion proofs -----

  /** The position above position `i`, `k` layers up. */
  function Ancestor(i: nat, k: nat): nat {
    if k == 0 then i else Ancestor(i, k - 1) / 2
  }

  lemma {:induction false} AncestorInLayer(ts: seq<Tree>, i: nat, k: nat)
    requires i < |ts|
    ensures Ancestor(i, k) < |Layer(ts, k)|
  {
    if k > 0 {
      AncestorInLayer(ts, i, k - 1);
    }
  }

  /** The siblings met in the lowest `k` layers on the way up from position `i`. */
  function ProofUpTo(sha: Sha256, ts: seq<Tree>, i: nat, k: nat): (proof: seq<string>)
    requires i < |ts|
    ensures |proof| == k
  {
    if k == 0 then [] else
      AncestorInLayer(ts, i, k - 1);
      var layer := Layer(ts, k - 1);
      ProofUpTo(sha, ts, i, k - 1) + [Hex(TreeDigest(sha, layer[Sibling(Ancestor(i, k - 1), |layer|)]))]
  }

  function InclusionProof(sha: Sha256, leaves: seq<string>, i: nat): seq<string>
    requires i < |leaves|
  {
    ProofUpTo(sha, Leaves(leaves), i, Height(|leaves|))
  }

  /** Hashing a node with its sibling, in either order, gives the node above them. */
  lemma PairDigest(sha: Sha256, layer: seq<Tree>, at: nat)
    requires at < |layer|
    ensures Parent(sha, TreeDigest(sha, layer[at]), TreeDigest(sha, layer[Sibling(at, |layer|)]))
         == TreeDigest(sha, PairUp(layer)[at / 2])
  {
    var a, b := layer[at], layer[Sibling(at, |layer|)];
    var above := PairUp(layer)[at / 2];
    if at % 2 == 0 {
      assert above == Node(a, b);
    } else {
      assert at == 2 * (at / 2) + 1;
      assert above == Node(b, a);
      PairInputCommutes(TreeDigest(sha, a), TreeDigest(sha, b));
    }
  }

  lemma {:induction false} ProofClimbs(sha: Sha256, leaves: seq<string>, i: nat, k: nat)
    requires i < |leaves|
    ensures Ancestor(i, k) < |Layer(Leaves(leaves), k)|
    ensures Climb(sha, leaves[i], ProofUpTo(sha, Leaves(leaves), i, k))
         == Success(TreeDigest(sha, Layer(Leaves(leaves), k)[Ancestor(i, k)]))
  {
    var ts := Leaves(leaves);
    AncestorInLayer(ts, i, k);
    if k > 0 {
      ProofClimbs(sha, leaves, i, k - 1);
      var layer, at := Layer(ts, k - 1), Ancestor(i, k - 1);
      var sibling := TreeDigest(sha, layer[Sibling(at, |layer|)]);
      ClimbStep(sha, leaves[i], ProofUpTo(sha, ts, i, k - 1), TreeDigest(sha, layer[at]), sibling);
      PairDigest(sha, layer, at);
    }
  }

  /** What a verifier answers for a root given as a string. */
  function VerificationResult(sha: Sha256, leaf: string, proof: seq<string>, root: string): Result<bool> {
    match Climb(sha, leaf, proof)
    case Success(digest) => Success(Hex(digest) == root)
    case Failure(error) => Failure(error)
  }

  lemma {:induction false} LastInputDecodes(sha: Sha256, leaf: string, proof: seq<string>)
    ensures LastInput(sha, leaf, proof).Some? <==> forall i :: 0 <= i < |proof| ==> FromHex(proof[i]).Some?
  {
    hide FromHex, NodeInput, StringBefore, Hex;
    if proof != [] {
      var front, last := proof[..|proof| - 1], proof[|proof| - 1];
      LastInputDecodes(sha, leaf, front);
      if LastInput(sha, leaf, front).Some? {
        NodeInputSorted(Hex(sha(LastInput(sha, leaf, front).value)), last);
      }
      assert forall i :: 0 <= i < |front| ==> front[i] == proof[i];
    }
  }

  /** A verifier raises exactly on a proof with an element that is not hexadecimal, and accepts a leaf and a
      proof against one root only. */
  lemma VerifierIsExact(sha: Sha256, leaf: string, proof: seq<string>, root: string, other: string)
    ensures VerificationResult(sha, leaf, proof, root).Failure? <==> exists i :: 0 <= i < |proof| && FromHex(proof[i]).None?
    ensures VerificationResult(sha, leaf, proof, root) == VerificationResult(sha, leaf, proof, other) == Success(true)
            ==> root == other
  {
    LastInputDecodes(sha, leaf, proof);
  }

  /** Completeness: for every leaf count and every index, the proof has the height of the tree,
      which is the least `h` with `2^h` at least the leaf count, and it verifies. */
  lemma InclusionComplete(sha: Sha256, leaves: seq<string>, i: nat)
    requires i < |leaves|
    ensures |InclusionProof(sha, leaves, i)| == Height(|leaves|)
    ensures VerificationResult(sha, leaves[i], InclusionProof(sha, leaves, i), Root(sha, leaves)) == Success(true)
  {
    var h := Height(|leaves|);
    ProofClimbs(sha, leaves, i, h);
    LayerSameTree(Leaves(leaves), h);
  }

  /** Soundness: whatever proof a verifier accepts against the root of a leaf list is for a member of
      the list and as long as the tree is high, or the verifier and the builder hashed two different
      inputs to the same digest. */
  lemma InclusionSound(sha: Sha256, leaves: seq<string>, leaf: string, proof: seq<string>)
    requires leaves != []
    requires VerificationResult(sha, leaf, proof, Root(sha, leaves)) == Success(true)
    ensures (leaf in leaves && |proof| == Height(|leaves|))
            || Collision(sha, ProofInputs(sha, leaf, proof), TreeInputs(sha, CommitTree(leaves)))
  {
    var t := CommitTree(leaves);
    HexInjective(Climb(sha, leaf, proof).value, TreeDigest(sha, t));
    ProofSound(sha, t, leaf, proof);
    CommitTreeOccurs(leaves, leaf, |proof|);
  }

  // ----- What a root commits to -----

  /** Two leaf lists have the same root exactly when their trees differ only by exchanged
      siblings, unless building them hashed two different inputs to the same digest. */
  lemma RootBinding(sha: Sha256, xs: seq<string>, ys: seq<string>)
    requires xs != [] && ys != []
    ensures SameUpToSwaps(CommitTree(xs), CommitTree(ys)) ==> Root(sha, xs) == Root(sha, ys)
    ensures Root(sha, xs) == Root(sha, ys)
            ==> SameUpToSwaps(CommitTree(xs), CommitTree(ys))
                || Collision(sha, TreeInputs(sha, CommitTree(xs)), TreeInputs(sha, CommitTree(ys)))
  {
    var t, u := CommitTree(xs), CommitTree(ys);
    if SameUpToSwaps(t, u) {
      SameUpToSwapsSameDigest(sha, t, u);
    }
    if Root(sha, xs) == Root(sha, ys) {
      HexInjective(TreeDigest(sha, t), TreeDigest(sha, u));
      SameDigestSameUpToSwaps(sha, t, u);
    }
  }

  lemma SameLeaf(xs: seq<string>, ys: seq<string>, x: string)
    requires xs != [] && ys != [] && SameUpToSwaps(CommitTree(xs), CommitTree(ys))
    ensures x in xs ==> x in ys && Height(|xs|) == Height(|ys|)
    ensures x in ys ==> x in xs && Height(|xs|) == Height(|ys|)
  {
    CommitTreeOccurs(xs, x, Height(|xs|));
    CommitTreeOccurs(ys, x, Height(|xs|));
    CommitTreeOccurs(xs, x, Height(|ys|));
    CommitTreeOccurs(ys, x, Height(|ys|));
    SameUpToSwapsSameLeaves(CommitTree(xs), CommitTree(ys), x, Height(|xs|));
    SameUpToSwapsSameLeaves(CommitTree(xs), CommitTree(ys), x, Height(|ys|));
  }

  /** In particular the same root means the same height and the same set of leaves. */
  lemma RootBindsLeaves(sha: Sha256, xs: seq<string>, ys: seq<string>)
    requires xs != [] && ys != [] && Root(sha, xs) == Root(sha, ys)
    ensures (Height(|xs|) == Height(|ys|) && forall x :: x in xs <==> x in ys)
            || Collision(sha, TreeInputs(sha, CommitTree(xs)), TreeInputs(sha, CommitTree(ys)))
  {
    var t, u := CommitTree(xs), CommitTree(ys);
    RootBinding(sha, xs, ys);
    if SameUpToSwaps(t, u) {
      forall x
        ensures x in xs <==> x in ys && Height(|xs|) == Height(|ys|)
      {
        SameLeaf(xs, ys, x);
      }
      assert xs[0] in xs;
    }
  }

  lemma SwapsReflexive(t: Tree)
    ensures SameUpToSwaps(t, t)
  {
  }

  lemma {:induction false} TreeOfSwaps(h: nat, ts: seq<Tree>, us: seq<Tree>)
    requires 1 <= |ts| == |us| <= Pow2(h)
    requires forall i :: 0 <= i < |ts| ==> SameUpToSwaps(ts[i], us[i])
    ensures SameUpToSwaps(TreeOf(h, ts), TreeOf(h, us))
    decreases h
  {
    if h > 0 {
      if |ts| <= Pow2(h - 1) {
        TreeOfSwaps(h - 1, ts, us);
      } else {
        TreeOfSwaps(h - 1, ts[..Pow2(h - 1)], us[..Pow2(h - 1)]);
        TreeOfSwaps(h - 1, ts[Pow2(h - 1)..], us[Pow2(h - 1)..]);
      }
    }
  }

  /** A list and a list of the same height whose paired-up layers differ only by swaps. */
  lemma SamePairsSameCommitment(xs: seq<string>, ys: seq<string>)
    requires |xs| > 1 && |ys| > 1 && |PairUp(Leaves(xs))| == |PairUp(Leaves(ys))|
    requires forall j :: 0 <= j < |PairUp(Leaves(xs))| ==> SameUpToSwaps(PairUp(Leaves(xs))[j], PairUp(Leaves(ys))[j])
    ensures SameUpToSwaps(CommitTree(xs), CommitTree(ys))
  {
    var h := Height(|xs|);
    HeightIsLeast(|xs|);
    HeightIsLeast(|ys|);
    PairUpSameTree(h - 1, Leaves(xs));
    PairUpSameTree(h - 1, Leaves(ys));
    TreeOfSwaps(h - 1, PairUp(Leaves(xs)), PairUp(Leaves(ys)));
  }

  function SwapSiblings(leaves: seq<string>, i: nat): seq<string>
    requires 2 * i + 1 < |leaves|
  {
    leaves[2 * i := leaves[2 * i + 1]][2 * i + 1 := leaves[2 * i]]
  }

  /** Exchanging two sibling leaves does not change the root. */
  lemma SiblingSwapKeepsRoot(sha: Sha256, leaves: seq<string>, i: nat)
    requires 2 * i + 1 < |leaves|
    ensures Root(sha, SwapSiblings(leaves, i)) == Root(sha, leaves)
  {
    var swapped := SwapSiblings(leaves, i);
    var ts, us := PairUp(Leaves(leaves)), PairUp(Leaves(swapped));
    forall j | 0 <= j < |us|
      ensures SameUpToSwaps(us[j], ts[j])
    {
      if j == i {
        var a, b := Leaf(leaves[2 * i]), Leaf(leaves[2 * i + 1]);
        assert ts[i] == Node(a, b) && us[i] == Node(b, a);
        assert SameUpToSwaps(a, a) && SameUpToSwaps(b, b);
      } else {
        assert us[j] == ts[j];
        SwapsReflexive(ts[j]);
      }
    }
    SamePairsSameCommitment(swapped, leaves);
    RootBinding(sha, swapped, leaves);
  }

  /** A root does not tell an odd list of three or more leaves from the same list with its last leaf
      repeated. */
  lemma RepeatedLastLeafKeepsRoot(sha: Sha256, leaves: seq<string>)
    requires |leaves| >= 3 && |leaves| % 2 == 1
    ensures Root(sha, leaves + [leaves[|leaves| - 1]]) == Root(sha, leaves)
  {
    var longer := leaves + [leaves[|leaves| - 1]];
    var ts, us := PairUp(Leaves(leaves)), PairUp(Leaves(longer));
    forall j | 0 <= j < |us|
      ensures SameUpToSwaps(us[j], ts[j])
    {
      assert us[j] == ts[j];
      SwapsReflexive(ts[j]);
    }
    SamePairsSameCommitment(longer, leaves);
    RootBinding(sha, longer, leaves);
  }

  /** It does tell a single leaf from two copies of it, up to a collision. */
  lemma RepeatedOnlyLeafChangesRoot(sha: Sha256, leaf: string)
    requires Root(sha, [leaf, leaf]) == Root(sha, [leaf])
    ensures Collision(sha, TreeInputs(sha, CommitTree([leaf, leaf])), TreeInputs(sha, CommitTree([leaf])))
  {
    RootBindsLeaves(sha, [leaf, leaf], [leaf]);
    assert Height(1) == 0 && Height(2) == 1;
  }
}
