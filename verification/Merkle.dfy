/** The Merkle commitment: how leaves and nodes are hashed, the tree as a recursive
    definition over the leaf list, and what a root and an inclusion proof commit to.

    SHA-256 (FIPS 180-4) is a parameter `sha`: nothing here depends on which function
    from byte strings to 32-byte digests it is. A security statement therefore reads
    "the claim holds, or these two computations hashed two different inputs to the
    same digest"; both inputs are among those the named computations feed to SHA-256. */
module Merkle {
  import opened Results
  import opened Encoding

  type Sha256 = Bytes -> Digest

  // ----- Hashing leaves and nodes -----

  const LEAF_PREFIX: byte := 0
  const NODE_PREFIX: byte := 1

  function LeafInput(data: string): Bytes {
    [LEAF_PREFIX] + Utf8(data)
  }

  function LeafDigest(sha: Sha256, data: string): Digest {
    sha(LeafInput(data))
  }

  /** The bytes hashed for a pair of digests, which is sorted by hexadecimal form. */
  function PairInput(a: Digest, b: Digest): (r: Bytes)
    ensures |r| == 65 && r[0] == NODE_PREFIX
  {
    if StringLess(Hex(b), Hex(a)) then [NODE_PREFIX] + b + a else [NODE_PREFIX] + a + b
  }

  function Parent(sha: Sha256, a: Digest, b: Digest): Digest {
    sha(PairInput(a, b))
  }

  /** The same for strings, as a verifier receives them: sorted as strings and decoded. */
  function NodeInput(left: string, right: string): Option<Bytes> {
    var (lo, hi) := if StringLess(right, left) then (right, left) else (left, right);
    match (FromHex(lo), FromHex(hi))
    case (Some(a), Some(b)) => Some([NODE_PREFIX] + a + b)
    case _ => None
  }

  function HashLeaf(sha: Sha256, data: string): string {
    Hex(LeafDigest(sha, data))
  }

  function HashNode(sha: Sha256, left: string, right: string): Result<string> {
    match NodeInput(left, right)
    case Some(input) => Success(Hex(sha(input)))
    case None => Failure(ValueError)
  }

  lemma HashNodeOfDigests(sha: Sha256, a: Digest, b: Digest)
    ensures HashNode(sha, Hex(a), Hex(b)) == Success(Hex(Parent(sha, a, b)))
  {
  }

  /** The bytes hashed for two digests: a 1, and the digests with the smaller one first. */
  ghost predicate HashedPair(input: Bytes, a: Digest, b: Digest) {
    && (a == b ==> input == [1] + a + a)
    && (a != b ==> exists lo, hi: Digest :: {lo, hi} == {a, b} && BytesBefore(lo, hi) && input == [1] + lo + hi)
  }

  lemma PairInputSorted(a: Digest, b: Digest)
    ensures HashedPair(PairInput(a, b), a, b)
  {
    hide Hex, StringLess, BytesBefore;
    HexOrder(a, b);
    HexOrder(b, a);
    StringLessTotal(Hex(a), Hex(b));
    if a != b {
      if Hex(a) == Hex(b) {
        HexInjective(a, b);
      }
      var lo, hi := if StringLess(Hex(b), Hex(a)) then b else a, if StringLess(Hex(b), Hex(a)) then a else b;
      assert {lo, hi} == {a, b} && BytesBefore(lo, hi);
    }
  }

  /** For strings: the smaller string is decoded first, and hashing fails exactly when one does not decode. */
  lemma NodeInputSorted(left: string, right: string)
    ensures NodeInput(left, right).Some? <==> FromHex(left).Some? && FromHex(right).Some?
    ensures NodeInput(left, right).Some? ==>
              && (StringBefore(left, right) || left == right
                  ==> NodeInput(left, right).value == [1] + FromHex(left).value + FromHex(right).value)
              && (StringBefore(right, left)
                  ==> NodeInput(left, right).value == [1] + FromHex(right).value + FromHex(left).value)
  {
    hide StringBefore, FromHex;
    StringLessIs(left, right);
    StringLessIs(right, left);
    StringLessTotal(left, right);
  }

  lemma PairInputCommutes(a: Digest, b: Digest)
    ensures PairInput(a, b) == PairInput(b, a)
  {
    StringLessTotal(Hex(a), Hex(b));
    if Hex(a) == Hex(b) {
      HexInjective(a, b);
    }
  }

  lemma PairInputBinds(a: Digest, b: Digest, c: Digest, d: Digest)
    requires PairInput(a, b) == PairInput(c, d)
    ensures (a == c && b == d) || (a == d && b == c)
  {
    var x, y := PairInput(a, b), PairInput(c, d);
    assert x[1..33] == y[1..33] && x[33..] == y[33..];
    assert (x[1..33] == a && x[33..] == b) || (x[1..33] == b && x[33..] == a);
    assert (y[1..33] == c && y[33..] == d) || (y[1..33] == d && y[33..] == c);
  }

  /** A string that hashes with a digest like two digests do spells one of the two, and the
      digest is the other. */
  lemma NodeInputBinds(a: Digest, s: string, c: Digest, d: Digest)
    requires NodeInput(Hex(a), s) == Some(PairInput(c, d))
    ensures a == c || a == d
  {
    var b := FromHex(s).value;
    var x, y := NodeInput(Hex(a), s).value, PairInput(c, d);
    assert |b| == 32;
    assert (x[1..33] == a && x[33..] == b) || (x[1..33] == b && x[33..] == a);
    assert (y[1..33] == c && y[33..] == d) || (y[1..33] == d && y[33..] == c);
  }

  // ----- Trees -----

  /** The shape a root commits to. A node that has no sibling is its own sibling, so the same
      tree may occur twice below a node. */
  datatype Tree = Leaf(data: string) | Node(left: Tree, right: Tree)

  function TreeDigest(sha: Sha256, t: Tree): Digest {
    match t
    case Leaf(data) => LeafDigest(sha, data)
    case Node(l, r) => Parent(sha, TreeDigest(sha, l), TreeDigest(sha, r))
  }

  /** The input of the hash that gives a tree its digest. */
  function TopInput(sha: Sha256, t: Tree): Bytes {
    match t
    case Leaf(data) => LeafInput(data)
    case Node(l, r) => PairInput(TreeDigest(sha, l), TreeDigest(sha, r))
  }

  /** Every input hashed on the way to the digest of a tree. */
  ghost function TreeInputs(sha: Sha256, t: Tree): (r: set<Bytes>)
    ensures TopInput(sha, t) in r
  {
    match t
    case Leaf(_) => {TopInput(sha, t)}
    case Node(l, r) => TreeInputs(sha, l) + TreeInputs(sha, r) + {TopInput(sha, t)}
  }

  /** `data` is a leaf of `t`, `depth` levels below its root. */
  predicate OccursAt(t: Tree, data: string, depth: nat) {
    match t
    case Leaf(d) => d == data && depth == 0
    case Node(l, r) => depth > 0 && (OccursAt(l, data, depth - 1) || OccursAt(r, data, depth - 1))
  }

  /** The trees differ only by exchanging the children of some nodes. No hash is involved. */
  predicate SameUpToSwaps(t: Tree, u: Tree) {
    match (t, u)
    case (Leaf(d), Leaf(e)) => d == e
    case (Node(a, b), Node(c, d)) =>
      (SameUpToSwaps(a, c) && SameUpToSwaps(b, d)) || (SameUpToSwaps(a, d) && SameUpToSwaps(b, c))
    case _ => false
  }

  // ----- Inclusion proofs -----

  /** The input of the last hash of a verification that gets there. */
  function LastInput(sha: Sha256, leaf: string, proof: seq<string>): Option<Bytes> {
    if proof == [] then Some(LeafInput(leaf)) else
      match LastInput(sha, leaf, proof[..|proof| - 1])
      case Some(input) => NodeInput(Hex(sha(input)), proof[|proof| - 1])
      case None => None
  }

  /** The digest reached from a leaf by folding in the proof, or the error of the first
      element that is not hexadecimal. */
  function Climb(sha: Sha256, leaf: string, proof: seq<string>): Result<Digest> {
    match LastInput(sha, leaf, proof)
    case Some(input) => Success(sha(input))
    case None => Failure(ValueError)
  }

  /** Every input hashed while checking a proof. */
  ghost function ProofInputs(sha: Sha256, leaf: string, proof: seq<string>): set<Bytes> {
    (if proof == [] then {} else ProofInputs(sha, leaf, proof[..|proof| - 1]))
    + (match LastInput(sha, leaf, proof) case Some(input) => {input} case None => {})
  }

  lemma ClimbStep(sha: Sha256, leaf: string, proof: seq<string>, current: Digest, sibling: Digest)
    requires Climb(sha, leaf, proof) == Success(current)
    ensures Climb(sha, leaf, proof + [Hex(sibling)]) == Success(Parent(sha, current, sibling))
  {
    var longer := proof + [Hex(sibling)];
    assert longer[..|longer| - 1] == proof;
  }

  predicate Verifies(sha: Sha256, leaf: string, proof: seq<string>, root: Digest) {
    Climb(sha, leaf, proof) == Success(root)
  }

  /** Two different inputs, one from each computation, with the same digest. */
  ghost predicate Collision(sha: Sha256, first: set<Bytes>, second: set<Bytes>) {
    exists x, y :: x in first && y in second && x != y && sha(x) == sha(y)
  }

  lemma CollisionGrows(sha: Sha256, first: set<Bytes>, second: set<Bytes>, first': set<Bytes>, second': set<Bytes>)
    requires first <= first' && second <= second'
    ensures Collision(sha, first, second) ==> Collision(sha, first', second')
  {
  }

  // ----- Soundness of inclusion proofs -----

  lemma LeafStepSound(sha: Sha256, leaf: string, proof: seq<string>, data: string)
    requires LastInput(sha, leaf, proof) == Some(LeafInput(data))
    ensures proof == [] && leaf == data
  {
    var x := LeafInput(data);
    assert x[0] == LEAF_PREFIX;
    assert proof == [];
    assert Utf8(leaf) == LeafInput(leaf)[1..] == x[1..] == Utf8(data);
    Utf8Injective(leaf, data);
  }

  lemma NodeStepSound(sha: Sha256, leaf: string, proof: seq<string>, left: Digest, right: Digest)
    requires LastInput(sha, leaf, proof) == Some(PairInput(left, right))
    ensures proof != []
    ensures Verifies(sha, leaf, proof[..|proof| - 1], left) || Verifies(sha, leaf, proof[..|proof| - 1], right)
  {
    assert proof != [] by {
      assert LeafInput(leaf)[0] == LEAF_PREFIX;
    }
    var input := LastInput(sha, leaf, proof[..|proof| - 1]).value;
    NodeInputBinds(sha(input), proof[|proof| - 1], left, right);
  }

  /** A proof accepted against the digest of a tree is for a leaf of that tree, and is as long
      as the leaf is deep. No condition on the proof elements is needed. */
  lemma {:induction false} ProofSound(sha: Sha256, t: Tree, leaf: string, proof: seq<string>)
    requires Verifies(sha, leaf, proof, TreeDigest(sha, t))
    ensures OccursAt(t, leaf, |proof|) || Collision(sha, ProofInputs(sha, leaf, proof), TreeInputs(sha, t))
  {
    if LastInput(sha, leaf, proof) == Some(TopInput(sha, t)) {
      match t
      case Leaf(data) =>
        LeafStepSound(sha, leaf, proof, data);
      case Node(l, r) =>
        NodeStepSound(sha, leaf, proof, TreeDigest(sha, l), TreeDigest(sha, r));
        var front := proof[..|proof| - 1];
        var below := if Verifies(sha, leaf, front, TreeDigest(sha, l)) then l else r;
        ProofSound(sha, below, leaf, front);
        CollisionGrows(sha, ProofInputs(sha, leaf, front), TreeInputs(sha, below),
                       ProofInputs(sha, leaf, proof), TreeInputs(sha, t));
    }
  }

  // ----- Exactly what a digest commits to -----

  lemma {:induction false} SameUpToSwapsSameDigest(sha: Sha256, t: Tree, u: Tree)
    requires SameUpToSwaps(t, u)
    ensures TreeDigest(sha, t) == TreeDigest(sha, u)
  {
    if t.Node? {
      if SameUpToSwaps(t.left, u.left) && SameUpToSwaps(t.right, u.right) {
        SameUpToSwapsSameDigest(sha, t.left, u.left);
        SameUpToSwapsSameDigest(sha, t.right, u.right);
      } else {
        SameUpToSwapsSameDigest(sha, t.left, u.right);
        SameUpToSwapsSameDigest(sha, t.right, u.left);
        PairInputCommutes(TreeDigest(sha, t.left), TreeDigest(sha, t.right));
      }
    }
  }

  lemma LeafInputBinds(sha: Sha256, t: Tree, u: Tree)
    requires t.Leaf? || u.Leaf?
    requires TopInput(sha, t) == TopInput(sha, u)
    ensures t == u
  {
    assert forall data :: LeafInput(data)[0] == LEAF_PREFIX;
    assert Utf8(t.data) == TopInput(sha, t)[1..] == TopInput(sha, u)[1..] == Utf8(u.data);
    Utf8Injective(t.data, u.data);
  }

  lemma {:induction false} SameDigestSameUpToSwaps(sha: Sha256, t: Tree, u: Tree)
    requires TreeDigest(sha, t) == TreeDigest(sha, u)
    ensures SameUpToSwaps(t, u) || Collision(sha, TreeInputs(sha, t), TreeInputs(sha, u))
  {
    var x, y := TopInput(sha, t), TopInput(sha, u);
    if x == y {
      if t.Leaf? || u.Leaf? {
        LeafInputBinds(sha, t, u);
      } else {
        var a, b, c, d := TreeDigest(sha, t.left), TreeDigest(sha, t.right), TreeDigest(sha, u.left), TreeDigest(sha, u.right);
        PairInputBinds(a, b, c, d);
        var (u1, u2) := if a == c && b == d then (u.left, u.right) else (u.right, u.left);
        SameDigestSameUpToSwaps(sha, t.left, u1);
        SameDigestSameUpToSwaps(sha, t.right, u2);
        CollisionGrows(sha, TreeInputs(sha, t.left), TreeInputs(sha, u1), TreeInputs(sha, t), TreeInputs(sha, u));
        CollisionGrows(sha, TreeInputs(sha, t.right), TreeInputs(sha, u2), TreeInputs(sha, t), TreeInputs(sha, u));
      }
    }
  }

  lemma {:induction false} SameUpToSwapsSameLeaves(t: Tree, u: Tree, data: string, depth: nat)
    requires SameUpToSwaps(t, u)
    ensures OccursAt(t, data, depth) <==> OccursAt(u, data, depth)
  {
    if t.Node? && depth > 0 {
      if SameUpToSwaps(t.left, u.left) && SameUpToSwaps(t.right, u.right) {
        SameUpToSwapsSameLeaves(t.left, u.left, data, depth - 1);
        SameUpToSwapsSameLeaves(t.right, u.right, data, depth - 1);
      } else {
        SameUpToSwapsSameLeaves(t.left, u.right, data, depth - 1);
        SameUpToSwapsSameLeaves(t.right, u.left, data, depth - 1);
      }
    }
  }
}
