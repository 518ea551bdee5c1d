/** The padding that the build plan describes, the last leaf repeated up to a power of two, against the
    code's, the last node of each odd layer paired with itself. */
module Padding {
  import opened Merkle
  import opened LeafTree

  function Copies(x: Tree, n: nat): (ts: seq<Tree>)
    ensures |ts| == n && forall i :: 0 <= i < n ==> ts[i] == x
  {
    seq(n, i => x)
  }

  /** The trees filled up to `Pow2(h)` with copies of the last one. */
  function PadTo(ts: seq<Tree>, h: nat): (r: seq<Tree>)
    requires 1 <= |ts| <= Pow2(h)
    ensures |r| == Pow2(h)
  {
    ts + Copies(ts[|ts| - 1], Pow2(h) - |ts|)
  }

  function Padded(leaves: seq<string>): (r: seq<string>)
    requires leaves != []
    ensures |r| == Pow2(Height(|leaves|))
  {
    HeightIsLeast(|leaves|);
    leaves + seq(Pow2(Height(|leaves|)) - |leaves|, i => leaves[|leaves| - 1])
  }

  /** The number of leaves below the lowest node that the code fills up, in a tree of height `h`. */
  function Tail(h: nat, n: nat): (k: nat)
    requires 1 <= n <= Pow2(h)
    ensures 1 <= k <= n
  {
    if h > 0 && n > Pow2(h - 1) then Tail(h - 1, n - Pow2(h - 1)) else n
  }

  /** The last `k` leaves are equal. */
  predicate TailEqual(leaves: seq<string>, k: nat)
    requires k <= |leaves|
  {
    forall i :: |leaves| - k <= i < |leaves| ==> leaves[i] == leaves[|leaves| - 1]
  }

  // ----- Swaps are an equivalence -----

  lemma {:induction false} SwapsSymmetric(t: Tree, u: Tree)
    ensures SameUpToSwaps(t, u) <==> SameUpToSwaps(u, t)
  {
    if t.Node? && u.Node? {
      SwapsSymmetric(t.left, u.left);
      SwapsSymmetric(t.right, u.right);
      SwapsSymmetric(t.left, u.right);
      SwapsSymmetric(t.right, u.left);
    }
  }

  lemma {:induction false} SwapsTransitive(t: Tree, u: Tree, v: Tree)
    requires SameUpToSwaps(t, u) && SameUpToSwaps(u, v)
    ensures SameUpToSwaps(t, v)
  {
    if t.Node? {
      var (a, b) := if SameUpToSwaps(t.left, u.left) && SameUpToSwaps(t.right, u.right) then (u.left, u.right) else (u.right, u.left);
      var (c, d) := if SameUpToSwaps(a, v.left) && SameUpToSwaps(b, v.right) then (v.left, v.right) else (v.right, v.left);
      SwapsTransitive(t.left, a, c);
      SwapsTransitive(t.right, b, d);
    }
  }

  /** Two nodes that share a child are the same up to swaps just when the other children are. */
  lemma SharedChild(a: Tree, t: Tree, u: Tree)
    ensures SameUpToSwaps(Node(a, t), Node(a, u)) <==> SameUpToSwaps(t, u)
  {
    SwapsReflexive(a);
    if SameUpToSwaps(a, u) && SameUpToSwaps(t, a) {
      SwapsTransitive(t, a, u);
    }
  }

  // ----- Trees with one leaf value -----

  lemma {:induction false} ConstantTrees(h: nat, ts: seq<Tree>, us: seq<Tree>, x: Tree)
    requires 1 <= |ts| <= Pow2(h) && 1 <= |us| <= Pow2(h)
    requires (forall i :: 0 <= i < |ts| ==> ts[i] == x) && (forall i :: 0 <= i < |us| ==> us[i] == x)
    ensures TreeOf(h, ts) == TreeOf(h, us)
    decreases h
  {
    if h > 0 {
      ConstantHalves(h, ts, x);
      ConstantHalves(h, us, x);
    }
  }

  lemma {:induction false} ConstantHalves(h: nat, ts: seq<Tree>, x: Tree)
    requires h > 0 && 1 <= |ts| <= Pow2(h) && forall i :: 0 <= i < |ts| ==> ts[i] == x
    ensures TreeOf(h, ts) == Node(TreeOf(h - 1, [x]), TreeOf(h - 1, [x]))
    decreases h, 0
  {
    var p := Pow2(h - 1);
    if |ts| <= p {
      ConstantTrees(h - 1, ts, [x], x);
    } else {
      ConstantTrees(h - 1, ts[..p], [x], x);
      ConstantTrees(h - 1, ts[p..], [x], x);
    }
  }

  /** A tree is the same up to swaps as one with a single leaf value just when all its leaves have it. */
  lemma SameAsConstant(h: nat, ts: seq<Tree>, x: string)
    requires 1 <= |ts| <= Pow2(h) && forall i :: 0 <= i < |ts| ==> ts[i].Leaf?
    ensures SameUpToSwaps(TreeOf(h, ts), TreeOf(h, [Leaf(x)])) <==> forall i :: 0 <= i < |ts| ==> ts[i] == Leaf(x)
  {
    if forall i :: 0 <= i < |ts| ==> ts[i] == Leaf(x) {
      ConstantTrees(h, ts, [Leaf(x)], Leaf(x));
      SwapsReflexive(TreeOf(h, ts));
    }
    if SameUpToSwaps(TreeOf(h, ts), TreeOf(h, [Leaf(x)])) {
      forall i | 0 <= i < |ts|
        ensures ts[i] == Leaf(x)
      {
        TreeOfOccurs(h, ts, ts[i].data, h);
        TreeOfOccurs(h, [Leaf(x)], ts[i].data, h);
        SameUpToSwapsSameLeaves(TreeOf(h, ts), TreeOf(h, [Leaf(x)]), ts[i].data, h);
      }
    }
  }

  // ----- When the two paddings agree -----

  /** A half-empty tree: the code copies the left half, the plan fills the right one with the last leaf. */
  lemma HalfEmpty(t: Tree, p: Tree, last: Tree)
    ensures SameUpToSwaps(Node(p, last), Node(t, t)) ==> SameUpToSwaps(t, last)
    ensures t == p == last ==> SameUpToSwaps(Node(p, last), Node(t, t))
  {
    SwapsReflexive(t);
    SwapsSymmetric(t, last);
  }

  lemma PadHalves(h: nat, ts: seq<Tree>)
    requires h > 0 && 1 <= |ts| <= Pow2(h)
    ensures var (n, p) := (|ts|, Pow2(h - 1));
            && (n > p ==> PadTo(ts, h)[..p] == ts[..p] && PadTo(ts, h)[p..] == PadTo(ts[p..], h - 1))
            && (n <= p ==> PadTo(ts, h)[..p] == PadTo(ts, h - 1) && PadTo(ts, h)[p..] == Copies(ts[n - 1], p))
  {
  }

  predicate TreeTailEqual(ts: seq<Tree>, k: nat)
    requires k <= |ts|
  {
    forall i :: |ts| - k <= i < |ts| ==> ts[i] == ts[|ts| - 1]
  }

  lemma CopiedHalf(h: nat, ts: seq<Tree>)
    requires h > 0 && 1 <= |ts| <= Pow2(h - 1)
    ensures Pow2(h) == 2 * Pow2(h - 1) && Pow2(h - 1) < Pow2(h)
    ensures TreeOf(h, ts) == Node(TreeOf(h - 1, ts), TreeOf(h - 1, ts))
  {
  }

  lemma PadConstant(h: nat, ts: seq<Tree>, x: Tree)
    requires 1 <= |ts| <= Pow2(h) && forall i :: 0 <= i < |ts| ==> ts[i] == x
    ensures forall i :: 0 <= i < |PadTo(ts, h)| ==> PadTo(ts, h)[i] == x
  {
  }

  lemma Halves(h: nat, ts: seq<Tree>)
    requires h > 0 && Pow2(h - 1) < |ts| <= Pow2(h)
    ensures Pow2(h) == 2 * Pow2(h - 1)
    ensures TreeOf(h, ts) == Node(TreeOf(h - 1, ts[..Pow2(h - 1)]), TreeOf(h - 1, ts[Pow2(h - 1)..]))
  {
  }

  lemma AtMostHalf(h: nat, ts: seq<Tree>)
    requires h > 0 && 1 <= |ts| <= Pow2(h - 1) && forall i :: 0 <= i < |ts| ==> ts[i].Leaf?
    ensures SameUpToSwaps(TreeOf(h, PadTo(ts, h)), TreeOf(h, ts)) <==> TreeTailEqual(ts, |ts|)
  {
    hide SameUpToSwaps, TreeOf, PadTo, Pow2;
    var p, last := Pow2(h - 1), ts[|ts| - 1];
    CopiedHalf(h, ts);
    PadHalves(h, ts);
    Halves(h, PadTo(ts, h));
    var t, q, c := TreeOf(h - 1, ts), TreeOf(h - 1, PadTo(ts, h - 1)), TreeOf(h - 1, Copies(last, p));
    HalfEmpty(t, q, c);
    ConstantTrees(h - 1, Copies(last, p), [last], last);
    SameAsConstant(h - 1, ts, last.data);
    if TreeTailEqual(ts, |ts|) {
      ConstantTrees(h - 1, ts, [last], last);
      PadConstant(h - 1, ts, last);
      ConstantTrees(h - 1, PadTo(ts, h - 1), [last], last);
    }
  }

  lemma {:induction false} PaddedTree(h: nat, ts: seq<Tree>)
    requires 1 <= |ts| <= Pow2(h) && forall i :: 0 <= i < |ts| ==> ts[i].Leaf?
    ensures SameUpToSwaps(TreeOf(h, PadTo(ts, h)), TreeOf(h, ts)) <==> TreeTailEqual(ts, Tail(h, |ts|))
    decreases h
  {
    if h == 0 {
      assert PadTo(ts, 0) == ts;
      SwapsReflexive(ts[0]);
    } else {
      PadHalves(h, ts);
      if |ts| > Pow2(h - 1) {
        MoreThanHalf(h, ts);
      } else {
        AtMostHalf(h, ts);
      }
    }
  }

  lemma SameTail(ts: seq<Tree>, p: nat, k: nat)
    requires 1 <= k && p + k <= |ts|
    ensures TreeTailEqual(ts[p..], k) <==> TreeTailEqual(ts, k)
  {
    if TreeTailEqual(ts[p..], k) {
      forall i | |ts| - k <= i < |ts|
        ensures ts[i] == ts[|ts| - 1]
      {
        assert ts[i] == ts[p..][i - p];
      }
    }
  }

  lemma {:induction false} MoreThanHalf(h: nat, ts: seq<Tree>)
    requires h > 0 && Pow2(h - 1) < |ts| <= Pow2(h) && forall i :: 0 <= i < |ts| ==> ts[i].Leaf?
    ensures SameUpToSwaps(TreeOf(h, PadTo(ts, h)), TreeOf(h, ts)) <==> TreeTailEqual(ts, Tail(h, |ts|))
    decreases h, 0
  {
    hide SameUpToSwaps, TreeOf, PadTo, Pow2;
    var p := Pow2(h - 1);
    var rest := ts[p..];
    PadHalves(h, ts);
    Halves(h, ts);
    Halves(h, PadTo(ts, h));
    SharedChild(TreeOf(h - 1, ts[..p]), TreeOf(h - 1, PadTo(rest, h - 1)), TreeOf(h - 1, rest));
    PaddedTree(h - 1, rest);
    SameTail(ts, p, Tail(h - 1, |rest|));
  }

  lemma {:induction false} HeightOfPow2(h: nat)
    ensures Height(Pow2(h)) == h
  {
    if h > 0 {
      HeightOfPow2(h - 1);
    }
  }

  lemma Fits(n: nat)
    requires n >= 1
    ensures n <= Pow2(Height(n))
  {
    HeightIsLeast(n);
  }

  lemma LeavesOfPadded(leaves: seq<string>)
    requires leaves != []
    ensures |leaves| <= Pow2(Height(|leaves|))
    ensures Leaves(Padded(leaves)) == PadTo(Leaves(leaves), Height(|leaves|))
  {
    hide Height, Pow2;
    Fits(|leaves|);
  }

  lemma PaddedLeaves(leaves: seq<string>)
    requires leaves != []
    ensures |leaves| <= Pow2(Height(|leaves|))
    ensures CommitTree(Padded(leaves)) == TreeOf(Height(|leaves|), PadTo(Leaves(leaves), Height(|leaves|)))
  {
    hide TreeOf, Height, Pow2, Leaves, Padded, PadTo;
    HeightOfPow2(Height(|leaves|));
    LeavesOfPadded(leaves);
  }

  lemma TailOfLeaves(leaves: seq<string>, k: nat)
    requires 1 <= k <= |leaves|
    ensures TreeTailEqual(Leaves(leaves), k) <==> TailEqual(leaves, k)
  {
    var ts := Leaves(leaves);
    if TreeTailEqual(ts, k) {
      forall i | |leaves| - k <= i < |leaves|
        ensures leaves[i] == leaves[|leaves| - 1]
      {
        assert ts[i] == ts[|ts| - 1];
      }
    }
  }

  /** For every leaf list: filling it up with its last leaf keeps the root of the code if, and up to a
      collision only if, the leaves below the lowest filled-up node are all equal. */
  lemma PaddingAgrees(sha: Sha256, leaves: seq<string>)
    requires leaves != []
    ensures |leaves| <= Pow2(Height(|leaves|))
    ensures TailEqual(leaves, Tail(Height(|leaves|), |leaves|)) ==> Root(sha, Padded(leaves)) == Root(sha, leaves)
    ensures Root(sha, Padded(leaves)) == Root(sha, leaves)
            ==> TailEqual(leaves, Tail(Height(|leaves|), |leaves|))
                || Collision(sha, TreeInputs(sha, CommitTree(Padded(leaves))), TreeInputs(sha, CommitTree(leaves)))
  {
    hide SameUpToSwaps, TreeOf, Root, Collision, TreeInputs;
    var h, ts := Height(|leaves|), Leaves(leaves);
    PaddedLeaves(leaves);
    PaddedTree(h, ts);
    TailOfLeaves(leaves, Tail(h, |leaves|));
    RootBinding(sha, Padded(leaves), leaves);
  }

  lemma {:induction false} NearlyFullTail(h: nat, n: nat)
    requires 1 <= n <= Pow2(h) <= n + 1
    ensures Tail(h, n) == 1
  {
    if h > 0 {
      assert Pow2(h) == 2 * Pow2(h - 1);
      if n > Pow2(h - 1) {
        NearlyFullTail(h - 1, n - Pow2(h - 1));
      }
    }
  }

  /** So the paddings agree on every list of a power of two leaves, or of one less. */
  lemma NearlyFullAgrees(sha: Sha256, leaves: seq<string>)
    requires leaves != [] && |leaves| + 1 >= Pow2(Height(|leaves|))
    ensures Root(sha, Padded(leaves)) == Root(sha, leaves)
  {
    hide Root, Collision, Tail;
    PaddingAgrees(sha, leaves);
    NearlyFullTail(Height(|leaves|), |leaves|);
  }

  lemma SixTail()
    ensures Height(6) == 3 && Pow2(3) == 8 && Tail(3, 6) == 2
  {
    assert Height(3) == 2 && Pow2(1) == 2 && Pow2(2) == 4;
    assert Tail(2, 2) == 2;
  }

  /** And on six leaves exactly when the last two are equal, up to a collision. */
  lemma SixLeaves(sha: Sha256, leaves: seq<string>)
    requires |leaves| == 6
    ensures leaves[4] == leaves[5] ==> Root(sha, Padded(leaves)) == Root(sha, leaves)
    ensures Root(sha, Padded(leaves)) == Root(sha, leaves)
            ==> leaves[4] == leaves[5]
                || Collision(sha, TreeInputs(sha, CommitTree(Padded(leaves))), TreeInputs(sha, CommitTree(leaves)))
  {
    hide Root, Collision, TreeInputs, Padded, Height, Tail;
    SixTail();
    PaddingAgrees(sha, leaves);
  }
}
