// Block ids and the shape of forks.
// A block id is a hash over the block, which holds its parent's id: under the assumption that
// hashes do not collide an id determines the whole history, so ids are modelled as that history.
module Blocks {

  datatype BlockId = Genesis | Block(previous: BlockId, contents: nat)

  // The block number carried in every id.
  function Num(b: BlockId): nat {
    match b
    case Genesis => 0
    case Block(p, _) => Num(p) + 1
  }

  // The block k steps back.
  function Ancestor(b: BlockId, k: nat): (r: BlockId)
    requires k <= Num(b)
    ensures Num(r) == Num(b) - k
  {
    if k == 0 then b else Ancestor(b.previous, k - 1)
  }

  lemma AncestorZero(b: BlockId)
    ensures Ancestor(b, 0) == b
  {
  }

  lemma AncestorStep(b: BlockId, k: nat)
    requires k < Num(b)
    ensures Ancestor(b, k).Block? && Ancestor(b, k).previous == Ancestor(b, k + 1)
  {
    if k > 0 {
      AncestorStep(b.previous, k - 1);
    }
  }

  lemma AncestorSum(b: BlockId, j: nat, k: nat)
    requires j + k <= Num(b)
    ensures Ancestor(Ancestor(b, j), k) == Ancestor(b, j + k)
  {
    if j > 0 {
      AncestorSum(b.previous, j - 1, k);
    }
  }

  ghost predicate IsAncestor(a: BlockId, b: BlockId) {
    Num(a) <= Num(b) && Ancestor(b, Num(b) - Num(a)) == a
  }

  // The n blocks from `tip` backwards.
  function Path(tip: BlockId, n: nat): (r: seq<BlockId>)
    requires n <= Num(tip)
    ensures |r| == n
  {
    if n == 0 then [] else [tip] + Path(tip.previous, n - 1)
  }

  lemma PathAt(tip: BlockId, n: nat, i: nat)
    requires i < n <= Num(tip)
    ensures Path(tip, n)[i] == Ancestor(tip, i)
  {
    if i > 0 {
      PathAt(tip.previous, n - 1, i - 1);
    }
  }

  lemma PathExtend(tip: BlockId, n: nat)
    requires n < Num(tip)
    ensures Path(tip, n + 1) == Path(tip, n) + [Ancestor(tip, n)]
  {
    if n > 0 {
      PathExtend(tip.previous, n - 1);
    }
  }

  // How many blocks each branch has back to where the two meet; the branches always hold at least
  // one block each, which is the same block if one tip is an ancestor of the other.
  function BranchLengths(a: BlockId, b: BlockId): (r: (nat, nat))
    requires a.Block? && b.Block?
    ensures 1 <= r.0 <= Num(a) && 1 <= r.1 <= Num(b)
    ensures Num(a) - r.0 == Num(b) - r.1
    decreases Num(a) + Num(b)
  {
    if Num(a) > Num(b) then
      var r := BranchLengths(a.previous, b);
      (r.0 + 1, r.1)
    else if Num(b) > Num(a) then
      assert Num(b.previous) >= 1;
      var r := BranchLengths(a, b.previous);
      (r.0, r.1 + 1)
    else if a.previous == b.previous then (1, 1)
    else
      var r := BranchLengths(a.previous, b.previous);
      (r.0 + 1, r.1 + 1)
  }

  // One step of the walk back.
  lemma {:induction false} BranchStep(a: BlockId, b: BlockId)
    requires a.Block? && b.Block?
    ensures Num(a) > Num(b) ==>
              a.previous.Block? && Num(a.previous) == Num(a) - 1 &&
              BranchLengths(a, b) == (BranchLengths(a.previous, b).0 + 1, BranchLengths(a.previous, b).1)
    ensures Num(b) > Num(a) ==>
              b.previous.Block? && Num(b.previous) == Num(b) - 1 &&
              BranchLengths(a, b) == (BranchLengths(a, b.previous).0, BranchLengths(a, b.previous).1 + 1)
    ensures Num(a) == Num(b) && a.previous != b.previous ==>
              a.previous.Block? && b.previous.Block? && Num(a.previous) == Num(b.previous) == Num(a) - 1 &&
              BranchLengths(a, b) == (BranchLengths(a.previous, b.previous).0 + 1,
                BranchLengths(a.previous, b.previous).1 + 1)
    ensures Num(a) == Num(b) && a.previous == b.previous ==> BranchLengths(a, b) == (1, 1)
  {
    NumZero(a.previous);
    NumZero(b.previous);
  }

  lemma {:induction false} NumZero(b: BlockId)
    ensures Num(b) == 0 <==> b == Genesis
  {
  }

  lemma {:induction false} BranchesMeetAbove(a: BlockId, b: BlockId)
    requires a.Block? && b.Block?
    ensures Ancestor(a, BranchLengths(a, b).0) == Ancestor(b, BranchLengths(a, b).1)
    decreases Num(a) + Num(b)
  {
    if Num(a) > Num(b) {
      BranchesMeetAbove(a.previous, b);
    } else if Num(b) > Num(a) {
      assert Num(b.previous) >= 1;
      BranchesMeetAbove(a, b.previous);
    } else if a.previous != b.previous {
      BranchesMeetAbove(a.previous, b.previous);
    } else {
      assert Ancestor(a, 1) == Ancestor(a.previous, 0) && Ancestor(b, 1) == Ancestor(b.previous, 0);
    }
  }

  // Both branches end on children of one block.
  lemma BranchesMeet(a: BlockId, b: BlockId)
    requires a.Block? && b.Block?
    ensures var (m, n) := BranchLengths(a, b);
            Ancestor(a, m) == Ancestor(b, n)
            && Ancestor(a, m - 1).Block? && Ancestor(b, n - 1).Block?
            && Ancestor(a, m - 1).previous == Ancestor(b, n - 1).previous == Ancestor(a, m)
  {
    BranchesMeetAbove(a, b);
    AncestorStep(a, BranchLengths(a, b).0 - 1);
    AncestorStep(b, BranchLengths(a, b).1 - 1);
  }

  // The two branches share a block only if one tip is an ancestor of the other.
  lemma {:induction false} BranchesShareOnlyOnOneLine(a: BlockId, b: BlockId, i: nat, j: nat)
    requires a.Block? && b.Block?
    requires var (m, n) := BranchLengths(a, b); i < m && j < n && Ancestor(a, i) == Ancestor(b, j)
    ensures IsAncestor(a, b) || IsAncestor(b, a)
    decreases Num(a) + Num(b)
  {
    var (m, n) := BranchLengths(a, b);
    if Num(a) > Num(b) {
      BranchesShareOnlyOnOneLine(a.previous, b, i - 1, j);
    } else if Num(b) > Num(a) {
      BranchesShareOnlyOnOneLine(a, b.previous, i, j - 1);
    } else if a.previous != b.previous && i > 0 {
      BranchesShareOnlyOnOneLine(a.previous, b.previous, i - 1, j - 1);
      assert false;
    }
  }

  // Where the branches meet is the lowest common ancestor: every common ancestor is at or below it.
  lemma {:induction false} MeetIsLowestCommonAncestor(a: BlockId, b: BlockId, c: BlockId)
    requires a.Block? && b.Block? && !IsAncestor(a, b) && !IsAncestor(b, a)
    ensures var (m, n) := BranchLengths(a, b);
            var meet := Ancestor(a, m);
            && IsAncestor(meet, a) && IsAncestor(meet, b)
            && (IsAncestor(c, a) && IsAncestor(c, b) ==> IsAncestor(c, meet))
  {
    var (m, n) := BranchLengths(a, b);
    BranchesMeet(a, b);
    if IsAncestor(c, a) && IsAncestor(c, b) {
      var i, j := Num(a) - Num(c), Num(b) - Num(c);
      if i < m {
        BranchesShareOnlyOnOneLine(a, b, i, j);
        assert false;
      }
      AncestorSum(a, m, i - m);
    }
  }

  // If one tip lies on the other's branch, the shorter branch is that tip alone.
  lemma {:induction false} OneLine(a: BlockId, b: BlockId)
    requires a.Block? && b.Block? && IsAncestor(b, a)
    ensures BranchLengths(a, b) == (Num(a) - Num(b) + 1, 1)
    decreases Num(a)
  {
    if Num(a) > Num(b) {
      OneLine(a.previous, b);
    }
  }

  // A block on the longer branch is not a proper ancestor of the shorter branch's tip above the meeting point.
  lemma BranchesApart(a: BlockId, b: BlockId, i: nat, s: nat)
    requires a.Block? && b.Block? && Num(a) > Num(b)
    requires i < BranchLengths(a, b).0 && 1 <= s <= Num(b)
    ensures Ancestor(a, i) != Ancestor(b, s)
  {
    if Ancestor(a, i) == Ancestor(b, s) {
      if s < BranchLengths(a, b).1 {
        BranchesShareOnlyOnOneLine(a, b, i, s);
        OneLine(a, b);
      }
      assert false;
    }
  }
}
