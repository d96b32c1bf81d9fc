// The index of recent blocks on all forks. Source: libraries/chain/fork_database.cpp.
module ForkDatabase {
  import opened Options
  import opened Blocks

  // The n newest blocks of the branch ending in `tip` are all in the index.
  ghost predicate Indexed(index: set<BlockId>, tip: BlockId, n: nat) {
    n <= Num(tip) && forall i: nat :: i < n ==> Ancestor(tip, i) in index
  }

  // A block is refused if it is too old for the window that is kept, or if its parent is not indexed.
  ghost predicate Refuses(index: set<BlockId>, head: Option<BlockId>, maxSize: nat, b: BlockId)
    requires b.Block?
  {
    head.Some? && (Num(b) <= Num(head.value) - maxSize || (b.previous != Genesis && b.previous !in index))
  }

  ghost function HeadAfter(head: Option<BlockId>, b: BlockId): BlockId {
    if head.None? || Num(b) > Num(head.value) then b else head.value
  }

  // A new highest block moves the window.
  ghost function IndexAfter(index: set<BlockId>, head: Option<BlockId>, maxSize: nat, b: BlockId): set<BlockId> {
    if head.Some? && Num(b) > Num(head.value)
    then set c <- index + {b} | Num(c) >= Num(b) - maxSize
    else index + {b}
  }

  class ForkDb {
    var index: set<BlockId>
    var head: Option<BlockId>
    var maxSize: nat

    ghost predicate Valid()
      reads this
    {
      (forall b <- index :: b.Block?) && (head.Some? ==> head.value.Block?)
    }

    constructor ()
      ensures Valid() && index == {} && head == None && maxSize == 1024
    {
      index, head, maxSize := {}, None, 1024;
    }

    // The parent item, unless it was never linked or has been dropped from the index.
    function Prev(b: BlockId): Option<BlockId>
      reads this
    {
      if b.Block? && b.previous.Block? && b.previous in index then Some(b.previous) else None
    }

    // Adds a block. None: too old, or its parent is unknown. Otherwise the head, the highest block seen.
    method PushBlock(b: BlockId) returns (r: Option<BlockId>)
      requires Valid() && b.Block?
      modifies `index, `head
      ensures Valid()
      ensures r == None <==> Refuses(old(index), old(head), maxSize, b)
      ensures r == None ==> unchanged(this)
      ensures r.Some? ==> r == head == Some(HeadAfter(old(head), b))
      ensures r.Some? ==> index == IndexAfter(old(index), old(head), maxSize, b)
    {
      if head.Some? {
        var oldest := if Num(head.value) - maxSize > 0 then Num(head.value) - maxSize else 0;
        if Num(b) <= oldest { return None; }
        if b.previous != Genesis && b.previous !in index { return None; }
      }
      index := index + {b};
      if head == None {
        head := Some(b);
      } else if Num(b) > Num(head.value) {
        head := Some(b);
        var minNum := Num(b) - (if maxSize < Num(b) then maxSize else Num(b));
        DropBelow(minNum);
      }
      return head;
    }

    // Erases the oldest items, in order of their number, up to `minNum`.
    method DropBelow(minNum: nat)
      modifies `index
      ensures index == set c <- old(index) | Num(c) >= minNum
    {
      while exists c <- index :: Num(c) < minNum
        invariant index <= old(index)
        invariant forall c <- old(index) :: Num(c) >= minNum ==> c in index
        decreases index
      {
        var c :| c in index && Num(c) < minNum;
        index := index - {c};
      }
    }

    method SetMaxSize(size: nat)
      requires Valid()
      modifies `maxSize, `index
      ensures Valid()
      ensures maxSize == size
      ensures index == if head.None? then old(index) else set c <- old(index) | Num(c) >= Num(head.value) - size
    {
      maxSize := size;
      if head == None { return; }
      DropBelow(if Num(head.value) - size > 0 then Num(head.value) - size else 0);
    }

    // Moves the head one block back. Fails if its parent is not in the index.
    method PopBlock() returns (ok: bool)
      requires Valid()
      modifies `head
      ensures Valid()
      ensures ok == (old(head).Some? && Prev(old(head).value).Some?)
      ensures head == if ok then Some(old(head).value.previous) else old(head)
    {
      if head == None || Prev(head.value) == None { return false; }
      head := Prev(head.value);
      return true;
    }

    method SetHead(b: BlockId)
      requires Valid() && b.Block?
      modifies `head
      ensures Valid()
      ensures head == Some(b)
    {
      head := Some(b);
    }

    method Remove(b: BlockId)
      modifies `index
      ensures index == old(index) - {b}
    {
      index := index - {b};
    }

    // The two branches back to where they meet, newest block first. Fails if a block on the way is not indexed.
    method FetchBranchFrom(a: BlockId, b: BlockId) returns (r: Option<(seq<BlockId>, seq<BlockId>)>)
      requires Valid()
      ensures r.Some? <==> a in index && b in index &&
                           Indexed(index, a, BranchLengths(a, b).0) && Indexed(index, b, BranchLengths(a, b).1)
      ensures r.Some? ==> r.value.0 == Path(a, BranchLengths(a, b).0) && r.value.1 == Path(b, BranchLengths(a, b).1)
    {
      hide BranchLengths, Ancestor, Path, Num, Indexed;
      WalkStart(index, a, b);
      if a !in index || b !in index { return None; }
      var first, second: seq<BlockId> := [], [];
      var x, y := a, b;
      while Num(x) > Num(y)
        invariant Walked(a, b, x, y, first, second)
        decreases Num(x)
      {
        first, x := WalkFirst(a, b, x, y, first, second);
        if x == Genesis { return None; }
      }
      while Num(y) > Num(x)
        invariant Walked(a, b, x, y, first, second) && Num(x) <= Num(y)
        decreases Num(y)
      {
        second, y := WalkSecond(a, b, x, y, first, second);
        if y == Genesis { return None; }
      }
      while x.previous != y.previous
        invariant Walked(a, b, x, y, first, second) && Num(x) == Num(y)
        decreases Num(x)
      {
        var ok;
        ok, first, second, x, y := WalkBoth(a, b, x, y, first, second);
        if !ok { return None; }
      }
      BranchStep(x, y);
      WalkEnd(index, a, x, first);
      WalkEnd(index, b, y, second);
      return Some((first + [x], second + [y]));
    }

    // Where the walk back stands: x and y are the next blocks, indexed like all before them.
    ghost predicate Walked(a: BlockId, b: BlockId, x: BlockId, y: BlockId, first: seq<BlockId>, second: seq<BlockId>)
      reads this
    {
      && a.Block? && b.Block? && x.Block? && y.Block?
      && At(a, x, |first|) && At(b, y, |second|)
      && Indexed(index, a, |first| + 1) && Indexed(index, b, |second| + 1)
      && first == Path(a, |first|) && second == Path(b, |second|)
      && BranchLengths(a, b) == (BranchLengths(x, y).0 + |first|, BranchLengths(x, y).1 + |second|)
    }

    method WalkFirst(a: BlockId, b: BlockId, x: BlockId, y: BlockId, first: seq<BlockId>, second: seq<BlockId>)
      returns (first': seq<BlockId>, x': BlockId)
      requires Valid() && Walked(a, b, x, y, first, second) && Num(x) > Num(y)
      ensures x' == Genesis ==> !Indexed(index, a, BranchLengths(a, b).0)
      ensures x' != Genesis ==> Walked(a, b, x', y, first', second) && Num(x') == Num(x) - 1
    {
      hide BranchLengths, Ancestor, Path, Num;
      BranchStep(x, y);
      WalkOne(index, a, x, first);
      first' := first + [x];
      if Prev(x) == None {
        return first', Genesis;
      }
      x' := x.previous;
    }

    method WalkSecond(a: BlockId, b: BlockId, x: BlockId, y: BlockId, first: seq<BlockId>, second: seq<BlockId>)
      returns (second': seq<BlockId>, y': BlockId)
      requires Valid() && Walked(a, b, x, y, first, second) && Num(y) > Num(x)
      ensures y' == Genesis ==> !Indexed(index, b, BranchLengths(a, b).1)
      ensures y' != Genesis ==> Walked(a, b, x, y', first, second') && Num(y') == Num(y) - 1
    {
      hide BranchLengths, Ancestor, Path, Num;
      BranchStep(x, y);
      WalkOne(index, b, y, second);
      second' := second + [y];
      if Prev(y) == None {
        return second', Genesis;
      }
      y' := y.previous;
    }

    method WalkBoth(a: BlockId, b: BlockId, x: BlockId, y: BlockId, first: seq<BlockId>, second: seq<BlockId>)
      returns (ok: bool, first': seq<BlockId>, second': seq<BlockId>, x': BlockId, y': BlockId)
      requires Valid() && Walked(a, b, x, y, first, second) && Num(y) == Num(x) && x.previous != y.previous
      ensures !ok ==> !Indexed(index, a, BranchLengths(a, b).0) || !Indexed(index, b, BranchLengths(a, b).1)
      ensures ok ==> Walked(a, b, x', y', first', second') && Num(x') == Num(y') == Num(x) - 1
    {
      hide BranchLengths, Ancestor, Path, Num;
      BranchStep(x, y);
      WalkOne(index, a, x, first);
      WalkOne(index, b, y, second);
      first', second', x', y' := first + [x], second + [y], x.previous, y.previous;
      ok := Prev(x).Some? && Prev(y).Some?;
    }
  }

  ghost predicate At(tip: BlockId, x: BlockId, k: nat) {
    k <= Num(tip) && Ancestor(tip, k) == x
  }

  lemma WalkStart(index: set<BlockId>, a: BlockId, b: BlockId)
    ensures a.Block? ==> At(a, a, 0) && Path(a, 0) == [] && (a in index ==> Indexed(index, a, 1))
    ensures b.Block? ==> At(b, b, 0) && Path(b, 0) == [] && (b in index ==> Indexed(index, b, 1))
  {
  }

  lemma WalkEnd(index: set<BlockId>, tip: BlockId, x: BlockId, walked: seq<BlockId>)
    requires Indexed(index, tip, |walked| + 1)
    requires |walked| <= Num(tip) && Ancestor(tip, |walked|) == x && walked == Path(tip, |walked|)
    ensures walked + [x] == Path(tip, |walked| + 1)
  {
    PathExtend(tip, |walked|);
  }

  // Stepping from x to its parent along the branch of `tip`.
  lemma WalkOne(index: set<BlockId>, tip: BlockId, x: BlockId, walked: seq<BlockId>)
    requires |walked| < Num(tip) && Ancestor(tip, |walked|) == x && walked == Path(tip, |walked|)
    requires Indexed(index, tip, |walked| + 1) && x.Block? && x.previous.Block?
    ensures |walked| + 1 < Num(tip) && Ancestor(tip, |walked| + 1) == x.previous
    ensures walked + [x] == Path(tip, |walked| + 1)
    ensures x.previous in index ==> Indexed(index, tip, |walked| + 2)
    ensures x.previous !in index ==> forall n: nat :: n > |walked| + 1 ==> !Indexed(index, tip, n)
  {
    PathExtend(tip, |walked|);
    AncestorStep(tip, |walked|);
    if x.previous !in index {
      forall n: nat | n > |walked| + 1
        ensures !Indexed(index, tip, n)
      {
        assert n <= Num(tip) ==> Ancestor(tip, |walked| + 1) !in index;
      }
    }
  }
}
