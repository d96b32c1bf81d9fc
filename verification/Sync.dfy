// How two nodes find where their chains part.
// Source: libraries/app/application.cpp:565-626, 710-827, libraries/chain/db_block.cpp:90-106.
module Sync {
  import opened Options
  import opened Blocks
  import opened ForkDatabase

  // The id of block number n on the chain that ends in `tip`.
  function IdAt(tip: BlockId, n: nat): (r: BlockId)
    requires n <= Num(tip)
    ensures Num(r) == n
  {
    Ancestor(tip, Num(tip) - n)
  }

  // Chains that agree on a block agree below it.
  lemma AgreeBelow(a: BlockId, b: BlockId, m: nat, n: nat)
    requires m <= n <= Num(a) && n <= Num(b) && IdAt(a, n) == IdAt(b, n)
    ensures IdAt(a, m) == IdAt(b, m)
  {
    hide Ancestor, Num;
    AncestorSum(a, Num(a) - n, n - m);
    AncestorSum(b, Num(b) - n, n - m);
  }

  // The highest block two chains share.
  ghost predicate IsForkPoint(a: BlockId, b: BlockId, f: nat) {
    && f <= Num(a) && f <= Num(b) && IdAt(a, f) == IdAt(b, f)
    && (f < Num(a) && f < Num(b) ==> IdAt(a, f + 1) != IdAt(b, f + 1))
  }

  lemma SharedIffBelowFork(a: BlockId, b: BlockId, f: nat, n: nat)
    requires IsForkPoint(a, b, f) && n <= Num(a) && n <= Num(b)
    ensures IdAt(a, n) == IdAt(b, n) <==> n <= f
  {
    hide Ancestor;
    if n <= f {
      AgreeBelow(a, b, n, f);
    } else if IdAt(a, n) == IdAt(b, n) {
      AgreeBelow(a, b, f + 1, n);
    }
  }

  // ---------- the heights of a synopsis ----------

  function NextHeight(low: nat, trueHigh: nat): (r: nat)
    requires low <= trueHigh
    ensures r > low
  {
    low + (trueHigh - low + 2) / 2
  }

  function Heights(low: nat, high: nat, trueHigh: nat): (r: seq<nat>)
    requires low <= high <= trueHigh
    ensures |r| > 0 && r[0] == low && forall i :: 0 <= i < |r| ==> low <= r[i] <= high
    decreases high - low
  {
    var next := NextHeight(low, trueHigh);
    [low] + if next <= high then Heights(next, high, trueHigh) else []
  }

  function Bits(n: nat): nat {
    if n == 0 then 0 else 1 + Bits(n / 2)
  }

  // A synopsis of a whole chain ends at its head and has as many entries as its length has bits.
  lemma {:induction false} HeightsShape(low: nat, high: nat)
    requires low <= high
    ensures var r := Heights(low, high, high);
            r[|r| - 1] == high && |r| == Bits(high - low + 1)
    decreases high - low
  {
    var next := NextHeight(low, high);
    assert (high - low + 1) / 2 == high - next + 1;
    if next <= high {
      HeightsShape(next, high);
    } else {
      assert Bits(0) == 0;
    }
  }

  // Entries rise, and each gap is at most half of what was left, plus one.
  lemma {:induction false} HeightsRise(low: nat, high: nat, trueHigh: nat, i: nat)
    requires low <= high <= trueHigh && i + 1 < |Heights(low, high, trueHigh)|
    ensures var r := Heights(low, high, trueHigh);
            r[i] < r[i + 1] && r[i + 1] == NextHeight(r[i], trueHigh)
    decreases high - low
  {
    var next := NextHeight(low, trueHigh);
    if i > 0 {
      HeightsRise(next, high, trueHigh, i - 1);
    }
  }

  // The loop stops exactly at the last entry.
  lemma {:induction false} HeightsStop(low: nat, high: nat, trueHigh: nat, i: nat)
    requires low <= high <= trueHigh && i < |Heights(low, high, trueHigh)|
    ensures i + 1 < |Heights(low, high, trueHigh)| <==> NextHeight(Heights(low, high, trueHigh)[i], trueHigh) <= high
    decreases high - low
  {
    if i > 0 {
      HeightsStop(NextHeight(low, trueHigh), high, trueHigh, i - 1);
    }
  }

  lemma {:induction false} HeightsSorted(low: nat, high: nat, trueHigh: nat, i: nat, j: nat)
    requires low <= high <= trueHigh && i < j < |Heights(low, high, trueHigh)|
    ensures Heights(low, high, trueHigh)[i] < Heights(low, high, trueHigh)[j]
    decreases j
  {
    HeightsRise(low, high, trueHigh, j - 1);
    if i < j - 1 {
      HeightsSorted(low, high, trueHigh, i, j - 1);
    }
  }

  // The entries are the ids of one chain at the given heights.
  function Summary(tip: BlockId, heights: seq<nat>): (r: seq<BlockId>)
    requires forall i :: 0 <= i < |heights| ==> heights[i] <= Num(tip)
    ensures |r| == |heights| && forall i :: 0 <= i < |r| ==> r[i] == IdAt(tip, heights[i])
  {
    seq(|heights|, i requires 0 <= i < |heights| => IdAt(tip, heights[i]))
  }

  // ---------- asking ----------

  // None stands for the exception thrown when no block of that number is stored.
  method IsIncluded(head: BlockId, id: BlockId) returns (r: Option<bool>)
    requires id != Genesis
    ensures r == None <==> Num(id) > Num(head)
    ensures r == None ==> !IsAncestor(id, head)
    ensures r.Some? ==> (r.value <==> IsAncestor(id, head))
  {
    NumZero(id);
    if Num(id) > Num(head) {
      return None;
    }
    return Some(IdAt(head, Num(id)) == id);
  }

  datatype Synopsis = Ids(ids: seq<BlockId>) | TooOld | Threw

  // The range a synopsis covers.
  ghost function LowFor(head: BlockId, undoable: nat, reference: BlockId): nat
    requires undoable <= Num(head)
  {
    var low := Num(head) - undoable;
    var capped :=
      if reference != Genesis && IsAncestor(reference, head) && Num(reference) < low then Num(reference) else low;
    if capped == 0 then 1 else capped
  }

  // Both branches down to where they meet are in the fork index.
  ghost predicate Fetchable(index: set<BlockId>, a: BlockId, b: BlockId) {
    && a in index && b in index && a.Block? && b.Block?
    && Indexed(index, a, BranchLengths(a, b).0) && Indexed(index, b, BranchLengths(a, b).1)
  }

  // Summarizes the chain up to the reference block, wherever that lies, or the whole chain without one.
  method GetSynopsis(fork: ForkDb, head: BlockId, undoable: nat, reference: BlockId, extra: nat) returns (r: Synopsis)
    requires fork.Valid() && undoable <= Num(head)
    ensures r.Ids? ==>
      var tip := if reference == Genesis then head else reference;
      var low := LowFor(head, undoable, reference);
      if tip == Genesis then r.ids == []
      else low <= Num(tip) && r.ids == Summary(tip, Heights(low, Num(tip), Num(tip) + extra))
    ensures reference == Genesis || IsAncestor(reference, head) ==> r.Ids?
    ensures r.Threw? <==> reference != Genesis && !IsAncestor(reference, head)
                          && (Num(reference) > Num(head) || !Fetchable(fork.index, head, reference))
    ensures r.TooOld? <==> reference != Genesis && !IsAncestor(reference, head) && Num(reference) <= Num(head)
                           && Fetchable(fork.index, head, reference) && BranchLengths(head, reference).0 > undoable
  {
    hide Ancestor, BranchLengths, Path, IsAncestor, Num;
    var low := Num(head) - undoable;
    var tip := if reference == Genesis then head else reference;
    var high, fromMain, history := Num(head), Num(head), [];
    NumZero(head);
    NumZero(reference);
    if reference == Genesis {
      if high == 0 {
        return Ids([]);
      }
      OnChain(head, head);
    } else {
      var included := IsIncluded(head, reference);
      if included == None {
        return Threw;
      }
      if included.value {
        high, fromMain := Num(reference), Num(reference);
        if Num(reference) < low {
          low := Num(reference);
        }
        OnChain(head, reference);
      } else {
        var branches := fork.FetchBranchFrom(head, reference);
        if branches == None {
          return Threw;
        }
        history, fromMain := ForkHistory(head, reference, branches.value.0, branches.value.1);
        high := fromMain + |history|;
        if fromMain < low {
          return TooOld;
        }
      }
    }
    if low == 0 {
      low := 1;
    }
    var ids := CollectIds(head, tip, fromMain, history, low, high, high + extra);
    return Ids(ids);
  }

  // Block ids come from the main chain up to the fork and from the fork's own blocks above it.
  ghost predicate Covers(head: BlockId, tip: BlockId, fromMain: nat, history: seq<BlockId>) {
    && fromMain <= Num(head) && fromMain + |history| == Num(tip)
    && (forall n: nat :: n <= fromMain ==> IdAt(head, n) == IdAt(tip, n))
    && forall j: nat :: j < |history| ==> history[j] == IdAt(tip, fromMain + 1 + j)
  }

  lemma OnChain(head: BlockId, tip: BlockId)
    requires tip == head || IsAncestor(tip, head)
    ensures Num(tip) <= Num(head) && Covers(head, tip, Num(tip), [])
  {
    hide Ancestor;
    AncestorZero(tip);
    AncestorZero(head);
    forall n: nat | n <= Num(tip)
      ensures IdAt(head, n) == IdAt(tip, n)
    {
      AgreeBelow(head, tip, n, Num(tip));
    }
  }

  // The fork's blocks above the common ancestor, oldest first.
  method ForkHistory(head: BlockId, reference: BlockId, first: seq<BlockId>, second: seq<BlockId>)
    returns (history: seq<BlockId>, fromMain: nat)
    requires head.Block? && reference.Block?
    requires first == Path(head, BranchLengths(head, reference).0)
             && second == Path(reference, BranchLengths(head, reference).1)
    ensures Covers(head, reference, fromMain, history) && |history| > 0
    ensures fromMain == Num(head) - BranchLengths(head, reference).0
  {
    hide Ancestor, BranchLengths, Path, Num;
    var m, n := BranchLengths(head, reference).0, BranchLengths(head, reference).1;
    BranchesMeet(head, reference);
    PathAt(head, m, m - 1);
    var common := first[|first| - 1].previous;
    fromMain := Num(common);
    history := [];
    var i := |second|;
    while i > 0
      invariant 0 <= i <= |second| && |history| == |second| - i
      invariant forall j: nat :: j < |history| ==> history[j] == Ancestor(reference, |second| - 1 - j)
    {
      i := i - 1;
      PathAt(reference, n, i);
      history := history + [second[i]];
    }
    forall k: nat | k <= fromMain
      ensures IdAt(head, k) == IdAt(reference, k)
    {
      AgreeBelow(head, reference, k, fromMain);
    }
  }

  method CollectIds(head: BlockId, tip: BlockId, fromMain: nat, history: seq<BlockId>, first: nat, high: nat,
                    trueHigh: nat)
    returns (ids: seq<BlockId>)
    requires Covers(head, tip, fromMain, history) && high == Num(tip) && first <= high <= trueHigh
    ensures ids == Summary(tip, Heights(first, high, trueHigh))
  {
    hide Ancestor, Num, Heights, IdAt, Covers;
    ghost var heights := Heights(first, high, trueHigh);
    var low := first;
    ids := [];
    while low <= high
      invariant |ids| <= |heights|
      invariant if low <= high then |ids| < |heights| && low == heights[|ids|] else |ids| == |heights|
      invariant forall i :: 0 <= i < |ids| ==> ids[i] == IdAt(tip, heights[i])
      decreases high + 1 - low
    {
      HeightsStop(first, high, trueHigh, |ids|);
      if |ids| + 1 < |heights| {
        HeightsRise(first, high, trueHigh, |ids|);
      }
      ids := ids + [IdFor(head, tip, fromMain, history, low)];
      low := NextHeight(low, trueHigh);
    }
    assert ids == Summary(tip, heights);
  }

  function IdFor(head: BlockId, tip: BlockId, fromMain: nat, history: seq<BlockId>, n: nat): (r: BlockId)
    requires Covers(head, tip, fromMain, history) && n <= Num(tip)
    ensures r == IdAt(tip, n)
  {
    if n <= fromMain then IdAt(head, n) else history[n - fromMain - 1]
  }

  // ---------- answering ----------

  datatype Reply = Reply(ids: seq<BlockId>, remaining: nat) | Unreachable | Broke

  ghost predicate Recognized(head: BlockId, known: set<BlockId>, id: BlockId) {
    id == Genesis || (id in known && IsAncestor(id, head))
  }

  // A block that is known but lies above the head makes the search break off.
  ghost predicate TooHigh(head: BlockId, known: set<BlockId>, id: BlockId) {
    id != Genesis && id in known && Num(id) > Num(head)
  }

  ghost predicate Ignored(head: BlockId, known: set<BlockId>, id: BlockId) {
    !Recognized(head, known, id) && !TooHigh(head, known, id)
  }

  // Searched from its end, the synopsis shows a block above the head before it shows a recognized one.
  ghost predicate Stumbles(head: BlockId, known: set<BlockId>, synopsis: seq<BlockId>) {
    exists i :: 0 <= i < |synopsis| && TooHigh(head, known, synopsis[i])
      && forall j :: i < j < |synopsis| ==> Ignored(head, known, synopsis[j])
  }

  // Entry i is recognized and nothing after it matters.
  ghost predicate LastUsable(head: BlockId, known: set<BlockId>, synopsis: seq<BlockId>, i: int) {
    0 <= i < |synopsis| && Recognized(head, known, synopsis[i])
    && forall j :: i < j < |synopsis| ==> Ignored(head, known, synopsis[j])
  }

  lemma NotBoth(head: BlockId, known: set<BlockId>, id: BlockId)
    ensures !(Recognized(head, known, id) && TooHigh(head, known, id))
  {
  }

  lemma NothingAsked(head: BlockId, known: set<BlockId>, synopsis: seq<BlockId>)
    ensures synopsis == [] || synopsis == [Genesis] ==> !Stumbles(head, known, synopsis)
    ensures synopsis == [Genesis] ==> !Ignored(head, known, synopsis[0])
  {
  }

  // The last recognized entry; None if there is none.
  method LastKnown(head: BlockId, known: set<BlockId>, synopsis: seq<BlockId>)
                   returns (broke: bool, last: Option<BlockId>)
    ensures broke <==> Stumbles(head, known, synopsis)
    ensures !broke && last == None <==> forall i :: 0 <= i < |synopsis| ==> Ignored(head, known, synopsis[i])
    ensures !broke && last.Some? ==> exists i :: LastUsable(head, known, synopsis, i) && synopsis[i] == last.value
  {
    hide IsAncestor, Num;
    var i := |synopsis|;
    while i > 0
      invariant 0 <= i <= |synopsis|
      invariant forall j :: i <= j < |synopsis| ==> Ignored(head, known, synopsis[j])
    {
      i := i - 1;
      var id := synopsis[i];
      NotBoth(head, known, id);
      if id == Genesis {
        assert LastUsable(head, known, synopsis, i);
        return false, Some(id);
      }
      if id in known {
        var included := IsIncluded(head, id);
        if included == None {
          return true, None;
        }
        if included.value {
          assert LastUsable(head, known, synopsis, i);
          return false, Some(id);
        }
      }
    }
    return false, None;
  }

  // The ids of `n` blocks of the chain from number `first` on.
  function IdRange(head: BlockId, first: nat, n: nat): (r: seq<BlockId>)
    requires first + n <= Num(head) + 1
    ensures |r| == n && forall i :: 0 <= i < n ==> r[i] == IdAt(head, first + i)
  {
    seq(n, i requires 0 <= i < n => IdAt(head, first + i))
  }

  // Up to `limit` ids of this chain from block number `start` on; there is no block zero.
  function IdsFrom(head: BlockId, start: nat, limit: nat): seq<BlockId> {
    var first := if start == 0 then 1 else start;
    var left := if first <= Num(head) then Num(head) - first + 1 else 0;
    if left == 0 then [] else IdRange(head, first, if left <= limit then left else limit)
  }

  // All ids from the starting block to the head, but no more than the limit.
  lemma IdsFromIs(head: BlockId, start: nat, limit: nat)
    requires 1 <= start <= Num(head) + 1
    ensures var r := IdsFrom(head, start, limit);
            && |r| == (if Num(head) + 1 - start <= limit then Num(head) + 1 - start else limit)
            && (forall i :: 0 <= i < |r| ==> r[i] == IdAt(head, start + i))
            && (start == 1 ==> IdsFrom(head, 0, limit) == r)
  {
    hide IdAt, Num;
  }

  lemma IdsFromStart(head: BlockId, start: nat, limit: nat)
    requires 1 <= start <= Num(head) && limit > 0
    ensures |IdsFrom(head, start, limit)| > 0 && IdsFrom(head, start, limit)[0] == IdAt(head, start)
  {
    hide IdAt, Num;
  }

  lemma IdsFromWithin(head: BlockId, start: nat, limit: nat)
    ensures var r := IdsFrom(head, start, limit); |r| <= limit && (r != [] ==> Num(r[|r| - 1]) <= Num(head))
  {
    hide Ancestor, Num;
  }

  method GetBlockIds(head: BlockId, known: set<BlockId>, synopsis: seq<BlockId>, limit: nat) returns (r: Reply)
    ensures r.Unreachable? <==>
            Num(head) > 0 && synopsis != [] && forall i :: 0 <= i < |synopsis| ==> Ignored(head, known, synopsis[i])
    ensures r.Broke? <==> Num(head) > 0 && Stumbles(head, known, synopsis)
    ensures r.Reply? && Num(head) > 0 ==>
              if synopsis == [] || synopsis == [Genesis] then r.ids == IdsFrom(head, 0, limit)
              else exists i :: LastUsable(head, known, synopsis, i) && r.ids == IdsFrom(head, Num(synopsis[i]), limit)
    ensures r.Reply? && r.ids != [] ==> Num(r.ids[|r.ids| - 1]) + r.remaining == Num(head)
    ensures r.Reply? && r.ids == [] ==> r.remaining == 0
  {
    hide IsAncestor, Ancestor, Recognized, IdsFrom, Num, TooHigh, Ignored, Stumbles, LastUsable;
    NothingAsked(head, known, synopsis);
    if Num(head) == 0 {
      return Reply([], 0);
    }
    NumZero(Genesis);
    var last := Genesis;
    if synopsis != [] && synopsis != [Genesis] {
      var broke, found := LastKnown(head, known, synopsis);
      if broke {
        return Broke;
      }
      if found == None {
        return Unreachable;
      }
      last := found.value;
    }
    var ids := CollectFrom(head, Num(last), limit);
    var remaining := 0;
    if ids != [] && Num(ids[|ids| - 1]) < Num(head) {
      remaining := Num(head) - Num(ids[|ids| - 1]);
    }
    return Reply(ids, remaining);
  }

  method CollectFrom(head: BlockId, start: nat, limit: nat) returns (ids: seq<BlockId>)
    ensures ids == IdsFrom(head, start, limit)
    ensures ids != [] ==> Num(ids[|ids| - 1]) <= Num(head)
  {
    hide Ancestor, Num;
    IdsFromWithin(head, start, limit);
    ids := [];
    var num := start;
    ghost var first := if start == 0 then 1 else start;
    while num <= Num(head) && |ids| < limit
      invariant num == 0 ==> ids == []
      invariant num > 0 ==> num == first + |ids|
      invariant num <= Num(head) + 1 || ids == []
      invariant |ids| <= limit && ids == IdsFrom(head, start, |ids|)
      decreases Num(head) + 1 - num
    {
      if num > 0 {
        ids := ids + [IdAt(head, num)];
      }
      num := num + 1;
    }
  }

  // ---------- the two together ----------

  lemma AncestorIsAt(a: BlockId, b: BlockId, n: nat)
    requires n <= Num(a)
    ensures IsAncestor(IdAt(a, n), b) <==> n <= Num(b) && IdAt(a, n) == IdAt(b, n)
  {
    hide Ancestor;
  }

  // The responder recognizes exactly the entries up to the fork point.
  lemma RecognizedIffShared(a: BlockId, b: BlockId, f: nat, known: set<BlockId>, n: nat)
    requires IsForkPoint(a, b, f) && 1 <= n <= Num(a)
    requires forall k :: 1 <= k <= Num(b) ==> IdAt(b, k) in known
    ensures Recognized(b, known, IdAt(a, n)) <==> n <= f
  {
    hide Ancestor, Num;
    AncestorIsAt(a, b, n);
    NumZero(IdAt(a, n));
    if n <= Num(b) {
      SharedIffBelowFork(a, b, f, n);
    }
  }

  // The last entry at or below the fork point is at most half the distance to the head below it.
  lemma LastSharedIsNear(low: nat, high: nat, f: nat, i: nat)
    requires low <= high && i < |Heights(low, high, high)| && f <= high
    requires Heights(low, high, high)[i] <= f
    requires i + 1 < |Heights(low, high, high)| ==> f < Heights(low, high, high)[i + 1]
    ensures f - Heights(low, high, high)[i] <= (high - Heights(low, high, high)[i]) / 2
  {
    hide Heights;
    if i + 1 < |Heights(low, high, high)| {
      HeightsRise(low, high, high, i);
    } else {
      HeightsShape(low, high);
    }
  }

  // Two peers: the reply to a synopsis of the whole chain starts with a block both share, no further below the
  // fork point than half the distance from there to the client's head; a fork below the synopsis is reported.
  method Exchange(fork: ForkDb, a: BlockId, undoable: nat, b: BlockId, known: set<BlockId>, limit: nat, ghost f: nat)
                  returns (r: Reply)
    requires fork.Valid() && undoable <= Num(a) && Num(a) > 0 && Num(b) > 0 && limit > 0 && IsForkPoint(a, b, f)
    requires forall k :: 1 <= k <= Num(b) ==> IdAt(b, k) in known
    requires forall id <- known :: Num(id) <= Num(b)
    ensures r.Unreachable? <==> f < LowFor(a, undoable, Genesis)
    ensures !r.Broke?
    ensures r.Reply? ==> Answered(a, b, f, LowFor(a, undoable, Genesis), r.ids, limit)
    ensures r.Reply? ==> |r.ids| > 0 && Num(r.ids[|r.ids| - 1]) + r.remaining == Num(b)
  {
    hide Ancestor, Heights, IsAncestor, Num, Recognized, Summary, IdsFrom, LowFor, Answered, IsForkPoint, IdAt;
    var s := GetSynopsis(fork, a, undoable, Genesis, 0);
    ghost var low := LowFor(a, undoable, Genesis);
    NumZero(a);
    LowAtLeastOne(a, undoable);
    NotGenesis(s.ids, a, Heights(low, Num(a), Num(a)));
    AllInChain(s.ids, a, b, f, known, low);
    r := GetBlockIds(b, known, s.ids, limit);
    if r.Reply? {
      ghost var i :| LastUsable(b, known, s.ids, i) && r.ids == IdsFrom(b, Num(s.ids[i]), limit);
      ReplyNearFork(a, b, f, known, low, s.ids, i, limit);
      AnswerNotEmpty(a, b, f, low, r.ids, limit);
    }
  }

  lemma AnswerNotEmpty(a: BlockId, b: BlockId, f: nat, low: nat, ids: seq<BlockId>, limit: nat)
    requires Answered(a, b, f, low, ids, limit)
    ensures |ids| > 0
  {
  }

  lemma LowAtLeastOne(a: BlockId, undoable: nat)
    requires undoable <= Num(a) && Num(a) > 0
    ensures 1 <= LowFor(a, undoable, Genesis) <= Num(a)
  {
  }

  // No entry makes the responder stumble, and the first is recognized unless the fork is below it.
  lemma AllInChain(ids: seq<BlockId>, a: BlockId, b: BlockId, f: nat, known: set<BlockId>, low: nat)
    requires 1 <= low <= Num(a) && IsForkPoint(a, b, f) && ids == Summary(a, Heights(low, Num(a), Num(a)))
    requires forall k :: 1 <= k <= Num(b) ==> IdAt(b, k) in known
    ensures |ids| > 0 && (Recognized(b, known, ids[0]) <==> low <= f)
    ensures f < low ==> forall i :: 0 <= i < |ids| ==> !Recognized(b, known, ids[i])
  {
    hide Ancestor, Heights, Num, Recognized;
    var heights := Heights(low, Num(a), Num(a));
    forall i | 0 <= i < |heights|
      ensures Recognized(b, known, ids[i]) <==> heights[i] <= f
    {
      RecognizedIffShared(a, b, f, known, heights[i]);
    }
  }

  // Where the reply starts.
  ghost predicate Answered(a: BlockId, b: BlockId, f: nat, low: nat, ids: seq<BlockId>, limit: nat) {
    exists h :: low <= h <= f && h <= Num(b) && f <= Num(a) && f - h <= (Num(a) - h) / 2
      && IdAt(a, h) == IdAt(b, h) && ids == IdsFrom(b, h, limit) && |ids| > 0 && ids[0] == IdAt(b, h)
  }

  lemma ReplyNearFork(a: BlockId, b: BlockId, f: nat, known: set<BlockId>, low: nat, ids: seq<BlockId>, i: nat,
                      limit: nat)
    requires 1 <= low <= Num(a) && IsForkPoint(a, b, f) && ids == Summary(a, Heights(low, Num(a), Num(a))) && limit > 0
    requires forall k :: 1 <= k <= Num(b) ==> IdAt(b, k) in known
    requires i < |ids| && Recognized(b, known, ids[i]) && forall j :: i < j < |ids| ==> !Recognized(b, known, ids[j])
    ensures Answered(a, b, f, low, IdsFrom(b, Num(ids[i]), limit), limit)
  {
    hide Ancestor, Heights, Num, Recognized, IsForkPoint, IdsFrom;
    var heights := Heights(low, Num(a), Num(a));
    forall j | 0 <= j < |heights|
      ensures Recognized(b, known, ids[j]) <==> heights[j] <= f
    {
      RecognizedIffShared(a, b, f, known, heights[j]);
    }
    LastIsAnswer(a, b, f, low, i, limit);
    assert Num(ids[i]) == heights[i];
  }

  lemma LastIsAnswer(a: BlockId, b: BlockId, f: nat, low: nat, i: nat, limit: nat)
    requires 1 <= low <= Num(a) && IsForkPoint(a, b, f) && limit > 0 && i < |Heights(low, Num(a), Num(a))|
    requires Heights(low, Num(a), Num(a))[i] <= f
    requires i + 1 < |Heights(low, Num(a), Num(a))| ==> f < Heights(low, Num(a), Num(a))[i + 1]
    ensures Answered(a, b, f, low, IdsFrom(b, Heights(low, Num(a), Num(a))[i], limit), limit)
  {
    hide Heights, Num, IdsFrom, IdAt;
    var h := Heights(low, Num(a), Num(a))[i];
    LastSharedIsNear(low, Num(a), f, i);
    SharedIffBelowFork(a, b, f, h);
    IdsFromStart(b, h, limit);
  }

  lemma NotGenesis(ids: seq<BlockId>, tip: BlockId, heights: seq<nat>)
    requires (forall i :: 0 <= i < |heights| ==> 1 <= heights[i] <= Num(tip)) && ids == Summary(tip, heights)
             && heights != []
    ensures ids != [] && ids != [Genesis]
  {
    hide Ancestor, Num;
    NumZero(ids[0]);
  }
}
