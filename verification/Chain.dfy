// Pushing blocks: extending the chain, switching to a longer fork, and going back if the fork is bad.
// Source: libraries/chain/db_block.cpp:117-202 and 437-465.
module Chain {
  import opened Options
  import opened UndoModel
  import opened UndoRuns
  import opened Blocks
  import opened BlockApplication
  import ObjectDatabase
  import ForkDatabase

  datatype Outcome =
    | Accepted(switched: bool)
    // The block, or one on its branch, did not apply; the chain is as before.
    | Rejected
    // The fork database refused the block, or a branch was no longer indexed; nothing was applied.
    | Unlinked
    // A block could not be popped: there is not enough undo history.
    | Stuck

  datatype Plan =
    | Refuse
    | Stay
    | Extend
    | Switch(index: set<BlockId>, top: BlockId, first: seq<BlockId>, second: seq<BlockId>)

  class Blockchain {
    const db: ObjectDatabase.Database<Object>
    const fork: ForkDatabase.ForkDb
    const evaluate: Evaluator
    var stored: set<BlockId>
    // How many of the newest levels were left by applied blocks.
    ghost var undoable: nat

    // The store and the copies of it that the undo database stands for.
    ghost function View(): Snap<Object>
      reads db
    {
      Abs(db.Model())
    }

    ghost function Now(): Store<Object>
      reads db
    {
      View().store
    }

    ghost predicate Valid()
      reads this, db, fork
    {
      && db.Valid() && fork.Valid() && db.activeSessions == 0
      && LeavesHeadAlone(evaluate)
      && Undoable(evaluate, View().levels, Now(), undoable)
    }

    // Below the levels left by blocks there is nothing, or one level with the same head: every block that can
    // be popped at all is counted.
    ghost predicate Rooted()
      reads this, db
    {
      RootedAt(View().levels, Now(), undoable)
    }

    constructor (db: ObjectDatabase.Database<Object>, fork: ForkDatabase.ForkDb, evaluate: Evaluator)
      requires db.Valid() && fork.Valid() && db.activeSessions == 0 && LeavesHeadAlone(evaluate)
      ensures Valid() && this.db == db && this.fork == fork && this.evaluate == evaluate && stored == {}
      ensures db.stack == [] ==> Rooted()
    {
      this.db, this.fork, this.evaluate := db, fork, evaluate;
      stored, undoable := {}, 0;
    }

    function HeadBlockId(): BlockId
      reads db
    {
      HeadOf(Store(db.objects, db.nextIds))
    }

    // One change of the store, recorded by the open session.
    method ApplyOne(c: Change) returns (ok: bool)
      requires db.Valid() && db.stack != []
      modifies db
      ensures db.Valid() && db.stack != []
      ensures ok == ApplyChange(old(Now()), c).Some?
      ensures View() == old(View()).(store := if ok then ApplyChange(old(Now()), c).value else old(Now()))
    {
      hide Inv, Levels, Step;
      ChangeStep(db.Model(), c);
      match c
      case New(kind, v) => var r := db.Create(kind, v); ok := r.Some?;
      case Set(id, v) => ok := db.Modify(id, v);
      case Delete(id) => ok := db.Remove(id);
    }

    method ApplyAll(cs: seq<Change>) returns (ok: bool)
      requires db.Valid() && db.stack != []
      modifies db
      ensures db.Valid() && db.stack != []
      ensures ok == ApplyChanges(old(Now()), cs).1
      ensures View() == old(View()).(store := ApplyChanges(old(Now()), cs).0)
    {
      hide Inv, Levels, Step, ApplyChange;
      var i := 0;
      assert cs[0..] == cs;
      while i < |cs|
        invariant 0 <= i <= |cs|
        invariant db.Valid() && db.stack != []
        invariant ApplyChanges(old(Now()), cs) == ApplyChanges(Now(), cs[i..])
        invariant View() == old(View()).(store := Now())
      {
        assert cs[i..][1..] == cs[i + 1..];
        ok := ApplyOne(cs[i]);
        if !ok { return false; }
        i := i + 1;
      }
      return true;
    }

    // Evaluates a block on the present store; an exception leaves the changes made so far.
    method ApplyBlock(b: BlockId) returns (ok: bool)
      requires db.Valid() && db.stack != []
      modifies db
      ensures db.Valid() && db.stack != []
      ensures ok == Evaluate(evaluate, old(Now()), b).1
      ensures View() == old(View()).(store := Evaluate(evaluate, old(Now()), b).0,
                                     maxSize := LimitAfter(evaluate, old(Now()), b, old(View()).maxSize))
    {
      hide Inv, Levels, Step, ApplyChanges;
      if b == Genesis || HeadBlockId() != b.previous { return false; }
      var e := evaluate(Store(db.objects, db.nextIds), b);
      ok := ApplyAll(e.before);
      if !ok || e.limit == None { return false; }
      ok := ApplyOne(Set(HEAD, HeadBlock(b)));
      if !ok { return false; }
      LimitStep(db.Model(), e.limit.value);
      db.SetMaxSize(e.limit.value);
      ok := ApplyAll(e.after);
      return ok && e.ok;
    }

    // Applies a block in a session of its own, which is committed, or undone if the block throws.
    method PushApplied(b: BlockId, key: BlockId) returns (ok: bool)
      requires Valid()
      modifies this, db
      ensures Valid()
      ensures ok == Apply(evaluate, old(Now()), b).Some?
      ensures Now() == if ok then Apply(evaluate, old(Now()), b).value else old(Now())
      ensures View().levels == LevelsAfter(old(View().levels), old(Now()), old(View().maxSize), ok)
      ensures View().maxSize == LimitAfter(evaluate, old(Now()), b, old(View().maxSize))
      ensures undoable == Kept(old(View().levels), old(View().maxSize), old(undoable)) + (if ok then 1 else 0)
      ensures stored == old(stored) + (if ok then {key} else {})
      ensures old(Rooted()) ==> Rooted()
    {
      hide Inv, Levels, Step, Evaluate, Undoable, LimitAfter, LeavesHeadAlone, Opened, Trim, RootedAt, Kept, StoreAt,
           HeadOf, WellFormed;
      ghost var start := View();
      SessionSteps(db.Model(), Start);
      AllWellFormed(db.Model());
      db.StartUndoSession(false);
      OpenedNonEmpty(start.levels, start.store, start.maxSize);
      ok := ApplyBlock(b);
      if ok {
        stored := stored + {key};
        SessionSteps(db.Model(), Commit);
        var committed := db.Commit();
        assert committed;
      } else {
        SessionSteps(db.Model(), Undo);
        var undone := db.Undo();
        assert undone;
      }
      undoable := Kept(start.levels, start.maxSize, undoable) + (if ok then 1 else 0);
      UndoableAfterPush(evaluate, start.levels, start.store, old(undoable), start.maxSize, b, Now(), ok);
      RootedAfterPush(start.levels, start.store, old(undoable), start.maxSize, Now(), ok);
    }

    // Takes the newest block off the chain. Fails if the block or its parent is not known any more,
    // or if there is no level left to pop.
    method PopBlock() returns (ok: bool)
      requires Valid()
      modifies this, db, fork`index, fork`head
      ensures Valid() && fork.index == old(fork.index)
      ensures ok <==> old(HeadBlockId()) in old(fork.index) + old(stored) && old(View().levels) != []
                      && old(fork.head).Some? && old(fork.Prev(fork.head.value)).Some?
      ensures ok ==>
                var n := |old(View().levels)|;
                && Now() == old(View().levels)[n - 1] && View().levels == old(View().levels)[..n - 1]
                && View().maxSize == old(View().maxSize)
                && undoable == (if old(undoable) > 0 then old(undoable) - 1 else 0)
                && stored == old(stored) - {old(HeadBlockId())}
                && fork.head == Some(old(fork.head).value.previous)
                && |db.stack| < |old(db.stack)|
      ensures old(Rooted()) ==> Rooted()
    {
      hide Inv, Levels, Step, LeavesHeadAlone, RootedAt;
      var head := HeadBlockId();
      ghost var levels, now, n := View().levels, Now(), undoable;
      if head !in fork.index && head !in stored { return false; }
      ok := fork.PopBlock();
      if !ok { return false; }
      stored := stored - {head};
      SessionSteps(db.Model(), PopCommit);
      LevelCount(db.Model());
      ok := db.PopCommit();
      if ok {
        LevelCount(db.Model());
        undoable := if undoable > 0 then undoable - 1 else 0;
        RootedAfterPop(levels, now, n);
      }
    }

    // `meet` lies n blocks below the head, and all of the blocks above it left a level.
    ghost predicate Above(n: nat, meet: BlockId)
      reads this, db
    {
      n <= undoable && n <= Num(HeadBlockId()) && Ancestor(HeadBlockId(), n) == meet
    }

    // The blocks above `meet` are all known, and so are the fork items that the fork head moves over.
    ghost predicate CanPop(n: nat, meet: BlockId)
      reads this, db, fork
    {
      && Above(n, meet)
      && (forall i: nat :: i < n ==> Ancestor(HeadBlockId(), i) in fork.index + stored)
      && (n > 0 ==> fork.head.Some? && AncestorsIn(fork.index, fork.head.value, n))
    }

    // Pops blocks until `meet` is the head.
    method PopTo(meet: BlockId, ghost n: nat) returns (ok: bool)
      requires Valid()
      modifies this, db, fork`index, fork`head
      ensures Valid() && fork.index == old(fork.index)
      ensures ok ==> HeadBlockId() == meet
      ensures old(Above(n, meet)) ==> (ok <==> old(CanPop(n, meet)))
      ensures old(Above(n, meet)) && ok ==>
                && n <= |old(View().levels)|
                && Now() == StoreAt(old(View().levels), old(Now()), n)
                && View().levels == old(View().levels)[..|old(View().levels)| - n]
                && View().maxSize == old(View().maxSize)
                && undoable == old(undoable) - n
      ensures old(Lost(View().levels, Now(), Num(meet))) ==> !ok
      ensures old(Rooted()) ==> Rooted()
    {
      hide Inv, Levels, Step, LeavesHeadAlone, Apply, Undoable, RootedAt, Lost, Num, Ancestor, StoreAt, AncestorsIn,
           Popped, PoppedKnown, HeadOf, WellFormed;
      ghost var above, lost := Above(n, meet), Lost(View().levels, Now(), Num(meet));
      ghost var levels, now, h, f, u, known := View().levels, Now(), HeadBlockId(), fork.head, undoable,
        fork.index + stored;
      ghost var k: nat := 0;
      AllWellFormed(db.Model());
      PopHeads(evaluate, levels, now, u);
      if above {
        PoppedStart(levels, now, h, n, known, fork.index, f);
      }
      while HeadBlockId() != meet
        invariant Valid() && fork.index == old(fork.index) && stored <= old(stored)
        invariant above ==> Popped(levels, now, h, n, k, View().levels, Now())
        invariant above ==> PoppedKnown(known, fork.index, h, f, n, k, fork.head)
        invariant above ==> forall i: nat :: k <= i < n && Ancestor(h, i) in known ==>
                  Ancestor(h, i) in fork.index + stored
        invariant above ==> undoable == u - k && View().maxSize == old(View().maxSize)
        invariant lost ==> Lost(View().levels, Now(), Num(meet))
        invariant old(Rooted()) ==> Rooted()
        decreases |db.stack|
      {
        ghost var was, tip := View(), fork.head;
        if above {
          PoppedNext(levels, now, h, n, k, was.levels, was.store, meet, known, fork.index, f, tip);
        }
        ok := PopBlock();
        if !ok { return false; }
        if above {
          PoppedStep(levels, now, h, n, k, was.levels, was.store, View().levels, Now());
          PoppedStepKnown(known, fork.index, h, f, n, k, tip, fork.head);
        }
        LostAfterPop(was.levels, was.store, Num(meet));
        k := k + 1;
      }
      if above {
        PoppedAll(levels, now, h, n, k, View().levels, Now(), known, fork.index, f, fork.head);
      }
      LostNow(View().levels, Now(), Num(meet));
      return true;
    }

    // Applies a branch, oldest block first, until one throws. Returns how many are left: the last of
    // them is the one that failed. Each block is stored under `key`, or under its own id.
    method PushBranch(branch: seq<BlockId>, key: Option<BlockId>) returns (left: nat)
      requires Valid()
      modifies this, db
      ensures Valid() && left <= |branch|
      ensures Replay(evaluate, old(Now()), branch[left..]) == Some(Now())
      ensures left > 0 ==> Replay(evaluate, old(Now()), branch[left - 1..]) == None
      ensures key == None ==> forall i :: left <= i < |branch| ==> branch[i] in stored
      ensures old(Rooted()) ==> Rooted()
      ensures LimitsAllow(evaluate, old(Now()), old(View().maxSize), branch) ==>
                var t := |branch| - left;
                t <= undoable && t <= |View().levels| && StoreAt(View().levels, Now(), t) == old(Now())
      ensures !LimitsAllow(evaluate, old(Now()), old(View().maxSize), branch) ==>
                Lost(View().levels, Now(), Num(old(HeadBlockId())))
    {
      hide Inv, Levels, Step, LeavesHeadAlone, Apply, Undoable, LimitAfter, Opened, Trim, LevelsAfter, Kept, Lost, Num,
           HeadOf, LimitsAllow, LimitAt, Replay, RootedAt;
      ghost var d, max, n := Now(), View().maxSize, Num(HeadBlockId());
      ghost var lost := false;
      left := |branch|;
      ReplayNothing(evaluate, d, max, branch);
      while left > 0
        invariant Valid() && left <= |branch|
        invariant Replay(evaluate, d, branch[left..]) == Some(Now())
        invariant View().maxSize == LimitAt(evaluate, d, max, branch[left..])
        invariant key == None ==> forall i :: left <= i < |branch| ==> branch[i] in stored
        invariant Num(HeadBlockId()) == n + |branch| - left
        invariant !lost ==> Reaches(View().levels, Now(), |branch| - left, d) && |branch| - left <= undoable
        invariant !lost ==> AllowedSoFar(evaluate, d, max, branch, left)
        invariant lost ==> Lost(View().levels, Now(), n) && !LimitsAllow(evaluate, d, max, branch)
        invariant old(Rooted()) ==> Rooted()
      {
        var b := branch[left - 1];
        ghost var was, u, j := View(), undoable, |branch| - left;
        ghost var over := j > was.maxSize;
        LimitsSoFar(evaluate, d, max, branch, left);
        AllWellFormed(db.Model());
        var ok := PushApplied(b, if key.Some? then key.value else b);
        ReplayOneMore(evaluate, d, max, branch, left, was.store);
        HeadsRise(evaluate, was.store, b);
        if lost {
          LostAfterPush(was.levels, was.store, was.maxSize, n, Now(), ok);
        } else if over {
          LostBegins(evaluate, was.levels, was.store, u, was.maxSize, n, j, Now(), ok);
          lost := true;
        } else {
          PushKeepsReach(was.levels, was.store, was.maxSize, j, d, u, Now());
        }
        if !ok {
          if !lost {
            AllowedAll(evaluate, d, max, branch, left - 1);
          }
          return left;
        }
        left := left - 1;
      }
      if !lost {
        AllowedAll(evaluate, d, max, branch, 0);
      }
    }

    // The fork database once it has taken `b` in.
    ghost function IndexWith(b: BlockId): set<BlockId>
      reads this, fork
    {
      ForkDatabase.IndexAfter(fork.index, fork.head, fork.maxSize, b)
    }

    ghost function TopAfter(b: BlockId): BlockId
      reads this, fork
    {
      ForkDatabase.HeadAfter(fork.head, b)
    }

    // What pushing `b` comes down to.
    ghost function PlanFor(b: BlockId): Plan
      requires fork.Valid() && b.Block?
      reads this, db, fork
    {
      Planned(fork.index, fork.head, fork.maxSize, HeadBlockId(), b)
    }

    // Pushes a block.
    method PushBlock(b: BlockId) returns (r: Outcome)
      requires Valid() && b.Block?
      modifies this, db, fork`index, fork`head
      ensures Valid()
      ensures match old(PlanFor(b))
              case Refuse => r == Unlinked && View() == old(View())
              case Stay => r == Accepted(false) && View() == old(View())
                           && fork.head == Some(old(TopAfter(b))) && fork.index == old(IndexWith(b))
              case Extend =>
                && fork.head == Some(old(TopAfter(b)))
                && (match Apply(evaluate, old(Now()), b)
                    case Some(d) => r == Accepted(false) && Now() == d && HeadBlockId() == b
                                    && fork.index == old(IndexWith(b))
                    case None => r == Rejected && Now() == old(Now()) && fork.index == old(IndexWith(b)) - {b})
              case Switch(index, top, first, second) =>
                && (|second| <= old(undoable) ==>
                      |second| <= old(|View().levels|)
                      && Switched(evaluate, old(View()), index, top, first, second, r, Now(), fork.index))
                && (|second| > old(undoable) && old(Rooted()) ==> r == Stuck)
      ensures old(Rooted()) ==> Rooted()
    {
      hide Inv, Levels, Step, LeavesHeadAlone, Apply, LimitAfter, BranchLengths, Ancestor, Path, Undoable, WellFormed,
           Switched, RootedAt;
      AllWellFormed(db.Model());
      var pushed := fork.PushBlock(b);
      if pushed == None { return Unlinked; }
      var top := pushed.value;
      if top.previous != HeadBlockId() {
        if Num(top) <= Num(HeadBlockId()) { return Accepted(false); }
        var branches := fork.FetchBranchFrom(top, HeadBlockId());
        if branches == None { return Unlinked; }
        r := SwitchFork(top, branches.value.0, branches.value.1, b);
        return;
      }
      ghost var d := Now();
      var ok := PushApplied(b, b);
      if !ok {
        fork.Remove(b);
        return Rejected;
      }
      ApplySetsHead(evaluate, d, b);
      return Accepted(false);
    }

    // Goes over to a longer branch; if one of its blocks throws, goes back to the old one.
    // `first` and `second` are the new and the old branch, newest block first.
    method SwitchFork(newHead: BlockId, first: seq<BlockId>, second: seq<BlockId>, newBlock: BlockId)
                      returns (r: Outcome)
      requires Valid() && newHead.Block? && HeadBlockId().Block? && Num(newHead) > Num(HeadBlockId())
      requires first == Path(newHead, BranchLengths(newHead, HeadBlockId()).0)
      requires second == Path(HeadBlockId(), BranchLengths(newHead, HeadBlockId()).1)
      requires fork.head == Some(newHead)
      requires ForkDatabase.Indexed(fork.index, newHead, |first|)
               && ForkDatabase.Indexed(fork.index, HeadBlockId(), |second|)
      modifies this, db, fork`index, fork`head
      ensures Valid() && (r == Accepted(true) || r == Rejected || r == Stuck)
      ensures |second| <= old(undoable) ==>
                |second| <= old(|View().levels|)
                && Switched(evaluate, old(View()), old(fork.index), newHead, first, second, r, Now(), fork.index)
      ensures |second| > old(undoable) && old(Rooted()) ==> r == Stuck
      ensures old(Rooted()) ==> Rooted()
    {
      hide Inv, Levels, Step, LeavesHeadAlone, Apply, LimitAfter, BranchLengths, Ancestor, Path, Num, Undoable,
           LimitsAllow, WellFormed, HeadOf, RootedAt, Lost, Replay, GoodPart, AncestorsIn, Members;
      ghost var levels, now, h, u, index, max := View().levels, Now(), HeadBlockId(), undoable, fork.index,
        View().maxSize;
      ghost var m, n := |first|, |second|;
      ghost var enough := n <= u;
      AllWellFormed(db.Model());
      SwitchShape(newHead, h, first, second);
      var meet := second[|second| - 1].previous;
      if enough {
        FirstPops(evaluate, levels, now, u, index, newHead, h, first, second);
      } else if Rooted() {
        TooDeep(evaluate, levels, now, u, h, n, meet);
      }
      ghost var base := if enough then StoreAt(levels, now, n) else now;
      assert enough ==> CanPop(n, meet);
      var popped := PopTo(meet, n);
      if !popped { return Stuck; }
      AllWellFormed(db.Model());
      ghost var from := Now();
      assert enough ==> from == base;
      var left := PushBranch(first, None);
      assert first[0..] == first;
      if left == 0 {
        ReplayHead(evaluate, from, first);
        return Accepted(true);
      }
      if enough {
        GoodPartIs(evaluate, base, first, left - 1);
        BranchHeads(evaluate, base, Now(), newHead, first, left);
        StillIndexed(index, newHead, h, first, left);
      }
      r := ReturnToOldBranch(first, second, left, newBlock, meet, base, now);
    }

    // The chain stands on the good part of the new branch: the blocks down to `base` left their levels and are stored.
    ghost predicate OnNewBranch(first: seq<BlockId>, second: seq<BlockId>, left: nat, meet: BlockId,
                                base: Store<Object>, was: Store<Object>)
      reads this, db
    {
      && left <= |first| && second != []
      && var t := |first| - left;
      && Above(t, meet) && Reaches(View().levels, Now(), t, base) && Replay(evaluate, base, second) == Some(was)
      && forall i: nat :: i < t ==> Ancestor(HeadBlockId(), i) in stored
    }

    // Takes the good part off again and replays the old branch. The fork head is set to the old tip first, so it
    // moves down the old branch while the blocks of the new one are popped.
    method ReturnToOldBranch(first: seq<BlockId>, second: seq<BlockId>, left: nat, newBlock: BlockId, meet: BlockId,
                             ghost base: Store<Object>, ghost was: Store<Object>) returns (r: Outcome)
      requires Valid() && 0 < left <= |first| && second != [] && second[0].Block?
      modifies this, db, fork`index, fork`head
      ensures Valid() && (r == Rejected || r == Stuck)
      ensures fork.index == old(fork.index) - Members(first[..left])
      ensures old(OnNewBranch(first, second, left, meet, base, was)) ==>
                if AncestorsIn(fork.index, second[0], |first| - left) then r == Rejected && Now() == was else r == Stuck
      ensures old(Lost(View().levels, Now(), Num(meet))) ==> r == Stuck
      ensures old(Rooted()) ==> Rooted()
    {
      hide Inv, Levels, Step, LeavesHeadAlone, Apply, Ancestor, Num, Undoable, HeadOf, RootedAt, Lost, AncestorsIn,
           Members, Replay;
      ghost var on := OnNewBranch(first, second, left, meet, base, was);
      ghost var t := |first| - left;
      DropFailed(first, left);
      fork.SetHead(second[0]);
      if on && t == 0 {
        NoAncestors(fork.index, second[0]);
      }
      assert on ==> (CanPop(t, meet) <==> AncestorsIn(fork.index, second[0], t));
      var popped := PopTo(meet, t);
      if !popped { return Stuck; }
      assert on ==> Now() == base;
      var again := PushBranch(second, Some(newBlock));
      if on && again > 0 {
        ReplayOlder(evaluate, base, second, again - 1);
      }
      assert second[0..] == second;
      return if again == 0 then Rejected else Stuck;
    }

    // Removes the failed block and those built on it.
    method DropFailed(first: seq<BlockId>, left: nat)
      requires fork.Valid() && left <= |first|
      modifies fork`index
      ensures fork.Valid() && fork.index == old(fork.index) - Members(first[..left]) && fork.head == old(fork.head)
    {
      var i := left;
      while i > 0
        invariant 0 <= i <= left && fork.Valid() && fork.head == old(fork.head)
        invariant fork.index == old(fork.index) - Members(first[i..left])
      {
        assert first[i - 1..left] == [first[i - 1]] + first[i..left];
        fork.Remove(first[i - 1]);
        i := i - 1;
      }
    }
  }

  // What pushing `b` comes down to, for a chain with head `h`.
  ghost function Planned(index: set<BlockId>, head: Option<BlockId>, maxSize: nat, h: BlockId, b: BlockId): Plan
    requires b.Block? && (head.Some? ==> head.value.Block?)
  {
    var after, top := ForkDatabase.IndexAfter(index, head, maxSize, b), ForkDatabase.HeadAfter(head, b);
    if ForkDatabase.Refuses(index, head, maxSize, b) then Refuse
    else if top.previous == h then Extend
    else if Num(top) <= Num(h) then Stay
    else if top in after && h in after && h.Block?
            && ForkDatabase.Indexed(after, top, BranchLengths(top, h).0)
            && ForkDatabase.Indexed(after, h, BranchLengths(top, h).1) then
      Switch(after, top, Path(top, BranchLengths(top, h).0), Path(h, BranchLengths(top, h).1))
    else Refuse
  }

  // ---------- what a switch comes to ----------

  // The i-th ancestors for 1 <= i <= n exist as blocks of the index.
  ghost predicate AncestorsIn(index: set<BlockId>, tip: BlockId, n: nat) {
    n <= Num(tip) && forall i: nat :: 1 <= i <= n ==> Ancestor(tip, i) in index
  }

  // The code comes back from a bad branch exactly if the fork index reaches as far below the old tip as the good
  // part of the new branch is long, and no undo limit set on the way cuts into that part.
  ghost predicate ComesBack(ev: Evaluator, index: set<BlockId>, tip: BlockId, base: Store<Object>, max: nat,
                            first: seq<BlockId>) {
    AncestorsIn(index, tip, GoodPart(ev, base, first)) && LimitsAllow(ev, base, max, first)
  }

  // The outcome of switching from the branch `second` to the branch `first`, the old one being within the undo history.
  ghost predicate Switched(ev: Evaluator, was: Snap<Object>, index: set<BlockId>, top: BlockId, first: seq<BlockId>,
                           second: seq<BlockId>, r: Outcome, now: Store<Object>, index': set<BlockId>)
    requires |second| <= |was.levels|
  {
    var base := StoreAt(was.levels, was.store, |second|);
    && Replay(ev, base, second) == Some(was.store)
    && (match Replay(ev, base, first)
        case Some(d) => r == Accepted(true) && now == d && HeadOf(d) == top && index' == index
        case None =>
          && (r == Stuck <==> !ComesBack(ev, index, HeadOf(was.store), base, was.maxSize, first))
          && (r != Stuck ==>
                r == Rejected && now == was.store
                  && index' == index - Members(first[..|first| - GoodPart(ev, base, first)])))
  }

  // The two branches of a switch hang off one block, and the new one is longer.
  lemma SwitchShape(a: BlockId, h: BlockId, first: seq<BlockId>, second: seq<BlockId>)
    requires a.Block? && h.Block? && Num(a) > Num(h)
    requires first == Path(a, BranchLengths(a, h).0) && second == Path(h, BranchLengths(a, h).1)
    ensures 0 < |second| < |first| <= Num(a) && |second| <= Num(h) && first[0] == a && second[0] == h
    ensures second[|second| - 1].Block?
            && second[|second| - 1].previous == Ancestor(h, |second|) == Ancestor(a, |first|)
  {
    hide BranchLengths, Path, Num, Ancestor;
    PathEnds(a, |first|);
    PathEnds(h, |second|);
    BranchesMeet(a, h);
  }

  lemma PathEnds(tip: BlockId, n: nat)
    requires 0 < n <= Num(tip)
    ensures Path(tip, n)[0] == tip && Path(tip, n)[n - 1] == Ancestor(tip, n - 1)
  {
    AncestorZero(tip);
    PathAt(tip, n, 0);
    PathAt(tip, n, n - 1);
  }

  lemma FirstPops(ev: Evaluator, levels: seq<Store<Object>>, now: Store<Object>, u: nat, index: set<BlockId>,
                  a: BlockId, h: BlockId, first: seq<BlockId>, second: seq<BlockId>)
    requires a.Block? && h.Block? && Num(a) > Num(h) && HeadOf(now) == h
    requires first == Path(a, BranchLengths(a, h).0) && second == Path(h, BranchLengths(a, h).1)
    requires LeavesHeadAlone(ev) && (forall d <- levels :: WellFormed(d)) && Undoable(ev, levels, now, u)
             && |second| <= u
    requires ForkDatabase.Indexed(index, a, |first|) && ForkDatabase.Indexed(index, h, |second|)
    ensures |second| < |first|
    ensures forall i: nat :: i < |second| ==> Ancestor(h, i) in index
    ensures AncestorsIn(index, a, |second|)
    ensures |second| <= |levels| && Replay(ev, StoreAt(levels, now, |second|), second) == Some(now)
    ensures HeadOf(StoreAt(levels, now, |second|)) == Ancestor(h, |second|)
    ensures WellFormed(StoreAt(levels, now, |second|))
  {
    hide BranchLengths, WellFormed, LeavesHeadAlone, Apply, HeadOf, Replay, Path;
    SwitchShape(a, h, first, second);
    UndoableFewer(ev, levels, now, u, |second|);
    UndoableIsReplay(ev, levels, now, |second|);
  }

  // The head after part of a branch has been applied, and the blocks below it.
  lemma BranchHeads(ev: Evaluator, base: Store<Object>, now: Store<Object>, a: BlockId, first: seq<BlockId>, left: nat)
    requires |first| <= Num(a) && left <= |first| && first == Path(a, |first|)
    requires LeavesHeadAlone(ev) && WellFormed(base) && Replay(ev, base, first[left..]) == Some(now)
    requires HeadOf(base) == Ancestor(a, |first|)
    ensures var t := |first| - left;
            && HeadOf(now) == Ancestor(a, left)
            && t <= Num(HeadOf(now)) && Ancestor(HeadOf(now), t) == Ancestor(a, |first|)
            && forall i: nat :: i < t ==> Ancestor(HeadOf(now), i) == first[left + i]
  {
    hide Replay, WellFormed, LeavesHeadAlone, HeadOf, Path, Num, Ancestor;
    var m := |first|;
    ReplayHead(ev, base, first[left..]);
    if left == m {
      ReplayNone(ev, base, first[left..], now);
    } else {
      PathAt(a, m, left);
    }
    AncestorSum(a, left, m - left);
    forall i: nat | i < m - left
      ensures Ancestor(HeadOf(now), i) == first[left + i]
    {
      PathAt(a, m, left + i);
      AncestorSum(a, left, i);
    }
  }

  // Removing failed blocks of the new branch removes none of the old tip's ancestors.
  lemma OldAncestorsStay(index: set<BlockId>, a: BlockId, h: BlockId, first: seq<BlockId>, left: nat, i: nat)
    requires a.Block? && h.Block? && Num(a) > Num(h) && left <= |first|
    requires first == Path(a, BranchLengths(a, h).0)
    requires 1 <= i <= Num(h) && Ancestor(h, i) in index
    ensures Ancestor(h, i) in index - Members(first[..left])
  {
    hide BranchLengths, Path, Num, Ancestor;
    forall j: nat | j < left
      ensures first[j] != Ancestor(h, i)
    {
      PathAt(a, |first|, j);
      BranchesApart(a, h, j, i);
    }
  }

  // Removing the failed blocks makes no difference to how far down the old branch the index reaches.
  lemma StillIndexed(index: set<BlockId>, a: BlockId, h: BlockId, first: seq<BlockId>, left: nat)
    requires a.Block? && h.Block? && Num(a) > Num(h) && 0 < left <= |first|
    requires first == Path(a, BranchLengths(a, h).0)
    ensures AncestorsIn(index - Members(first[..left]), h, |first| - left) <==> AncestorsIn(index, h, |first| - left)
  {
    hide BranchLengths, Path, Num, Ancestor, Members;
    if AncestorsIn(index, h, |first| - left) {
      forall i: nat | 1 <= i <= |first| - left
        ensures Ancestor(h, i) in index - Members(first[..left])
      {
        OldAncestorsStay(index, a, h, first, left, i);
      }
    } else if AncestorsIn(index - Members(first[..left]), h, |first| - left) {
      Fewer(index, first, left, h);
    }
  }

  lemma Fewer(index: set<BlockId>, first: seq<BlockId>, left: nat, h: BlockId)
    requires left <= |first| && AncestorsIn(index - Members(first[..left]), h, |first| - left)
    ensures AncestorsIn(index, h, |first| - left)
  {
    hide Members;
  }

  lemma NoAncestors(index: set<BlockId>, tip: BlockId)
    ensures AncestorsIn(index, tip, 0)
  {
  }

  lemma ReplayNone(ev: Evaluator, d: Store<Object>, branch: seq<BlockId>, now: Store<Object>)
    requires branch == [] && Replay(ev, d, branch) == Some(now)
    ensures now == d
  {
  }

  ghost function Members(branch: seq<BlockId>): set<BlockId> {
    set b <- branch
  }

  // t levels down is the store `d`.
  ghost predicate Reaches(levels: seq<Store<Object>>, now: Store<Object>, t: nat, d: Store<Object>) {
    t <= |levels| && StoreAt(levels, now, t) == d
  }

  // A push within the size limit keeps what lies t levels down, one level further down if it succeeds.
  lemma PushKeepsReach(levels: seq<Store<Object>>, now: Store<Object>, max: nat, t: nat, d: Store<Object>, n: nat,
                       later: Store<Object>)
    ensures Reaches(levels, now, t, d) && t <= max && t <= n ==>
              && t <= Kept(levels, max, n)
              && Reaches(LevelsAfter(levels, now, max, false), now, t, d)
              && Reaches(LevelsAfter(levels, now, max, true), later, t + 1, d)
  {
    if Reaches(levels, now, t, d) && t <= max {
      OpenedNonEmpty(levels, now, max);
      var trimmed, inside := Trim(levels, max), Opened(levels, now, max);
      assert t <= |trimmed|;
      if t > 0 {
        assert trimmed[|trimmed| - t] == levels[|levels| - t];
        assert inside[..|inside| - 1] == trimmed;
      }
    }
  }

  // k of n blocks have been popped.
  ghost predicate Popped(levels: seq<Store<Object>>, now: Store<Object>, h: BlockId, n: nat, k: nat,
                         levels': seq<Store<Object>>, now': Store<Object>) {
    && k <= n <= |levels| && n <= Num(h)
    && levels' == levels[..|levels| - k] && now' == StoreAt(levels, now, k)
    && HeadOf(now') == Ancestor(h, k)
  }

  // The blocks and fork items that k pops have needed were there; `now` is where the fork head stands.
  ghost predicate PoppedKnown(known: set<BlockId>, index: set<BlockId>, h: BlockId, f: Option<BlockId>, n: nat, k: nat,
                              now: Option<BlockId>) {
    && k <= n <= Num(h) && (forall i: nat :: i < k ==> Ancestor(h, i) in known)
    && (if k == 0 then now == f else f.Some? && AncestorsIn(index, f.value, k) && now == Some(Ancestor(f.value, k)))
  }

  lemma PoppedStart(levels: seq<Store<Object>>, now: Store<Object>, h: BlockId, n: nat, known: set<BlockId>,
                    index: set<BlockId>, f: Option<BlockId>)
    requires n <= |levels| && n <= Num(h) && HeadOf(now) == h
    ensures Popped(levels, now, h, n, 0, levels, now) && PoppedKnown(known, index, h, f, n, 0, f)
  {
    hide HeadOf, Num;
    AncestorZero(h);
    assert levels[..|levels|] == levels;
  }

  // Before the next pop: there is more to pop, and what it needs is what was asked for.
  lemma PoppedNext(levels: seq<Store<Object>>, now: Store<Object>, h: BlockId, n: nat, k: nat,
                   levels': seq<Store<Object>>, now': Store<Object>,
                   meet: BlockId, known: set<BlockId>, index: set<BlockId>, f: Option<BlockId>, f': Option<BlockId>)
    requires Popped(levels, now, h, n, k, levels', now') && PoppedKnown(known, index, h, f, n, k, f')
    requires Ancestor(h, n) == meet && HeadOf(now') != meet
    ensures k < n && levels' != [] && HeadOf(now') == Ancestor(h, k)
    ensures forall i: nat :: k < i < n ==> Ancestor(h, i) != Ancestor(h, k)
    ensures f.Some? && AncestorsIn(index, f.value, n) ==>
              f'.Some? && f'.value.Block? && f'.value.previous in index
  {
    hide HeadOf, Num;
    AncestorsDiffer(h, k, n);
    if f.Some? && AncestorsIn(index, f.value, n) {
      AncestorZero(f.value);
      AncestorStep(f.value, k);
    }
  }

  lemma PoppedStep(levels: seq<Store<Object>>, now: Store<Object>, h: BlockId, n: nat, k: nat,
                   levels': seq<Store<Object>>, now': Store<Object>, levels'': seq<Store<Object>>, now'': Store<Object>)
    requires Popped(levels, now, h, n, k, levels', now') && k < n && levels' != []
    requires levels'' == levels'[..|levels'| - 1] && now'' == levels'[|levels'| - 1]
    requires HeadOf(StoreAt(levels, now, k + 1)) == Ancestor(h, k + 1)
    ensures Popped(levels, now, h, n, k + 1, levels'', now'')
  {
    hide HeadOf, Num;
  }

  lemma PoppedStepKnown(known: set<BlockId>, index: set<BlockId>, h: BlockId, f: Option<BlockId>, n: nat, k: nat,
                        tip: Option<BlockId>, tip': Option<BlockId>)
    requires PoppedKnown(known, index, h, f, n, k, tip) && k < n && Ancestor(h, k) in known
    requires tip.Some? && tip.value.Block? && tip.value.previous in index && tip' == Some(tip.value.previous)
    ensures PoppedKnown(known, index, h, f, n, k + 1, tip')
  {
    hide Ancestor;
    AncestorZero(f.value);
    AncestorStep(f.value, k);
  }

  // The pops end after n blocks, so that all that n pops need was there.
  lemma PoppedAll(levels: seq<Store<Object>>, now: Store<Object>, h: BlockId, n: nat, k: nat,
                  levels': seq<Store<Object>>, now': Store<Object>, known: set<BlockId>, index: set<BlockId>,
                  f: Option<BlockId>, tip: Option<BlockId>)
    requires Popped(levels, now, h, n, k, levels', now') && PoppedKnown(known, index, h, f, n, k, tip)
    requires HeadOf(now') == Ancestor(h, n)
    ensures k == n <= |levels| && levels' == levels[..|levels| - n] && now' == StoreAt(levels, now, n)
    ensures forall i: nat :: i < n ==> Ancestor(h, i) in known
    ensures n > 0 ==> f.Some? && AncestorsIn(index, f.value, n)
  {
    hide HeadOf;
    if k < n {
      AncestorsDiffer(h, k, n);
    }
  }

  // Each level down is one block further back.
  lemma PopHeads(ev: Evaluator, levels: seq<Store<Object>>, now: Store<Object>, u: nat)
    requires LeavesHeadAlone(ev) && (forall d <- levels :: WellFormed(d)) && Undoable(ev, levels, now, u)
    ensures u <= |levels| && u <= Num(HeadOf(now)) && levels[..|levels|] == levels
    ensures forall t: nat :: t <= u ==> HeadOf(StoreAt(levels, now, t)) == Ancestor(HeadOf(now), t)
  {
    UndoableIsReplay(ev, levels, now, u);
    forall t: nat | t <= u
      ensures HeadOf(StoreAt(levels, now, t)) == Ancestor(HeadOf(now), t)
    {
      UndoableFewer(ev, levels, now, u, t);
      UndoableIsReplay(ev, levels, now, t);
    }
  }

  lemma AncestorsDiffer(b: BlockId, k: nat, n: nat)
    requires k < n <= Num(b)
    ensures Ancestor(b, n) != Ancestor(b, k)
    ensures forall i: nat :: k < i <= n ==> Ancestor(b, i) != Ancestor(b, k)
  {
  }

  // ---------- when the code does not come back ----------

  // The index reaches below the whole old branch as long as the good part is shorter than it.
  lemma ShortPartComesBack(ev: Evaluator, index: set<BlockId>, h: BlockId, n: nat, base: Store<Object>, max: nat,
                           first: seq<BlockId>)
    requires ForkDatabase.Indexed(index, h, n) && GoodPart(ev, base, first) < n && LimitsAllow(ev, base, max, first)
    ensures ComesBack(ev, index, h, base, max, first)
  {
  }

  // A fork that starts at genesis has no item below the old branch: the code comes back from it exactly if fewer
  // of its blocks apply than the old branch holds.
  lemma GenesisForkComesBackIff(ev: Evaluator, index: set<BlockId>, h: BlockId, base: Store<Object>, max: nat,
                                first: seq<BlockId>)
    requires h.Block? && Genesis !in index && ForkDatabase.Indexed(index, h, Num(h))
    ensures ComesBack(ev, index, h, base, max, first) <==>
            GoodPart(ev, base, first) < Num(h) && LimitsAllow(ev, base, max, first)
  {
    hide GoodPart, LimitsAllow;
    assert Ancestor(h, Num(h)) == Genesis;
  }

  const OLD: BlockId := Block(Genesis, 0)
  const GOOD: BlockId := Block(Genesis, 1)
  const BAD: BlockId := Block(GOOD, 2)

  // Every block applies to the store it was built on, except `bad`.
  function AllBut(bad: BlockId): Evaluator {
    (d, b) => Evaluation([], Some(256), [], b != bad)
  }

  lemma AllButLeavesHead(bad: BlockId)
    ensures LeavesHeadAlone(AllBut(bad))
  {
  }

  lemma AllButApply(bad: BlockId, d: Store<Object>, b: BlockId)
    requires b.Block?
    ensures Apply(AllBut(bad), d, b) ==
            if HeadOf(d) == b.previous && HEAD in d.objects && b != bad then Some(Modified(d, HEAD, HeadBlock(b)))
            else None
  {
  }

  lemma OldPlan()
    ensures Planned({}, None, 1024, Genesis, OLD) == Extend
    ensures ForkDatabase.IndexAfter({}, None, 1024, OLD) == {OLD} && ForkDatabase.HeadAfter(None, OLD) == OLD
  {
  }

  lemma GoodPlan()
    ensures Planned({OLD}, Some(OLD), 1024, OLD, GOOD) == Stay
    ensures ForkDatabase.IndexAfter({OLD}, Some(OLD), 1024, GOOD) == {OLD, GOOD}
    ensures ForkDatabase.HeadAfter(Some(OLD), GOOD) == OLD
  {
    hide Num;
    BlockNumbers();
  }

  lemma BadPlan()
    ensures Planned({OLD, GOOD}, Some(OLD), 1024, OLD, BAD) == Switch({OLD, GOOD, BAD}, BAD, [BAD, GOOD], [OLD])
  {
    hide BranchLengths, Num, Path, Ancestor;
    BlockNumbers();
    BranchStep(GOOD, OLD);
    BranchStep(BAD, OLD);
    assert ForkDatabase.IndexAfter({OLD, GOOD}, Some(OLD), 1024, BAD) == {OLD, GOOD, BAD};
  }

  lemma BlockNumbers()
    ensures Num(OLD) == 1 && Num(GOOD) == 1 && Num(BAD) == 2
    ensures Path(BAD, 2) == [BAD, GOOD] && Path(OLD, 1) == [OLD]
    ensures ForkDatabase.Indexed({OLD, GOOD, BAD}, BAD, 2) && ForkDatabase.Indexed({OLD, GOOD, BAD}, OLD, 1)
  {
    assert Path(BAD, 2) == [BAD] + Path(GOOD, 1);
  }

  lemma SwitchSticks(was: Snap<Object>, r: Outcome, now: Store<Object>, index': set<BlockId>)
    requires was.levels != [] && HeadOf(was.store) == OLD
    requires Switched(AllBut(BAD), was, {OLD, GOOD, BAD}, BAD, [BAD, GOOD], [OLD], r, now, index')
    ensures r == Stuck
  {
    hide Apply, HeadOf, LimitsAllow, StoreAt;
    var ev, base := AllBut(BAD), StoreAt(was.levels, was.store, 1);
    AllButApply(BAD, base, OLD);
    assert Replay(ev, base, []) == Some(base);
    assert Replay(ev, base, [OLD]) == Apply(ev, base, OLD);
    AllButApply(BAD, base, GOOD);
    assert Replay(ev, base, [GOOD]) == Apply(ev, base, GOOD);
    AllButApply(BAD, Apply(ev, base, GOOD).value, BAD);
    assert [BAD, GOOD][1..] == [GOOD];
    GoodPartIs(ev, base, [BAD, GOOD], 0);
    GenesisForkComesBackIff(ev, {OLD, GOOD, BAD}, OLD, base, was.maxSize, [BAD, GOOD]);
  }

  // One block on each of two chains from genesis, and a second one on the newer chain that fails: the code takes
  // the old block off, applies the first new one, and cannot take that off again.
  method ForkFromGenesisSticks() returns (r1: Outcome, r2: Outcome, r3: Outcome)
    ensures r1 == Accepted(false) && r2 == Accepted(false) && r3 == Stuck
  {
    hide Planned, Switched, Apply, LeavesHeadAlone, Inv, Levels, AllBut, RootedAt, Undoable, ForkDatabase.IndexAfter,
         ForkDatabase.HeadAfter;
    AllButLeavesHead(BAD);
    var chain := FreshChain(AllBut(BAD));
    OldPlan();
    GoodPlan();
    BadPlan();
    AllButApply(BAD, chain.Now(), OLD);
    r1 := chain.PushBlock(OLD);
    r2 := chain.PushBlock(GOOD);
    ghost var was, u := chain.View(), chain.undoable;
    r3 := chain.PushBlock(BAD);
    if u >= 1 {
      SwitchSticks(was, r3, chain.Now(), chain.fork.index);
    }
  }

  // A chain that holds the head object and no block.
  method FreshChain(ev: Evaluator) returns (chain: Blockchain)
    requires LeavesHeadAlone(ev)
    ensures fresh(chain) && fresh(chain.db) && fresh(chain.fork)
    ensures chain.Valid() && chain.Rooted() && chain.evaluate == ev
    ensures chain.HeadBlockId() == Genesis && HEAD in chain.Now().objects
    ensures chain.fork.index == {} && chain.fork.head == None && chain.fork.maxSize == 1024
  {
    var db := new ObjectDatabase.Database<Object>({0});
    var head := db.Create(0, HeadBlock(Genesis));
    db.Enable();
    var fork := new ForkDatabase.ForkDb();
    chain := new Blockchain(db, fork, ev);
  }

  // ---------- histories that are not deep enough ----------

  // At most one level lies below the n that blocks left, and it has their lowest head.
  ghost predicate RootedAt(levels: seq<Store<Object>>, now: Store<Object>, n: nat) {
    n <= |levels| <= n + 1 && (|levels| == n + 1 ==> HeadOf(levels[0]) == HeadOf(StoreAt(levels, now, n)))
  }

  lemma RootedAfterPush(levels: seq<Store<Object>>, now: Store<Object>, n: nat, max: nat, now': Store<Object>, ok: bool)
    requires !ok ==> now' == now
    ensures RootedAt(levels, now, n) ==>
              RootedAt(LevelsAfter(levels, now, max, ok), now', Kept(levels, max, n) + (if ok then 1 else 0))
  {
    hide HeadOf;
    OpenedNonEmpty(levels, now, max);
  }

  lemma RootedAfterPop(levels: seq<Store<Object>>, now: Store<Object>, n: nat)
    requires levels != []
    ensures RootedAt(levels, now, n) ==>
              RootedAt(levels[..|levels| - 1], levels[|levels| - 1], if n > 0 then n - 1 else 0)
  {
    hide HeadOf;
  }

  // No number of pops leads down to a head with number n.
  ghost predicate Lost(levels: seq<Store<Object>>, now: Store<Object>, n: nat) {
    forall k: nat :: k <= |levels| ==> Num(HeadOf(StoreAt(levels, now, k))) > n
  }

  lemma LostNow(levels: seq<Store<Object>>, now: Store<Object>, n: nat)
    ensures Lost(levels, now, n) ==> Num(HeadOf(now)) > n
  {
    hide HeadOf, Num;
    assert StoreAt(levels, now, 0) == now;
  }

  lemma LostAfterPop(levels: seq<Store<Object>>, now: Store<Object>, n: nat)
    requires levels != []
    ensures Lost(levels, now, n) ==> Lost(levels[..|levels| - 1], levels[|levels| - 1], n)
  {
    hide HeadOf, Num;
    var lower, before := levels[..|levels| - 1], levels[|levels| - 1];
    if Lost(levels, now, n) {
      forall k: nat | k <= |lower|
        ensures Num(HeadOf(StoreAt(lower, before, k))) > n
      {
        assert StoreAt(lower, before, k) == StoreAt(levels, now, k + 1);
      }
    }
  }

  // The levels after a push are the newest of those before it, and the store before it.
  lemma LevelsAfterPush(levels: seq<Store<Object>>, now: Store<Object>, max: nat, now': Store<Object>, ok: bool, k: nat)
    requires (!ok ==> now' == now) && k <= |LevelsAfter(levels, now, max, ok)|
    ensures var d := StoreAt(LevelsAfter(levels, now, max, ok), now', k);
            d == now' || exists i: nat :: i <= |levels| && i <= max && d == StoreAt(levels, now, i)
  {
    hide Trim, LevelsAfter;
    LevelsAfterShape(levels, now, max, ok);
    var t := Trim(levels, max);
    var i := if !ok then k else k - 1;
    if k > 0 && 0 < i <= |t| {
      TrimAt(levels, now, max, i);
    } else if k > 0 {
      assert StoreAt(levels, now, 0) == now;
    }
  }

  lemma LevelsAfterShape(levels: seq<Store<Object>>, now: Store<Object>, max: nat, ok: bool)
    ensures var t := Trim(levels, max);
            LevelsAfter(levels, now, max, ok) == if t == [] then (if ok then [now, now] else [now])
                                                 else if ok then t + [now] else t
  {
    OpenedNonEmpty(levels, now, max);
  }

  lemma TrimAt(levels: seq<Store<Object>>, now: Store<Object>, max: nat, i: nat)
    requires 0 < i <= |Trim(levels, max)|
    ensures var t := Trim(levels, max);
            i <= |levels| && i <= max && t[|t| - i] == StoreAt(levels, now, i)
  {
  }

  lemma LostAfterPush(levels: seq<Store<Object>>, now: Store<Object>, max: nat, n: nat, now': Store<Object>, ok: bool)
    requires !ok ==> now' == now
    requires Num(HeadOf(now')) >= Num(HeadOf(now)) && Lost(levels, now, n)
    ensures Lost(LevelsAfter(levels, now, max, ok), now', n)
  {
    hide HeadOf, Num, LevelsAfter;
    LostNow(levels, now, n);
    forall k: nat | k <= |LevelsAfter(levels, now, max, ok)|
      ensures Num(HeadOf(StoreAt(LevelsAfter(levels, now, max, ok), now', k))) > n
    {
      LevelsAfterPush(levels, now, max, now', ok, k);
    }
  }

  // A push under a limit below the j blocks applied so far drops the level they stand on.
  lemma LostBegins(ev: Evaluator, levels: seq<Store<Object>>, now: Store<Object>, u: nat, max: nat, n: nat, j: nat,
                   now': Store<Object>, ok: bool)
    requires LeavesHeadAlone(ev) && (forall d <- levels :: WellFormed(d)) && Undoable(ev, levels, now, u)
    requires max < j <= u && Num(HeadOf(now)) == n + j
    requires Num(HeadOf(now')) >= Num(HeadOf(now)) && (!ok ==> now' == now)
    ensures Lost(LevelsAfter(levels, now, max, ok), now', n)
  {
    hide HeadOf, Num, LevelsAfter, LeavesHeadAlone, WellFormed, Undoable;
    PopHeads(ev, levels, now, u);
    forall k: nat | k <= |LevelsAfter(levels, now, max, ok)|
      ensures Num(HeadOf(StoreAt(LevelsAfter(levels, now, max, ok), now', k))) > n
    {
      LevelsAfterPush(levels, now, max, now', ok, k);
    }
  }

  // Where every block that can be popped is counted, more than u blocks cannot be.
  lemma TooDeep(ev: Evaluator, levels: seq<Store<Object>>, now: Store<Object>, u: nat, h: BlockId, n: nat,
                meet: BlockId)
    requires LeavesHeadAlone(ev) && (forall d <- levels :: WellFormed(d)) && Undoable(ev, levels, now, u)
    requires RootedAt(levels, now, u) && HeadOf(now) == h && u < n <= Num(h) && Ancestor(h, n) == meet
    ensures Lost(levels, now, Num(meet))
  {
    hide HeadOf, Num, LeavesHeadAlone, WellFormed, Undoable;
    PopHeads(ev, levels, now, u);
    forall k: nat | k <= |levels|
      ensures Num(HeadOf(StoreAt(levels, now, k))) > Num(meet)
    {
      assert k <= u || StoreAt(levels, now, k) == levels[0];
      assert StoreAt(levels, now, u) == StoreAt(levels, now, u);
    }
  }

  lemma HeadsRise(ev: Evaluator, d: Store<Object>, b: BlockId)
    requires LeavesHeadAlone(ev) && WellFormed(d)
    ensures Apply(ev, d, b).Some? ==> Num(HeadOf(Apply(ev, d, b).value)) == Num(HeadOf(d)) + 1
  {
    hide Apply, HeadOf, WellFormed, LeavesHeadAlone;
    if Apply(ev, d, b).Some? {
      ApplySetsHead(ev, d, b);
    }
  }

  // ---------- the limits met while a branch is applied ----------

  // LimitsAllow for the blocks before branch[left].
  ghost predicate AllowedSoFar(ev: Evaluator, d: Store<Object>, max: nat, branch: seq<BlockId>, left: nat) {
    forall i: nat {:trigger branch[i..]} :: left < i <= |branch| && Replay(ev, d, branch[i..]).Some? ==>
      |branch| - i <= LimitAt(ev, d, max, branch[i..])
  }

  lemma ReplayNothing(ev: Evaluator, d: Store<Object>, max: nat, branch: seq<BlockId>)
    ensures Replay(ev, d, branch[|branch|..]) == Some(d) && LimitAt(ev, d, max, branch[|branch|..]) == max
    ensures AllowedSoFar(ev, d, max, branch, |branch|)
  {
  }

  lemma LimitsSoFar(ev: Evaluator, d: Store<Object>, max: nat, branch: seq<BlockId>, left: nat)
    requires 0 < left <= |branch| && Replay(ev, d, branch[left..]).Some?
    ensures |branch| - left > LimitAt(ev, d, max, branch[left..]) ==> !LimitsAllow(ev, d, max, branch)
    ensures |branch| - left <= LimitAt(ev, d, max, branch[left..]) && AllowedSoFar(ev, d, max, branch, left) ==>
              AllowedSoFar(ev, d, max, branch, left - 1)
  {
    hide Replay, LimitAt;
  }

  lemma ReplayOneMore(ev: Evaluator, d: Store<Object>, max: nat, branch: seq<BlockId>, left: nat, m: Store<Object>)
    requires 0 < left <= |branch| && Replay(ev, d, branch[left..]) == Some(m)
    ensures Replay(ev, d, branch[left - 1..]) == Apply(ev, m, branch[left - 1])
    ensures LimitAt(ev, d, max, branch[left - 1..]) ==
            LimitAfter(ev, m, branch[left - 1], LimitAt(ev, d, max, branch[left..]))
  {
    hide Apply, LimitAfter;
    assert branch[left - 1..][1..] == branch[left..];
  }

  // Nothing older than the block that failed is left to allow.
  lemma AllowedAll(ev: Evaluator, d: Store<Object>, max: nat, branch: seq<BlockId>, left: nat)
    requires left <= |branch| && AllowedSoFar(ev, d, max, branch, left)
    requires left == 0 || Replay(ev, d, branch[left..]) == None
    ensures LimitsAllow(ev, d, max, branch)
  {
    hide Replay, LimitAt;
    forall i: nat {:trigger branch[i..]} | 0 < i <= left && Replay(ev, d, branch[i..]).Some?
      ensures false
    {
      ReplaySuffix(ev, d, branch, i, left);
    }
  }

  lemma ReplaySuffix(ev: Evaluator, d: Store<Object>, branch: seq<BlockId>, i: nat, j: nat)
    requires i <= j <= |branch| && Replay(ev, d, branch[i..]).Some?
    ensures Replay(ev, d, branch[j..]).Some?
  {
    hide Replay;
    ReplayOlder(ev, d, branch[i..], j - i);
    assert branch[i..][j - i..] == branch[j..];
  }

  // ---------- how a push changes the levels ----------

  ghost function LevelsAfter(levels: seq<Store<Object>>, now: Store<Object>, max: nat, ok: bool): seq<Store<Object>> {
    var inside := Opened(levels, now, max);
    if ok then inside
    else if inside == [] then [now]
    else SnapTouch(inside[..|inside| - 1], now)
  }

  // How many undoable levels the size limit leaves.
  ghost function Kept(levels: seq<Store<Object>>, max: nat, undoable: nat): nat {
    if undoable <= |Trim(levels, max)| then undoable else |Trim(levels, max)|
  }

  lemma OpenedNonEmpty<T>(levels: seq<T>, now: T, max: nat)
    ensures var inside := Opened(levels, now, max);
            inside != [] && inside[|inside| - 1] == now
            && (Trim(levels, max) != [] ==> inside == Trim(levels, max) + [now])
            && (Trim(levels, max) == [] ==> inside == [now, now])
  {
  }

  lemma UndoableAfterTrim(ev: Evaluator, levels: seq<Store<Object>>, d: Store<Object>, n: nat, max: nat)
    requires Undoable(ev, levels, d, n)
    ensures Undoable(ev, Trim(levels, max), d, Kept(levels, max, n))
    ensures Trim(levels, max) == [] ==> Kept(levels, max, n) == 0
  {
    hide Apply, HeadOf;
    UndoableDepth(ev, levels, d, n);
    var k := Kept(levels, max, n);
    UndoableFewer(ev, levels, d, n, k);
    var t := Trim(levels, max);
    UndoableSuffix(ev, levels, d, k, |levels| - |t|);
    assert levels[|levels| - |t|..] == t;
  }

  lemma UndoableAfterPush(ev: Evaluator, levels: seq<Store<Object>>, d: Store<Object>, n: nat, max: nat, b: BlockId,
                          d': Store<Object>, ok: bool)
    requires LeavesHeadAlone(ev) && WellFormed(d) && Undoable(ev, levels, d, n)
    requires ok ==> Apply(ev, d, b) == Some(d')
    requires !ok ==> d' == d
    ensures Undoable(ev, LevelsAfter(levels, d, max, ok), d', Kept(levels, max, n) + (if ok then 1 else 0))
  {
    hide Apply, HeadOf, LeavesHeadAlone, WellFormed, Opened, Kept, Trim;
    UndoableAfterTrim(ev, levels, d, n, max);
    OpenedNonEmpty(levels, d, max);
    var t, inside := Trim(levels, max), Opened(levels, d, max);
    if t != [] {
      assert inside[..|inside| - 1] == t;
    }
    if ok {
      ApplySetsHead(ev, d, b);
    }
  }

  lemma AllWellFormed<V>(m: Db<V>)
    requires Inv(m)
    ensures WellFormed(m.store) && forall d <- Abs(m).levels :: WellFormed(d)
  {
    LevelsWellFormed(m.stack, m.store);
  }

  lemma LevelsWellFormed<V>(stack: seq<UndoState<V>>, d: Store<V>)
    requires AllFit(stack, d)
    ensures WellFormed(d) && forall x <- Levels(stack, d) :: WellFormed(x)
  {
    hide Revert, WellFormed;
    if stack != [] {
      var before := Revert(stack[|stack| - 1], d);
      FitsWellFormed(stack[|stack| - 1], d);
      LevelsWellFormed(stack[..|stack| - 1], before);
    } else {
      AllFitIsWellFormed(stack, d);
    }
  }

  lemma FitsWellFormed<V>(s: UndoState<V>, d: Store<V>)
    requires Fits(s, d)
    ensures WellFormed(d)
  {
  }

  lemma LevelCount<V>(m: Db<V>)
    ensures |Abs(m).levels| == |m.stack|
  {
  }

  // ---------- what each call does to the view ----------

  lemma ChangeStep(m: Db<Object>, c: Change)
    requires Inv(m) && m.stack != []
    ensures Step(m, ToOp(c)).Some? == ApplyChange(m.store, c).Some?
    ensures var r := Step(m, ToOp(c));
            r.Some? ==> Inv(r.value) && r.value.stack != []
                        && Abs(r.value) == Abs(m).(store := ApplyChange(m.store, c).value)
  {
    hide Created, Modified, Removed, RecordCreate, RecordModify, RecordRemove, AllFit;
    StepSimulates(m, ToOp(c));
  }

  lemma LimitStep<V>(m: Db<V>, n: nat)
    requires Inv(m)
    ensures Step(m, SetMaxSize(n)) == Some(m.(maxSize := n)) && Abs(m.(maxSize := n)) == Abs(m).(maxSize := n)
  {
  }

  lemma SessionSteps<V>(m: Db<V>, op: Op<V>)
    requires Inv(m) && (op.Start? || op.Undo? || op.Commit? || op.PopCommit?)
    ensures match Step(m, op)
            case None => SnapStep(Abs(m), op) == None
            case Some(m') => Inv(m') && SnapStep(Abs(m), op) == Some(Abs(m'))
    ensures |Abs(m).levels| == |m.stack|
  {
    hide AllFit, Created, Modified, Removed;
    StepSimulates(m, op);
  }
}
