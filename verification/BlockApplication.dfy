// Applying blocks to a store, and replaying a branch.
// Source: libraries/chain/db_block.cpp (apply_block), libraries/chain/db_update.cpp (update_global_dynamic_data).
module BlockApplication {
  import opened Options
  import opened UndoModel
  import opened UndoRuns
  import opened Blocks

  // The head block id is part of the stored state; all other objects are opaque.
  datatype Object = HeadBlock(id: BlockId) | Other(data: nat)

  const HEAD: ObjectId := ObjectId(0, 0)

  function HeadOf(d: Store<Object>): BlockId {
    if HEAD in d.objects && d.objects[HEAD].HeadBlock? then d.objects[HEAD].id else Genesis
  }

  datatype Change = New(kind: nat, value: Object) | Set(id: ObjectId, value: Object) | Delete(id: ObjectId)

  function ToOp(c: Change): Op<Object> {
    match c
    case New(kind, v) => Create(kind, v)
    case Set(id, v) => Modify(id, v)
    case Delete(id) => Remove(id)
  }

  // What evaluating a block does, up to the exception if there is one: `before` the dynamic
  // properties are updated, the undo limit that update sets (None: not reached), and `after` it.
  datatype Evaluation = Evaluation(before: seq<Change>, limit: Option<nat>, after: seq<Change>, ok: bool)

  // Evaluation is a function of the store and the block.
  type Evaluator = (Store<Object>, BlockId) -> Evaluation

  predicate TouchesHead(c: Change) {
    (c.Set? && c.id == HEAD) || (c.Delete? && c.id == HEAD)
  }

  // Only the update of the dynamic properties writes the head block id.
  ghost predicate LeavesHeadAlone(ev: Evaluator) {
    forall d, b :: forall c :: c in ev(d, b).before || c in ev(d, b).after ==> !TouchesHead(c)
  }

  function ApplyChange(d: Store<Object>, c: Change): Option<Store<Object>> {
    match c
    case New(kind, v) => if kind in d.nextIds then Some(Created(d, kind, v)) else None
    case Set(id, v) => if id in d.objects then Some(Modified(d, id, v)) else None
    case Delete(id) => if id in d.objects then Some(Removed(d, id)) else None
  }

  // The store reached, and whether all changes went through.
  function ApplyChanges(d: Store<Object>, cs: seq<Change>): (Store<Object>, bool)
    decreases |cs|
  {
    if cs == [] then (d, true)
    else
      match ApplyChange(d, cs[0])
      case None => (d, false)
      case Some(next) => ApplyChanges(next, cs[1..])
  }

  // The store in which evaluation ends or throws, and whether the block was applied.
  function Evaluate(ev: Evaluator, d: Store<Object>, b: BlockId): (Store<Object>, bool) {
    if b == Genesis || HeadOf(d) != b.previous then (d, false)
    else
      var e := ev(d, b);
      var r1 := ApplyChanges(d, e.before);
      if !r1.1 || e.limit == None || HEAD !in r1.0.objects then (r1.0, false)
      else
        var r2 := ApplyChanges(Modified(r1.0, HEAD, HeadBlock(b)), e.after);
        (r2.0, r2.1 && e.ok)
  }

  function Apply(ev: Evaluator, d: Store<Object>, b: BlockId): Option<Store<Object>> {
    var r := Evaluate(ev, d, b);
    if r.1 then Some(r.0) else None
  }

  // The undo limit in force after an attempt to apply `b`; it is not undone with the store.
  function LimitAfter(ev: Evaluator, d: Store<Object>, b: BlockId, max: nat): nat {
    if b == Genesis || HeadOf(d) != b.previous then max
    else
      var e := ev(d, b);
      var r1 := ApplyChanges(d, e.before);
      if !r1.1 || e.limit == None || HEAD !in r1.0.objects then max else e.limit.value
  }

  // Applying a branch, given newest block first.
  function Replay(ev: Evaluator, d: Store<Object>, branch: seq<BlockId>): Option<Store<Object>> {
    if branch == [] then Some(d)
    else
      match Replay(ev, d, branch[1..])
      case None => None
      case Some(m) => Apply(ev, m, branch[0])
  }

  // The undo limit after replaying a branch that applies.
  function LimitAt(ev: Evaluator, d: Store<Object>, max: nat, branch: seq<BlockId>): nat {
    if branch == [] then max
    else
      var before := LimitAt(ev, d, max, branch[1..]);
      match Replay(ev, d, branch[1..])
      case None => before
      case Some(m) => LimitAfter(ev, m, branch[0], before)
  }

  lemma {:induction false} ChangesKeepHead(d: Store<Object>, cs: seq<Change>)
    requires WellFormed(d) && forall c <- cs :: !TouchesHead(c)
    ensures var r := ApplyChanges(d, cs);
            WellFormed(r.0) && (HEAD in d.objects ==> HEAD in r.0.objects && r.0.objects[HEAD] == d.objects[HEAD])
    decreases |cs|
  {
    if cs != [] && ApplyChange(d, cs[0]).Some? {
      OneChangeKeepsHead(d, cs[0]);
      ChangesKeepHead(ApplyChange(d, cs[0]).value, cs[1..]);
    }
  }

  lemma OneChangeKeepsHead(d: Store<Object>, c: Change)
    requires WellFormed(d) && !TouchesHead(c) && ApplyChange(d, c).Some?
    ensures var r := ApplyChange(d, c).value;
            WellFormed(r) && (HEAD in d.objects ==> HEAD in r.objects && r.objects[HEAD] == d.objects[HEAD])
  {
  }

  // An applied block was built on the head and is the new head.
  lemma ApplySetsHead(ev: Evaluator, d: Store<Object>, b: BlockId)
    requires LeavesHeadAlone(ev) && WellFormed(d) && Apply(ev, d, b).Some?
    ensures b.Block? && HeadOf(d) == b.previous && HeadOf(Apply(ev, d, b).value) == b
    ensures WellFormed(Apply(ev, d, b).value)
  {
    hide ApplyChanges;
    var e := ev(d, b);
    ChangesKeepHead(d, e.before);
    var d1 := ApplyChanges(d, e.before).0;
    ChangesKeepHead(Modified(d1, HEAD, HeadBlock(b)), e.after);
  }

  // ---------- levels that can be popped ----------

  // The store t levels down.
  function StoreAt<V>(levels: seq<Store<V>>, now: Store<V>, t: nat): Store<V>
    requires t <= |levels|
  {
    if t == 0 then now else levels[|levels| - t]
  }

  // The newest n levels were each left by one applied block.
  ghost predicate Undoable(ev: Evaluator, levels: seq<Store<Object>>, now: Store<Object>, n: nat)
    decreases n
  {
    n == 0 ||
    (levels != [] &&
     var before := levels[|levels| - 1];
     Apply(ev, before, HeadOf(now)) == Some(now) && Undoable(ev, levels[..|levels| - 1], before, n - 1))
  }

  lemma {:induction false} UndoableDepth(ev: Evaluator, levels: seq<Store<Object>>, now: Store<Object>, n: nat)
    requires Undoable(ev, levels, now, n)
    ensures n <= |levels|
    decreases n
  {
    if n > 0 {
      UndoableDepth(ev, levels[..|levels| - 1], levels[|levels| - 1], n - 1);
    }
  }

  lemma {:induction false} UndoableFewer(ev: Evaluator, levels: seq<Store<Object>>, now: Store<Object>, n: nat, m: nat)
    requires Undoable(ev, levels, now, n) && m <= n
    ensures Undoable(ev, levels, now, m)
    decreases n
  {
    if m > 0 {
      UndoableFewer(ev, levels[..|levels| - 1], levels[|levels| - 1], n - 1, m - 1);
    }
  }

  // Dropping old levels loses only what they held.
  lemma {:induction false} UndoableSuffix(ev: Evaluator, levels: seq<Store<Object>>, now: Store<Object>, n: nat, k: nat)
    requires Undoable(ev, levels, now, n) && k <= |levels| && n <= |levels| - k
    ensures Undoable(ev, levels[k..], now, n)
    decreases n
  {
    if n > 0 {
      var l := |levels|;
      UndoableSuffix(ev, levels[..l - 1], levels[l - 1], n - 1, k);
      assert levels[k..][..l - k - 1] == levels[..l - 1][k..];
      assert levels[k..][l - k - 1] == levels[l - 1];
    }
  }

  // The undoable blocks are the head's ancestors, and replaying them leads back to the present store.
  lemma {:induction false} UndoableIsReplay(ev: Evaluator, levels: seq<Store<Object>>, now: Store<Object>, n: nat)
    requires LeavesHeadAlone(ev) && (forall d <- levels :: WellFormed(d)) && Undoable(ev, levels, now, n)
    ensures n <= |levels| && n <= Num(HeadOf(now))
    ensures HeadOf(StoreAt(levels, now, n)) == Ancestor(HeadOf(now), n)
    ensures Replay(ev, StoreAt(levels, now, n), Path(HeadOf(now), n)) == Some(now)
    decreases n
  {
    hide Apply, HeadOf, WellFormed, LeavesHeadAlone;
    if n > 0 {
      var l := |levels|;
      var before := levels[l - 1];
      ApplySetsHead(ev, before, HeadOf(now));
      UndoableIsReplay(ev, levels[..l - 1], before, n - 1);
      assert StoreAt(levels[..l - 1], before, n - 1) == StoreAt(levels, now, n);
      assert Path(HeadOf(now), n)[1..] == Path(HeadOf(before), n - 1);
    }
  }

  // How many of the branch's oldest blocks apply before one fails.
  ghost function GoodPart(ev: Evaluator, d: Store<Object>, branch: seq<BlockId>): (r: nat)
    ensures r <= |branch|
  {
    if branch == [] then 0
    else if Replay(ev, d, branch).Some? then |branch|
    else GoodPart(ev, d, branch[1..])
  }

  lemma {:induction false} ReplayOlder(ev: Evaluator, d: Store<Object>, branch: seq<BlockId>, i: nat)
    requires i <= |branch| && Replay(ev, d, branch).Some?
    ensures Replay(ev, d, branch[i..]).Some?
    decreases i
  {
    if i > 0 {
      ReplayOlder(ev, d, branch[1..], i - 1);
      assert branch[1..][i - 1..] == branch[i..];
    } else {
      assert branch[0..] == branch;
    }
  }

  // The first failing block fixes the good part.
  lemma {:induction false} GoodPartIs(ev: Evaluator, d: Store<Object>, branch: seq<BlockId>, i: nat)
    requires i < |branch|
    requires Replay(ev, d, branch[i..]).None? && Replay(ev, d, branch[i + 1..]).Some?
    ensures GoodPart(ev, d, branch) == |branch| - i - 1
    ensures Replay(ev, d, branch) == None
    decreases i
  {
    if i == 0 {
      assert branch[0..] == branch;
    } else {
      assert branch[1..][i - 1..] == branch[i..] && branch[1..][i..] == branch[i + 1..];
      GoodPartIs(ev, d, branch[1..], i - 1);
    }
  }

  // Replaying leads to a store whose head is the newest block.
  lemma {:induction false} ReplayHead(ev: Evaluator, d: Store<Object>, branch: seq<BlockId>)
    requires LeavesHeadAlone(ev) && WellFormed(d) && Replay(ev, d, branch).Some?
    ensures WellFormed(Replay(ev, d, branch).value)
    ensures branch != [] ==> HeadOf(Replay(ev, d, branch).value) == branch[0]
    decreases |branch|
  {
    hide Apply, HeadOf, LeavesHeadAlone, WellFormed;
    if branch != [] {
      ReplayHead(ev, d, branch[1..]);
      ApplySetsHead(ev, Replay(ev, d, branch[1..]).value, branch[0]);
    }
  }

  // Every block of the branch leaves a limit that keeps the levels pushed for the branch so far.
  ghost predicate LimitsAllow(ev: Evaluator, d: Store<Object>, max: nat, branch: seq<BlockId>) {
    forall i: nat {:trigger branch[i..]} ::
      0 < i <= |branch| && Replay(ev, d, branch[i..]).Some? ==> |branch| - i <= LimitAt(ev, d, max, branch[i..])
  }

  // Every block that gets as far as the update of the dynamic properties sets the undo limit to the distance from
  // the last irreversible block, which `irr` reads off the store, to the new head, plus one.
  ghost predicate LimitFromIrreversible(ev: Evaluator, irr: Store<Object> -> nat) {
    forall d: Store<Object>, b: BlockId :: b.Block? && irr(d) <= Num(b) && ev(d, b).limit.Some? ==>
      ev(d, b).limit.value == Num(b) - irr(d) + 1
  }

  // No block beyond the heads reached is irreversible.
  ghost predicate IrreversibleBelowHead(ev: Evaluator, irr: Store<Object> -> nat, base: Store<Object>,
                                        branch: seq<BlockId>) {
    forall i: nat {:trigger branch[i..]} :: i <= |branch| && Replay(ev, base, branch[i..]).Some? ==>
      irr(Replay(ev, base, branch[i..]).value) <= Num(HeadOf(Replay(ev, base, branch[i..]).value))
  }

  // Before each applied block but the newest of the branch, at most the block after `base` is irreversible.
  ghost predicate IrreversibleStays(ev: Evaluator, irr: Store<Object> -> nat, base: Store<Object>,
                                    branch: seq<BlockId>) {
    forall i: nat {:trigger branch[i..]} :: 0 < i < |branch| && Replay(ev, base, branch[i..]).Some? ==>
      Replay(ev, base, branch[i + 1..]).Some? && irr(Replay(ev, base, branch[i + 1..]).value) <= Num(HeadOf(base)) + 1
  }

  // The limits set on the way reach back to `base` exactly as long as the chain keeps it undoable.
  lemma LimitsAllowIff(ev: Evaluator, irr: Store<Object> -> nat, base: Store<Object>, max: nat, branch: seq<BlockId>)
    requires LeavesHeadAlone(ev) && WellFormed(base) && LimitFromIrreversible(ev, irr)
    requires IrreversibleBelowHead(ev, irr, base, branch)
    ensures LimitsAllow(ev, base, max, branch) <==> IrreversibleStays(ev, irr, base, branch)
  {
    hide Replay, LimitAt, LeavesHeadAlone, WellFormed, HeadOf, LimitFromIrreversible, Num;
    NoLimitYet(ev, base, max, branch);
    forall i: nat {:trigger branch[i..]} | 0 < i < |branch| && Replay(ev, base, branch[i..]).Some?
      ensures Replay(ev, base, branch[i + 1..]).Some?
      ensures |branch| - i <= LimitAt(ev, base, max, branch[i..])
              <==> irr(Replay(ev, base, branch[i + 1..]).value) <= Num(HeadOf(base)) + 1
    {
      LimitOfBlock(ev, irr, base, max, branch, i);
    }
  }

  lemma NoLimitYet(ev: Evaluator, base: Store<Object>, max: nat, branch: seq<BlockId>)
    ensures LimitAt(ev, base, max, branch[|branch|..]) == max
  {
  }

  // The limit a block of the branch leaves, in terms of what is irreversible before it.
  lemma LimitOfBlock(ev: Evaluator, irr: Store<Object> -> nat, base: Store<Object>, max: nat, branch: seq<BlockId>,
                     i: nat)
    requires LeavesHeadAlone(ev) && WellFormed(base) && LimitFromIrreversible(ev, irr)
    requires IrreversibleBelowHead(ev, irr, base, branch)
    requires i < |branch| && Replay(ev, base, branch[i..]).Some?
    ensures Replay(ev, base, branch[i + 1..]).Some?
    ensures LimitAt(ev, base, max, branch[i..])
            == Num(HeadOf(base)) + (|branch| - i) + 1 - irr(Replay(ev, base, branch[i + 1..]).value)
  {
    hide LeavesHeadAlone, WellFormed, HeadOf, LimitFromIrreversible, Num, Apply;
    assert branch[i..][1..] == branch[i + 1..];
    var m := Replay(ev, base, branch[i + 1..]).value;
    ReplayHead(ev, base, branch[i + 1..]);
    ApplySetsHead(ev, m, branch[i]);
    HeadNumber(ev, base, branch, i + 1);
    AppliedLimit(ev, irr, m, branch[i], LimitAt(ev, base, max, branch[i + 1..]));
  }

  lemma AppliedLimit(ev: Evaluator, irr: Store<Object> -> nat, m: Store<Object>, b: BlockId, max: nat)
    requires LimitFromIrreversible(ev, irr) && Apply(ev, m, b).Some? && b.Block? && HeadOf(m) == b.previous
    requires irr(m) <= Num(HeadOf(m))
    ensures LimitAfter(ev, m, b, max) == Num(HeadOf(m)) + 2 - irr(m)
  {
    hide HeadOf, ApplyChanges;
  }

  // Each block of a replayed branch adds one to the head's number.
  lemma {:induction false} HeadNumber(ev: Evaluator, base: Store<Object>, branch: seq<BlockId>, i: nat)
    requires LeavesHeadAlone(ev) && WellFormed(base) && i <= |branch| && Replay(ev, base, branch[i..]).Some?
    ensures Num(HeadOf(Replay(ev, base, branch[i..]).value)) == Num(HeadOf(base)) + (|branch| - i)
    decreases |branch| - i
  {
    hide LeavesHeadAlone, WellFormed, HeadOf, Apply;
    if i < |branch| {
      assert branch[i..][1..] == branch[i + 1..];
      HeadNumber(ev, base, branch, i + 1);
      ReplayHead(ev, base, branch[i + 1..]);
      ApplySetsHead(ev, Replay(ev, base, branch[i + 1..]).value, branch[i]);
    }
  }
}
