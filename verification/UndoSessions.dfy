// What sessions and commits promise over whole runs: an undone session leaves no
// trace, and popping commits walks back through the committed stores.
module UndoSessions {
  import opened Options
  import opened UndoModel
  import opened UndoRuns

  // The nesting depth after `ops`, run inside a session with `depth` further sessions open and
  // `max` the current stack limit. None: the calls leave the session, commit inside it, or nest
  // beyond the limit.
  function Nesting<V>(ops: seq<Op<V>>, depth: nat, max: nat): Option<nat>
    decreases |ops|
  {
    if ops == [] then Some(depth)
    else
      match ops[0]
      case Start => if depth < max then Nesting(ops[1..], depth + 1, max) else None
      case Undo => if depth > 0 then Nesting(ops[1..], depth - 1, max) else None
      case Merge => if depth > 0 then Nesting(ops[1..], depth - 1, max) else None
      case Commit => None
      case PopCommit => None
      case SetMaxSize(n) => Nesting(ops[1..], depth, n)
      case _ => Nesting(ops[1..], depth, max)
  }

  // Every call inside was matched: the calls form the body of one session.
  predicate Balanced<V>(ops: seq<Op<V>>, max: nat) {
    Nesting(ops, 0, max) == Some(0)
  }

  // All but the newest `depth` levels.
  ghost function Below<T>(levels: seq<T>, depth: nat): seq<T>
    requires depth <= |levels|
  {
    levels[..|levels| - depth]
  }

  ghost predicate IsSuffix<T>(x: seq<T>, y: seq<T>) {
    |x| <= |y| && x == y[|y| - |x|..]
  }

  lemma SuffixTransitive<T>(x: seq<T>, y: seq<T>, z: seq<T>)
    requires IsSuffix(x, y) && IsSuffix(y, z)
    ensures IsSuffix(x, z)
  {
  }

  // `after` keeps the levels below `depth` of `before`, now below `depth'`; the oldest may be gone.
  ghost predicate KeepsBelow<T>(before: seq<T>, depth: nat, after: seq<T>, depth': nat) {
    && depth < |before|
    && depth' < |after|
    && IsSuffix(Below(after, depth'), Below(before, depth))
  }

  // The newest level below `depth` is still the newest one below `depth'`.
  lemma KeptLevel<T>(before: seq<T>, depth: nat, after: seq<T>, depth': nat)
    requires KeepsBelow(before, depth, after, depth')
    ensures after[|after| - depth' - 1] == before[|before| - depth - 1]
  {
    var x, y := Below(after, depth'), Below(before, depth);
    assert x[|x| - 1] == y[|y| - |x|..][|x| - 1] == y[|y| - 1];
  }

  lemma OpenInsideSession<T>(levels: seq<T>, now: T, max: nat, depth: nat)
    requires depth < |levels| && depth < max
    ensures KeepsBelow(levels, depth, Opened(levels, now, max), depth + 1)
  {
    var t := Trim(levels, max);
    assert Opened(levels, now, max) == t + [now];
    assert Below(t + [now], depth + 1) == Below(t, depth);
    if |levels| > max {
      var n := |levels|;
      assert t == levels[n - max..] && |t| == max;
      assert levels[n - max..][..max - depth] == levels[n - max..n - depth];
      assert levels[..n - depth][n - max..] == levels[n - max..n - depth];
    }
  }

  function DepthAfter<V>(op: Op<V>, depth: nat): nat {
    if op.Start? then depth + 1 else if (op.Undo? || op.Merge?) && depth > 0 then depth - 1 else depth
  }

  // Calls that stay inside a session with `depth` more open.
  predicate StaysInside<V>(op: Op<V>, depth: nat, max: nat) {
    && !op.Commit?
    && !op.PopCommit?
    && (op.Start? ==> depth < max)
    && (op.Undo? || op.Merge? ==> depth > 0)
  }

  lemma StepInsideSession<V>(s: Snap<V>, op: Op<V>, depth: nat)
    requires depth < |s.levels| && depth < s.active
    requires StaysInside(op, depth, s.maxSize) && SnapStep(s, op).Some?
    ensures var s' := SnapStep(s, op).value;
            var depth' := DepthAfter(op, depth);
            KeepsBelow(s.levels, depth, s'.levels, depth') && s'.active - depth' == s.active - depth
  {
    var n := |s.levels|;
    if op.Start? {
      OpenInsideSession(s.levels, s.store, s.maxSize, depth);
    } else if op.Undo? || op.Merge? {
      assert Below(s.levels[..n - 1], depth - 1) == Below(s.levels, depth);
    }
  }

  // Calls made inside a session never disturb the session's own level or what lies below it.
  lemma {:induction false} InsideSession<V>(s: Snap<V>, ops: seq<Op<V>>, depth: nat)
    requires depth < |s.levels| && depth < s.active
    requires Nesting(ops, depth, s.maxSize).Some? && SnapRun(s, ops).Some?
    ensures var s' := SnapRun(s, ops).value;
            var depth' := Nesting(ops, depth, s.maxSize).value;
            KeepsBelow(s.levels, depth, s'.levels, depth') && s'.active - depth' == s.active - depth
    decreases |ops|
  {
    if ops != [] {
      var op := ops[0];
      StepInsideSession(s, op, depth);
      var next := SnapStep(s, op).value;
      var d := DepthAfter(op, depth);
      assert Nesting(ops, depth, s.maxSize) == Nesting(ops[1..], d, next.maxSize);
      InsideSession(next, ops[1..], d);
      var s' := SnapRun(s, ops).value;
      var d' := Nesting(ops, depth, s.maxSize).value;
      SuffixTransitive(Below(s'.levels, d'), Below(next.levels, d), Below(s.levels, depth));
    }
  }

  lemma {:induction false} SnapRunConcat<V>(s: Snap<V>, a: seq<Op<V>>, b: seq<Op<V>>)
    ensures SnapRun(s, a + b) == match SnapRun(s, a) case None => None case Some(t) => SnapRun(t, b)
    decreases |a|
  {
    if a == [] {
      assert a + b == b;
    } else {
      assert (a + b)[0] == a[0] && (a + b)[1..] == a[1..] + b;
      match SnapStep(s, a[0])
      case None =>
      case Some(t) => SnapRunConcat(t, a[1..], b);
    }
  }

  lemma SnapRunOne<V>(s: Snap<V>, op: Op<V>)
    ensures SnapRun(s, [op]) == SnapStep(s, op)
  {
    match SnapStep(s, op)
    case None =>
    case Some(t) => assert [op][1..] == [] && SnapRun(t, []) == Some(t);
  }

  // Splitting a run [first] + body + [last].
  lemma SnapRunBracket<V>(s: Snap<V>, first: Op<V>, body: seq<Op<V>>, last: Op<V>)
    requires SnapRun(s, [first] + body + [last]).Some?
    ensures SnapStep(s, first).Some? && SnapRun(SnapStep(s, first).value, body).Some?
    ensures var t := SnapRun(SnapStep(s, first).value, body).value;
            SnapStep(t, last) == SnapRun(s, [first] + body + [last])
  {
    hide SnapStep, SnapRun;
    SnapRunConcat(s, [first] + body, [last]);
    SnapRunConcat(s, [first], body);
    SnapRunOne(s, first);
    SnapRunOne(SnapRun(s, [first] + body).value, last);
  }

  // What a whole session leaves: the enclosing levels, oldest perhaps dropped, under the session's own.
  lemma SessionBody<V>(s: Snap<V>, body: seq<Op<V>>)
    requires Balanced(body, s.maxSize)
    requires SnapRun(SnapStep(s, Start).value, body).Some?
    ensures var t := SnapRun(SnapStep(s, Start).value, body).value;
            && t.active == s.active + 1
            && t.levels != []
            && t.levels[|t.levels| - 1] == s.store
            && (s.maxSize > 0 && s.levels != [] ==> IsSuffix(Below(t.levels, 1), s.levels))
  {
    var inside := SnapStep(s, Start).value;
    InsideSession(inside, body, 0);
    var t := SnapRun(inside, body).value;
    KeptLevel(inside.levels, 0, t.levels, 0);
    if s.maxSize > 0 && s.levels != [] {
      BelowOpened(s.levels, s.store, s.maxSize, t.levels);
    }
  }

  lemma BelowOpened<T>(levels: seq<T>, now: T, max: nat, after: seq<T>)
    requires max > 0 && levels != []
    requires KeepsBelow(Opened(levels, now, max), 0, after, 0)
    ensures IsSuffix(Below(after, 1), levels)
  {
    var t := Trim(levels, max);
    var o := Opened(levels, now, max);
    assert o == t + [now];
    assert Below(after, 0) == after && Below(o, 0) == o;
    var k := |o| - |after|;
    assert after == o[k..];
    assert Below(after, 1) == t[k..];
    assert IsSuffix(t, levels);
    SuffixTransitive(Below(after, 1), t, levels);
  }

  lemma SnapSessionUndone<V>(s: Snap<V>, body: seq<Op<V>>, r: Snap<V>)
    requires Balanced(body, s.maxSize) && SnapRun(s, [Start] + body + [Undo]) == Some(r)
    ensures r.store == s.store && r.active == s.active
  {
    hide SnapStep, SnapRun, Nesting, IsSuffix;
    SnapRunBracket(s, Start, body, Undo);
    SessionBody(s, body);
    UndoStep(SnapRun(SnapStep(s, Start).value, body).value);
  }

  lemma SnapSessionMerged<V>(s: Snap<V>, body: seq<Op<V>>, r: Snap<V>)
    requires Balanced(body, s.maxSize) && s.maxSize > 0 && s.levels != []
    requires SnapRun(s, [Start] + body + [Merge]) == Some(r)
    ensures SnapRun(s, [Start] + body).Some? && r.store == SnapRun(s, [Start] + body).value.store
    ensures r.active == s.active && IsSuffix(r.levels, s.levels)
  {
    hide SnapStep, SnapRun, Nesting, IsSuffix;
    SnapRunBracket(s, Start, body, Merge);
    SnapRunFrom(s, Start, body);
    SessionBody(s, body);
    MergeStep(SnapRun(SnapStep(s, Start).value, body).value, r);
  }

  lemma MergeStep<V>(t: Snap<V>, r: Snap<V>)
    requires SnapStep(t, Merge) == Some(r)
    ensures t.levels != [] && r == t.(levels := Below(t.levels, 1), active := t.active - 1)
  {
  }

  lemma SnapRunFrom<V>(s: Snap<V>, first: Op<V>, rest: seq<Op<V>>)
    requires SnapStep(s, first).Some?
    ensures SnapRun(s, [first] + rest) == SnapRun(SnapStep(s, first).value, rest)
  {
    assert ([first] + rest)[1..] == rest;
  }

  lemma SnapSessionCommitted<V>(s: Snap<V>, body: seq<Op<V>>, r: Snap<V>)
    requires Balanced(body, s.maxSize) && SnapRun(s, [Start] + body + [Commit]) == Some(r)
    ensures r.active == s.active && r.levels != [] && r.levels[|r.levels| - 1] == s.store
    ensures s.maxSize > 0 && s.levels != [] ==> IsSuffix(Below(r.levels, 1), s.levels)
  {
    hide SnapStep, SnapRun, Nesting, IsSuffix;
    SnapRunBracket(s, Start, body, Commit);
    SessionBody(s, body);
    CommitStep(SnapRun(SnapStep(s, Start).value, body).value, r);
  }

  lemma CommitStep<V>(t: Snap<V>, r: Snap<V>)
    requires SnapStep(t, Commit) == Some(r)
    ensures t.active > 0 && r == t.(active := t.active - 1)
  {
  }

  lemma UndoStep<V>(t: Snap<V>)
    requires t.active > 0 && t.levels != []
    ensures SnapStep(t, Undo).Some?
    ensures SnapStep(t, Undo).value.store == t.levels[|t.levels| - 1]
    ensures SnapStep(t, Undo).value.active == t.active - 1
  {
  }

  // A session whose changes are undone leaves the store and the next ids exactly as they were.
  lemma UndoneSessionLeavesNoTrace<V>(db: Db<V>, body: seq<Op<V>>, db': Db<V>)
    requires Inv(db) && Balanced(body, db.maxSize)
    requires Run(db, [Start] + body + [Undo]) == Some(db')
    ensures db'.store == db.store && db'.active == db.active
  {
    hide SnapStep, SnapRun, Step, Run, Nesting, Inv;
    RunSimulates(db, [Start] + body + [Undo]);
    SnapSessionUndone(Abs(db), body, Abs(db'));
  }

  // Merging a session folds it into the enclosing one: the changes stay, and the enclosing
  // levels are what they were (the oldest may have been dropped by the size limit).
  lemma MergedSessionKeepsChanges<V>(db: Db<V>, body: seq<Op<V>>, db': Db<V>)
    requires Inv(db) && Balanced(body, db.maxSize) && db.maxSize > 0 && db.stack != []
    requires Run(db, [Start] + body + [Merge]) == Some(db')
    ensures Run(db, [Start] + body).Some? && db'.store == Run(db, [Start] + body).value.store
    ensures db'.active == db.active
    ensures IsSuffix(Levels(db'.stack, db'.store), Levels(db.stack, db.store))
  {
    hide SnapStep, SnapRun, Step, Run, Nesting, Inv;
    RunSimulates(db, [Start] + body + [Merge]);
    RunSimulates(db, [Start] + body);
    SnapSessionMerged(Abs(db), body, Abs(db'));
  }

  // ---------- where the promise stops ----------

  // Committing a session inside another one: undoing the outer session then restores the
  // store at the start of the inner one, so it restores the outer session's start if and only if
  // nothing had changed before the inner one was opened.
  lemma NestedCommitUndoesOnlyInner<V>(db: Db<V>, outer: seq<Op<V>>, mid: Db<V>, inner: seq<Op<V>>, db': Db<V>)
    requires Inv(db) && Run(db, [Start] + outer) == Some(mid) && mid.active > 0
    requires Balanced(inner, mid.maxSize) && Run(mid, [Start] + inner + [Commit]) == Some(db')
    ensures Step(db', Undo).Some? && Step(db', Undo).value.store == mid.store
    ensures Step(db', Undo).value.store == db.store <==> mid.store == db.store
  {
    hide SnapStep, SnapRun, Step, Run, Nesting, Inv;
    RunSimulates(db, [Start] + outer);
    RunSimulates(mid, [Start] + inner + [Commit]);
    SnapSessionCommitted(Abs(mid), inner, Abs(db'));
    StepSimulates(db', Undo);
    UndoStep(Abs(db'));
  }

  // ---------- the size limit ----------

  function Starts<V>(k: nat): seq<Op<V>> {
    seq(k, _ => Start)
  }

  function Undos<V>(k: nat): seq<Op<V>> {
    seq(k, _ => Undo)
  }

  // The levels after k further sessions have been opened.
  ghost function Deepened<T>(levels: seq<T>, now: T, max: nat, k: nat): seq<T> {
    Trim(levels + seq(k, _ => now), max + 1)
  }

  lemma OpenedIsDeepened<T>(levels: seq<T>, now: T, max: nat)
    requires max > 0 && levels != []
    ensures Opened(levels, now, max) == Deepened(levels, now, max, 1)
  {
    assert Opened(levels, now, max) == Trim(levels, max) + [now];
    assert seq(1, _ => now) == [now];
  }

  lemma DeepenedOnce<T>(levels: seq<T>, now: T, max: nat, k: nat)
    requires max > 0 && levels != []
    ensures Opened(Deepened(levels, now, max, k), now, max) == Deepened(levels, now, max, k + 1)
  {
    var x := levels + seq(k, _ => now);
    assert x + [now] == levels + seq(k + 1, _ => now);
    assert Trim(Trim(x, max + 1), max) == Trim(x, max);
    assert Trim(x, max) + [now] == Trim(x + [now], max + 1);
  }

  lemma {:induction false} SnapStarts<V>(s: Snap<V>, k: nat)
    requires s.maxSize > 0 && s.levels != [] && k > 0
    ensures SnapRun(s, Starts(k)) ==
            Some(s.(levels := Deepened(s.levels, s.store, s.maxSize, k), active := s.active + k))
  {
    hide SnapRun, Opened, Deepened;
    OpenedIsDeepened(s.levels, s.store, s.maxSize);
    if k == 1 {
      assert Starts<V>(1) == [Start];
      SnapRunOne(s, Start);
    } else {
      SnapStarts(s, k - 1);
      DeepenedOnce(s.levels, s.store, s.maxSize, k - 1);
      assert Starts<V>(k) == Starts(k - 1) + [Start];
      SnapRunConcat(s, Starts(k - 1), [Start]);
      SnapRunOne(SnapRun(s, Starts(k - 1)).value, Start);
    }
  }

  // Undoing past the oldest level goes on restoring that one.
  lemma {:induction false} SnapUndos<V>(s: Snap<V>, m: nat)
    requires s.levels != [] && 0 < m <= s.active
    ensures SnapRun(s, Undos(m)).Some?
    ensures SnapRun(s, Undos(m)).value.store == s.levels[if m <= |s.levels| then |s.levels| - m else 0]
    decreases m
  {
    hide SnapRun;
    var next := SnapStep(s, Undo).value;
    if m == 1 {
      assert Undos<V>(1) == [Undo];
      SnapRunOne(s, Undo);
    } else {
      assert Undos<V>(m) == [Undo] + Undos(m - 1);
      SnapRunFrom(s, Undo, Undos(m - 1));
      SnapUndos(next, m - 1);
    }
  }

  // With `depth` sessions open, opening k more keeps the levels all of them started from if and only if the nesting
  // stays within the limit: at most `maxSize` sessions are open when the last one is started.
  lemma OpenKeepsSessionsIff<V>(db: Db<V>, depth: nat, k: nat)
    requires Inv(db) && db.maxSize > 0 && 0 < depth <= |db.stack| && k > 0
    ensures Run(db, Starts(k)).Some?
    ensures var db' := Run(db, Starts(k)).value;
            var before, after := Levels(db.stack, db.store), Levels(db'.stack, db'.store);
            && db'.store == db.store
            && (|after| >= depth + k <==> depth + k - 1 <= db.maxSize)
            && (depth + k - 1 <= db.maxSize ==> after[|after| - k - depth..|after| - k] == before[|before| - depth..])
  {
    hide SnapStep, SnapRun, Step, Run, Inv;
    RunSimulates(db, Starts(k));
    SnapStarts(Abs(db), k);
  }

  // Undoing the k further sessions and j of those opened before them restores the store the j-th of these started
  // from if the nesting stayed within the limit, and otherwise that of the oldest level the limit left.
  lemma UndoAfterOpening<V>(db: Db<V>, k: nat, j: nat)
    requires Inv(db) && db.maxSize > 0 && 0 < j <= |db.stack| && j <= db.active && k > 0
    ensures var r := Run(db, Starts(k) + Undos(k + j));
            var before, oldest := Levels(db.stack, db.store), db.maxSize + 1 - k;
            r.Some? && r.value.store == if j <= oldest then before[|before| - j]
                                        else if oldest > 0 then before[|before| - oldest] else db.store
  {
    hide SnapStep, SnapRun, Step, Run, Inv;
    var s := Abs(db);
    RunSimulates(db, Starts(k) + Undos(k + j));
    SnapStarts(s, k);
    SnapRunConcat(s, Starts(k), Undos(k + j));
    SnapUndos(SnapRun(s, Starts(k)).value, k + j);
  }

  // Three nested sessions under a limit of one: undoing all three does not bring the first one's start back.
  lemma OverNestingLosesTheOuterSession()
    ensures var id := ObjectId(0, 0);
            var db := Db(Store(map[id := 1], map[0 := 1]), [], 0, 1);
            var r := Run(db, [Start, Modify(id, 2), Start, Start, Undo, Undo, Undo]);
            Inv(db) && r.Some? && r.value.active == 0 && r.value.store != db.store
  {
    var id := ObjectId(0, 0);
    var d1, d2 := Store(map[id := 1], map[0 := 1]), Store(map[id := 2], map[0 := 1]);
    var db := Db(d1, [], 0, 1);
    var ops := [Start, Modify(id, 2), Start, Start, Undo, Undo, Undo];
    assert d1.objects[id] != d2.objects[id];
    assert Inv(db) && Abs(db) == Snap(d1, [], 0, 1);
    RunSimulates(db, ops);
    assert SnapRun(Abs(db), ops) == Some(Snap(d2, [d2], 0, 1)) by {
      assert Modified(d1, id, 2) == d2;
      OpeningsUnderLimitOne(d1, d2);
      hide Modified, Opened;
      var s := Snap(d1, [d1, d1], 1, 1);
      Unroll(Abs(db), ops, s);
      Unroll(s, ops[1..], s.(store := d2));
      Unroll(s.(store := d2), ops[2..], Snap(d2, [d1, d2], 2, 1));
      Unroll(Snap(d2, [d1, d2], 2, 1), ops[3..], Snap(d2, [d2, d2], 3, 1));
      ThreeUndos(d2, ops[4..]);
    }
  }

  lemma OpeningsUnderLimitOne<T>(x: T, y: T)
    ensures Opened([], x, 1) == [x, x]
    ensures Opened([x, x], y, 1) == [x, y]
    ensures Opened([x, y], y, 1) == [y, y]
  {
    assert Trim([], 1) + [x] == [x] && Trim([x, x], 1) + [y] == [x, y] && Trim([x, y], 1) + [y] == [y, y];
  }

  lemma ThreeUndos<V>(d: Store<V>, ops: seq<Op<V>>)
    requires ops == [Undo, Undo, Undo]
    ensures SnapRun(Snap(d, [d, d], 3, 1), ops) == Some(Snap(d, [d], 0, 1))
  {
    assert [d, d][..1] == [d] && [d][..0] == [];
    Unroll(Snap(d, [d, d], 3, 1), ops, Snap(d, [d], 2, 1));
    Unroll(Snap(d, [d], 2, 1), ops[1..], Snap(d, [d], 1, 1));
    Unroll(Snap(d, [d], 1, 1), ops[2..], Snap(d, [d], 0, 1));
  }

  lemma Unroll<V>(s: Snap<V>, ops: seq<Op<V>>, next: Snap<V>)
    requires ops != [] && SnapStep(s, ops[0]) == Some(next)
    ensures SnapRun(s, ops) == SnapRun(next, ops[1..])
  {
  }

  // ---------- commits and pops ----------

  function BlockOps<V>(body: seq<Op<V>>): seq<Op<V>> {
    [Start] + body + [Commit]
  }

  // The state after committing each body in turn, one session per body.
  function RunBlocks<V>(s: Snap<V>, bodies: seq<seq<Op<V>>>): Option<Snap<V>> {
    if bodies == [] then Some(s)
    else
      var k := |bodies|;
      match RunBlocks(s, bodies[..k - 1])
      case None => None
      case Some(t) =>
        if t.maxSize > 0 && Balanced(bodies[k - 1], t.maxSize) then SnapRun(t, BlockOps(bodies[k - 1])) else None
  }

  function Pops<V>(j: nat): seq<Op<V>> {
    seq(j, _ => PopCommit)
  }

  lemma {:induction false} PopsRun<V>(s: Snap<V>, j: nat)
    requires s.active == 0 && j <= |s.levels|
    ensures SnapRun(s, Pops(j)).Some?
    ensures var n := |s.levels|;
            SnapRun(s, Pops(j)).value.store == if j == 0 then s.store else s.levels[n - j]
    decreases j
  {
    if j > 0 {
      var next := SnapStep(s, PopCommit).value;
      assert Pops<V>(j)[1..] == Pops<V>(j - 1);
      assert Pops<V>(j)[0] == PopCommit;
      PopsRun(next, j - 1);
    }
  }

  lemma PopsBeyondFail<V>(s: Snap<V>, j: nat)
    requires s.active == 0 && j > |s.levels|
    ensures SnapRun(s, Pops(j)) == None
    decreases j
  {
    assert Pops<V>(j)[1..] == Pops<V>(j - 1);
    assert Pops<V>(j)[0] == PopCommit;
    if s.levels != [] {
      PopsBeyondFail(SnapStep(s, PopCommit).value, j - 1);
    }
  }

  lemma OneBlock<V>(t: Snap<V>, body: seq<Op<V>>)
    requires t.maxSize > 0 && Balanced(body, t.maxSize) && SnapRun(t, BlockOps(body)).Some?
    ensures var u := SnapRun(t, BlockOps(body)).value;
            && u.active == t.active
            && u.levels != []
            && u.levels[|u.levels| - 1] == t.store
            && (t.levels != [] ==> IsSuffix(Below(u.levels, 1), t.levels))
  {
    SnapSessionCommitted(t, body, SnapRun(t, BlockOps(body)).value);
  }

  // The levels left by k committed blocks are the stores after each earlier block.
  lemma {:induction false} BlockLevels<V>(s: Snap<V>, bodies: seq<seq<Op<V>>>, j: nat)
    requires RunBlocks(s, bodies).Some? && 0 < j <= |bodies|
    requires j <= |RunBlocks(s, bodies).value.levels|
    ensures RunBlocks(s, bodies[..|bodies| - j]).Some?
    ensures var f := RunBlocks(s, bodies).value;
            f.levels[|f.levels| - j] == RunBlocks(s, bodies[..|bodies| - j]).value.store
    decreases |bodies|
  {
    hide SnapStep, SnapRun, Balanced;
    var k := |bodies|;
    var f := RunBlocks(s, bodies).value;
    var t := RunBlocks(s, bodies[..k - 1]).value;
    OneBlock(t, bodies[k - 1]);
    if j > 1 {
      BlocksLeaveALevel(s, bodies[..k - 1]);
      var x := Below(f.levels, 1);
      BlockLevels(s, bodies[..k - 1], j - 1);
      assert bodies[..k - 1][..k - j] == bodies[..k - j];
      assert f.levels[|f.levels| - j] == x[|x| - (j - 1)] == t.levels[|t.levels| - (j - 1)];
    }
  }

  lemma BlocksLeaveALevel<V>(s: Snap<V>, bodies: seq<seq<Op<V>>>)
    requires RunBlocks(s, bodies).Some? && bodies != []
    ensures RunBlocks(s, bodies).value.levels != []
  {
    var k := |bodies|;
    OneBlock(RunBlocks(s, bodies[..k - 1]).value, bodies[k - 1]);
  }

  lemma SnapCommitsThenPops<V>(s: Snap<V>, bodies: seq<seq<Op<V>>>, j: nat)
    requires s.active == 0 && RunBlocks(s, bodies).Some? && j <= |bodies|
    ensures var f := RunBlocks(s, bodies).value;
            var r := SnapRun(f, Pops(j));
            if j <= |f.levels|
            then r.Some? && RunBlocks(s, bodies[..|bodies| - j]).Some?
                 && r.value.store == RunBlocks(s, bodies[..|bodies| - j]).value.store
            else r == None
  {
    hide SnapStep, SnapRun, Balanced;
    var f := RunBlocks(s, bodies).value;
    BlocksKeepActive(s, bodies);
    if j <= |f.levels| {
      PopsRun(f, j);
      if j > 0 {
        BlockLevels(s, bodies, j);
      } else {
        assert bodies[..|bodies|] == bodies;
      }
    } else {
      PopsBeyondFail(f, j);
    }
  }

  // The same run of blocks on the delta machine.
  function CommitBlocks<V>(db: Db<V>, bodies: seq<seq<Op<V>>>): Option<Db<V>> {
    if bodies == [] then Some(db)
    else
      var k := |bodies|;
      match CommitBlocks(db, bodies[..k - 1])
      case None => None
      case Some(t) =>
        if t.maxSize > 0 && Balanced(bodies[k - 1], t.maxSize) then Run(t, BlockOps(bodies[k - 1])) else None
  }

  lemma {:induction false} CommitBlocksSimulates<V>(db: Db<V>, bodies: seq<seq<Op<V>>>)
    requires Inv(db)
    ensures match CommitBlocks(db, bodies)
            case None => RunBlocks(Abs(db), bodies) == None
            case Some(db') => Inv(db') && RunBlocks(Abs(db), bodies) == Some(Abs(db'))
    decreases |bodies|
  {
    hide Step, SnapStep, Run, SnapRun, Balanced, AllFit;
    if bodies != [] {
      var k := |bodies|;
      CommitBlocksSimulates(db, bodies[..k - 1]);
      match CommitBlocks(db, bodies[..k - 1])
      case None =>
      case Some(t) => RunSimulates(t, BlockOps(bodies[k - 1]));
    }
  }

  // k commits and then j <= k pops bring back the store of j commits ago if those deltas are still
  // on the stack, and fail otherwise.
  lemma CommitsThenPops<V>(db: Db<V>, bodies: seq<seq<Op<V>>>, j: nat)
    requires Inv(db) && db.active == 0 && CommitBlocks(db, bodies).Some? && j <= |bodies|
    ensures var f := CommitBlocks(db, bodies).value;
            if j <= |f.stack|
            then Run(f, Pops(j)).Some? && CommitBlocks(db, bodies[..|bodies| - j]).Some?
                 && Run(f, Pops(j)).value.store == CommitBlocks(db, bodies[..|bodies| - j]).value.store
            else Run(f, Pops(j)) == None
  {
    hide Step, SnapStep, Run, SnapRun, Balanced, AllFit, CommitBlocks, RunBlocks;
    CommitBlocksSimulates(db, bodies);
    var f := CommitBlocks(db, bodies).value;
    SnapCommitsThenPops(Abs(db), bodies, j);
    RunSimulates(f, Pops(j));
    CommitBlocksSimulates(db, bodies[..|bodies| - j]);
  }

  lemma {:induction false} BlocksKeepActive<V>(s: Snap<V>, bodies: seq<seq<Op<V>>>)
    requires RunBlocks(s, bodies).Some?
    ensures RunBlocks(s, bodies).value.active == s.active
    decreases |bodies|
  {
    if bodies != [] {
      var k := |bodies|;
      BlocksKeepActive(s, bodies[..k - 1]);
      OneBlock(RunBlocks(s, bodies[..k - 1]).value, bodies[k - 1]);
    }
  }
}
