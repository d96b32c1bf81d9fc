// The undo database as a state machine, and the naive machine it stands for: one
// that keeps a full copy of the store per undo level instead of a delta.
module UndoRuns {
  import opened Options
  import opened UndoModel

  datatype Db<V> = Db(store: Store<V>, stack: seq<UndoState<V>>, active: nat, maxSize: nat)

  datatype Op<V> =
    | Create(kind: nat, value: V)
    | Modify(id: ObjectId, value: V)
    | Remove(id: ObjectId)
    | Start
    | Undo
    | Merge
    | Commit
    | PopCommit
    | SetMaxSize(size: nat)

  // Recording needs a delta to record into.
  function Touch<V>(stack: seq<UndoState<V>>): (r: seq<UndoState<V>>)
    ensures |r| > 0
  {
    if stack == [] then [EmptyState()] else stack
  }

  function SetTop<V>(stack: seq<UndoState<V>>, top: UndoState<V>): seq<UndoState<V>>
    requires stack != []
  {
    stack[..|stack| - 1] + [top]
  }

  // Dropping the oldest entries until at most `max` are left.
  function Trim<T>(stack: seq<T>, max: nat): seq<T> {
    if |stack| > max then stack[|stack| - max..] else stack
  }

  function Opened<T>(stack: seq<T>, entry: T, max: nat): seq<T> {
    var pushed := Trim(stack, max) + [entry];
    if |pushed| == 1 then pushed + [entry] else pushed
  }

  // One call on the undo database; None is a failed check, which changes nothing.
  function Step<V>(db: Db<V>, op: Op<V>): Option<Db<V>> {
    var n := |db.stack|;
    match op
    case Create(kind, v) =>
      if kind !in db.store.nextIds then None
      else
        var s := Touch(db.stack);
        var id := ObjectId(kind, db.store.nextIds[kind]);
        Some(db.(store := Created(db.store, kind, v), stack := SetTop(s, RecordCreate(s[|s| - 1], id))))
    case Modify(id, v) =>
      if id !in db.store.objects then None
      else
        var s := Touch(db.stack);
        Some(db.(store := Modified(db.store, id, v),
                 stack := SetTop(s, RecordModify(s[|s| - 1], id, db.store.objects[id]))))
    case Remove(id) =>
      if id !in db.store.objects then None
      else
        var s := Touch(db.stack);
        Some(db.(store := Removed(db.store, id),
                 stack := SetTop(s, RecordRemove(s[|s| - 1], id, db.store.objects[id]))))
    case Start =>
      Some(db.(stack := Opened(db.stack, EmptyState(), db.maxSize), active := db.active + 1))
    case Undo =>
      if db.active == 0 || n == 0 then None
      else Some(db.(store := Revert(db.stack[n - 1], db.store), stack := Touch(db.stack[..n - 1]),
        active := db.active - 1))
    case Merge =>
      if db.active == 0 || n < 2 then None
      else Some(db.(stack := db.stack[..n - 2] + [MergeStates(db.stack[n - 2], db.stack[n - 1])],
        active := db.active - 1))
    case Commit =>
      if db.active == 0 then None else Some(db.(active := db.active - 1))
    case PopCommit =>
      if db.active > 0 || n == 0 then None
      else Some(db.(store := Revert(db.stack[n - 1], db.store), stack := db.stack[..n - 1]))
    case SetMaxSize(size) =>
      Some(db.(maxSize := size))
  }

  function Run<V>(db: Db<V>, ops: seq<Op<V>>): Option<Db<V>>
    decreases |ops|
  {
    if ops == [] then Some(db)
    else
      match Step(db, ops[0])
      case None => None
      case Some(next) => Run(next, ops[1..])
  }

  // ---------- the naive machine ----------

  // levels[i] is a full copy of the store as it was when level i was opened.
  datatype Snap<V> = Snap(store: Store<V>, levels: seq<Store<V>>, active: nat, maxSize: nat)

  function SnapTouch<V>(levels: seq<Store<V>>, now: Store<V>): seq<Store<V>> {
    if levels == [] then [now] else levels
  }

  function SnapStep<V>(s: Snap<V>, op: Op<V>): Option<Snap<V>> {
    var n := |s.levels|;
    match op
    case Create(kind, v) =>
      if kind !in s.store.nextIds then None
      else Some(s.(store := Created(s.store, kind, v), levels := SnapTouch(s.levels, s.store)))
    case Modify(id, v) =>
      if id !in s.store.objects then None
      else Some(s.(store := Modified(s.store, id, v), levels := SnapTouch(s.levels, s.store)))
    case Remove(id) =>
      if id !in s.store.objects then None
      else Some(s.(store := Removed(s.store, id), levels := SnapTouch(s.levels, s.store)))
    case Start =>
      Some(s.(levels := Opened(s.levels, s.store, s.maxSize), active := s.active + 1))
    case Undo =>
      if s.active == 0 || n == 0 then None
      else Some(s.(store := s.levels[n - 1], levels := SnapTouch(s.levels[..n - 1], s.levels[n - 1]),
        active := s.active - 1))
    case Merge =>
      if s.active == 0 || n < 2 then None
      else Some(s.(levels := s.levels[..n - 1], active := s.active - 1))
    case Commit =>
      if s.active == 0 then None else Some(s.(active := s.active - 1))
    case PopCommit =>
      if s.active > 0 || n == 0 then None
      else Some(s.(store := s.levels[n - 1], levels := s.levels[..n - 1]))
    case SetMaxSize(size) =>
      Some(s.(maxSize := size))
  }

  function SnapRun<V>(s: Snap<V>, ops: seq<Op<V>>): Option<Snap<V>>
    decreases |ops|
  {
    if ops == [] then Some(s)
    else
      match SnapStep(s, ops[0])
      case None => None
      case Some(next) => SnapRun(next, ops[1..])
  }

  // ---------- the abstraction ----------

  // The store at the opening of each level, recovered by undoing deltas from the top down.
  ghost function Levels<V>(stack: seq<UndoState<V>>, d: Store<V>): (r: seq<Store<V>>)
    ensures |r| == |stack|
  {
    if stack == [] then []
    else
      var n := |stack|;
      var before := Revert(stack[n - 1], d);
      Levels(stack[..n - 1], before) + [before]
  }

  ghost predicate AllFit<V>(stack: seq<UndoState<V>>, d: Store<V>) {
    if stack == [] then WellFormed(d)
    else
      var n := |stack|;
      Fits(stack[n - 1], d) && AllFit(stack[..n - 1], Revert(stack[n - 1], d))
  }

  ghost predicate Inv<V>(db: Db<V>) {
    && AllFit(db.stack, db.store)
    && (db.active > 0 ==> db.stack != [])
  }

  ghost function Abs<V>(db: Db<V>): Snap<V> {
    Snap(db.store, Levels(db.stack, db.store), db.active, db.maxSize)
  }

  // A level whose delta is replaced without changing what undoing it yields keeps the whole stack's meaning.
  lemma ReplaceTop<V>(stack: seq<UndoState<V>>, d: Store<V>, top: UndoState<V>, d': Store<V>)
    requires stack != [] && AllFit(stack, d)
    requires Fits(top, d') && Revert(top, d') == Revert(stack[|stack| - 1], d)
    ensures AllFit(SetTop(stack, top), d') && Levels(SetTop(stack, top), d') == Levels(stack, d)
  {
    var n := |stack|;
    var s := SetTop(stack, top);
    assert s[..n - 1] == stack[..n - 1] && s[n - 1] == top;
  }

  lemma EmptyFits<V>(d: Store<V>)
    requires WellFormed(d)
    ensures Fits(EmptyState(), d) && Revert(EmptyState(), d) == d
  {
    assert d.objects - {} + map[] + map[] == d.objects;
    assert d.nextIds + map[] == d.nextIds;
  }

  // Opening an empty level on top.
  lemma PushEmpty<V>(stack: seq<UndoState<V>>, d: Store<V>)
    requires AllFit(stack, d)
    ensures AllFit(stack + [EmptyState()], d)
    ensures Levels(stack + [EmptyState()], d) == Levels(stack, d) + [d]
  {
    AllFitIsWellFormed(stack, d);
    EmptyFits(d);
    assert (stack + [EmptyState()])[..|stack|] == stack;
  }

  lemma AllFitIsWellFormed<V>(stack: seq<UndoState<V>>, d: Store<V>)
    requires AllFit(stack, d)
    ensures WellFormed(d)
  {
  }

  lemma TouchKeeps<V>(stack: seq<UndoState<V>>, d: Store<V>)
    requires AllFit(stack, d)
    ensures AllFit(Touch(stack), d) && Levels(Touch(stack), d) == SnapTouch(Levels(stack, d), d)
  {
    if stack == [] {
      PushEmpty(stack, d);
      assert stack + [EmptyState()] == Touch(stack);
    }
  }

  // Forgetting the k oldest levels.
  lemma {:induction false} DropOldest<V>(stack: seq<UndoState<V>>, d: Store<V>, k: nat)
    requires k <= |stack| && AllFit(stack, d)
    ensures AllFit(stack[k..], d) && Levels(stack[k..], d) == Levels(stack, d)[k..]
  {
    var n := |stack|;
    if k == n {
      AllFitIsWellFormed(stack, d);
    } else {
      var before := Revert(stack[n - 1], d);
      DropOldest(stack[..n - 1], before, k);
      assert stack[k..][..n - k - 1] == stack[..n - 1][k..];
      assert stack[k..][n - k - 1] == stack[n - 1];
    }
  }

  lemma OpenSimulates<V>(stack: seq<UndoState<V>>, d: Store<V>, max: nat)
    requires AllFit(stack, d)
    ensures AllFit(Opened(stack, EmptyState(), max), d)
    ensures Levels(Opened(stack, EmptyState(), max), d) == Opened(Levels(stack, d), d, max)
  {
    if |stack| > max {
      DropOldest(stack, d, |stack| - max);
    }
    var t := Trim(stack, max);
    PushEmpty(t, d);
    if t == [] {
      PushEmpty(t + [EmptyState()], d);
    }
  }

  lemma MergeSimulates<V>(stack: seq<UndoState<V>>, d: Store<V>)
    requires AllFit(stack, d) && |stack| >= 2
    ensures var n := |stack|;
            var merged := stack[..n - 2] + [MergeStates(stack[n - 2], stack[n - 1])];
            AllFit(merged, d) && Levels(merged, d) == Levels(stack, d)[..n - 1]
  {
    var n := |stack|;
    var a, b := stack[n - 2], stack[n - 1];
    var mid := Revert(b, d);
    assert stack[..n - 1][..n - 2] == stack[..n - 2] && stack[..n - 1][n - 2] == a;
    MergeIsComposition(a, b, d);
    MergeFits(a, b, d);
    var merged := stack[..n - 2] + [MergeStates(a, b)];
    assert merged[..n - 2] == stack[..n - 2];
    assert Levels(stack, d)[..n - 1] == Levels(stack[..n - 1], mid);
  }

  // Recording a change of the store leaves every level's copy as it was.
  lemma RecordSimulates<V>(db: Db<V>, op: Op<V>)
    requires Inv(db) && (op.Create? || op.Modify? || op.Remove?)
    requires Step(db, op).Some?
    ensures var db' := Step(db, op).value;
            AllFit(db'.stack, db'.store) && Levels(db'.stack, db'.store)
              == SnapTouch(Levels(db.stack, db.store), db.store)
  {
    hide Revert, Fits, Created, Modified, Removed, RecordCreate, RecordModify, RecordRemove;
    var s := Touch(db.stack);
    TouchKeeps(db.stack, db.store);
    var top := s[|s| - 1];
    var d := db.store;
    match op
    case Create(kind, v) =>
      RecordCreateFits(top, d, kind, v);
      RecordCreateKeepsPast(top, d, kind, v);
      ReplaceTop(s, d, RecordCreate(top, ObjectId(kind, d.nextIds[kind])), Created(d, kind, v));
    case Modify(id, v) =>
      RecordModifyFits(top, d, id, v);
      RecordModifyKeepsPast(top, d, id, v);
      ReplaceTop(s, d, RecordModify(top, id, d.objects[id]), Modified(d, id, v));
    case Remove(id) =>
      RecordRemoveFits(top, d, id);
      RecordRemoveKeepsPast(top, d, id);
      ReplaceTop(s, d, RecordRemove(top, id, d.objects[id]), Removed(d, id));
  }

  // Undoing the newest delta gives the newest copy and leaves the older ones.
  lemma PopSimulates<V>(stack: seq<UndoState<V>>, d: Store<V>)
    requires AllFit(stack, d) && stack != []
    ensures var n := |stack|;
            var before := Revert(stack[n - 1], d);
            && AllFit(stack[..n - 1], before)
            && Levels(stack, d) == Levels(stack[..n - 1], before) + [before]
            && Levels(stack, d)[n - 1] == before
            && Levels(stack, d)[..n - 1] == Levels(stack[..n - 1], before)
  {
  }

  ghost predicate Simulated<V>(db: Db<V>, op: Op<V>) {
    match Step(db, op)
    case None => SnapStep(Abs(db), op) == None
    case Some(db') => Inv(db') && SnapStep(Abs(db), op) == Some(Abs(db'))
  }

  lemma UndoOrPopSimulates<V>(db: Db<V>, op: Op<V>)
    requires Inv(db) && (op.Undo? || op.PopCommit?) && Step(db, op).Some?
    ensures Simulated(db, op)
  {
    hide Revert, Fits;
    PopSimulates(db.stack, db.store);
    TouchKeeps(db.stack[..|db.stack| - 1], Revert(db.stack[|db.stack| - 1], db.store));
  }

  lemma ChangeSimulates<V>(db: Db<V>, op: Op<V>)
    requires Inv(db) && (op.Create? || op.Modify? || op.Remove?) && Step(db, op).Some?
    ensures Simulated(db, op)
  {
    hide Revert, Fits, Created, Modified, Removed, RecordCreate, RecordModify, RecordRemove;
    RecordSimulates(db, op);
    var db' := Step(db, op).value;
    assert Abs(db').store == SnapStep(Abs(db), op).value.store;
  }

  lemma StackSimulates<V>(db: Db<V>, op: Op<V>)
    requires Inv(db) && Step(db, op).Some? && !(op.Create? || op.Modify? || op.Remove? || op.Undo? || op.PopCommit?)
    ensures Simulated(db, op)
  {
    hide Revert, Fits, Created, Modified, Removed, RecordCreate, RecordModify, RecordRemove;
    if op.Start? {
      OpenSimulates(db.stack, db.store, db.maxSize);
    } else if op.Merge? {
      MergeSimulates(db.stack, db.store);
    }
  }

  lemma FailureSimulates<V>(db: Db<V>, op: Op<V>)
    requires Inv(db) && Step(db, op) == None
    ensures Simulated(db, op)
  {
    hide Revert, Fits, RecordCreate, RecordModify, RecordRemove;
  }

  // One step of the delta machine is the same step of the naive machine, failures included.
  lemma StepSimulates<V>(db: Db<V>, op: Op<V>)
    requires Inv(db)
    ensures Simulated(db, op)
  {
    hide Inv, Step, Simulated;
    if Step(db, op) == None {
      FailureSimulates(db, op);
    } else if op.Create? || op.Modify? || op.Remove? {
      ChangeSimulates(db, op);
    } else if op.Undo? || op.PopCommit? {
      UndoOrPopSimulates(db, op);
    } else {
      StackSimulates(db, op);
    }
  }

  // Whole runs: keeping deltas is indistinguishable from keeping full copies.
  lemma {:induction false} RunSimulates<V>(db: Db<V>, ops: seq<Op<V>>)
    requires Inv(db)
    ensures match Run(db, ops)
            case None => SnapRun(Abs(db), ops) == None
            case Some(db') => Inv(db') && SnapRun(Abs(db), ops) == Some(Abs(db'))
    decreases |ops|
  {
    if ops != [] {
      StepSimulates(db, ops[0]);
      match Step(db, ops[0])
      case None =>
      case Some(next) => RunSimulates(next, ops[1..]);
    }
  }
}
