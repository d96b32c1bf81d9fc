// The object database together with its undo database, as the program keeps them: fields
// edited in place. Every method is tied to the state machine of UndoRuns.
// Source: libraries/db/undo_database.cpp, libraries/db/include/graphene/db/index.hpp.
module ObjectDatabase {
  import opened Options
  import opened UndoModel
  import opened UndoRuns

  function Only<K, W>(m: map<K, W>, keys: set<K>): map<K, W> {
    map k <- m | k in keys :: m[k]
  }

  class Database<V> {
    var objects: map<ObjectId, V>
    var nextIds: map<nat, nat>
    var stack: seq<UndoState<V>>
    var activeSessions: nat
    var disabled: bool
    var maxSize: nat

    ghost function Model(): Db<V>
      reads this
    {
      Db(Store(objects, nextIds), stack, activeSessions, maxSize)
    }

    // The store is a possible end of the recorded changes; recording is on.
    ghost predicate Valid()
      reads this
    {
      Inv(Model()) && !disabled
    }

    // Nothing is recorded until undo is enabled.
    constructor (kinds: set<nat>)
      ensures Inv(Model()) && disabled
      ensures objects == map[] && nextIds == (map k <- kinds :: 0)
      ensures stack == [] && activeSessions == 0 && maxSize == 256
    {
      objects, nextIds := map[], map k <- kinds :: 0;
      stack, activeSessions, disabled, maxSize := [], 0, true, 256;
    }

    method Enable()
      modifies `disabled
      ensures !disabled
    {
      disabled := false;
    }

    method Disable()
      modifies `disabled
      ensures disabled
    {
      disabled := true;
    }

    method SetMaxSize(size: nat)
      requires Valid()
      modifies `maxSize
      ensures Valid() && Some(Model()) == Step(old(Model()), UndoRuns.SetMaxSize(size))
    {
      maxSize := size;
    }

    // ---------- hooks ----------

    method OnCreate(id: ObjectId)
      modifies `stack
      ensures stack == if disabled then old(stack)
                       else SetTop(Touch(old(stack)), RecordCreate(Touch(old(stack))[|Touch(old(stack))| - 1], id))
    {
      if disabled { return; }
      if stack == [] {
        stack := stack + [EmptyState()];
      }
      var state := stack[|stack| - 1];
      if id.kind !in state.oldNextIds {
        state := state.(oldNextIds := state.oldNextIds[id.kind := id.instance]);
      }
      state := state.(newIds := state.newIds + {id});
      stack := stack[..|stack| - 1] + [state];
    }

    method OnModify(id: ObjectId, was: V)
      modifies `stack
      ensures stack == if disabled then old(stack)
                       else SetTop(Touch(old(stack)), RecordModify(Touch(old(stack))[|Touch(old(stack))| - 1], id, was))
    {
      if disabled { return; }
      if stack == [] {
        stack := stack + [EmptyState()];
      }
      var state := stack[|stack| - 1];
      if id in state.newIds || id in state.oldValues {
        assert stack == stack[..|stack| - 1] + [state];
        return;
      }
      state := state.(oldValues := state.oldValues[id := was]);
      stack := stack[..|stack| - 1] + [state];
    }

    method OnRemove(id: ObjectId, was: V)
      modifies `stack
      ensures stack == if disabled then old(stack)
                       else SetTop(Touch(old(stack)), RecordRemove(Touch(old(stack))[|Touch(old(stack))| - 1], id, was))
    {
      if disabled { return; }
      if stack == [] {
        stack := stack + [EmptyState()];
      }
      var state := stack[|stack| - 1];
      if id in state.newIds {
        state := state.(newIds := state.newIds - {id});
      } else if id in state.oldValues {
        state := state.(removed := state.removed[id := state.oldValues[id]]);
        state := state.(oldValues := state.oldValues - {id});
      } else if id in state.removed {
        assert stack == stack[..|stack| - 1] + [state];
        return;
      } else {
        state := state.(removed := state.removed[id := was]);
      }
      stack := stack[..|stack| - 1] + [state];
    }

    // ---------- the mutators of the object database ----------

    // Builds an object under the next id of its index. Fails if there is no such index.
    method Create(kind: nat, value: V) returns (r: Option<ObjectId>)
      modifies `objects, `nextIds, `stack
      ensures r == if kind in old(nextIds) then Some(ObjectId(kind, old(nextIds)[kind])) else None
      ensures r == None ==> unchanged(this)
      ensures r.Some? && disabled ==>
                Store(objects, nextIds) == Created(old(Store(objects, nextIds)), kind, value) && stack == old(stack)
      ensures r.Some? && old(Valid()) ==> Valid() && Some(Model()) == Step(old(Model()), UndoRuns.Create(kind, value))
    {
      hide Levels, SnapStep, AllFit;
      if Valid() {
        StepSimulates(Model(), UndoRuns.Create(kind, value));
      }
      if kind !in nextIds { return None; }
      var id := ObjectId(kind, nextIds[kind]);
      objects := objects[id := value];
      nextIds := nextIds[kind := nextIds[kind] + 1];
      OnCreate(id);
      return Some(id);
    }

    // Saves the undo value, then changes the object. Fails if there is no such object.
    method Modify(id: ObjectId, value: V) returns (ok: bool)
      modifies `objects, `stack
      ensures ok == (id in old(objects))
      ensures !ok ==> unchanged(this)
      ensures ok && disabled ==> objects == old(objects)[id := value] && stack == old(stack)
      ensures ok && old(Valid()) ==> Valid() && Some(Model()) == Step(old(Model()), UndoRuns.Modify(id, value))
    {
      hide AllFit, Levels, SnapStep;
      if Valid() {
        StepSimulates(Model(), UndoRuns.Modify(id, value));
      }
      if id !in objects { return false; }
      OnModify(id, objects[id]);
      objects := objects[id := value];
      return true;
    }

    method Remove(id: ObjectId) returns (ok: bool)
      modifies `objects, `stack
      ensures ok == (id in old(objects))
      ensures !ok ==> unchanged(this)
      ensures ok && disabled ==> objects == old(objects) - {id} && stack == old(stack)
      ensures ok && old(Valid()) ==> Valid() && Some(Model()) == Step(old(Model()), UndoRuns.Remove(id))
    {
      hide AllFit, Levels, SnapStep;
      if Valid() {
        StepSimulates(Model(), UndoRuns.Remove(id));
      }
      if id !in objects { return false; }
      OnRemove(id, objects[id]);
      objects := objects - {id};
      return true;
    }

    // Puts a removed object back. Fails if its id is taken.
    method Insert(id: ObjectId, value: V) returns (ok: bool)
      modifies `objects
      ensures ok == (id !in old(objects))
      ensures objects == if ok then old(objects)[id := value] else old(objects)
    {
      if id in objects { return false; }
      objects := objects[id := value];
      return true;
    }

    // ---------- sessions ----------

    method StartUndoSession(forceEnable: bool)
      requires Inv(Model())
      modifies this
      ensures Inv(Model())
      ensures old(disabled) && !forceEnable ==> unchanged(this)
      ensures !old(disabled) || forceEnable ==> Valid() && Some(Model()) == Step(old(Model()), Start)
    {
      hide Levels, SnapStep, AllFit, Step, Opened;
      if disabled && !forceEnable { return; }
      StepSimulates(Model(), Start);
      StartEffect(Model());
      if forceEnable {
        disabled := false;
      }
      DropToMaxSize();
      OpenedInSteps(old(stack), EmptyState(), maxSize);
      stack := stack + [EmptyState()];
      if |stack| == 1 {
        stack := stack + [EmptyState()];
      }
      activeSessions := activeSessions + 1;
    }

    method DropToMaxSize()
      modifies `stack
      ensures stack == Trim(old(stack), maxSize)
    {
      while |stack| > maxSize
        invariant |stack| <= |old(stack)|
        invariant stack == old(stack)[|old(stack)| - |stack|..]
        invariant |stack| >= maxSize || stack == old(stack)
      {
        stack := stack[1..];
      }
    }

    // Puts the store back to what it was before the changes in `state`: no lookup fails and no id is taken.
    method Restore(state: UndoState<V>)
      requires disabled && Fits(state, Store(objects, nextIds))
      modifies `objects, `nextIds, `stack
      ensures Store(objects, nextIds) == Revert(state, old(Store(objects, nextIds)))
      ensures stack == old(stack)
    {
      ghost var d := Store(objects, nextIds);
      RestoreModified(state);
      RemoveCreated(state);
      RestoreOrder(state, d);
      hide Fits, WellFormed, Revert;
      RestoreNextIds(state);
      ReinsertRemoved(state);
    }

    method RestoreModified(state: UndoState<V>)
      requires disabled && state.oldValues.Keys <= objects.Keys
      modifies `objects, `stack
      ensures objects == old(objects) + state.oldValues && stack == old(stack)
    {
      var todo := state.oldValues.Keys;
      while todo != {}
        invariant todo <= state.oldValues.Keys
        invariant objects == old(objects) + Only(state.oldValues, state.oldValues.Keys - todo)
        invariant stack == old(stack)
        decreases todo
      {
        var id :| id in todo;
        var ok := Modify(id, state.oldValues[id]);
        assert ok;
        todo := todo - {id};
      }
      assert Only(state.oldValues, state.oldValues.Keys) == state.oldValues;
    }

    method RemoveCreated(state: UndoState<V>)
      requires disabled && state.newIds <= objects.Keys
      modifies `objects, `stack
      ensures objects == old(objects) - state.newIds && stack == old(stack)
    {
      var todo := state.newIds;
      while todo != {}
        invariant todo <= state.newIds
        invariant objects == old(objects) - (state.newIds - todo)
        invariant stack == old(stack)
        decreases todo
      {
        var id :| id in todo;
        var ok := Remove(id);
        assert ok;
        todo := todo - {id};
      }
    }

    method RestoreNextIds(state: UndoState<V>)
      modifies `nextIds
      ensures nextIds == old(nextIds) + state.oldNextIds
    {
      var todo := state.oldNextIds.Keys;
      while todo != {}
        invariant todo <= state.oldNextIds.Keys
        invariant nextIds == old(nextIds) + Only(state.oldNextIds, state.oldNextIds.Keys - todo)
        decreases todo
      {
        var kind :| kind in todo;
        nextIds := nextIds[kind := state.oldNextIds[kind]];
        todo := todo - {kind};
      }
      assert Only(state.oldNextIds, state.oldNextIds.Keys) == state.oldNextIds;
    }

    method ReinsertRemoved(state: UndoState<V>)
      requires state.removed.Keys !! objects.Keys
      modifies `objects
      ensures objects == old(objects) + state.removed
    {
      var todo := state.removed.Keys;
      while todo != {}
        invariant todo <= state.removed.Keys
        invariant objects == old(objects) + Only(state.removed, state.removed.Keys - todo)
        decreases todo
      {
        var id :| id in todo;
        var ok := Insert(id, state.removed[id]);
        assert ok;
        todo := todo - {id};
      }
      assert Only(state.removed, state.removed.Keys) == state.removed;
    }

    method Undo() returns (ok: bool)
      requires Inv(Model())
      modifies this
      ensures ok == (!old(disabled) && old(activeSessions) > 0)
      ensures !ok ==> unchanged(this)
      ensures ok ==> Valid() && Some(Model()) == Step(old(Model()), UndoRuns.Undo)
    {
      hide Levels, SnapStep, Step, Revert, AllFit, Fits, Inv;
      InvTop(Model());
      if disabled || activeSessions == 0 { return false; }
      StepSimulates(Model(), UndoRuns.Undo);
      UndoEffect(Model());
      Disable();
      Restore(stack[|stack| - 1]);
      stack := stack[..|stack| - 1];
      if stack == [] {
        stack := stack + [EmptyState()];
      }
      assert stack == Touch(old(stack)[..|old(stack)| - 1]);
      Enable();
      activeSessions := activeSessions - 1;
      return true;
    }

    method Merge() returns (ok: bool)
      requires Inv(Model())
      modifies this
      ensures ok == (old(activeSessions) > 0 && |old(stack)| >= 2)
      ensures !ok ==> unchanged(this)
      ensures ok ==> Inv(Model()) && disabled == old(disabled) && Some(Model()) == Step(old(Model()), UndoRuns.Merge)
    {
      hide Levels, SnapStep;
      if activeSessions == 0 || |stack| < 2 { return false; }
      StepSimulates(Model(), UndoRuns.Merge);
      var n := |stack|;
      TopTwoFit(stack, Store(objects, nextIds));
      var prev := MergeInto(stack[n - 2], stack[n - 1]);
      stack := stack[..n - 2] + [prev];
      activeSessions := activeSessions - 1;
      return true;
    }

    method Commit() returns (ok: bool)
      requires Inv(Model())
      modifies `activeSessions
      ensures Inv(Model()) && ok == (old(activeSessions) > 0)
      ensures Some(Model()) == if ok then Step(old(Model()), UndoRuns.Commit) else Some(old(Model()))
    {
      if activeSessions == 0 { return false; }
      activeSessions := activeSessions - 1;
      return true;
    }

    method PopCommit() returns (ok: bool)
      requires Inv(Model())
      modifies this
      ensures ok == (old(activeSessions) == 0 && old(stack) != [])
      ensures !ok ==> unchanged(this)
      ensures ok ==> Valid() && Some(Model()) == Step(old(Model()), UndoRuns.PopCommit)
    {
      hide Levels, SnapStep, Step, Revert, AllFit, Fits, Inv;
      InvTop(Model());
      if activeSessions > 0 || stack == [] { return false; }
      StepSimulates(Model(), UndoRuns.PopCommit);
      UndoEffect(Model());
      Disable();
      Restore(stack[|stack| - 1]);
      stack := stack[..|stack| - 1];
      Enable();
      return true;
    }
  }

  lemma StartEffect<V>(db: Db<V>)
    ensures Step(db, Start) == Some(db.(stack := Opened(db.stack, EmptyState(), db.maxSize), active := db.active + 1))
  {
  }

  lemma OpenedInSteps<T>(stack: seq<T>, entry: T, max: nat)
    ensures var pushed := Trim(stack, max) + [entry];
            Opened(stack, entry, max) == if |pushed| == 1 then pushed + [entry] else pushed
  {
  }

  lemma UndoEffect<V>(db: Db<V>)
    requires db.stack != []
    ensures var rest := db.stack[..|db.stack| - 1];
            var before := Revert(db.stack[|db.stack| - 1], db.store);
            && (db.active > 0 ==>
                  Step(db, UndoRuns.Undo) == Some(db.(store := before, stack := Touch(rest), active := db.active - 1)))
            && (db.active == 0 ==> Step(db, UndoRuns.PopCommit) == Some(db.(store := before, stack := rest)))
  {
  }

  lemma InvTop<V>(db: Db<V>)
    requires Inv(db)
    ensures db.active > 0 ==> db.stack != []
    ensures db.stack != [] ==> Fits(db.stack[|db.stack| - 1], db.store)
  {
  }

  // The order of the four passes does not matter: the containers are disjoint.
  lemma RestoreOrder<V>(state: UndoState<V>, d: Store<V>)
    requires Fits(state, d)
    ensures var o := (d.objects + state.oldValues) - state.newIds;
            state.removed.Keys !! o.Keys
            && Store(o + state.removed, d.nextIds + state.oldNextIds) == Revert(state, d)
  {
    hide WellFormed;
    assert (d.objects + state.oldValues) - state.newIds == (d.objects - state.newIds) + state.oldValues;
  }

  lemma TopTwoFit<V>(stack: seq<UndoState<V>>, d: Store<V>)
    requires AllFit(stack, d) && |stack| >= 2
    ensures Disjoint(stack[|stack| - 2]) && Disjoint(stack[|stack| - 1])
  {
    hide Revert, WellFormed;
    var n := |stack|;
    assert AllFit(stack[..n - 1], Revert(stack[n - 1], d));
    assert stack[..n - 1][n - 2] == stack[n - 2];
  }

  // ---------- merge, as the program walks the newer delta's containers ----------

  lemma NothingSeen<V>(older: UndoState<V>, newer: UndoState<V>)
    ensures ValuesAfter(older, newer, {}) == older.oldValues
    ensures RemovedAfter(older, newer, {}) == older.removed
  {
  }

  // Among the ids the newer delta removed, the values on record are the older delta's.
  lemma KnownValues<V>(older: UndoState<V>, newer: UndoState<V>)
    requires Disjoint(newer)
    ensures forall id <- newer.removed ::
              var v := ValuesAfter(older, newer, newer.oldValues.Keys);
              (id in v <==> id in older.oldValues) && (id in v ==> v[id] == older.oldValues[id])
  {
  }

  method MergeInto<V>(older: UndoState<V>, newer: UndoState<V>) returns (prev: UndoState<V>)
    requires Disjoint(older) && Disjoint(newer)
    ensures prev == MergeStates(older, newer)
  {
    var values := MergeValues(older, newer);
    var ids := older.newIds + newer.newIds;
    var next := MergeNextIds(older, newer);
    prev := MergeRemoved(older, newer, UndoState(values, next, ids, older.removed));
    assert prev == MergeStates(older, newer) by {
      MergedValues(older, newer);
      MergedRemoved(older, newer);
    }
  }

  // What older.oldValues has become once the ids in `seen` have been looked at.
  ghost function ValuesAfter<V>(older: UndoState<V>, newer: UndoState<V>, seen: set<ObjectId>): map<ObjectId, V> {
    older.oldValues + map id <- newer.oldValues | id in seen && id !in older.newIds
      && id !in older.oldValues :: newer.oldValues[id]
  }

  lemma ValuesStep<V>(older: UndoState<V>, newer: UndoState<V>, seen: set<ObjectId>, id: ObjectId)
    requires id in newer.oldValues && id !in seen
    ensures var v := ValuesAfter(older, newer, seen);
            ValuesAfter(older, newer, seen + {id}) ==
            if id in older.newIds || id in v then v else v[id := newer.oldValues[id]]
  {
    var v := ValuesAfter(older, newer, seen);
    if id in older.newIds || id in v {
      assert ValuesAfter(older, newer, seen + {id}) == v;
    } else {
      assert ValuesAfter(older, newer, seen + {id}) == v[id := newer.oldValues[id]];
    }
  }

  lemma MergedValues<V>(older: UndoState<V>, newer: UndoState<V>)
    ensures ValuesAfter(older, newer, newer.oldValues.Keys) - newer.removed.Keys == MergeStates(older, newer).oldValues
  {
    assert (map id <- newer.oldValues | id in newer.oldValues.Keys && id !in older.newIds
      && id !in older.oldValues :: newer.oldValues[id])
        == (map id <- newer.oldValues | id !in older.newIds && id !in older.oldValues :: newer.oldValues[id]);
  }

  method MergeValues<V>(older: UndoState<V>, newer: UndoState<V>) returns (values: map<ObjectId, V>)
    ensures values == ValuesAfter(older, newer, newer.oldValues.Keys)
  {
    hide ValuesAfter;
    NothingSeen(older, newer);
    values := older.oldValues;
    var todo := newer.oldValues.Keys;
    assert newer.oldValues.Keys - todo == {};
    while todo != {}
      invariant todo <= newer.oldValues.Keys
      invariant values == ValuesAfter(older, newer, newer.oldValues.Keys - todo)
      decreases todo
    {
      var id :| id in todo;
      ValuesStep(older, newer, newer.oldValues.Keys - todo, id);
      assert newer.oldValues.Keys - (todo - {id}) == (newer.oldValues.Keys - todo) + {id};
      todo := todo - {id};
      if id !in older.newIds && id !in values {
        values := values[id := newer.oldValues[id]];
      }
    }
    assert newer.oldValues.Keys - todo == newer.oldValues.Keys;
  }

  method MergeNextIds<V>(older: UndoState<V>, newer: UndoState<V>) returns (next: map<nat, nat>)
    ensures next == newer.oldNextIds + older.oldNextIds
  {
    next := older.oldNextIds;
    var todo := newer.oldNextIds.Keys;
    while todo != {}
      invariant todo <= newer.oldNextIds.Keys
      invariant next == Only(newer.oldNextIds, newer.oldNextIds.Keys - todo) + older.oldNextIds
      decreases todo
    {
      var kind :| kind in todo;
      if kind !in next {
        next := next[kind := newer.oldNextIds[kind]];
      }
      todo := todo - {kind};
    }
    assert Only(newer.oldNextIds, newer.oldNextIds.Keys) == newer.oldNextIds;
  }

  // What older.removed has become once the ids in `seen` have been looked at.
  ghost function RemovedAfter<V>(older: UndoState<V>, newer: UndoState<V>, seen: set<ObjectId>): map<ObjectId, V> {
    older.removed + map id <- newer.removed | id in seen && id !in older.newIds ::
      if id in older.oldValues then older.oldValues[id] else newer.removed[id]
  }

  lemma RemovedStep<V>(older: UndoState<V>, newer: UndoState<V>, seen: set<ObjectId>, id: ObjectId)
    requires id in newer.removed && id !in seen
    ensures var r := RemovedAfter(older, newer, seen);
            RemovedAfter(older, newer, seen + {id}) ==
            if id in older.newIds then r
            else r[id := if id in older.oldValues then older.oldValues[id] else newer.removed[id]]
  {
    var r := RemovedAfter(older, newer, seen);
    if id in older.newIds {
      assert RemovedAfter(older, newer, seen + {id}) == r;
    } else {
      assert RemovedAfter(older, newer, seen + {id})
        == r[id := if id in older.oldValues then older.oldValues[id] else newer.removed[id]];
    }
  }

  lemma MergedRemoved<V>(older: UndoState<V>, newer: UndoState<V>)
    ensures RemovedAfter(older, newer, newer.removed.Keys) == MergeStates(older, newer).removed
  {
    assert (map id <- newer.removed | id in newer.removed.Keys && id !in older.newIds ::
              if id in older.oldValues then older.oldValues[id] else newer.removed[id])
        == (map id <- newer.removed | id !in older.newIds ::
              if id in older.oldValues then older.oldValues[id] else newer.removed[id]);
  }

  // The working copies once the deletions in `seen` have been folded in.
  ghost predicate Folded<V>(older: UndoState<V>, newer: UndoState<V>, start: UndoState<V>, seen: set<ObjectId>,
                            ids: set<ObjectId>, values: map<ObjectId, V>, gone: map<ObjectId, V>) {
    && ids == start.newIds - seen
    && values == start.oldValues - seen
    && gone == RemovedAfter(older, newer, seen)
  }

  ghost predicate CanFold<V>(older: UndoState<V>, newer: UndoState<V>, start: UndoState<V>) {
    && Disjoint(older) && Disjoint(newer)
    && start.oldValues == ValuesAfter(older, newer, newer.oldValues.Keys)
    && start.newIds == older.newIds + newer.newIds && start.removed == older.removed
  }

  lemma FoldNothing<V>(older: UndoState<V>, newer: UndoState<V>, start: UndoState<V>)
    requires CanFold(older, newer, start)
    ensures Folded(older, newer, start, {}, start.newIds, start.oldValues, start.removed)
  {
    NothingSeen(older, newer);
    assert start.oldValues - {} == start.oldValues;
  }

  lemma FoldOne<V>(older: UndoState<V>, newer: UndoState<V>, start: UndoState<V>, seen: set<ObjectId>,
                   ids: set<ObjectId>, values: map<ObjectId, V>, gone: map<ObjectId, V>, id: ObjectId)
    requires CanFold(older, newer, start) && Folded(older, newer, start, seen, ids, values, gone)
    requires id in newer.removed && id !in seen
    ensures if id in ids then Folded(older, newer, start, seen + {id}, ids - {id}, values, gone)
            else if id in values then Folded(older, newer, start, seen + {id}, ids, values - {id},
              gone[id := values[id]])
            else Folded(older, newer, start, seen + {id}, ids, values, gone[id := newer.removed[id]])
  {
    KnownValues(older, newer);
    assert id in ids <==> id in older.newIds;
    assert id in values <==> id in older.oldValues;
    hide ValuesAfter;
    RemovedStep(older, newer, seen, id);
    SubtractStep(start.oldValues, seen, id);
    hide RemovedAfter;
  }

  // Folding one deletion: new+del is forgotten, upd+del keeps the older value, nop+del is copied.
  function DeleteOne<V>(prev: UndoState<V>, id: ObjectId, was: V): UndoState<V> {
    if id in prev.newIds then
      prev.(newIds := prev.newIds - {id})
    else if id in prev.oldValues then
      prev.(removed := prev.removed[id := prev.oldValues[id]], oldValues := prev.oldValues - {id})
    else
      prev.(removed := prev.removed[id := was])
  }

  method MergeRemoved<V>(older: UndoState<V>, newer: UndoState<V>, start: UndoState<V>) returns (prev: UndoState<V>)
    requires CanFold(older, newer, start)
    ensures Folded(older, newer, start, newer.removed.Keys, prev.newIds, prev.oldValues, prev.removed)
    ensures prev.oldNextIds == start.oldNextIds
  {
    hide CanFold, Folded;
    FoldNothing(older, newer, start);
    prev := start;
    var todo := newer.removed.Keys;
    ghost var seen: set<ObjectId> := {};
    while todo != {}
      invariant seen !! todo && seen + todo == newer.removed.Keys
      invariant Folded(older, newer, start, seen, prev.newIds, prev.oldValues, prev.removed)
      invariant prev.oldNextIds == start.oldNextIds
      decreases todo
    {
      var id :| id in todo;
      FoldOne(older, newer, start, seen, prev.newIds, prev.oldValues, prev.removed, id);
      prev := DeleteOne(prev, id, newer.removed[id]);
      hide DeleteOne;
      todo := todo - {id};
      seen := seen + {id};
    }
    assert seen == newer.removed.Keys;
  }

  lemma SubtractStep<K, W>(m: map<K, W>, seen: set<K>, k: K)
    ensures m - (seen + {k}) == (m - seen) - {k}
    ensures k !in m ==> m - (seen + {k}) == m - seen
  {
  }
}
