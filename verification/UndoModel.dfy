// The value-level model of the undo database: an object store, the deltas
// recorded against it, and what each public operation does to both.
// Source: libraries/db/undo_database.cpp.
module UndoModel {
  import opened Options

  // `kind` stands for the (space, type) pair that selects an index.
  datatype ObjectId = ObjectId(kind: nat, instance: nat)

  // The object database: the stored objects, and the next free instance of every registered index.
  datatype Store<V> = Store(objects: map<ObjectId, V>, nextIds: map<nat, nat>)

  // Ids are handed out in sequence, so every stored object lies below its index's next id.
  ghost predicate WellFormed<V>(d: Store<V>) {
    forall id <- d.objects :: id.kind in d.nextIds && id.instance < d.nextIds[id.kind]
  }

  datatype UndoState<V> = UndoState(
    oldValues: map<ObjectId, V>,
    oldNextIds: map<nat, nat>,
    newIds: set<ObjectId>,
    removed: map<ObjectId, V>)

  function EmptyState<V>(): UndoState<V> {
    UndoState(map[], map[], {}, map[])
  }

  // What applying a delta backwards yields: modified objects get their old value,
  // created ones disappear, removed ones return, next ids go back.
  function Revert<V>(s: UndoState<V>, d: Store<V>): Store<V> {
    Store((d.objects - s.newIds) + s.oldValues + s.removed, d.nextIds + s.oldNextIds)
  }

  // The three containers are pairwise disjoint.
  ghost predicate Disjoint<V>(s: UndoState<V>) {
    && s.oldValues.Keys !! s.newIds
    && s.oldValues.Keys !! s.removed.Keys
    && s.newIds !! s.removed.Keys
  }

  // `s` is a possible record of changes that ended in store `d`.
  ghost predicate Fits<V>(s: UndoState<V>, d: Store<V>) {
    && Disjoint(s)
    && s.oldValues.Keys <= d.objects.Keys
    && s.newIds <= d.objects.Keys
    && s.removed.Keys !! d.objects.Keys
    && s.oldNextIds.Keys <= d.nextIds.Keys
    && (forall k <- s.oldNextIds :: s.oldNextIds[k] <= d.nextIds[k])
    && (forall id <- s.newIds :: id.kind in s.oldNextIds && s.oldNextIds[id.kind] <= id.instance)
    && WellFormed(d)
    && WellFormed(Revert(s, d))
  }

  // ---------- recording one change (the on_create / on_modify / on_remove hooks) ----------

  function RecordCreate<V>(s: UndoState<V>, id: ObjectId): UndoState<V> {
    s.(oldNextIds := if id.kind in s.oldNextIds then s.oldNextIds else s.oldNextIds[id.kind := id.instance],
       newIds := s.newIds + {id})
  }

  function RecordModify<V>(s: UndoState<V>, id: ObjectId, was: V): UndoState<V> {
    if id in s.newIds || id in s.oldValues then s
    else s.(oldValues := s.oldValues[id := was])
  }

  function RecordRemove<V>(s: UndoState<V>, id: ObjectId, was: V): UndoState<V> {
    if id in s.newIds then s.(newIds := s.newIds - {id})
    else if id in s.oldValues then
      s.(removed := s.removed[id := s.oldValues[id]], oldValues := s.oldValues - {id})
    else if id in s.removed then s
    else s.(removed := s.removed[id := was])
  }

  // ---------- merging two adjacent deltas, A older than B ----------

  function MergeStates<V>(a: UndoState<V>, b: UndoState<V>): UndoState<V> {
    UndoState(
      (a.oldValues + (map id <- b.oldValues | id !in a.newIds
        && id !in a.oldValues :: b.oldValues[id])) - b.removed.Keys,
      b.oldNextIds + a.oldNextIds,
      (a.newIds + b.newIds) - b.removed.Keys,
      a.removed +
      map id <- b.removed | id !in a.newIds :: if id in a.oldValues then a.oldValues[id] else b.removed[id])
  }

  // ---------- the merge table, one object at a time ----------

  // How an object relates to a delta.
  datatype Entry<V> = New | Updated(was: V) | Deleted(was: V) | Untouched

  ghost function EntryOf<V>(s: UndoState<V>, id: ObjectId): Entry<V> {
    if id in s.newIds then New
    else if id in s.oldValues then Updated(s.oldValues[id])
    else if id in s.removed then Deleted(s.removed[id])
    else Untouched
  }

  // The 4x4 table of libraries/db/undo_database.cpp:143-155; None marks N/A.
  ghost function Compose<V>(a: Entry<V>, b: Entry<V>): Option<Entry<V>> {
    match (a, b)
    case (_, Untouched) => Some(a)
    case (Untouched, _) => Some(b)
    case (New, Updated(_)) => Some(New)
    case (New, Deleted(_)) => Some(Untouched)
    case (Updated(_), Updated(_)) => Some(a)
    case (Updated(x), Deleted(_)) => Some(Deleted(x))
    case _ => None
  }

  ghost function Lookup<V>(d: Store<V>, id: ObjectId): Option<V> {
    if id in d.objects then Some(d.objects[id]) else None
  }

  // What undoing an entry makes of the object's present value.
  ghost function Before<V>(e: Entry<V>, now: Option<V>): Option<V> {
    match e
    case New => None
    case Updated(was) => Some(was)
    case Deleted(was) => Some(was)
    case Untouched => now
  }

  lemma RevertByEntry<V>(s: UndoState<V>, d: Store<V>, id: ObjectId)
    requires Disjoint(s)
    ensures Lookup(Revert(s, d), id) == Before(EntryOf(s, id), Lookup(d, id))
  {
  }

  // The N/A entries of the table cannot arise between adjacent deltas.
  lemma NotApplicableNeverOccurs<V>(a: UndoState<V>, b: UndoState<V>, d: Store<V>, id: ObjectId)
    requires Fits(b, d) && Fits(a, Revert(b, d))
    ensures Compose(EntryOf(a, id), EntryOf(b, id)).Some?
  {
    hide Revert, Fits;
    var mid := Revert(b, d);
    FitsIsDisjoint(a, mid);
    FitsIsDisjoint(b, d);
    RevertByEntry(b, d, id);
    if id in a.newIds || id in a.oldValues || id in a.removed {
      KnownIdsAreBelowNext(a, mid, id);
      if id in b.newIds {
        NewIdWasFree(b, d, id);
      }
    }
  }

  lemma FitsIsDisjoint<V>(s: UndoState<V>, d: Store<V>)
    requires Fits(s, d)
    ensures Disjoint(s)
  {
  }

  lemma NewIdWasFree<V>(b: UndoState<V>, d: Store<V>, id: ObjectId)
    requires Fits(b, d) && id in b.newIds
    ensures var mid := Revert(b, d); id.kind in mid.nextIds && mid.nextIds[id.kind] <= id.instance
  {
  }

  // Whatever a delta mentions had been given out before the store it belongs to.
  lemma KnownIdsAreBelowNext<V>(a: UndoState<V>, mid: Store<V>, id: ObjectId)
    requires Fits(a, mid) && (id in a.newIds || id in a.oldValues || id in a.removed)
    ensures id.kind in mid.nextIds && id.instance < mid.nextIds[id.kind]
    ensures id in a.removed <==> Lookup(mid, id).None?
  {
    if id in a.removed {
      RevertByEntry(a, mid, id);
      assert id in Revert(a, mid).objects;
    }
  }

  // The merged delta holds, for every object, exactly the entry the table prescribes.
  lemma MergeFollowsTable<V>(a: UndoState<V>, b: UndoState<V>, id: ObjectId)
    requires Disjoint(a) && Disjoint(b)
    requires Compose(EntryOf(a, id), EntryOf(b, id)).Some?
    ensures EntryOf(MergeStates(a, b), id) == Compose(EntryOf(a, id), EntryOf(b, id)).value
    ensures id !in MergeStates(a, b).newIds || id !in MergeStates(a, b).oldValues
    ensures id !in MergeStates(a, b).newIds || id !in MergeStates(a, b).removed
    ensures id !in MergeStates(a, b).oldValues || id !in MergeStates(a, b).removed
  {
  }

  lemma MergeKeepsDisjoint<V>(a: UndoState<V>, b: UndoState<V>, d: Store<V>)
    requires Fits(b, d) && Fits(a, Revert(b, d))
    ensures Disjoint(MergeStates(a, b))
  {
    var m := MergeStates(a, b);
    forall id | id in m.newIds || id in m.oldValues || id in m.removed
      ensures !(id in m.newIds && id in m.oldValues)
      ensures !(id in m.newIds && id in m.removed)
      ensures !(id in m.oldValues && id in m.removed)
    {
      NotApplicableNeverOccurs(a, b, d, id);
      MergeFollowsTable(a, b, id);
    }
  }

  // The table is composition: undoing the combined entry is undoing B's entry and then A's.
  lemma ComposeIsUndoTwice<V>(a: Entry<V>, b: Entry<V>, now: Option<V>)
    requires Compose(a, b).Some?
    requires b.Deleted? ==> now.None?
    ensures Before(Compose(a, b).value, now) == Before(a, Before(b, now))
  {
  }

  lemma MergeComposesAt<V>(a: UndoState<V>, b: UndoState<V>, d: Store<V>, id: ObjectId)
    requires Disjoint(a) && Disjoint(b) && Disjoint(MergeStates(a, b))
    requires Compose(EntryOf(a, id), EntryOf(b, id)).Some?
    requires id in b.removed ==> id !in d.objects
    ensures Lookup(Revert(MergeStates(a, b), d), id) == Lookup(Revert(a, Revert(b, d)), id)
  {
    RevertByEntry(MergeStates(a, b), d, id);
    RevertByEntry(b, d, id);
    RevertByEntry(a, Revert(b, d), id);
    MergeFollowsTable(a, b, id);
    ComposeIsUndoTwice(EntryOf(a, id), EntryOf(b, id), Lookup(d, id));
  }

  // Stores are equal when they agree on every object and every next id.
  lemma SameStore<V>(x: Store<V>, y: Store<V>)
    requires x.nextIds == y.nextIds
    requires forall id :: Lookup(x, id) == Lookup(y, id)
    ensures x == y
  {
    forall id | id in x.objects || id in y.objects
      ensures id in x.objects && id in y.objects && x.objects[id] == y.objects[id]
    {
      assert Lookup(x, id) == Lookup(y, id);
    }
    assert x.objects == y.objects;
  }

  // Undoing the merged delta is undoing B and then A.
  lemma MergeIsComposition<V>(a: UndoState<V>, b: UndoState<V>, d: Store<V>)
    requires Fits(b, d) && Fits(a, Revert(b, d))
    ensures Revert(MergeStates(a, b), d) == Revert(a, Revert(b, d))
  {
    MergeKeepsDisjoint(a, b, d);
    forall id
      ensures Lookup(Revert(MergeStates(a, b), d), id) == Lookup(Revert(a, Revert(b, d)), id)
    {
      NotApplicableNeverOccurs(a, b, d, id);
      MergeComposesAt(a, b, d, id);
    }
    MergedNextIds(a, b, d);
    SameStore(Revert(MergeStates(a, b), d), Revert(a, Revert(b, d)));
  }

  lemma MergedNextIds<V>(a: UndoState<V>, b: UndoState<V>, d: Store<V>)
    ensures Revert(MergeStates(a, b), d).nextIds == Revert(a, Revert(b, d)).nextIds
  {
    assert d.nextIds + (b.oldNextIds + a.oldNextIds) == (d.nextIds + b.oldNextIds) + a.oldNextIds;
  }

  // The merged delta is again a valid record of the changes that led to `d`.
  lemma MergeFits<V>(a: UndoState<V>, b: UndoState<V>, d: Store<V>)
    requires Fits(b, d) && Fits(a, Revert(b, d))
    ensures Fits(MergeStates(a, b), d)
  {
    var m := MergeStates(a, b);
    MergeKeepsDisjoint(a, b, d);
    MergeIsComposition(a, b, d);
    forall id | id in m.newIds || id in m.oldValues || id in m.removed
      ensures id in m.newIds || id in m.oldValues ==> id in d.objects
      ensures id in m.removed ==> id !in d.objects
      ensures id in m.newIds ==> id.kind in m.oldNextIds && m.oldNextIds[id.kind] <= id.instance
    {
      MergedEntryMatchesStore(a, b, d, id);
    }
    forall k | k in m.oldNextIds
      ensures k in d.nextIds && m.oldNextIds[k] <= d.nextIds[k]
    {
    }
  }

  lemma MergedEntryMatchesStore<V>(a: UndoState<V>, b: UndoState<V>, d: Store<V>, id: ObjectId)
    requires Fits(b, d) && Fits(a, Revert(b, d))
    ensures var m := MergeStates(a, b);
            && (id in m.newIds || id in m.oldValues ==> id in d.objects)
            && (id in m.removed ==> id !in d.objects)
            && (id in m.newIds ==> id.kind in m.oldNextIds && m.oldNextIds[id.kind] <= id.instance)
  {
    NotApplicableNeverOccurs(a, b, d, id);
    MergeFollowsTable(a, b, id);
    RevertByEntry(b, d, id);
    var mid := Revert(b, d);
    if id in b.newIds && id.kind in a.oldNextIds {
      assert a.oldNextIds[id.kind] <= mid.nextIds[id.kind] <= id.instance;
    }
  }

  // ---------- recording keeps the record valid and its past unchanged ----------

  function Created<V>(d: Store<V>, kind: nat, v: V): Store<V>
    requires kind in d.nextIds
  {
    Store(d.objects[ObjectId(kind, d.nextIds[kind]) := v], d.nextIds[kind := d.nextIds[kind] + 1])
  }

  function Modified<V>(d: Store<V>, id: ObjectId, v: V): Store<V> {
    d.(objects := d.objects[id := v])
  }

  function Removed<V>(d: Store<V>, id: ObjectId): Store<V> {
    d.(objects := d.objects - {id})
  }

  // Recording a change leaves what undoing yields for each object as it was.
  lemma RecordCreateAt<V>(s: UndoState<V>, d: Store<V>, kind: nat, v: V, id: ObjectId)
    requires Disjoint(s) && kind in d.nextIds
    requires var n := ObjectId(kind, d.nextIds[kind]);
             n !in d.objects && n !in s.newIds && n !in s.oldValues && n !in s.removed
    ensures var s' := RecordCreate(s, ObjectId(kind, d.nextIds[kind]));
            && Disjoint(s')
            && Before(EntryOf(s', id), Lookup(Created(d, kind, v), id)) == Before(EntryOf(s, id), Lookup(d, id))
  {
  }

  lemma RecordCreateKeepsPast<V>(s: UndoState<V>, d: Store<V>, kind: nat, v: V)
    requires Fits(s, d) && kind in d.nextIds
    ensures Revert(RecordCreate(s, ObjectId(kind, d.nextIds[kind])), Created(d, kind, v)) == Revert(s, d)
  {
    var s', d' := RecordCreate(s, ObjectId(kind, d.nextIds[kind])), Created(d, kind, v);
    NextIdIsFree(s, d, kind);
    forall id
      ensures Lookup(Revert(s', d'), id) == Lookup(Revert(s, d), id)
    {
      RecordCreateAt(s, d, kind, v, id);
      RevertByEntry(s', d', id);
      RevertByEntry(s, d, id);
    }
    assert Revert(s', d').nextIds == Revert(s, d).nextIds;
    SameStore(Revert(s', d'), Revert(s, d));
  }

  lemma NextIdIsFree<V>(s: UndoState<V>, d: Store<V>, kind: nat)
    requires Fits(s, d) && kind in d.nextIds
    ensures var n := ObjectId(kind, d.nextIds[kind]);
            n !in d.objects && n !in s.newIds && n !in s.oldValues && n !in s.removed
  {
    var n := ObjectId(kind, d.nextIds[kind]);
    if n in s.removed {
      RevertByEntry(s, d, n);
      assert false;
    }
  }

  lemma RecordModifyAt<V>(s: UndoState<V>, d: Store<V>, target: ObjectId, v: V, id: ObjectId)
    requires Disjoint(s) && target in d.objects && target !in s.removed
    ensures var s' := RecordModify(s, target, d.objects[target]);
            && Disjoint(s')
            && Before(EntryOf(s', id), Lookup(Modified(d, target, v), id)) == Before(EntryOf(s, id), Lookup(d, id))
  {
  }

  lemma RecordModifyKeepsPast<V>(s: UndoState<V>, d: Store<V>, target: ObjectId, v: V)
    requires Fits(s, d) && target in d.objects
    ensures Revert(RecordModify(s, target, d.objects[target]), Modified(d, target, v)) == Revert(s, d)
  {
    var s', d' := RecordModify(s, target, d.objects[target]), Modified(d, target, v);
    forall id
      ensures Lookup(Revert(s', d'), id) == Lookup(Revert(s, d), id)
    {
      RecordModifyAt(s, d, target, v, id);
      RevertByEntry(s', d', id);
      RevertByEntry(s, d, id);
    }
    SameStore(Revert(s', d'), Revert(s, d));
  }

  lemma RecordRemoveAt<V>(s: UndoState<V>, d: Store<V>, target: ObjectId, id: ObjectId)
    requires Disjoint(s) && target in d.objects && target !in s.removed
    ensures var s' := RecordRemove(s, target, d.objects[target]);
            && Disjoint(s')
            && Before(EntryOf(s', id), Lookup(Removed(d, target), id)) == Before(EntryOf(s, id), Lookup(d, id))
  {
  }

  lemma RecordRemoveKeepsPast<V>(s: UndoState<V>, d: Store<V>, target: ObjectId)
    requires Fits(s, d) && target in d.objects
    ensures Revert(RecordRemove(s, target, d.objects[target]), Removed(d, target)) == Revert(s, d)
  {
    var s', d' := RecordRemove(s, target, d.objects[target]), Removed(d, target);
    forall id
      ensures Lookup(Revert(s', d'), id) == Lookup(Revert(s, d), id)
    {
      RecordRemoveAt(s, d, target, id);
      RevertByEntry(s', d', id);
      RevertByEntry(s, d, id);
    }
    SameStore(Revert(s', d'), Revert(s, d));
  }

  // Recording keeps the record valid.
  lemma RecordCreateFits<V>(s: UndoState<V>, d: Store<V>, kind: nat, v: V)
    requires Fits(s, d) && kind in d.nextIds
    ensures Fits(RecordCreate(s, ObjectId(kind, d.nextIds[kind])), Created(d, kind, v))
  {
    hide Revert;
    RecordCreateKeepsPast(s, d, kind, v);
    NextIdIsFree(s, d, kind);
  }

  lemma RecordModifyFits<V>(s: UndoState<V>, d: Store<V>, target: ObjectId, v: V)
    requires Fits(s, d) && target in d.objects
    ensures Fits(RecordModify(s, target, d.objects[target]), Modified(d, target, v))
  {
    hide Revert;
    RecordModifyKeepsPast(s, d, target, v);
  }

  lemma RecordRemoveFits<V>(s: UndoState<V>, d: Store<V>, target: ObjectId)
    requires Fits(s, d) && target in d.objects
    ensures Fits(RecordRemove(s, target, d.objects[target]), Removed(d, target))
  {
    hide Revert;
    RecordRemoveKeepsPast(s, d, target);
    var s', d' := RecordRemove(s, target, d.objects[target]), Removed(d, target);
    RecordedIds(s, d, target);
    assert WellFormed(d');
  }

  // Which ids each container holds after a removal is recorded.
  lemma RecordedIds<V>(s: UndoState<V>, d: Store<V>, target: ObjectId)
    requires Fits(s, d) && target in d.objects
    ensures var s' := RecordRemove(s, target, d.objects[target]);
            && Disjoint(s')
            && s'.oldNextIds == s.oldNextIds
            && s'.newIds == s.newIds - {target}
            && s'.oldValues.Keys == s.oldValues.Keys - {target}
            && s'.removed.Keys == s.removed.Keys + (if target in s.newIds then {} else {target})
  {
    hide Revert, WellFormed;
  }
}
