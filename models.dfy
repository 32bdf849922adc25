/** `SoftDeleteModel` (src/django_resurrected/models.py): the two columns and
    their defaults, retention and expiry, and the instance operations that
    remove, hard-delete, delete and restore through the collectors. */
module Models {
  import opened Orm
  import opened Collector
  import opened Utils

  // ---------------------------------------------------------------------
  // Columns, retention and expiry

  /** The column defaults: `is_removed=False`, `removed_at=None`. */
  const NewRow: Row := Row(false, None)

  /** A new row is active and consistent. */
  lemma NewRowIsActive()
    ensures !NewRow.isRemoved && NewRow.removedAt.None?
    ensures Consistent(NewRow)
  {
  }

  /** `retention_limit`: no limit without `retention_days`, otherwise the
      moment `retention_days` days before `now`. */
  function RetentionLimit(m: ModelClass, now: int): (r: Option<int>)
    ensures r.None? <==> m.retentionDays.None?
    ensures r.Some? ==> r.value + m.retentionDays.value == now
  {
    match m.retentionDays
    case None => None
    case Some(days) => Some(now - days)
  }

  /** `is_expired`, read from the in-memory fields `r` of an instance of `m`:
      removed, with a removal time strictly before the retention limit. */
  function IsExpired(m: ModelClass, r: Row, now: int): bool
  {
    match RetentionLimit(m, now)
    case None => false
    case Some(limit) => r.isRemoved && r.removedAt.Some? && r.removedAt.value < limit
  }

  /** A row is expired exactly when it was removed more than `retention_days`
      days ago; without `retention_days` nothing ever expires. */
  lemma ExpiredIffRetentionPassed(m: ModelClass, r: Row, now: int)
    ensures IsExpired(m, r, now) <==>
      m.retentionDays.Some? && r.isRemoved && r.removedAt.Some? &&
      now - r.removedAt.value > m.retentionDays.value
    ensures m.retentionDays.None? ==> !IsExpired(m, r, now)
    ensures !r.isRemoved ==> !IsExpired(m, r, now)
  {
  }

  /** The comparison is strict: a row removed exactly `retention_days` days
      before `now` is not yet expired; one day later it is. */
  lemma ExpiryBoundary(m: ModelClass, removedAt: int)
    requires m.retentionDays.Some?
    ensures !IsExpired(m, Row(true, Some(removedAt)), removedAt + m.retentionDays.value)
    ensures IsExpired(m, Row(true, Some(removedAt)), removedAt + m.retentionDays.value + 1)
  {
  }

  /** Once expired, a row stays expired as time passes. */
  lemma ExpiryIsMonotone(m: ModelClass, r: Row, now: int, later: int)
    requires now <= later && IsExpired(m, r, now)
    ensures IsExpired(m, r, later)
  {
  }

  /** A freshly created instance is never expired, whatever its model's
      retention; in particular one of a model keeping the default 30 days. */
  lemma NewInstanceNotExpired(m: ModelClass, now: int)
    ensures !IsExpired(m, NewRow, now)
    ensures m.retentionDays == Some(30) ==> RetentionLimit(m, now) == Some(now - 30)
  {
  }

  // ---------------------------------------------------------------------
  // Instances

  /** A model instance: its identity and the values of the two columns as
      last loaded into memory (a write through a queryset does not refresh
      them). */
  datatype Instance = Instance(obj: Obj, fields: Row)

  /** What a reverse collector over the instance alone collects: the
      instance and what the cascade reaches from it. `remove` and
      `hard_delete` collect with `collect_related=True`, `restore` with
      `collect_related=with_related`. */
  function ReverseSet(o: Obj, keepParents: bool, collectRelated: bool, cascade: Cascade): set<Obj>
  {
    {o} + cascade({o}, keepParents, collectRelated)
  }

  lemma ElemsOne(o: Obj)
    ensures Elems([o]) == {o}
  {
  }

  lemma ReachAllOne(g: RefGraph, rank: Obj -> nat, o: Obj)
    requires Ranked(g, rank)
    ensures ReachAll(g, rank, [o]) == Reach(g, rank, o)
  {
    assert [o][..0] == [];
  }

  /** `SoftDeleteModel.remove`: a reverse collector gathers the instance and
      its cascade, then every collected soft-delete row is marked removed at
      `now`; the instance's own row among them. */
  method Remove(self: Instance, store: Store, now: int, keepParents: bool, cascade: Cascade)
    returns (total: int, perLabel: map<string, int>)
    requires self.obj.model.softDelete
    modifies store
    ensures store.rows == Applied(old(store.rows), QuerysetsFor(ModelObjs(ReverseSet(self.obj, keepParents, true, cascade))),
                                  SetFields(RemovedFields(now)))
    ensures (total, perLabel) == Tally(ReverseSet(self.obj, keepParents, true, cascade), old(store.rows).Keys)
    ensures self.obj.pk.Some? && RowOf(self.obj) in old(store.rows) ==>
      RowOf(self.obj) in store.rows && store.rows[RowOf(self.obj)] == RemovedFields(now)
    ensures |old(store.writes)| <= |store.writes| && store.writes[..|old(store.writes)|] == old(store.writes)
    ensures OneWriteEach(store.writes[|old(store.writes)|..], Tables(ReverseSet(self.obj, keepParents, true, cascade)))
  {
    var collector := new RelatedCollector(Reverse);
    collector.CollectReverse([self.obj], keepParents, true, cascade);
    ElemsOne(self.obj);
    ghost var objs := ReverseSet(self.obj, keepParents, true, cascade);
    assert collector.collected == objs;
    total, perLabel := collector.Remove(store, now);
    if self.obj.pk.Some? {
      QuerysetsTargetSavedSoftObjects(objs, RowOf(self.obj));
    }
  }

  /** `SoftDeleteModel.hard_delete` (Django's `Model.delete`): the instance
      and everything a cascading delete reaches are physically deleted,
      whatever their model and whether or not they are expired. */
  method HardDelete(self: Instance, store: Store, keepParents: bool, cascade: Cascade) returns (count: nat)
    modifies store
    ensures store.rows == Applied(old(store.rows), PkMap(ReverseSet(self.obj, keepParents, true, cascade)), DeleteRows)
    ensures count == |Hits(PkMap(ReverseSet(self.obj, keepParents, true, cascade)), old(store.rows).Keys)|
    ensures self.obj.pk.Some? ==> RowOf(self.obj) !in store.rows
    ensures store.writes == old(store.writes) + [PkMap(ReverseSet(self.obj, keepParents, true, cascade)).Keys]
  {
    var collected := ReverseSet(self.obj, keepParents, true, cascade);
    count := store.ApplyAll(PkMap(collected), DeleteRows);
    if self.obj.pk.Some? {
      PkMapTargets(collected, RowOf(self.obj));
    }
  }

  /** `SoftDeleteModel.delete`: a hard delete when the instance is expired,
      a soft removal otherwise. The per-label map of a hard delete is
      Django's and is not modelled (`None`). */
  method Delete(self: Instance, store: Store, now: int, keepParents: bool, cascade: Cascade)
    returns (total: int, perLabel: Option<map<string, int>>)
    requires self.obj.model.softDelete
    modifies store
    ensures IsExpired(self.obj.model, self.fields, now) ==>
      && store.rows == Applied(old(store.rows), PkMap(ReverseSet(self.obj, keepParents, true, cascade)), DeleteRows)
      && total == |Hits(PkMap(ReverseSet(self.obj, keepParents, true, cascade)), old(store.rows).Keys)|
      && perLabel.None?
      && store.writes == old(store.writes) + [PkMap(ReverseSet(self.obj, keepParents, true, cascade)).Keys]
    ensures !IsExpired(self.obj.model, self.fields, now) ==>
      && store.rows == Applied(old(store.rows), QuerysetsFor(ModelObjs(ReverseSet(self.obj, keepParents, true, cascade))),
                               SetFields(RemovedFields(now)))
      && (total, perLabel) == (Tally(ReverseSet(self.obj, keepParents, true, cascade), old(store.rows).Keys).0,
                               Some(Tally(ReverseSet(self.obj, keepParents, true, cascade), old(store.rows).Keys).1))
      && |old(store.writes)| <= |store.writes| && store.writes[..|old(store.writes)|] == old(store.writes)
      && OneWriteEach(store.writes[|old(store.writes)|..], Tables(ReverseSet(self.obj, keepParents, true, cascade)))
  {
    if IsExpired(self.obj.model, self.fields, now) {
      total := HardDelete(self, store, keepParents, cascade);
      perLabel := None;
    } else {
      var counts;
      total, counts := Remove(self, store, now, keepParents, cascade);
      perLabel := Some(counts);
    }
  }

  /** `SoftDeleteModel.restore`: a forward collector gathers the instance and
      the objects it requires, a reverse collector the instance and its
      cascade with `collect_related=with_related`, and `utils.restore`
      restores both. The required references must be acyclic (`rank`), as
      the forward walk has no visited check. */
  method Restore(self: Instance, store: Store, withRelated: bool, keepParents: bool,
                 g: RefGraph, ghost rank: Obj -> nat, cascade: Cascade)
    returns (total: int, perLabel: map<string, int>)
    requires Ranked(g, rank)
    modifies store
    ensures var fwd := Reach(g, rank, self.obj);
            var rev := ReverseSet(self.obj, keepParents, withRelated, cascade);
      && store.rows == Applied(old(store.rows), QuerysetsFor(ModelObjs(fwd + rev)), SetFields(RestoredFields))
      && total == Tally(fwd, old(store.rows).Keys).0 + Tally(rev, old(store.rows).Keys).0 - 1
      && perLabel == Tally(fwd, old(store.rows).Keys).1 + Tally(rev, old(store.rows).Keys).1
    ensures self.obj.model.softDelete && self.obj.pk.Some? && RowOf(self.obj) in old(store.rows) ==>
      RowOf(self.obj) in store.rows && store.rows[RowOf(self.obj)] == RestoredFields
    ensures |old(store.writes)| <= |store.writes| && store.writes[..|old(store.writes)|] == old(store.writes)
    ensures var fwd := Tables(Reach(g, rank, self.obj));
            var rev := Tables(ReverseSet(self.obj, keepParents, withRelated, cascade));
            var log := store.writes[|old(store.writes)|..];
      && |fwd| <= |log|
      && OneWriteEach(log[..|fwd|], fwd)
      && OneWriteEach(log[|fwd|..], rev)
  {
    ghost var writes0 := store.writes;
    var forward := new RelatedCollector(Forward);
    forward.CollectForward([self.obj], g, rank);
    ReachAllOne(g, rank, self.obj);
    var reverse := new RelatedCollector(Reverse);
    reverse.CollectReverse([self.obj], keepParents, withRelated, cascade);
    ElemsOne(self.obj);
    ghost var keys := store.rows.Keys;
    ghost var fwd := Reach(g, rank, self.obj);
    ghost var rev := ReverseSet(self.obj, keepParents, withRelated, cascade);
    ghost var sets := CollectedSets([forward, reverse]);
    assert sets[0] == fwd && sets[1] == rev;
    assert sets == [fwd, rev];
    TwoCollectors(fwd, rev, keys);
    assert store.writes == writes0;
    total, perLabel := Utils.Restore([forward, reverse], store, sets);
    WritesOfTwo(store.writes[|writes0|..], fwd, rev);
    if self.obj.pk.Some? {
      QuerysetsTargetSavedSoftObjects(fwd + rev, RowOf(self.obj));
    }
  }

  /** The instance is always in its own forward collection as well as in the
      reverse one, so the two totals count its row twice; when no other row
      is in both collections, the returned total is exactly the number of
      rows restored. */
  lemma RestoreCountsEachRowOnce(o: Obj, keys: set<RowKey>, withRelated: bool, keepParents: bool,
                                 g: RefGraph, rank: Obj -> nat, cascade: Cascade)
    requires Ranked(g, rank)
    requires o.model.softDelete && o.pk.Some? && RowOf(o) in keys
    requires SavedSoftRows(Reach(g, rank, o), keys) *
             SavedSoftRows(ReverseSet(o, keepParents, withRelated, cascade), keys) <= {RowOf(o)}
    ensures o in Reach(g, rank, o)
    ensures Tally(Reach(g, rank, o), keys).0 + Tally(ReverseSet(o, keepParents, withRelated, cascade), keys).0 - 1
         == |SavedSoftRows(Reach(g, rank, o) + ReverseSet(o, keepParents, withRelated, cascade), keys)|
  {
    var fwd := Reach(g, rank, o);
    var rev := ReverseSet(o, keepParents, withRelated, cascade);
    ReachIsClosed(g, rank, o);
    assert RowOf(o) in SavedSoftRows(fwd, keys) * SavedSoftRows(rev, keys);
    assert SavedSoftRows(fwd, keys) * SavedSoftRows(rev, keys) == {RowOf(o)};
    TwoTallies(fwd, rev, keys);
  }

  /** Removing an instance and then restoring it with `with_related=True`
      (and the same `keep_parents`) makes every row the removal touched
      active again; a row neither operation reached keeps its value, and
      no row appears or disappears. */
  lemma RemoveThenRestore(rows: map<RowKey, Row>, o: Obj, keepParents: bool, now: int,
                          g: RefGraph, rank: Obj -> nat, cascade: Cascade)
    requires Ranked(g, rank)
    ensures var removed := ReverseSet(o, keepParents, true, cascade);
            var afterRemove := Applied(rows, QuerysetsFor(ModelObjs(removed)), SetFields(RemovedFields(now)));
            var restored := Reach(g, rank, o) + ReverseSet(o, keepParents, true, cascade);
            var afterRestore := Applied(afterRemove, QuerysetsFor(ModelObjs(restored)), SetFields(RestoredFields));
      && afterRestore.Keys == rows.Keys
      && (forall k :: k in rows && k.0.softDelete && Obj(k.0, Some(k.1)) in removed ==>
            afterRestore[k] == RestoredFields)
      && (forall k :: k in rows && !(k.0.softDelete && Obj(k.0, Some(k.1)) in removed + restored) ==>
            afterRestore[k] == rows[k])
  {
    var removed := ReverseSet(o, keepParents, true, cascade);
    var afterRemove := Applied(rows, QuerysetsFor(ModelObjs(removed)), SetFields(RemovedFields(now)));
    var restored := Reach(g, rank, o) + ReverseSet(o, keepParents, true, cascade);
    assert removed <= restored;
    WriteTouchesOnlySavedSoftRows(rows, removed, RemovedFields(now));
    WriteTouchesOnlySavedSoftRows(afterRemove, restored, RestoredFields);
  }
}
