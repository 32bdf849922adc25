/** The querysets and managers of django_resurrected
    (src/django_resurrected/managers.py): the `active`, `removed` and
    `expired` views, which `delete` each queryset class resolves to through
    Python's method resolution order, and the bulk operations `remove`,
    `restore`, `hard_delete` and `purge`. */
module Managers {
  import opened Orm
  import opened Collector
  import opened Utils
  import opened Models

  // ---------------------------------------------------------------------
  // Querysets as filters over the stored rows

  /** A `filter(...)` lookup on the two soft-delete columns. */
  datatype Lookup = IsRemoved(value: bool) | RemovedAtBefore(limit: int)

  /** Whether a row passes a lookup. `removed_at__lt` compares in SQL, where
      a NULL `removed_at` never passes. */
  predicate Satisfies(r: Row, l: Lookup)
  {
    match l
    case IsRemoved(v) => r.isRemoved == v
    case RemovedAtBefore(limit) => r.removedAt.Some? && r.removedAt.value < limit
  }

  /** Whether a row passes every lookup of a chain of `filter` calls. */
  predicate Matches(r: Row, lookups: seq<Lookup>)
  {
    forall l :: l in lookups ==> Satisfies(r, l)
  }

  /** The queryset classes: Django's `QuerySet` and the four of the library. */
  datatype QsClass =
    | DjangoQuerySet
    | BaseQuerySet
    | ActiveObjectsQuerySet
    | RemovedObjectsQuerySet
    | AllObjectsQuerySet

  /** A queryset: its class, its model and the lookups filtered on so far. */
  datatype QuerySet = QuerySet(cls: QsClass, model: ModelClass, lookups: seq<Lookup>)

  /** The stored rows a queryset denotes. */
  function Members(qs: QuerySet, rows: map<RowKey, Row>): (r: set<RowKey>)
    ensures forall k :: k in r <==> k in rows && k.0 == qs.model && Matches(rows[k], qs.lookups)
  {
    set k | k in rows && k.0 == qs.model && Matches(rows[k], qs.lookups)
  }

  /** `filter(l)`: the same class and model, one more lookup. */
  function Filter(qs: QuerySet, l: Lookup): QuerySet
  {
    qs.(lookups := qs.lookups + [l])
  }

  /** A filter keeps exactly the members that pass the lookup. */
  lemma FilterMembers(qs: QuerySet, l: Lookup, rows: map<RowKey, Row>, k: RowKey)
    ensures k in Members(Filter(qs, l), rows) <==> k in Members(qs, rows) && Satisfies(rows[k], l)
  {
    if k in rows && k.0 == qs.model {
      var r := rows[k];
      if Matches(r, qs.lookups) && Satisfies(r, l) {
        forall x | x in qs.lookups + [l] ensures Satisfies(r, x) {
          assert x in qs.lookups || x == l;
        }
      }
      if Matches(r, qs.lookups + [l]) {
        assert l in qs.lookups + [l];
        forall x | x in qs.lookups ensures Satisfies(r, x) {
          assert x in qs.lookups + [l];
        }
      }
    }
  }

  /** `BaseQuerySet.active`. */
  function Active(qs: QuerySet): QuerySet
  {
    Filter(qs, IsRemoved(false))
  }

  /** `BaseQuerySet.removed`. */
  function Removed(qs: QuerySet): QuerySet
  {
    Filter(qs, IsRemoved(true))
  }

  /** `active()` and `removed()` split a queryset: every member is in
      exactly one of them, by its `is_removed` column. */
  lemma ActiveAndRemovedPartition(qs: QuerySet, rows: map<RowKey, Row>)
    ensures forall k :: k in Members(Active(qs), rows) <==> k in Members(qs, rows) && !rows[k].isRemoved
    ensures forall k :: k in Members(Removed(qs), rows) <==> k in Members(qs, rows) && rows[k].isRemoved
    ensures Members(Active(qs), rows) + Members(Removed(qs), rows) == Members(qs, rows)
    ensures Members(Active(qs), rows) * Members(Removed(qs), rows) == {}
  {
    forall k ensures k in Members(Active(qs), rows) <==> k in Members(qs, rows) && !rows[k].isRemoved {
      FilterMembers(qs, IsRemoved(false), rows, k);
    }
    forall k ensures k in Members(Removed(qs), rows) <==> k in Members(qs, rows) && rows[k].isRemoved {
      FilterMembers(qs, IsRemoved(true), rows, k);
    }
  }

  /** `RemovedObjectsQuerySet.expired`: the removed members whose
      `removed_at` is before the model's retention limit. */
  function Expired(qs: QuerySet, now: int): QuerySet
    requires qs.model.retentionDays.Some?
  {
    Filter(Removed(qs), RemovedAtBefore(RetentionLimit(qs.model, now).value))
  }

  /** The members of `expired()` are exactly the members the instance-level
      `is_expired` holds for, and all of them are in `removed()`. */
  lemma ExpiredMembers(qs: QuerySet, rows: map<RowKey, Row>, now: int)
    requires qs.model.retentionDays.Some?
    ensures forall k :: k in Members(Expired(qs, now), rows) <==>
      k in Members(qs, rows) && IsExpired(qs.model, rows[k], now)
    ensures Members(Expired(qs, now), rows) <= Members(Removed(qs), rows)
  {
    var limit := RetentionLimit(qs.model, now).value;
    forall k ensures k in Members(Expired(qs, now), rows) <==>
      k in Members(qs, rows) && IsExpired(qs.model, rows[k], now)
    {
      FilterMembers(Removed(qs), RemovedAtBefore(limit), rows, k);
      FilterMembers(qs, IsRemoved(true), rows, k);
    }
  }

  // ---------------------------------------------------------------------
  // Managers

  /** The three managers of `SoftDeleteModel`: `objects`, `active_objects`
      and `removed_objects`. */
  datatype Manager = AllObjectsManager | ActiveObjectsManager | RemovedObjectsManager

  /** `get_queryset` of each manager. */
  function GetQueryset(mgr: Manager, m: ModelClass): QuerySet
  {
    match mgr
    case AllObjectsManager => QuerySet(AllObjectsQuerySet, m, [])
    case ActiveObjectsManager => Active(QuerySet(ActiveObjectsQuerySet, m, []))
    case RemovedObjectsManager => Removed(QuerySet(RemovedObjectsQuerySet, m, []))
  }

  /** `objects` sees every row of the model, `active_objects` the rows not
      removed and `removed_objects` the removed ones. */
  lemma ManagerViews(m: ModelClass, rows: map<RowKey, Row>, k: RowKey)
    ensures k in Members(GetQueryset(AllObjectsManager, m), rows) <==> k in rows && k.0 == m
    ensures k in Members(GetQueryset(ActiveObjectsManager, m), rows) <==> k in rows && k.0 == m && !rows[k].isRemoved
    ensures k in Members(GetQueryset(RemovedObjectsManager, m), rows) <==> k in rows && k.0 == m && rows[k].isRemoved
  {
    FilterMembers(QuerySet(ActiveObjectsQuerySet, m, []), IsRemoved(false), rows, k);
    FilterMembers(QuerySet(RemovedObjectsQuerySet, m, []), IsRemoved(true), rows, k);
  }

  // ---------------------------------------------------------------------
  // Method resolution

  /** The base classes of each queryset class, in declaration order. */
  function Bases(c: QsClass): seq<QsClass>
  {
    match c
    case DjangoQuerySet => []
    case BaseQuerySet => [DjangoQuerySet]
    case ActiveObjectsQuerySet => [BaseQuerySet]
    case RemovedObjectsQuerySet => [BaseQuerySet]
    case AllObjectsQuerySet => [ActiveObjectsQuerySet, RemovedObjectsQuerySet]
  }

  /** The method resolution order Python computes for each class. */
  function Mro(c: QsClass): seq<QsClass>
  {
    match c
    case DjangoQuerySet => [DjangoQuerySet]
    case BaseQuerySet => [BaseQuerySet, DjangoQuerySet]
    case ActiveObjectsQuerySet => [ActiveObjectsQuerySet, BaseQuerySet, DjangoQuerySet]
    case RemovedObjectsQuerySet => [RemovedObjectsQuerySet, BaseQuerySet, DjangoQuerySet]
    case AllObjectsQuerySet =>
      [AllObjectsQuerySet, ActiveObjectsQuerySet, RemovedObjectsQuerySet, BaseQuerySet, DjangoQuerySet]
  }

  /** `sub` occurs in `s` in the same order, possibly with gaps. */
  predicate InOrder(sub: seq<QsClass>, s: seq<QsClass>)
    decreases |s|
  {
    if sub == [] then true
    else if s == [] then false
    else if sub[0] == s[0] then InOrder(sub[1..], s[1..])
    else InOrder(sub, s[1..])
  }

  /** No class is listed twice. */
  predicate Distinct(s: seq<QsClass>)
  {
    forall i, j :: 0 <= i < j < |s| ==> s[i] != s[j]
  }

  /** The order is a C3 linearization: it starts with the class itself,
      keeps the order of every base's own linearization and the order in
      which the bases are declared, and lists no class twice. */
  lemma MroIsLinearization(c: QsClass)
    ensures |Mro(c)| > 0 && Mro(c)[0] == c
    ensures forall b :: b in Bases(c) ==> InOrder(Mro(b), Mro(c)[1..])
    ensures InOrder(Bases(c), Mro(c)[1..])
    ensures Distinct(Mro(c))
  {
    var dj, bs, ac, rm := [DjangoQuerySet], [BaseQuerySet], [ActiveObjectsQuerySet], [RemovedObjectsQuerySet];
    assert InOrder(dj, dj);
    assert InOrder(bs + dj, bs + dj);
    match c
    case DjangoQuerySet =>
    case BaseQuerySet =>
      assert Mro(c)[1..] == dj;
    case ActiveObjectsQuerySet =>
      assert Mro(c)[1..] == bs + dj;
      assert InOrder(bs, bs + dj);
    case RemovedObjectsQuerySet =>
      assert Mro(c)[1..] == bs + dj;
      assert InOrder(bs, bs + dj);
    case AllObjectsQuerySet =>
      assert Mro(c)[1..] == ac + rm + bs + dj;
      assert Mro(ActiveObjectsQuerySet) == ac + bs + dj;
      assert Mro(RemovedObjectsQuerySet) == rm + bs + dj;
      assert InOrder(bs + dj, rm + bs + dj);
      assert InOrder(ac + bs + dj, ac + rm + bs + dj);
      assert InOrder(rm + bs + dj, ac + rm + bs + dj);
      assert InOrder(rm, rm + bs + dj);
      assert InOrder(ac + rm, ac + rm + bs + dj);
  }

  /** The attribute names the querysets look up: `delete`, `filter`,
      `update`, `active`, `removed`, `hard_delete`, `remove`, `restore`,
      `expired` and `purge`. */
  datatype Attr =
    | DeleteAttr | FilterAttr | UpdateAttr | ActiveAttr | RemovedAttr
    | HardDeleteAttr | RemoveAttr | RestoreAttr | ExpiredAttr | PurgeAttr

  /** The names each class defines itself. */
  predicate Defines(c: QsClass, name: Attr)
  {
    match c
    case DjangoQuerySet => name in {DeleteAttr, FilterAttr, UpdateAttr}
    case BaseQuerySet => name in {ActiveAttr, RemovedAttr, HardDeleteAttr}
    case ActiveObjectsQuerySet => name in {RemoveAttr, DeleteAttr}
    case RemovedObjectsQuerySet => name in {RestoreAttr, ExpiredAttr, PurgeAttr, DeleteAttr}
    case AllObjectsQuerySet => false
  }

  /** The first class of `order` that defines `name`. */
  function FirstDefining(order: seq<QsClass>, name: Attr): (r: Option<QsClass>)
    ensures r.Some? ==> r.value in order && Defines(r.value, name)
    ensures r.None? <==> forall c :: c in order ==> !Defines(c, name)
  {
    if order == [] then None
    else if Defines(order[0], name) then Some(order[0])
    else FirstDefining(order[1..], name)
  }

  /** Attribute lookup on an instance of `c`. */
  function Resolve(c: QsClass, name: Attr): Option<QsClass>
  {
    FirstDefining(Mro(c), name)
  }

  /** The classes after the first occurrence of `from` in `order`. */
  function After(order: seq<QsClass>, from: QsClass): seq<QsClass>
  {
    if order == [] then []
    else if order[0] == from then order[1..]
    else After(order[1..], from)
  }

  /** `super().name` looked up from within `from` on an instance of `c`. */
  function ResolveSuper(c: QsClass, from: QsClass, name: Attr): Option<QsClass>
  {
    FirstDefining(After(Mro(c), from), name)
  }

  /** Which `delete` each class runs: `ActiveObjectsQuerySet.delete` (the
      soft `remove`) for the active and the all-objects querysets, since
      `ActiveObjectsQuerySet` comes first among the bases of
      `AllObjectsQuerySet`; `RemovedObjectsQuerySet.delete` (`purge`) for the
      removed queryset; Django's for `BaseQuerySet`. The all-objects queryset
      still offers `restore` and `purge`; each other class only its own. */
  lemma DeleteResolution()
    ensures Resolve(ActiveObjectsQuerySet, DeleteAttr) == Some(ActiveObjectsQuerySet)
    ensures Resolve(RemovedObjectsQuerySet, DeleteAttr) == Some(RemovedObjectsQuerySet)
    ensures Resolve(AllObjectsQuerySet, DeleteAttr) == Some(ActiveObjectsQuerySet)
    ensures Resolve(BaseQuerySet, DeleteAttr) == Some(DjangoQuerySet)
    ensures Resolve(AllObjectsQuerySet, RemoveAttr) == Some(ActiveObjectsQuerySet)
    ensures Resolve(AllObjectsQuerySet, RestoreAttr) == Some(RemovedObjectsQuerySet)
    ensures Resolve(AllObjectsQuerySet, PurgeAttr) == Some(RemovedObjectsQuerySet)
    ensures Resolve(ActiveObjectsQuerySet, RestoreAttr).None? && Resolve(ActiveObjectsQuerySet, PurgeAttr).None?
    ensures Resolve(RemovedObjectsQuerySet, RemoveAttr).None?
  {
    BaseResolution();
    AllResolution();
  }

  lemma BaseResolution()
    ensures Resolve(BaseQuerySet, DeleteAttr) == Some(DjangoQuerySet)
    ensures Resolve(ActiveObjectsQuerySet, RestoreAttr).None? && Resolve(ActiveObjectsQuerySet, PurgeAttr).None?
    ensures Resolve(RemovedObjectsQuerySet, RemoveAttr).None?
  {
    var dj := [DjangoQuerySet];
    var bd := [BaseQuerySet] + dj;
    assert FirstDefining(dj, DeleteAttr) == Some(DjangoQuerySet);
    assert FirstDefining(bd, DeleteAttr) == Some(DjangoQuerySet);
    assert FirstDefining(dj, RestoreAttr).None? && FirstDefining(dj, PurgeAttr).None? && FirstDefining(dj, RemoveAttr).None?;
    assert FirstDefining(bd, RestoreAttr).None? && FirstDefining(bd, PurgeAttr).None? && FirstDefining(bd, RemoveAttr).None?;
    assert Mro(ActiveObjectsQuerySet) == [ActiveObjectsQuerySet] + bd;
    assert Mro(RemovedObjectsQuerySet) == [RemovedObjectsQuerySet] + bd;
  }

  lemma AllResolution()
    ensures Resolve(AllObjectsQuerySet, DeleteAttr) == Some(ActiveObjectsQuerySet)
    ensures Resolve(AllObjectsQuerySet, RemoveAttr) == Some(ActiveObjectsQuerySet)
    ensures Resolve(AllObjectsQuerySet, RestoreAttr) == Some(RemovedObjectsQuerySet)
    ensures Resolve(AllObjectsQuerySet, PurgeAttr) == Some(RemovedObjectsQuerySet)
  {
    var tail := [RemovedObjectsQuerySet, BaseQuerySet, DjangoQuerySet];
    var order := [AllObjectsQuerySet, ActiveObjectsQuerySet] + tail;
    assert Mro(AllObjectsQuerySet) == order;
    assert order[1..] == [ActiveObjectsQuerySet] + tail;
    assert order[1..][1..] == tail;
    assert FirstDefining(tail, RestoreAttr) == Some(RemovedObjectsQuerySet);
    assert FirstDefining(tail, PurgeAttr) == Some(RemovedObjectsQuerySet);
  }

  /** Whatever a class's `delete` resolves to, the operation behind it is
      available on that class: `remove` when it is the active one, `purge`
      when it is the removed one. */
  lemma DeleteDispatch(c: QsClass)
    ensures Resolve(c, DeleteAttr) == Some(ActiveObjectsQuerySet) ==> Resolve(c, RemoveAttr) == Some(ActiveObjectsQuerySet)
    ensures Resolve(c, DeleteAttr) == Some(RemovedObjectsQuerySet) ==> Resolve(c, PurgeAttr) == Some(RemovedObjectsQuerySet)
  {
    DeleteResolution();
    if c == DjangoQuerySet {
      assert Resolve(c, DeleteAttr) == Some(DjangoQuerySet);
    } else {
      assert Mro(ActiveObjectsQuerySet)[1..] == [BaseQuerySet, DjangoQuerySet];
      assert Mro(RemovedObjectsQuerySet)[1..] == [BaseQuerySet, DjangoQuerySet];
    }
  }

  /** `hard_delete` calls `super().delete()` from `BaseQuerySet`, which is
      Django's `delete` for every queryset class of the library, never the
      soft `delete` of a subclass. */
  lemma HardDeleteIsDjangoDelete(c: QsClass)
    requires c != DjangoQuerySet
    ensures ResolveSuper(c, BaseQuerySet, DeleteAttr) == Some(DjangoQuerySet)
  {
    var bd := [BaseQuerySet, DjangoQuerySet];
    assert After(bd, BaseQuerySet) == [DjangoQuerySet];
    match c
    case BaseQuerySet =>
    case ActiveObjectsQuerySet =>
      assert Mro(c)[1..] == bd;
    case RemovedObjectsQuerySet =>
      assert Mro(c)[1..] == bd;
    case AllObjectsQuerySet =>
      assert Mro(c)[1..][1..][1..] == bd;
  }

  // ---------------------------------------------------------------------
  // Bulk operations

  /** The instances a set of rows holds. */
  function RootsOf(keys: set<RowKey>): (r: set<Obj>)
    ensures forall k :: k in keys ==> ObjOf(k) in r
    ensures forall o :: o in r ==> o.pk.Some? && (o.model, o.pk.value) in keys
  {
    set k | k in keys :: ObjOf(k)
  }

  /** Everything the forward walk reaches from any of `roots`. */
  ghost function ReachFrom(g: RefGraph, rank: Obj -> nat, roots: set<Obj>): set<Obj>
    requires Ranked(g, rank)
  {
    set o, x | o in roots && x in Reach(g, rank, o) :: x
  }

  /** One more root adds what the walk reaches from it. */
  lemma ReachFromAdd(g: RefGraph, rank: Obj -> nat, roots: set<Obj>, o: Obj)
    requires Ranked(g, rank)
    ensures ReachFrom(g, rank, roots + {o}) == ReachFrom(g, rank, roots) + Reach(g, rank, o)
  {
    forall x | x in ReachFrom(g, rank, roots + {o})
      ensures x in ReachFrom(g, rank, roots) + Reach(g, rank, o)
    {
      var p :| p in roots + {o} && x in Reach(g, rank, p);
      if p != o {
        assert x in ReachFrom(g, rank, roots);
      }
    }
  }

  /** The forward collector's walk from a sequence of roots depends only on
      which roots there are. */
  lemma {:induction false} ReachAllIsReachFrom(g: RefGraph, rank: Obj -> nat, objs: seq<Obj>)
    requires Ranked(g, rank)
    ensures ReachAll(g, rank, objs) == ReachFrom(g, rank, Elems(objs))
  {
    if objs == [] {
      assert ReachFrom(g, rank, {}) == {};
    } else {
      var n := |objs| - 1;
      ReachAllIsReachFrom(g, rank, objs[..n]);
      assert Elems(objs) == Elems(objs[..n]) + {objs[n]} by {
        assert objs == objs[..n] + [objs[n]];
      }
      ReachFromAdd(g, rank, Elems(objs[..n]), objs[n]);
    }
  }

  /** Evaluating a queryset: its instances, one per member row, in the
      order the database returns them. */
  method Evaluate(qs: QuerySet, store: Store) returns (objs: seq<Obj>)
    ensures Elems(objs) == RootsOf(Members(qs, store.rows))
  {
    var all := Members(qs, store.rows);
    var todo := all;
    objs := [];
    while todo != {}
      invariant todo <= all
      invariant forall o :: o in objs <==> o in RootsOf(all - todo)
      decreases todo
    {
      var k :| k in todo;
      objs := objs + [ObjOf(k)];
      todo := todo - {k};
    }
    assert all - todo == all;
  }

  /** `ActiveObjectsQuerySet.remove`: a reverse collector gathers the
      members and their cascade (`collect_related` keeps its default, true),
      then every collected soft-delete row is marked removed at `now`; every
      member of a soft-delete model among them. */
  method QsRemove(qs: QuerySet, store: Store, now: int, cascade: Cascade)
    returns (total: int, perLabel: map<string, int>)
    requires Resolve(qs.cls, RemoveAttr) == Some(ActiveObjectsQuerySet)
    modifies store
    ensures var roots := RootsOf(Members(qs, old(store.rows)));
            var objs := roots + cascade(roots, false, true);
      && store.rows == Applied(old(store.rows), QuerysetsFor(ModelObjs(objs)), SetFields(RemovedFields(now)))
      && (total, perLabel) == Tally(objs, old(store.rows).Keys)
    ensures qs.model.softDelete ==>
      forall k :: k in Members(qs, old(store.rows)) ==> k in store.rows && store.rows[k] == RemovedFields(now)
    ensures |old(store.writes)| <= |store.writes| && store.writes[..|old(store.writes)|] == old(store.writes)
    ensures var roots := RootsOf(Members(qs, old(store.rows)));
      OneWriteEach(store.writes[|old(store.writes)|..], Tables(roots + cascade(roots, false, true)))
  {
    var roots := Evaluate(qs, store);
    var collector := new RelatedCollector(Reverse);
    collector.CollectReverse(roots, false, true, cascade);
    ghost var objs := Elems(roots) + cascade(Elems(roots), false, true);
    assert collector.collected == objs;
    ghost var members := Members(qs, store.rows);
    total, perLabel := collector.Remove(store, now);
    forall k | qs.model.softDelete && k in members
      ensures k in store.rows && store.rows[k] == RemovedFields(now)
    {
      QuerysetsTargetSavedSoftObjects(objs, k);
    }
  }

  /** `RemovedObjectsQuerySet.restore`: a forward collector over the
      members, a reverse collector over the members with
      `collect_related=with_related`, and `utils.restore` over both. */
  method QsRestore(qs: QuerySet, store: Store, withRelated: bool, g: RefGraph, ghost rank: Obj -> nat,
                   cascade: Cascade)
    returns (total: int, perLabel: map<string, int>)
    requires Resolve(qs.cls, RestoreAttr) == Some(RemovedObjectsQuerySet)
    requires Ranked(g, rank)
    modifies store
    ensures var roots := RootsOf(Members(qs, old(store.rows)));
            var fwd := ReachFrom(g, rank, roots);
            var rev := roots + cascade(roots, false, withRelated);
      && store.rows == Applied(old(store.rows), QuerysetsFor(ModelObjs(fwd + rev)), SetFields(RestoredFields))
      && total == Tally(fwd, old(store.rows).Keys).0 + Tally(rev, old(store.rows).Keys).0 - 1
      && perLabel == Tally(fwd, old(store.rows).Keys).1 + Tally(rev, old(store.rows).Keys).1
    ensures |old(store.writes)| <= |store.writes| && store.writes[..|old(store.writes)|] == old(store.writes)
    ensures var roots := RootsOf(Members(qs, old(store.rows)));
            var fwd := Tables(ReachFrom(g, rank, roots));
            var rev := Tables(roots + cascade(roots, false, withRelated));
            var log := store.writes[|old(store.writes)|..];
      && |fwd| <= |log|
      && OneWriteEach(log[..|fwd|], fwd)
      && OneWriteEach(log[|fwd|..], rev)
  {
    ghost var writes0 := store.writes;
    var roots := Evaluate(qs, store);
    var forward := new RelatedCollector(Forward);
    forward.CollectForward(roots, g, rank);
    ReachAllIsReachFrom(g, rank, roots);
    var reverse := new RelatedCollector(Reverse);
    reverse.CollectReverse(roots, false, withRelated, cascade);
    ghost var keys := store.rows.Keys;
    ghost var fwd := ReachFrom(g, rank, Elems(roots));
    ghost var rev := Elems(roots) + cascade(Elems(roots), false, withRelated);
    ghost var sets := CollectedSets([forward, reverse]);
    assert sets[0] == fwd && sets[1] == rev;
    assert sets == [fwd, rev];
    TwoCollectors(fwd, rev, keys);
    assert store.writes == writes0;
    total, perLabel := Utils.Restore([forward, reverse], store, sets);
    WritesOfTwo(store.writes[|writes0|..], fwd, rev);
  }

  /** The total of a queryset restore takes off 1 whatever the number of
      members. The members are in both collections; when the two share no
      other saved soft-delete row, the total is the number of rows restored
      plus the number of members of a soft-delete model, minus 1. */
  lemma QsRestoreTotal(qs: QuerySet, rows: map<RowKey, Row>, withRelated: bool, g: RefGraph,
                       rank: Obj -> nat, cascade: Cascade)
    requires Ranked(g, rank)
    requires var roots := RootsOf(Members(qs, rows));
      SavedSoftRows(ReachFrom(g, rank, roots), rows.Keys) *
        SavedSoftRows(roots + cascade(roots, false, withRelated), rows.Keys)
      <= SavedSoftRows(roots, rows.Keys)
    ensures var roots := RootsOf(Members(qs, rows));
            var fwd := ReachFrom(g, rank, roots);
            var rev := roots + cascade(roots, false, withRelated);
      && roots <= fwd * rev
      && Tally(fwd, rows.Keys).0 + Tally(rev, rows.Keys).0 - 1 ==
         |SavedSoftRows(fwd + rev, rows.Keys)| + (if qs.model.softDelete then |Members(qs, rows)| else 0) - 1
  {
    var roots := RootsOf(Members(qs, rows));
    var fwd := ReachFrom(g, rank, roots);
    var rev := roots + cascade(roots, false, withRelated);
    forall o | o in roots ensures o in fwd {
      ReachIsClosed(g, rank, o);
    }
    SavedSoftRowsGrow(roots, fwd, rows.Keys);
    SavedSoftRowsGrow(roots, rev, rows.Keys);
    assert SavedSoftRows(fwd, rows.Keys) * SavedSoftRows(rev, rows.Keys) == SavedSoftRows(roots, rows.Keys);
    MemberRows(qs, rows);
    TwoTallies(fwd, rev, rows.Keys);
  }

  /** More objects have at least the saved soft-delete rows of fewer. */
  lemma SavedSoftRowsGrow(a: set<Obj>, b: set<Obj>, keys: set<RowKey>)
    requires a <= b
    ensures SavedSoftRows(a, keys) <= SavedSoftRows(b, keys)
  {
  }

  /** A restore of an empty queryset: when the cascade collects nothing from
      no roots, both collections are empty, so the restore returns -1 and an
      empty map, changes no row and issues no write. */
  lemma QsRestoreOfNothing(qs: QuerySet, rows: map<RowKey, Row>, withRelated: bool, g: RefGraph,
                           rank: Obj -> nat, cascade: Cascade)
    requires Ranked(g, rank)
    requires NothingFromNothing(cascade)
    requires Members(qs, rows) == {}
    ensures var roots := RootsOf(Members(qs, rows));
            var fwd := ReachFrom(g, rank, roots);
            var rev := roots + cascade(roots, false, withRelated);
      && fwd == {} && rev == {}
      && Tally(fwd, rows.Keys).0 + Tally(rev, rows.Keys).0 - 1 == -1
      && Tally(fwd, rows.Keys).1 + Tally(rev, rows.Keys).1 == map[]
      && Applied(rows, QuerysetsFor(ModelObjs(fwd + rev)), SetFields(RestoredFields)) == rows
      && Tables(fwd) == {} && Tables(rev) == {}
  {
    assert RootsOf(Members(qs, rows)) == {};
    NoRootsNoRestore(g, rank, rows.Keys, withRelated, cascade);
  }

  /** With no roots, neither collection of a restore holds anything, so
      neither counts a row. */
  lemma NoRootsNoRestore(g: RefGraph, rank: Obj -> nat, keys: set<RowKey>, withRelated: bool, cascade: Cascade)
    requires Ranked(g, rank)
    requires NothingFromNothing(cascade)
    ensures ReachFrom(g, rank, {}) == {} && {} + cascade({}, false, withRelated) == {}
    ensures Tally({}, keys).0 == 0 && Tally({}, keys).1 == map[]
    ensures QuerysetsFor(ModelObjs({})) == map[]
  {
    TallyMeaning({}, keys);
  }

  /** The saved soft-delete rows of a queryset's instances are its members
      when its model is a soft-delete model, and none otherwise. */
  lemma MemberRows(qs: QuerySet, rows: map<RowKey, Row>)
    ensures SavedSoftRows(RootsOf(Members(qs, rows)), rows.Keys) ==
            if qs.model.softDelete then Members(qs, rows) else {}
  {
    var members := Members(qs, rows);
    forall k ensures k in SavedSoftRows(RootsOf(members), rows.Keys) <==> qs.model.softDelete && k in members {
      if ObjOf(k) in RootsOf(members) {
        var x :| x in members && ObjOf(x) == ObjOf(k);
      }
    }
  }

  /** `BaseQuerySet.hard_delete`, Django's `QuerySet.delete`: the members and
      everything a cascading delete of them reaches are physically deleted,
      whatever their model; no other row changes. */
  method QsHardDelete(qs: QuerySet, store: Store, cascade: Cascade) returns (count: nat)
    modifies store
    ensures var roots := RootsOf(Members(qs, old(store.rows)));
            var gone := roots + cascade(roots, false, true);
      && store.rows == Applied(old(store.rows), PkMap(gone), DeleteRows)
      && count == |Hits(PkMap(gone), old(store.rows).Keys)|
      && store.writes == old(store.writes) + [PkMap(gone).Keys]
    ensures forall k :: k in Members(qs, old(store.rows)) ==> k !in store.rows
    ensures NothingFromNothing(cascade) && Members(qs, old(store.rows)) == {} ==>
      store.rows == old(store.rows) && count == 0
  {
    var roots := Evaluate(qs, store);
    var gone := Elems(roots) + cascade(Elems(roots), false, true);
    ghost var members := Members(qs, store.rows);
    ghost var rows0 := store.rows;
    count := store.ApplyAll(PkMap(gone), DeleteRows);
    forall k | k in members ensures k !in store.rows {
      PkMapTargets(gone, k);
    }
    if NothingFromNothing(cascade) && members == {} {
      NoRootsNoTargets(rows0, cascade);
    }
  }

  /** With no roots, a cascade that collects nothing from nothing leaves a
      delete with no row to target. */
  lemma NoRootsNoTargets(rows: map<RowKey, Row>, cascade: Cascade)
    requires NothingFromNothing(cascade)
    ensures var gone := RootsOf({}) + cascade(RootsOf({}), false, true);
      && Applied(rows, PkMap(gone), DeleteRows) == rows
      && Hits(PkMap(gone), rows.Keys) == {}
  {
    assert RootsOf({}) == {};
    assert PkMap({}) == map[];
  }

  /** `RemovedObjectsQuerySet.purge`: `expired().hard_delete()`. Every
      expired member is deleted; a row survives unchanged unless it is
      expired or the cascade of the expired rows reaches it. */
  method QsPurge(qs: QuerySet, store: Store, now: int, cascade: Cascade) returns (count: nat)
    requires Resolve(qs.cls, PurgeAttr) == Some(RemovedObjectsQuerySet)
    requires qs.model.retentionDays.Some?
    modifies store
    ensures var roots := RootsOf(Members(Expired(qs, now), old(store.rows)));
            var gone := roots + cascade(roots, false, true);
      && store.rows == Applied(old(store.rows), PkMap(gone), DeleteRows)
      && count == |Hits(PkMap(gone), old(store.rows).Keys)|
      && store.writes == old(store.writes) + [PkMap(gone).Keys]
    ensures forall k :: k in Members(qs, old(store.rows)) && IsExpired(qs.model, old(store.rows)[k], now) ==>
      k !in store.rows
    ensures NothingFromNothing(cascade) && Members(Expired(qs, now), old(store.rows)) == {} ==>
      store.rows == old(store.rows) && count == 0
    ensures var roots := RootsOf(Members(Expired(qs, now), old(store.rows)));
      forall k :: k in old(store.rows) && ObjOf(k) !in roots + cascade(roots, false, true) ==>
        k in store.rows && store.rows[k] == old(store.rows)[k]
  {
    ExpiredMembers(qs, store.rows, now);
    ghost var roots := RootsOf(Members(Expired(qs, now), store.rows));
    ghost var rows0 := store.rows;
    count := QsHardDelete(Expired(qs, now), store, cascade);
    forall k | k in rows0 && ObjOf(k) !in roots + cascade(roots, false, true)
      ensures k in store.rows && store.rows[k] == rows0[k]
    {
      PkMapTargets(roots + cascade(roots, false, true), k);
    }
  }

  /** `delete` on a queryset, as its class resolves it: the soft `remove`
      for the active and all-objects querysets, `purge` for the removed
      queryset, Django's hard delete otherwise. The per-label map of a hard
      delete is Django's and is not modelled (`None`). */
  method QsDelete(qs: QuerySet, store: Store, now: int, cascade: Cascade)
    returns (total: int, perLabel: Option<map<string, int>>)
    requires Resolve(qs.cls, DeleteAttr) == Some(RemovedObjectsQuerySet) ==> qs.model.retentionDays.Some?
    modifies store
    ensures Resolve(qs.cls, DeleteAttr) == Some(ActiveObjectsQuerySet) ==>
      var roots := RootsOf(Members(qs, old(store.rows)));
      var objs := roots + cascade(roots, false, true);
      && store.rows == Applied(old(store.rows), QuerysetsFor(ModelObjs(objs)), SetFields(RemovedFields(now)))
      && total == Tally(objs, old(store.rows).Keys).0
      && perLabel == Some(Tally(objs, old(store.rows).Keys).1)
      && |old(store.writes)| <= |store.writes| && store.writes[..|old(store.writes)|] == old(store.writes)
      && OneWriteEach(store.writes[|old(store.writes)|..], Tables(objs))
    ensures Resolve(qs.cls, DeleteAttr) == Some(RemovedObjectsQuerySet) ==>
      var roots := RootsOf(Members(Expired(qs, now), old(store.rows)));
      var gone := roots + cascade(roots, false, true);
      && store.rows == Applied(old(store.rows), PkMap(gone), DeleteRows)
      && total == |Hits(PkMap(gone), old(store.rows).Keys)|
      && perLabel.None?
      && store.writes == old(store.writes) + [PkMap(gone).Keys]
    ensures Resolve(qs.cls, DeleteAttr) == Some(DjangoQuerySet) ==>
      var roots := RootsOf(Members(qs, old(store.rows)));
      var gone := roots + cascade(roots, false, true);
      && store.rows == Applied(old(store.rows), PkMap(gone), DeleteRows)
      && total == |Hits(PkMap(gone), old(store.rows).Keys)|
      && perLabel.None?
      && store.writes == old(store.writes) + [PkMap(gone).Keys]
  {
    DeleteDispatch(qs.cls);
    var target := Resolve(qs.cls, DeleteAttr);
    if target == Some(ActiveObjectsQuerySet) {
      var counts;
      total, counts := QsRemove(qs, store, now, cascade);
      perLabel := Some(counts);
    } else if target == Some(RemovedObjectsQuerySet) {
      total := QsPurge(qs, store, now, cascade);
      perLabel := None;
    } else {
      total := QsHardDelete(qs, store, cascade);
      perLabel := None;
    }
  }
}
