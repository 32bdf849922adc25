# django_resurrected soft-delete core, in Dafny

django_resurrected adds soft deletion to Django models. A `SoftDeleteModel`
row carries two columns, `is_removed` and `removed_at`.

- **Remove.** `remove` marks the instance and everything a cascading delete of
  it would reach as removed at the current time.
- **Restore.** `restore` clears those columns on the instance, on the objects
  it requires through non-null one-to-one and many-to-one references (the
  forward walk), and optionally on its dependents.
- **Delete.** `delete` removes an instance softly, or deletes it for good once
  it has stayed removed longer than its model's `retention_days`.
- **Querysets and managers.** These offer the `active`, `removed` and
  `expired` views, bulk `remove`, `restore` and `purge`, and a `delete` whose
  meaning depends on the queryset class and its method resolution order.

The model works over an abstract store. Its modules:

- `Orm`: rows keyed by (model, primary key), each holding the two columns;
  bulk writes restricted to primary-key sets; Django's cascade discovery as a
  given function. Time is a whole number of days.
- `Sums`: `sum(d.values())` over a finite map, independent of iteration order.
- `Collector` (`collector.py`): the classifier, the grouping of collected
  objects by class, the querysets for update, the counting bulk `update`, and
  the fixed field sets of `remove` and `restore`. It also holds the forward
  walk, as a class `RelatedCollector` whose `collected` set grows in place.
- `Utils` (`utils.py`): `restore(*collectors)`, a loop that restores
  through each collector, adds up the totals, merges the per-label maps and
  takes 1 off.
- `Models` (`models.py`): column defaults, `retention_limit`, `is_expired`,
  and the instance operations `remove`, `hard_delete`, `delete`, `restore`.
- `Managers` (`managers.py`): queryset filters, the three managers, the
  method resolution order of the queryset classes, and the bulk operations.

The collector's `model_objs` dictionary is kept as the set of collected
objects. Its grouping by class is the function `Collector.ModelObjs` of that
set; both determine each other.

Two behaviours of the code shape the model:

- **Cycles.** The forward walk (`src/django_resurrected/collector.py:84-94`)
  adds each object and recurses into its required references without
  checking whether it has seen the object before. It therefore ends only when
  the required references reachable from the roots form no cycle. The model
  requires a rank that decreases along every required reference.
- **Restoring dependents.** `with_related` defaults to False
  (`src/django_resurrected/models.py:90-102`), so a plain `restore()` runs the
  reverse collector with `collect_related=False` and does not bring back the
  instance's cascade dependents. `Models.RemoveThenRestore` states the round
  trip for `restore(with_related=True)`.

## Model

| member | source | states |
|---|---|---|
| Collector.InstanceClassifiedAsItsClass | src/django_resurrected/collector.py:20-24 | an instance is classified exactly as its class, and a class is soft-delete iff it derives from `SoftDeleteModel` |
| Collector.ModelObjs | src/django_resurrected/collector.py:86-88 | every collected object is in the set of its own class, each key's set is exactly the collected objects of that class, and no key has an empty set |
| Collector.ModelObjsForUpdate | src/django_resurrected/collector.py:32-40 | the keys are exactly the soft-delete keys of `model_objs`, and their object sets are unchanged |
| Collector.PkSet | src/django_resurrected/collector.py:47 | the result holds exactly the primary keys of the objects that have one |
| Collector.RelatedCollector.QuerysetsForUpdate | src/django_resurrected/collector.py:42-50 | the loop yields one primary-key set per soft-delete model with at least one saved object, holding exactly those objects' keys |
| Collector.QuerysetsTargetSavedSoftObjects | src/django_resurrected/collector.py:42-50 | a row is targeted iff its model is soft-delete and its (model, pk) object was collected; unsaved objects and other models are never targeted |
| Collector.HitsAreSavedSoftRows | src/django_resurrected/collector.py:52-57 | the rows the bulk updates reach are exactly the stored rows of collected saved soft-delete objects |
| Collector.WriteTouchesOnlySavedSoftRows | src/django_resurrected/collector.py:52-57 | after the update, those rows hold the new fields, every other row keeps its value, and no row appears or disappears |
| Collector.RelatedCollector.Update | src/django_resurrected/collector.py:52-59 | exactly one bulk write is issued per model that has a queryset, each reaching that model's table alone, and no other write; together they leave the table as one write to all targeted rows; the total and the per-label counter are the tally of the collected set, and the total is the sum of the counter |
| Collector.CountsAreRows | src/django_resurrected/collector.py:55-57 | the per-model counts add up to the number of distinct existing rows targeted |
| Collector.PerLabelAdd | src/django_resurrected/collector.py:57 | counting one more model adds its count under its `_meta.label`, whether that key existed before or not |
| Collector.SumPerLabel | src/django_resurrected/collector.py:57-59 | summing the per-label counter gives the sum of the per-model counts, even when models share a label |
| Collector.TallyTotalIsSumOfLabels | src/django_resurrected/collector.py:59 | the returned total equals the sum of the returned map's values |
| Collector.TallyMeaning | src/django_resurrected/collector.py:52-59 | the total is the number of stored rows of collected saved soft-delete objects and equals the sum of the map; every such object's label is a key, even with a count of 0, and no other label is |
| Collector.SumValues | src/django_resurrected/collector.py:59 | the loop computes `sum(counter.values())` |
| Collector.RelatedCollector.Remove | src/django_resurrected/collector.py:62-64 | every targeted row gets `is_removed=True` and one single `removed_at=now`, in one bulk write per model; nothing else changes |
| Collector.RelatedCollector.Restore | src/django_resurrected/collector.py:67-69 | every targeted row gets `is_removed=False, removed_at=None`, in one bulk write per model; nothing else changes |
| Collector.SoftWritesKeepConsistency | src/django_resurrected/collector.py:62-69 | every row either write touches ends with `removed_at` set iff `is_removed`, and a table where this holds everywhere keeps it |
| Collector.CandidateRelationsToRestore | src/django_resurrected/collector.py:76-81 | the result holds exactly the fields that are not auto-created, are concrete, and are one-to-one or many-to-one |
| Collector.RelatedCollector.CollectForward | src/django_resurrected/collector.py:84-94 | the collected set grows by exactly what the walk reaches from the objects through required, set references; nothing is taken out |
| Collector.RelatedCollector.CollectReverse | src/django_resurrected/collector.py:72-73 | the collected set grows by the roots and by what the cascade reaches from them |
| Collector.ReachIsClosed | src/django_resurrected/collector.py:90-94 | the walk from an object contains it and the target of every required, set reference of its members; nullable references are never followed |
| Collector.ReachIsLeast | src/django_resurrected/collector.py:90-94 | the walk is contained in every set that holds the start and is closed under required references |
| Collector.ReachTransitive | src/django_resurrected/collector.py:93-94 | whatever is reached from a reached object is reached |
| Utils.Restore | src/django_resurrected/utils.py:7-19 | the table ends as one restore of everything the collectors hold; the total is the sum of the collectors' totals minus 1, whatever their number; the map is the collectors' maps merged in argument order, the later one winning on a shared label; earlier writes are kept, and the new writes are one run per collector, in argument order, each writing every table of that collector once |
| Utils.RestoredInTurnIsOneWrite | src/django_resurrected/utils.py:13-14 | restoring through the collectors one after the other equals one restore of their union, and leaves the set of rows unchanged |
| Utils.MergedKeys | src/django_resurrected/utils.py:11-16 | a label is in the merged map iff some collector's map has it |
| Utils.MergedLast | src/django_resurrected/utils.py:13-16 | on a label, the merged map holds the count of the last collector whose map has it |
| Utils.TwoTallies | src/django_resurrected/utils.py:15-19 | two restore totals count every restored row once, and a second time each row held by both collectors |
| Models.NewRowIsActive | src/django_resurrected/models.py:24-25 | a new row has `is_removed=False` and `removed_at=None`, and is consistent |
| Models.RetentionLimit | src/django_resurrected/models.py:34-39 | there is no limit iff `retention_days` is None; otherwise the limit lies `retention_days` days before now |
| Models.ExpiredIffRetentionPassed | src/django_resurrected/models.py:41-50 | expired iff retention is set, the row is removed, `removed_at` is present, and more than `retention_days` days have passed; never expired without retention or when not removed |
| Models.ExpiryBoundary | src/django_resurrected/models.py:46-50 | the comparison is strict: a row removed exactly `retention_days` days ago is not expired, one day later it is |
| Models.ExpiryIsMonotone | src/django_resurrected/models.py:41-50 | an expired row stays expired as time passes |
| Models.NewInstanceNotExpired | tests/test_models.py:7-10 | a fresh instance is never expired; with 30 retention days the limit is 30 days before now |
| Models.Remove | src/django_resurrected/models.py:64-71 | the instance and its cascade are collected, and their saved soft-delete rows are marked removed at now; the result is their tally, and the instance's own row ends removed; earlier writes are kept and each table of the collection is written once more |
| Models.HardDelete | src/django_resurrected/models.py:73-78 | the rows of the instance and its cascade are physically deleted whatever their model and expiry, the count is how many existed, and the instance's row is gone; this is one write to the tables of those rows |
| Models.Delete | src/django_resurrected/models.py:80-88 | when the instance is expired, the outcome is exactly `HardDelete`'s; otherwise it is exactly `Remove`'s, writes included |
| Models.Restore | src/django_resurrected/models.py:90-102 | the rows of the forward walk and of the reverse collection (with `collect_related=with_related`) are restored in one effect; the total is the two tallies minus 1 and the map their merge; the instance's own row ends active; earlier writes are kept, then each table of the forward walk is written once, then each table of the reverse collection |
| Models.RestoreCountsEachRowOnce | src/django_resurrected/models.py:96-102 | the root is always in its forward collection; when no other row is in both collections, the returned total is exactly the number of rows restored |
| Models.RemoveThenRestore | src/django_resurrected/models.py:64-102 | after `remove` then `restore(with_related=True)`, every row the removal touched is active, rows neither reached keep their value, and no row appears or disappears |
| Managers.FilterMembers | src/django_resurrected/managers.py:11-15 | a filter keeps exactly the members that pass its lookup |
| Managers.ActiveAndRemovedPartition | src/django_resurrected/managers.py:11-15 | `active()` keeps exactly the members with `is_removed=False` and `removed()` those with `True`; together they are the queryset, and they share no row |
| Managers.ExpiredMembers | src/django_resurrected/managers.py:45-46 | `expired()` holds exactly the members for which `is_expired` holds, and lies inside `removed()` |
| Managers.ManagerViews | src/django_resurrected/managers.py:59-71 | `objects` sees every row of the model, `active_objects` those not removed and `removed_objects` the removed ones |
| Managers.MroIsLinearization | src/django_resurrected/managers.py:55-56 | each class's resolution order starts with itself, keeps every base's order and the declared order of the bases, and repeats no class |
| Managers.DeleteResolution | src/django_resurrected/managers.py:27-56 | `delete` on the active and all-objects querysets is the soft `remove`, on the removed queryset it is `purge`, and on `BaseQuerySet` it is Django's; the all-objects queryset also has `restore` and `purge` |
| Managers.DeleteDispatch | src/django_resurrected/managers.py:33-52 | a class whose `delete` is the active one also has `remove`; one whose `delete` is the removed one also has `purge` |
| Managers.HardDeleteIsDjangoDelete | src/django_resurrected/managers.py:23-24 | `super().delete()` inside `hard_delete` reaches Django's delete on every library queryset class, never a soft one |
| Managers.ReachAllIsReachFrom | src/django_resurrected/managers.py:39-40 | the forward walk over a queryset's members depends only on which members there are, not on their order |
| Managers.Evaluate | src/django_resurrected/managers.py:30 | iterating a queryset yields exactly the instances of its member rows |
| Managers.QsRemove | src/django_resurrected/managers.py:28-31 | the members and their cascade are collected, and their saved soft-delete rows are marked removed at now; the result is their tally, and every member of a soft-delete model ends removed; earlier writes are kept and each table of the collection is written once more |
| Managers.QsRestore | src/django_resurrected/managers.py:38-43 | the rows of the forward walk from all members, and of the members plus their cascade, are restored in one effect; the total is the two tallies minus 1 and the map their merge; earlier writes are kept, then each table of the forward walk is written once, then each table of the reverse collection |
| Managers.QsRestoreTotal | src/django_resurrected/managers.py:38-43 | the members are in both the forward walk and the reverse collection; when these share no other saved soft-delete row, the total is the number of rows restored plus the number of members of a soft-delete model, minus 1 |
| Managers.QsRestoreOfNothing | src/django_resurrected/managers.py:38-43 | on an empty queryset, when the cascade collects nothing from no roots, both collections are empty: the total is -1, the map is empty, no row changes and no table is written |
| Managers.QsHardDelete | src/django_resurrected/managers.py:23-24 | the members and their cascade are physically deleted, the count is how many rows existed, and no member row remains; this is one write to the tables of those rows; an empty queryset deletes nothing and counts 0 when the cascade collects nothing from no roots |
| Managers.QsPurge | src/django_resurrected/managers.py:48-49 | exactly the expired members and their cascade are deleted; every expired member is gone, and every other row is unchanged; this is one write to the tables of those rows; with no expired member nothing is deleted and the count is 0, when the cascade collects nothing from no roots |
| Managers.QsDelete | src/django_resurrected/managers.py:33-52 | the outcome is that of `QsRemove`, `QsPurge` or `QsHardDelete`, as the class's `delete` resolves, writes included |
| Orm.Store.Apply | src/django_resurrected/collector.py:56 | `queryset.update(**kwargs)` sets the fields on exactly the rows of the primary-key set, returns how many of them existed, and is one write to that model's table |
| Orm.OneWriteEachMeaning | src/django_resurrected/collector.py:55-57 | one write each means: every model of the querysets is written alone, no other table is written, no write repeats, and there are as many writes as models |

## Left out

- Django's `NestedObjects` and deletion collector walk the reverse relations. They are a given function of the roots, `keep_parents` and `collect_related`; their internals and their ordering are not modelled.
- `Options.get_fields(include_hidden=True)` is a given sequence of fields with the flags the walk reads. `getattr(obj, field.name)` is a given map of set references, and a set reference is always truthy.
- Orm.Cascade: the cascade is any function of the roots. Django collects nothing from no roots; the model assumes this (`Orm.NothingFromNothing`) only in the statements about an empty queryset, `Managers.QsHardDelete`, `Managers.QsPurge` and `Managers.QsRestoreOfNothing`.
- Database routing and aliases (`using`, `router.db_for_write`, `self.db`) are left out.
- `timezone.now()` and `timedelta` are left out: time is a whole number of days passed in as `now`. All clock reads of one `delete` are one value: the two in `is_expired` (`src/django_resurrected/models.py:43` and `src/django_resurrected/models.py:49`) and the one in `remove` (`src/django_resurrected/collector.py:64`).
- Transactions and atomicity are left out; the code does not implement them.
- The SQL of `update` and `delete` is left out. A bulk update's count is the number of targeted rows that exist. A hard delete removes the targeted rows in one step.
- `django_resurrected/constants.py` is not part of this model. The default retention is the model's `retentionDays`; 30 days, the value the tests expect, appears only in `Models.NewInstanceNotExpired`.
- Models.Remove: an unsaved instance (primary key `None`) is unhashable in Django, so adding it to a collector raises `TypeError`, in Django's `NestedObjects` as in the forward walk (`src/django_resurrected/collector.py:88`). The model collects it instead and writes nothing for it, but it does write its cascade.
- Models.Restore: the same unsaved-instance error is not modelled.
- Models.HardDelete: Django's `Model.delete` raises `ValueError` for an unsaved instance; the model deletes its cascade instead.
- Collector.RelatedCollector.CollectForward: an unsaved object is collected instead of raising `TypeError`.
- Collector.RelatedCollector.CollectReverse: an unsaved root is collected instead of raising `TypeError`.
- An instance's primary key and in-memory fields after a delete or a bulk write (Django resets the key, and a write does not refresh the instance) are left out.
- Models.HardDelete: Django's per-model count dictionary is left out; only the row count is returned.
- Models.HardDelete: Django's deletion collector raises `ProtectedError` or `RestrictedError` on a `PROTECT` or `RESTRICT` dependent and then deletes nothing. `NestedObjects` records such objects and goes on. The model uses one cascade function for both, so it always deletes.
- Managers.QsHardDelete: the same protected and restricted dependents are not modelled; the model always deletes.
- Managers.QsPurge: the same protected and restricted dependents are not modelled; the model always deletes.
- Models.Delete: on the hard-delete path the same protected and restricted dependents are not modelled.
- Models.Delete: on the hard-delete path the per-label map is `None`, because Django's per-model dictionary is not modelled.
- Managers.QsHardDelete: only the row count is returned, for the same reason.
- Managers.QsDelete: on the purge and hard-delete paths the map is `None`, for the same reason.
- Collector.RelatedCollector.CollectForward: requires a rank that decreases along every required reference. On a cycle the source recurses without end, and that divergence is not modelled. The rank is over the whole reference graph passed in; the walk never leaves the objects reachable from its roots, so a caller may pass the graph cut down to those, and a cycle elsewhere then plays no part.
- Models.Restore: requires the same rank for the forward walk.
- Managers.QsRestore: requires the same rank for the forward walk.
- Managers.QsPurge: requires the model to have `retention_days`. The result of `removed_at__lt=None` is Django's and is not modelled.
- Managers.QsDelete: requires `retention_days` when `delete` resolves to `purge`, for the same reason.
- Collector.RelatedCollector.Update: the order in which the querysets are written is a free choice of the loop, and the final table does not depend on it.
- Collector.CountsAreRows: every model has a table of its own. Under multi-table inheritance a child's `is_removed` is its parent's column, so a collected child and its parent write and count the same row twice; the model counts them as two rows. Proxy models are left out too: Django compares instances by their concrete model and primary key, so a proxy instance equals the instance of its concrete model and shares its table, while the model treats each model as its own table and its instances as distinct.
- The queryset class for the rows of a collector is the model's `objects` manager, with no filter beyond the primary keys. Its own `delete` resolution plays no part in `update`.
