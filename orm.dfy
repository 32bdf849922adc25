/** The boundary the library relies on from Django and the database: model
    metadata, stored rows keyed by (model, primary key), bulk writes restricted
    to a primary-key set, and the cascade discovery of Django's collectors. */
module Orm {

  datatype Option<+T> = None | Some(value: T)

  /** One entry of `Options.get_fields(include_hidden=True)`, reduced to the
      flags the forward walk reads. */
  datatype Field = Field(
    name: string,
    autoCreated: bool,
    concrete: bool,
    oneToOne: bool,
    manyToOne: bool,
    nullable: bool)

  /** A model class: its `_meta.label`, whether it is a subclass of
      `SoftDeleteModel`, its `retention_days` class attribute and its fields. */
  datatype ModelClass = ModelClass(
    metaLabel: string,
    softDelete: bool,
    retentionDays: Option<int>,
    fields: seq<Field>)

  /** A model instance, identified by its model and primary key (`None` for an
      instance that was never saved). Django compares instances by concrete
      model and primary key; every model here is its own concrete model, since
      proxy models are not part of this model. */
  datatype Obj = Obj(model: ModelClass, pk: Option<int>)

  /** The two columns `SoftDeleteModel` adds; timestamps are whole days. */
  datatype Row = Row(isRemoved: bool, removedAt: Option<int>)

  /** A stored row is addressed by its model's table and its primary key. */
  type RowKey = (ModelClass, int)

  /** The row a saved instance is stored under. */
  function RowOf(o: Obj): RowKey
    requires o.pk.Some?
  {
    (o.model, o.pk.value)
  }

  /** The instance stored under a row: the inverse of `RowOf`. */
  function ObjOf(k: RowKey): (o: Obj)
    ensures o.pk.Some? && RowOf(o) == k
    ensures forall x: Obj :: x.pk.Some? && RowOf(x) == k ==> x == o
  {
    Obj(k.0, Some(k.1))
  }

  /** `model_objs` of a collector: objects grouped by model. */
  type Collected = map<ModelClass, set<Obj>>

  /** Django's cascade discovery (the `collect` of `NestedObjects` and of the
      deletion collector): given roots, `keep_parents` and `collect_related`,
      the objects a cascading delete of the roots would reach besides the
      roots themselves. Its internals are not part of this model. */
  type Cascade = (set<Obj>, bool, bool) -> set<Obj>

  /** Django's collectors collect nothing from no roots: `collect` on an empty
      list returns at once. */
  predicate NothingFromNothing(cascade: Cascade)
  {
    forall keepParents: bool, collectRelated: bool :: cascade({}, keepParents, collectRelated) == {}
  }

  /** A row is targeted by per-model primary-key sets when its model has a set
      holding its primary key. */
  predicate Targets(qs: map<ModelClass, set<int>>, k: RowKey)
  {
    k.0 in qs && k.1 in qs[k.0]
  }

  /** The existing rows among `keys` that the per-model primary-key sets
      `qs` target. */
  function Hits(qs: map<ModelClass, set<int>>, keys: set<RowKey>): set<RowKey>
  {
    set k | k in keys && Targets(qs, k)
  }

  /** A bulk write: `QuerySet.update(**fields)` or `QuerySet.delete()`. */
  datatype Write = SetFields(fields: Row) | DeleteRows

  /** The table after the write `w` to the rows targeted by `qs`; no other row
      changes. */
  function Applied(rows: map<RowKey, Row>, qs: map<ModelClass, set<int>>, w: Write): map<RowKey, Row>
  {
    match w
    case SetFields(f) => map k | k in rows :: if Targets(qs, k) then f else rows[k]
    case DeleteRows => map k | k in rows && !Targets(qs, k) :: rows[k]
  }

  /** Per-model union of two families of primary-key sets. */
  function UnionQs(q1: map<ModelClass, set<int>>, q2: map<ModelClass, set<int>>): (r: map<ModelClass, set<int>>)
    ensures forall k :: Targets(r, k) <==> Targets(q1, k) || Targets(q2, k)
  {
    map m | m in q1.Keys + q2.Keys ::
      (if m in q1 then q1[m] else {}) + (if m in q2 then q2[m] else {})
  }

  /** Two writes of the same kind amount to one write to both row families. */
  lemma AppliedTwice(rows: map<RowKey, Row>, q1: map<ModelClass, set<int>>, q2: map<ModelClass, set<int>>, w: Write)
    ensures Applied(Applied(rows, q1, w), q2, w) == Applied(rows, UnionQs(q1, q2), w)
  {
  }

  /** A write to no rows changes nothing. */
  lemma AppliedNothing(rows: map<RowKey, Row>, w: Write)
    ensures Applied(rows, map[], w) == rows
  {
  }

  /** Setting fields neither adds nor deletes rows. */
  lemma SetFieldsKeepsKeys(rows: map<RowKey, Row>, qs: map<ModelClass, set<int>>, f: Row)
    ensures Applied(rows, qs, SetFields(f)).Keys == rows.Keys
  {
  }

  /** A write only depends on which rows it targets. */
  lemma AppliedSameTargets(rows: map<RowKey, Row>, q1: map<ModelClass, set<int>>, q2: map<ModelClass, set<int>>, w: Write)
    requires forall k :: Targets(q1, k) <==> Targets(q2, k)
    ensures Applied(rows, q1, w) == Applied(rows, q2, w)
  {
  }

  /** The models of the saved objects among `objs`. */
  function SavedModels(objs: set<Obj>): set<ModelClass>
  {
    set o | o in objs && o.pk.Some? :: o.model
  }

  /** The primary keys of the saved objects of `objs`, per model: what a
      deletion collector deletes, whatever the model. */
  function PkMap(objs: set<Obj>): map<ModelClass, set<int>>
  {
    map m | m in SavedModels(objs) :: set o | o in objs && o.model == m && o.pk.Some? :: o.pk.value
  }

  /** `PkMap` targets exactly the rows of the saved objects. */
  lemma PkMapTargets(objs: set<Obj>, k: RowKey)
    ensures Targets(PkMap(objs), k) <==> Obj(k.0, Some(k.1)) in objs
  {
    if Obj(k.0, Some(k.1)) in objs {
      assert k.0 in SavedModels(objs);
    }
  }

  /** The database: every stored row by (model, pk). */
  class Store {
    var rows: map<RowKey, Row>
    /** The tables each bulk write issued so far reached, in order. */
    ghost var writes: seq<set<ModelClass>>

    constructor (initial: map<RowKey, Row>)
      ensures rows == initial && writes == []
    {
      rows := initial;
      writes := [];
    }

    /** `model.objects.filter(pk__in=pks)` followed by the write `w`; the count
        is the number of those rows that exist. One write, to one table. */
    method Apply(m: ModelClass, pks: set<int>, w: Write) returns (count: nat)
      modifies this
      ensures count == |Hits(map[m := pks], old(rows).Keys)|
      ensures rows == Applied(old(rows), map[m := pks], w)
      ensures writes == old(writes) + [{m}]
    {
      count := |Hits(map[m := pks], rows.Keys)|;
      rows := Applied(rows, map[m := pks], w);
      writes := writes + [{m}];
    }

    /** One write to the rows of several models at once: Django's deletion
        collector deleting everything it collected. */
    method ApplyAll(qs: map<ModelClass, set<int>>, w: Write) returns (count: nat)
      modifies this
      ensures count == |Hits(qs, old(rows).Keys)|
      ensures rows == Applied(old(rows), qs, w)
      ensures writes == old(writes) + [qs.Keys]
    {
      count := |Hits(qs, rows.Keys)|;
      rows := Applied(rows, qs, w);
      writes := writes + [qs.Keys];
    }
  }

  /** A log of writes holds exactly one write per table of `models`, each
      reaching that table alone: its last write reaches one table of
      `models`, and the writes before it do the same for the other tables. */
  predicate OneWriteEach(log: seq<set<ModelClass>>, models: set<ModelClass>)
    decreases |log|
  {
    if log == [] then models == {}
    else
      var last := log[|log| - 1];
      |last| == 1 && last <= models && OneWriteEach(log[..|log| - 1], models - last)
  }

  /** One more write, to a table not written yet, keeps one write each. */
  lemma OneWriteEachStep(log: seq<set<ModelClass>>, models: set<ModelClass>, m: ModelClass)
    requires OneWriteEach(log, models) && m !in models
    ensures OneWriteEach(log + [{m}], models + {m})
  {
    assert (log + [{m}])[..|log|] == log;
    assert (models + {m}) - {m} == models;
  }

  /** What one write each means: every table of `models` is written alone,
      nothing else is written, and no write is repeated, so there are as
      many writes as tables. */
  lemma OneWriteEachMeaning(log: seq<set<ModelClass>>, models: set<ModelClass>)
    requires OneWriteEach(log, models)
    ensures forall i :: 0 <= i < |log| ==> |log[i]| == 1 && log[i] <= models
    ensures forall m :: m in models <==> {m} in log
    ensures forall i, j :: 0 <= i < j < |log| ==> log[i] != log[j]
    ensures |log| == |models|
  {
    OneWriteEachEntries(log, models);
    OneWriteEachCovers(log, models);
    OneWriteEachDistinct(log, models);
    OneWriteEachCount(log, models);
  }

  /** A set of one element is that element's singleton. */
  lemma Single<T>(s: set<T>) returns (x: T)
    requires |s| == 1
    ensures s == {x}
  {
    x :| x in s;
    assert |s - {x}| == 0;
  }

  /** The last write of a non-empty log and the writes before it. */
  lemma LastWrite(log: seq<set<ModelClass>>, models: set<ModelClass>) returns (m: ModelClass)
    requires log != [] && OneWriteEach(log, models)
    ensures log[|log| - 1] == {m} && m in models
    ensures OneWriteEach(log[..|log| - 1], models - {m})
    ensures log == log[..|log| - 1] + [{m}]
  {
    m := Single(log[|log| - 1]);
  }

  lemma {:induction false} OneWriteEachEntries(log: seq<set<ModelClass>>, models: set<ModelClass>)
    requires OneWriteEach(log, models)
    ensures forall i :: 0 <= i < |log| ==> |log[i]| == 1 && log[i] <= models
    decreases |log|
  {
    if log != [] {
      var m := LastWrite(log, models);
      var front := log[..|log| - 1];
      OneWriteEachEntries(front, models - {m});
      forall i | 0 <= i < |log| ensures |log[i]| == 1 && log[i] <= models {
        if i < |front| {
          assert log[i] == front[i];
        }
      }
    }
  }

  lemma {:induction false} OneWriteEachCovers(log: seq<set<ModelClass>>, models: set<ModelClass>)
    requires OneWriteEach(log, models)
    ensures forall x :: x in models <==> {x} in log
    decreases |log|
  {
    if log != [] {
      var m := LastWrite(log, models);
      var front := log[..|log| - 1];
      OneWriteEachCovers(front, models - {m});
      forall x ensures x in models <==> {x} in log {
        if x == m {
          assert log[|front|] == {x};
        } else if x in models {
          assert {x} in front;
        }
      }
    }
  }

  lemma {:induction false} OneWriteEachDistinct(log: seq<set<ModelClass>>, models: set<ModelClass>)
    requires OneWriteEach(log, models)
    ensures forall i, j :: 0 <= i < j < |log| ==> log[i] != log[j]
    decreases |log|
  {
    if log != [] {
      var m := LastWrite(log, models);
      var front := log[..|log| - 1];
      OneWriteEachDistinct(front, models - {m});
      OneWriteEachEntries(front, models - {m});
      forall i, j | 0 <= i < j < |log| ensures log[i] != log[j] {
        assert log[i] == front[i];
        if j < |front| {
          assert log[j] == front[j];
        } else {
          assert m !in front[i];
        }
      }
    }
  }

  lemma {:induction false} OneWriteEachCount(log: seq<set<ModelClass>>, models: set<ModelClass>)
    requires OneWriteEach(log, models)
    ensures |log| == |models|
    decreases |log|
  {
    if log != [] {
      var m := LastWrite(log, models);
      OneWriteEachCount(log[..|log| - 1], models - {m});
    }
  }
}
