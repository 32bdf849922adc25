/** The collectors of django_resurrected (src/django_resurrected/collector.py):
    which collected objects take part in a soft-delete write, the one bulk
    write per model with its per-label tally, and the forward walk over
    required references. */
module Collector {
  import opened Orm
  import opened Sums

  // ---------------------------------------------------------------------
  // Classifier

  /** `is_soft_delete` accepts a model class or a model instance. */
  datatype ModelOrInstance = ModelRef(model: ModelClass) | InstanceRef(obj: Obj)

  /** `is_soft_delete`: an instance is resolved to its class, then the class is
      checked for being a subclass of `SoftDeleteModel`. */
  function IsSoftDelete(x: ModelOrInstance): bool
  {
    var modelClass := match x
      case ModelRef(m) => m
      case InstanceRef(o) => o.model;
    modelClass.softDelete
  }

  /** An instance and its class are classified alike, and a class is classified
      by its `SoftDeleteModel` ancestry. */
  lemma InstanceClassifiedAsItsClass(o: Obj)
    ensures IsSoftDelete(InstanceRef(o)) == IsSoftDelete(ModelRef(o.model))
    ensures IsSoftDelete(ModelRef(o.model)) <==> o.model.softDelete
  {
  }

  // ---------------------------------------------------------------------
  // From collected objects to bulk writes

  /** The objects of `objs` whose class is `m`. */
  function ObjsOf(objs: set<Obj>, m: ModelClass): (r: set<Obj>)
    ensures forall o :: o in r <==> o in objs && o.model == m
  {
    set o | o in objs && o.model == m
  }

  /** `model_objs`, the `defaultdict(set)` a collector fills: every collected
      object sits in the set of its own class, and a class is a key only once
      an object of it was added. */
  function ModelObjs(objs: set<Obj>): (r: Collected)
    ensures forall o :: o in objs ==> o.model in r && o in r[o.model]
    ensures forall m :: m in r ==> r[m] == ObjsOf(objs, m) && r[m] != {}
  {
    map o | o in objs :: o.model := ObjsOf(objs, o.model)
  }

  /** `model_objs_for_update`: exactly the entries of a soft-delete model, with
      their object sets unchanged. */
  function ModelObjsForUpdate(modelObjs: Collected): (r: Collected)
    ensures forall m :: m in r <==> m in modelObjs && IsSoftDelete(ModelRef(m))
    ensures forall m :: m in r ==> r[m] == modelObjs[m]
  {
    map m | m in modelObjs && IsSoftDelete(ModelRef(m)) :: modelObjs[m]
  }

  /** The primary keys of the objects that have one (`pk_list`). */
  function PkSet(objs: set<Obj>): (r: set<int>)
    ensures forall o :: o in objs && o.pk.Some? ==> o.pk.value in r
    ensures forall p :: p in r <==> exists o :: o in objs && o.pk == Some(p)
  {
    set o | o in objs && o.pk.Some? :: o.pk.value
  }

  /** What `querysets_for_update` denotes: one primary-key set per soft-delete
      model whose `pk_list` is not empty. */
  function QuerysetsFor(modelObjs: Collected): map<ModelClass, set<int>>
  {
    var forUpdate := ModelObjsForUpdate(modelObjs);
    map m | m in forUpdate && PkSet(forUpdate[m]) != {} :: PkSet(forUpdate[m])
  }

  /** A family of primary-key sets with the keys and values of
      `querysets_for_update` is `QuerysetsFor`. */
  lemma QuerysetsForAgree(forUpdate: Collected, modelObjs: Collected, qs: map<ModelClass, set<int>>)
    requires forUpdate == ModelObjsForUpdate(modelObjs)
    requires forall m :: m in qs <==> m in forUpdate && PkSet(forUpdate[m]) != {}
    requires forall m :: m in qs ==> qs[m] == PkSet(forUpdate[m])
    ensures qs == QuerysetsFor(modelObjs)
  {
    assert qs.Keys == QuerysetsFor(modelObjs).Keys;
  }

  /** The rows the querysets of a collector reach are exactly the stored forms
      of its saved objects of soft-delete models: unsaved objects and objects
      of other models are never written. */
  lemma QuerysetsTargetSavedSoftObjects(objs: set<Obj>, k: RowKey)
    ensures Targets(QuerysetsFor(ModelObjs(objs)), k) <==>
            k.0.softDelete && Obj(k.0, Some(k.1)) in objs
  {
    var mo := ModelObjs(objs);
    var forUpdate := ModelObjsForUpdate(mo);
    var o := Obj(k.0, Some(k.1));
    if k.0.softDelete && o in objs {
      assert o in forUpdate[k.0];
      assert k.1 in PkSet(forUpdate[k.0]);
    }
    if Targets(QuerysetsFor(mo), k) {
      var x: Obj :| x in forUpdate[k.0] && x.pk.Some? && x.pk.value == k.1;
      assert x == o;
    }
  }

  /** The stored rows of the saved objects of soft-delete models among
      `objs`. */
  function SavedSoftRows(objs: set<Obj>, keys: set<RowKey>): (r: set<RowKey>)
    ensures forall k :: k in r <==> k in keys && k.0.softDelete && Obj(k.0, Some(k.1)) in objs
  {
    set k | k in keys && k.0.softDelete && Obj(k.0, Some(k.1)) in objs
  }

  /** The rows `update` reaches are exactly the stored rows of the collected
      saved objects of soft-delete models. */
  lemma HitsAreSavedSoftRows(objs: set<Obj>, keys: set<RowKey>)
    ensures Hits(QuerysetsFor(ModelObjs(objs)), keys) == SavedSoftRows(objs, keys)
  {
    forall k ensures k in Hits(QuerysetsFor(ModelObjs(objs)), keys) <==> k in SavedSoftRows(objs, keys) {
      QuerysetsTargetSavedSoftObjects(objs, k);
    }
  }

  /** A soft-delete write through the querysets of `objs`: the stored rows of
      its saved soft-delete objects get `fields`, every other row keeps its
      value, and no row appears or disappears. */
  lemma WriteTouchesOnlySavedSoftRows(rows: map<RowKey, Row>, objs: set<Obj>, fields: Row)
    ensures Applied(rows, QuerysetsFor(ModelObjs(objs)), SetFields(fields)).Keys == rows.Keys
    ensures forall k :: k in rows ==>
      Applied(rows, QuerysetsFor(ModelObjs(objs)), SetFields(fields))[k] ==
        (if k.0.softDelete && Obj(k.0, Some(k.1)) in objs then fields else rows[k])
  {
    forall k | k in rows
      ensures Applied(rows, QuerysetsFor(ModelObjs(objs)), SetFields(fields))[k] ==
        (if k.0.softDelete && Obj(k.0, Some(k.1)) in objs then fields else rows[k])
    {
      QuerysetsTargetSavedSoftObjects(objs, k);
    }
  }

  /** `queryset.update(...)` per model: how many of its rows exist. */
  function Counts(qs: map<ModelClass, set<int>>, keys: set<RowKey>): map<ModelClass, int>
  {
    map m | m in qs :: |Hits(map[m := qs[m]], keys)|
  }

  function Labels(counts: map<ModelClass, int>): (r: set<string>)
    ensures forall m :: m in counts ==> m.metaLabel in r
  {
    set m | m in counts :: m.metaLabel
  }

  /** The entries of the models labelled `l`. */
  function OfLabel(counts: map<ModelClass, int>, l: string): (r: map<ModelClass, int>)
    ensures forall m :: m in r <==> m in counts && m.metaLabel == l
    ensures forall m :: m in r ==> r[m] == counts[m]
  {
    map m | m in counts && m.metaLabel == l :: counts[m]
  }

  /** The `Counter` keyed by `_meta.label`: every model that produced a
      queryset creates its label's key, even with a count of 0, and models
      sharing a label share its count. */
  ghost function PerLabel(counts: map<ModelClass, int>): map<string, int>
  {
    map l | l in Labels(counts) :: SumMap(OfLabel(counts, l))
  }

  /** `counter[key] += c` on a `Counter`. */
  function Bump(counter: map<string, int>, key: string, c: int): map<string, int>
  {
    counter[key := (if key in counter then counter[key] else 0) + c]
  }

  /** Before the first queryset the counter is empty. */
  lemma NothingCounted(keys: set<RowKey>)
    ensures PerLabel(Counts(map[], keys)) == map[]
  {
    assert Counts(map[], keys) == map[];
    assert Labels(map[]) == {};
  }

  /** A bump adds its amount to the sum of the counter. */
  lemma SumBump(counter: map<string, int>, key: string, c: int)
    ensures SumMap(Bump(counter, key, c)) == SumMap(counter) + c
  {
    SumMapAdd(counter, key, c);
  }

  /** The result of `update`: the number of rows written and the per-label
      counter. */
  ghost function Tally(objs: set<Obj>, keys: set<RowKey>): (int, map<string, int>)
  {
    var qs := QuerysetsFor(ModelObjs(objs));
    (|Hits(qs, keys)|, PerLabel(Counts(qs, keys)))
  }

  lemma OfLabelSame(counts: map<ModelClass, int>, m: ModelClass)
    requires m in counts
    ensures OfLabel(counts, m.metaLabel) == OfLabel(counts - {m}, m.metaLabel)[m := counts[m]]
  {
  }

  lemma OfLabelOther(counts: map<ModelClass, int>, m: ModelClass, l: string)
    requires l != m.metaLabel
    ensures OfLabel(counts, l) == OfLabel(counts - {m}, l)
  {
  }

  lemma LabelsPick(counts: map<ModelClass, int>, m: ModelClass)
    requires m in counts
    ensures Labels(counts) == Labels(counts - {m}) + {m.metaLabel}
  {
    forall l | l in Labels(counts) ensures l in Labels(counts - {m}) + {m.metaLabel} {
      var x :| x in counts && x.metaLabel == l;
    }
  }

  lemma OfLabelAbsent(counts: map<ModelClass, int>, l: string)
    requires l !in Labels(counts)
    ensures OfLabel(counts, l) == map[]
  {
  }

  lemma PerLabelSame(counts: map<ModelClass, int>, m: ModelClass)
    requires m in counts
    ensures SumMap(OfLabel(counts, m.metaLabel)) ==
            (if m.metaLabel in Labels(counts - {m}) then SumMap(OfLabel(counts - {m}, m.metaLabel)) else 0)
            + counts[m]
  {
    var l := m.metaLabel;
    OfLabelSame(counts, m);
    SumMapAdd(OfLabel(counts - {m}, l), m, counts[m]);
    if l !in Labels(counts - {m}) {
      OfLabelAbsent(counts - {m}, l);
    }
  }

  lemma PerLabelAt(counts: map<ModelClass, int>, m: ModelClass, l: string)
    requires m in counts
    requires l in PerLabel(counts)
    ensures PerLabel(counts)[l] == Bump(PerLabel(counts - {m}), m.metaLabel, counts[m])[l]
  {
    if l == m.metaLabel {
      PerLabelSame(counts, m);
    } else {
      OfLabelOther(counts, m, l);
    }
  }

  /** Counting one more model adds its count under its label. */
  lemma PerLabelAdd(counts: map<ModelClass, int>, m: ModelClass)
    requires m in counts
    ensures PerLabel(counts) == Bump(PerLabel(counts - {m}), m.metaLabel, counts[m])
  {
    var left := PerLabel(counts);
    var right := Bump(PerLabel(counts - {m}), m.metaLabel, counts[m]);
    PerLabelKeys(counts, m);
    forall l | l in left ensures left[l] == right[l] {
      PerLabelAt(counts, m, l);
    }
  }

  lemma PerLabelKeys(counts: map<ModelClass, int>, m: ModelClass)
    requires m in counts
    ensures PerLabel(counts).Keys == Bump(PerLabel(counts - {m}), m.metaLabel, counts[m]).Keys
  {
    LabelsPick(counts, m);
  }

  /** Summing the per-label counter gives the sum of the per-model counts. */
  lemma {:induction false} SumPerLabel(counts: map<ModelClass, int>)
    ensures SumMap(PerLabel(counts)) == SumMap(counts)
    decreases counts.Keys
  {
    if counts == map[] {
      assert Labels(counts) == {};
      assert PerLabel(counts) == map[];
    } else {
      var m :| m in counts;
      SumPerLabel(counts - {m});
      PerLabelAdd(counts, m);
      SumBump(PerLabel(counts - {m}), m.metaLabel, counts[m]);
      SumMapPick(counts, m);
    }
  }

  /** The per-model counts add up to the number of distinct existing rows
      targeted: each model is a table of its own, so no row is counted twice. */
  lemma {:induction false} CountsAreRows(qs: map<ModelClass, set<int>>, keys: set<RowKey>)
    ensures SumMap(Counts(qs, keys)) == |Hits(qs, keys)|
    decreases qs.Keys
  {
    if qs == map[] {
      assert Hits(qs, keys) == {};
    } else {
      var m :| m in qs;
      var rest := qs - {m};
      CountsAreRows(rest, keys);
      CountsPick(qs, m, keys);
      SumMapPick(Counts(qs, keys), m);
      HitsPick(qs, m, keys);
    }
  }

  lemma CountsPick(qs: map<ModelClass, set<int>>, m: ModelClass, keys: set<RowKey>)
    requires m in qs
    ensures Counts(qs, keys) - {m} == Counts(qs - {m}, keys)
    ensures m in Counts(qs, keys) && Counts(qs, keys)[m] == |Hits(map[m := qs[m]], keys)|
  {
  }

  /** The rows targeted for one model are apart from those of the others. */
  lemma HitsPick(qs: map<ModelClass, set<int>>, m: ModelClass, keys: set<RowKey>)
    requires m in qs
    ensures Hits(qs, keys) == Hits(qs - {m}, keys) + Hits(map[m := qs[m]], keys)
    ensures Hits(qs - {m}, keys) * Hits(map[m := qs[m]], keys) == {}
  {
  }

  /** The total of `update` is the sum of its per-label counter. */
  lemma TallyTotalIsSumOfLabels(objs: set<Obj>, keys: set<RowKey>)
    ensures Tally(objs, keys).0 == SumMap(Tally(objs, keys).1)
  {
    var qs := QuerysetsFor(ModelObjs(objs));
    SumPerLabel(Counts(qs, keys));
    CountsAreRows(qs, keys);
  }

  /** What `update` returns, in terms of the collected objects: the total
      is the number of stored rows of saved soft-delete objects, and every
      model that produced a queryset has its label in the map, even when
      none of its rows exists, and no other label is. */
  lemma TallyMeaning(objs: set<Obj>, keys: set<RowKey>)
    ensures Tally(objs, keys).0 == |SavedSoftRows(objs, keys)|
    ensures Tally(objs, keys).0 == SumMap(Tally(objs, keys).1)
    ensures forall o :: o in objs && o.model.softDelete && o.pk.Some? ==>
      o.model.metaLabel in Tally(objs, keys).1
    ensures forall l :: l in Tally(objs, keys).1 <==>
      exists o :: o in objs && o.model.softDelete && o.pk.Some? && o.model.metaLabel == l
  {
    forall l ensures l in Tally(objs, keys).1 <==>
      exists o :: o in objs && o.model.softDelete && o.pk.Some? && o.model.metaLabel == l
    {
      TallyLabels(objs, keys, l);
    }
    HitsAreSavedSoftRows(objs, keys);
    TallyTotalIsSumOfLabels(objs, keys);
    var qs := QuerysetsFor(ModelObjs(objs));
    forall o | o in objs && o.model.softDelete && o.pk.Some?
      ensures o.model.metaLabel in Tally(objs, keys).1
    {
      QuerysetsTargetSavedSoftObjects(objs, (o.model, o.pk.value));
      assert o.model in Counts(qs, keys);
    }
  }

  /** A label is a key of `update`'s counter exactly when a saved collected
      object of a soft-delete model carries it. */
  lemma TallyLabels(objs: set<Obj>, keys: set<RowKey>, l: string)
    ensures l in Tally(objs, keys).1 <==>
      exists o :: o in objs && o.model.softDelete && o.pk.Some? && o.model.metaLabel == l
  {
    var qs := QuerysetsFor(ModelObjs(objs));
    var counts := Counts(qs, keys);
    assert Tally(objs, keys).1 == PerLabel(counts);
    if l in PerLabel(counts) {
      var m := LabelOwner(counts, l);
      SavedSoftOwner(objs, m);
    }
    if exists o :: o in objs && o.model.softDelete && o.pk.Some? && o.model.metaLabel == l {
      var o :| o in objs && o.model.softDelete && o.pk.Some? && o.model.metaLabel == l;
      QuerysetsTargetSavedSoftObjects(objs, (o.model, o.pk.value));
      assert o.model in counts;
      assert l in Labels(counts);
    }
  }

  /** A label of the counter comes from a model that was counted. */
  lemma LabelOwner(counts: map<ModelClass, int>, l: string) returns (m: ModelClass)
    requires l in PerLabel(counts)
    ensures m in counts && m.metaLabel == l
  {
    assert l in Labels(counts);
    m :| m in counts && m.metaLabel == l;
  }

  lemma Element<T>(s: set<T>) returns (x: T)
    requires s != {}
    ensures x in s
  {
    x :| x in s;
  }

  /** A model with a queryset for update has a saved collected object. */
  lemma SavedSoftOwner(objs: set<Obj>, m: ModelClass)
    requires m in QuerysetsFor(ModelObjs(objs))
    ensures exists o :: o in objs && o.model == m && m.softDelete && o.pk.Some?
  {
    var forUpdate := ModelObjsForUpdate(ModelObjs(objs));
    assert m in forUpdate && PkSet(forUpdate[m]) != {};
    var p := Element(PkSet(forUpdate[m]));
    var o: Obj :| o in forUpdate[m] && o.pk == Some(p);
    assert o in objs && o.model == m;
  }

  /** `sum(counter.values())`. */
  method SumValues(counter: map<string, int>) returns (s: int)
    ensures s == SumMap(counter)
  {
    s := 0;
    var rest := counter.Keys;
    while rest != {}
      invariant rest <= counter.Keys
      invariant s + SumOver(counter, rest) == SumMap(counter)
      decreases rest
    {
      var l :| l in rest;
      SumOverPick(counter, rest, l);
      s := s + counter[l];
      rest := rest - {l};
    }
  }

  // ---------------------------------------------------------------------
  // The two fixed field sets

  /** `RemoveMixin.remove`: one `now` for every row of the call. */
  function RemovedFields(now: int): Row
  {
    Row(true, Some(now))
  }

  /** `RestoreMixin.restore`. */
  const RestoredFields: Row := Row(false, None)

  /** The invariant the two field sets keep: `removed_at` is set iff
      `is_removed`. */
  predicate Consistent(r: Row)
  {
    r.isRemoved <==> r.removedAt.Some?
  }

  /** Both field sets are consistent, so every row they touch ends consistent
      and a consistent table stays consistent. */
  lemma SoftWritesKeepConsistency(rows: map<RowKey, Row>, qs: map<ModelClass, set<int>>, now: int, restoring: bool)
    ensures var w := SetFields(if restoring then RestoredFields else RemovedFields(now));
      && (forall k :: k in rows && Targets(qs, k) ==> Consistent(Applied(rows, qs, w)[k]))
      && ((forall k :: k in rows ==> Consistent(rows[k])) ==>
          (forall k :: k in Applied(rows, qs, w) ==> Consistent(Applied(rows, qs, w)[k])))
  {
  }

  // ---------------------------------------------------------------------
  // Forward walk

  /** `get_candidate_relations_to_restore`'s filter. */
  predicate IsCandidate(f: Field)
  {
    !f.autoCreated && f.concrete && (f.oneToOne || f.manyToOne)
  }

  /** `get_candidate_relations_to_restore`: the non-auto-created, concrete,
      one-to-one or many-to-one fields, in their declared order. */
  function CandidateRelationsToRestore(fields: seq<Field>): (r: seq<Field>)
    ensures forall f :: f in r <==> f in fields && IsCandidate(f)
    ensures |r| <= |fields|
  {
    if fields == [] then []
    else
      var rest := CandidateRelationsToRestore(fields[1..]);
      if IsCandidate(fields[0]) then [fields[0]] + rest else rest
  }

  /** The value of `getattr(obj, field.name)` for each set relation field. */
  datatype RefGraph = RefGraph(refs: map<(Obj, string), Obj>)

  /** A field the forward walk follows: a candidate that is not nullable. */
  predicate Required(f: Field)
  {
    IsCandidate(f) && !f.nullable
  }

  /** `o` has a required field `f` that is set. */
  predicate RequiredRef(g: RefGraph, o: Obj, f: Field)
  {
    f in o.model.fields && Required(f) && (o, f.name) in g.refs
  }

  /** The forward walk has no visited check, so it only terminates when the
      required references are acyclic: `rank` strictly decreases along each. */
  ghost predicate Ranked(g: RefGraph, rank: Obj -> nat)
  {
    forall o: Obj, f: Field :: RequiredRef(g, o, f) ==> rank(g.refs[(o, f.name)]) < rank(o)
  }

  /** `o` and everything reached from it through required references. */
  ghost function Reach(g: RefGraph, rank: Obj -> nat, o: Obj): set<Obj>
    requires Ranked(g, rank)
    decreases rank(o), 1, 0
  {
    {o} + ReachVia(g, rank, o, CandidateRelationsToRestore(o.model.fields))
  }

  /** What the fields `fs` of `o` contribute to the walk from `o`. */
  ghost function ReachVia(g: RefGraph, rank: Obj -> nat, o: Obj, fs: seq<Field>): set<Obj>
    requires Ranked(g, rank)
    requires forall f :: f in fs ==> f in o.model.fields && IsCandidate(f)
    decreases rank(o), 0, |fs|
  {
    if fs == [] then {}
    else
      var f := fs[|fs| - 1];
      ReachVia(g, rank, o, fs[..|fs| - 1]) +
      (if !f.nullable && (o, f.name) in g.refs then
         assert RequiredRef(g, o, f);
         Reach(g, rank, g.refs[(o, f.name)])
       else {})
  }

  /** Everything reached from the objects `objs`. */
  ghost function ReachAll(g: RefGraph, rank: Obj -> nat, objs: seq<Obj>): set<Obj>
    requires Ranked(g, rank)
  {
    if objs == [] then {}
    else ReachAll(g, rank, objs[..|objs| - 1]) + Reach(g, rank, objs[|objs| - 1])
  }

  ghost function MaxRank(rank: Obj -> nat, objs: seq<Obj>): nat
  {
    if objs == [] then 0
    else
      var r := MaxRank(rank, objs[1..]);
      if rank(objs[0]) < r then r else rank(objs[0])
  }

  lemma {:induction false} MaxRankBound(rank: Obj -> nat, objs: seq<Obj>, i: nat)
    requires i < |objs|
    ensures rank(objs[i]) <= MaxRank(rank, objs)
  {
    if i > 0 {
      MaxRankBound(rank, objs[1..], i - 1);
    }
  }

  /** `s` holds the target of every required reference of its members. */
  ghost predicate Closed(g: RefGraph, s: set<Obj>)
  {
    forall o: Obj, f: Field :: o in s && RequiredRef(g, o, f) ==> g.refs[(o, f.name)] in s
  }

  /** Every object the fields `fs` lead to from `o` is reached through one of
      those fields that is required and set. */
  lemma {:induction false} ReachViaWitness(g: RefGraph, rank: Obj -> nat, o: Obj, fs: seq<Field>, x: Obj)
    returns (f: Field)
    requires Ranked(g, rank)
    requires forall f :: f in fs ==> f in o.model.fields && IsCandidate(f)
    requires x in ReachVia(g, rank, o, fs)
    ensures f in fs && RequiredRef(g, o, f) && x in Reach(g, rank, g.refs[(o, f.name)])
    decreases |fs|
  {
    var last := fs[|fs| - 1];
    if x in ReachVia(g, rank, o, fs[..|fs| - 1]) {
      f := ReachViaWitness(g, rank, o, fs[..|fs| - 1], x);
    } else {
      f := last;
    }
  }

  /** Every required, set field among `fs` contributes what its target
      reaches. */
  lemma {:induction false} ReachViaCovers(g: RefGraph, rank: Obj -> nat, o: Obj, fs: seq<Field>, f: Field)
    requires Ranked(g, rank)
    requires forall f :: f in fs ==> f in o.model.fields && IsCandidate(f)
    requires f in fs && RequiredRef(g, o, f)
    ensures Reach(g, rank, g.refs[(o, f.name)]) <= ReachVia(g, rank, o, fs)
    decreases |fs|
  {
    if fs[|fs| - 1] != f {
      ReachViaCovers(g, rank, o, fs[..|fs| - 1], f);
    }
  }

  /** The walk from `o` is the least set that holds `o` and is closed under
      required references: it follows all of them and nothing else. */
  lemma {:induction false} ReachIsLeast(g: RefGraph, rank: Obj -> nat, o: Obj, s: set<Obj>)
    requires Ranked(g, rank)
    requires o in s && Closed(g, s)
    ensures Reach(g, rank, o) <= s
    decreases rank(o)
  {
    var fs := CandidateRelationsToRestore(o.model.fields);
    forall x | x in ReachVia(g, rank, o, fs) ensures x in s {
      var f := ReachViaWitness(g, rank, o, fs, x);
      ReachIsLeast(g, rank, g.refs[(o, f.name)], s);
    }
  }

  /** Whatever the walk reaches from a reached object, it reaches too. */
  lemma {:induction false} ReachTransitive(g: RefGraph, rank: Obj -> nat, o: Obj, x: Obj)
    requires Ranked(g, rank)
    requires x in Reach(g, rank, o)
    ensures Reach(g, rank, x) <= Reach(g, rank, o)
    decreases rank(o)
  {
    if x != o {
      var fs := CandidateRelationsToRestore(o.model.fields);
      var f := ReachViaWitness(g, rank, o, fs, x);
      var t := g.refs[(o, f.name)];
      ReachTransitive(g, rank, t, x);
      ReachViaCovers(g, rank, o, fs, f);
    }
  }

  /** The walk from `o` holds `o` and is closed under required references. */
  lemma ReachIsClosed(g: RefGraph, rank: Obj -> nat, o: Obj)
    requires Ranked(g, rank)
    ensures o in Reach(g, rank, o)
    ensures Closed(g, Reach(g, rank, o))
  {
    forall x: Obj, f: Field | x in Reach(g, rank, o) && RequiredRef(g, x, f)
      ensures g.refs[(x, f.name)] in Reach(g, rank, o)
    {
      var fs := CandidateRelationsToRestore(x.model.fields);
      ReachViaCovers(g, rank, x, fs, f);
      ReachTransitive(g, rank, o, x);
    }
  }

  /** The objects of a sequence, as a set. */
  function Elems(objs: seq<Obj>): set<Obj>
  {
    set o | o in objs
  }

  // ---------------------------------------------------------------------
  // The collectors

  /** `ForwardRelatedCollector` or `ReverseRelatedCollector`. */
  datatype Direction = Forward | Reverse

  /** `BaseCollector` with the collect of one of its two subclasses. The
      `model_objs` dictionary is kept as the set of collected objects; its
      grouping by class is `ModelObjs(collected)`. */
  class RelatedCollector {
    const direction: Direction
    var collected: set<Obj>

    constructor (direction: Direction)
      ensures this.direction == direction && collected == {}
    {
      this.direction := direction;
      collected := {};
    }

    /** `querysets_for_update`: walks the soft-delete entries and keeps the
        primary keys of their saved objects, dropping entries left empty. */
    method QuerysetsForUpdate() returns (querysets: map<ModelClass, set<int>>)
      ensures querysets == QuerysetsFor(ModelObjs(collected))
    {
      var forUpdate := ModelObjsForUpdate(ModelObjs(collected));
      querysets := map[];
      var todo := forUpdate.Keys;
      while todo != {}
        invariant todo <= forUpdate.Keys
        invariant forall m :: m in querysets <==> m in forUpdate && m !in todo && PkSet(forUpdate[m]) != {}
        invariant forall m :: m in querysets ==> querysets[m] == PkSet(forUpdate[m])
        decreases todo
      {
        var model :| model in todo;
        var pkList := PkSet(forUpdate[model]);
        if pkList != {} {
          querysets := querysets[model := pkList];
        }
        todo := todo - {model};
      }
      QuerysetsForAgree(forUpdate, ModelObjs(collected), querysets);
    }

    /** `update(**fields)`: one bulk write per queryset, a per-label counter,
        and the total as the sum of the counter. */
    method Update(store: Store, fields: Row) returns (total: int, perLabel: map<string, int>)
      modifies store
      ensures store.rows == Applied(old(store.rows), QuerysetsFor(ModelObjs(collected)), SetFields(fields))
      ensures (total, perLabel) == Tally(collected, old(store.rows).Keys)
      ensures total == SumMap(perLabel)
      ensures |old(store.writes)| <= |store.writes|
      ensures store.writes[..|old(store.writes)|] == old(store.writes)
      ensures OneWriteEach(store.writes[|old(store.writes)|..], QuerysetsFor(ModelObjs(collected)).Keys)
    {
      var querysets := QuerysetsForUpdate();
      ghost var keys := store.rows.Keys;
      ghost var writes0 := store.writes;
      ghost var log: seq<set<ModelClass>> := [];
      var counter: map<string, int> := map[];
      var todo := querysets.Keys;
      ghost var done: map<ModelClass, set<int>> := map[];
      AppliedNothing(store.rows, SetFields(fields));
      NothingCounted(keys);
      while todo != {}
        invariant todo <= querysets.Keys
        invariant forall m :: m in done <==> m in querysets && m !in todo
        invariant Agrees(done, querysets)
        invariant store.rows == Applied(old(store.rows), done, SetFields(fields))
        invariant store.rows.Keys == keys
        invariant counter == PerLabel(Counts(done, keys))
        invariant store.writes == writes0 + log
        invariant OneWriteEach(log, done.Keys)
        decreases todo
      {
        var model :| model in todo;
        ghost var before := store.rows;
        ghost var writesBefore := store.writes;
        var count := store.Apply(model, querysets[model], SetFields(fields));
        LogStep(writes0, log, writesBefore, store.writes, done.Keys, model);
        log := log + [{model}];
        SetFieldsKeepsKeys(before, map[model := querysets[model]], fields);
        BatchWriteStep(old(store.rows), done, model, querysets[model], fields);
        BatchCountStep(keys, done, model, querysets[model], count);
        counter := Bump(counter, model.metaLabel, count);
        todo := todo - {model};
        AgreesStep(done, querysets, model);
        done := done[model := querysets[model]];
      }
      UpdateOutcome(collected, keys, querysets, done, counter);
      LogExtends(writes0, log, store.writes, done.Keys);
      total := SumValues(counter);
      perLabel := counter;
    }

    /** `RemoveMixin.remove`: soft-delete every collected row at `now`. */
    method Remove(store: Store, now: int) returns (total: int, perLabel: map<string, int>)
      requires direction == Reverse
      modifies store
      ensures store.rows == Applied(old(store.rows), QuerysetsFor(ModelObjs(collected)), SetFields(RemovedFields(now)))
      ensures (total, perLabel) == Tally(collected, old(store.rows).Keys)
      ensures total == SumMap(perLabel)
      ensures |old(store.writes)| <= |store.writes|
      ensures store.writes[..|old(store.writes)|] == old(store.writes)
      ensures OneWriteEach(store.writes[|old(store.writes)|..], QuerysetsFor(ModelObjs(collected)).Keys)
    {
      total, perLabel := Update(store, RemovedFields(now));
    }

    /** `RestoreMixin.restore`: clear the removal of every collected row. */
    method Restore(store: Store) returns (total: int, perLabel: map<string, int>)
      modifies store
      ensures store.rows == Applied(old(store.rows), QuerysetsFor(ModelObjs(collected)), SetFields(RestoredFields))
      ensures (total, perLabel) == Tally(collected, old(store.rows).Keys)
      ensures total == SumMap(perLabel)
      ensures |old(store.writes)| <= |store.writes|
      ensures store.writes[..|old(store.writes)|] == old(store.writes)
      ensures OneWriteEach(store.writes[|old(store.writes)|..], QuerysetsFor(ModelObjs(collected)).Keys)
    {
      total, perLabel := Update(store, RestoredFields);
    }

    /** `ForwardRelatedCollector.collect`: records each object under its model,
        then recurses into the object behind every required candidate
        relation that is set. Nothing is ever taken out of `model_objs`. */
    method CollectForward(objs: seq<Obj>, g: RefGraph, ghost rank: Obj -> nat)
      requires direction == Forward
      requires Ranked(g, rank)
      modifies this
      ensures collected == old(collected) + ReachAll(g, rank, objs)
      decreases MaxRank(rank, objs)
    {
      for i := 0 to |objs|
        invariant collected == old(collected) + ReachAll(g, rank, objs[..i])
      {
        var obj := objs[i];
        var model := obj.model;
        ghost var before := collected;
        collected := collected + {obj};
        var candidates := CandidateRelationsToRestore(model.fields);
        for j := 0 to |candidates|
          invariant collected == before + {obj} + ReachVia(g, rank, obj, candidates[..j])
        {
          var field := candidates[j];
          assert candidates[..j + 1][..j] == candidates[..j];
          if field.nullable {
            continue;
          }
          if (obj, field.name) in g.refs {
            var related := g.refs[(obj, field.name)];
            assert RequiredRef(g, obj, field);
            MaxRankBound(rank, objs, i);
            assert MaxRank(rank, [related]) == rank(related) by {
              assert [related][1..] == [];
            }
            CollectForward([related], g, rank);
            assert ReachAll(g, rank, [related]) == Reach(g, rank, related) by {
              assert [related][..0] == [];
            }
          }
        }
        assert candidates[..|candidates|] == candidates;
        assert objs[..i + 1][..i] == objs[..i];
      }
      assert objs[..|objs|] == objs;
    }

    /** `ReverseRelatedCollector.collect` (Django's `NestedObjects.collect`):
        records each root under its model, then whatever the cascade discovery
        reaches from the roots. */
    method CollectReverse(roots: seq<Obj>, keepParents: bool, collectRelated: bool, cascade: Cascade)
      requires direction == Reverse
      modifies this
      ensures collected == old(collected) + Elems(roots) + cascade(Elems(roots), keepParents, collectRelated)
    {
      for i := 0 to |roots|
        invariant collected == old(collected) + Elems(roots[..i])
      {
        collected := collected + {roots[i]};
        assert Elems(roots[..i + 1]) == Elems(roots[..i]) + {roots[i]} by {
          assert roots[..i + 1] == roots[..i] + [roots[i]];
        }
      }
      assert roots[..|roots|] == roots;
      collected := collected + cascade(Elems(roots), keepParents, collectRelated);
    }
  }

  /** A log extended by `log` keeps its past and holds `log` after it. */
  lemma LogExtends(before: seq<set<ModelClass>>, log: seq<set<ModelClass>>, after: seq<set<ModelClass>>,
                   models: set<ModelClass>)
    requires after == before + log && OneWriteEach(log, models)
    ensures |before| <= |after| && after[..|before|] == before
    ensures OneWriteEach(after[|before|..], models)
  {
    assert after[|before|..] == log;
  }

  /** One iteration of `update`'s loop: the write to one more model is
      logged once. */
  lemma LogStep(writes0: seq<set<ModelClass>>, log: seq<set<ModelClass>>, before: seq<set<ModelClass>>,
                after: seq<set<ModelClass>>, models: set<ModelClass>, m: ModelClass)
    requires before == writes0 + log && after == before + [{m}]
    requires OneWriteEach(log, models) && m !in models
    ensures after == writes0 + (log + [{m}])
    ensures OneWriteEach(log + [{m}], models + {m})
  {
    OneWriteEachStep(log, models, m);
  }

  /** After `update`'s loop every queryset was written and counted. */
  lemma UpdateOutcome(objs: set<Obj>, keys: set<RowKey>, qs: map<ModelClass, set<int>>,
                      done: map<ModelClass, set<int>>, counter: map<string, int>)
    requires qs == QuerysetsFor(ModelObjs(objs))
    requires forall m :: m in done <==> m in qs
    requires Agrees(done, qs)
    requires counter == PerLabel(Counts(done, keys))
    ensures done == qs
    ensures (SumMap(counter), counter) == Tally(objs, keys)
  {
    AgreesEverywhere(done, qs);
    TallyTotalIsSumOfLabels(objs, keys);
  }

  lemma AgreesEverywhere(done: map<ModelClass, set<int>>, qs: map<ModelClass, set<int>>)
    requires forall m :: m in done <==> m in qs
    requires Agrees(done, qs)
    ensures done == qs
  {
    assert done.Keys == qs.Keys;
  }

  /** Every family in `done` is that of `qs`. */
  predicate Agrees(done: map<ModelClass, set<int>>, qs: map<ModelClass, set<int>>)
  {
    forall m :: m in done ==> m in qs && done[m] == qs[m]
  }

  lemma AgreesStep(done: map<ModelClass, set<int>>, qs: map<ModelClass, set<int>>, model: ModelClass)
    requires Agrees(done, qs) && model in qs
    ensures Agrees(done[model := qs[model]], qs)
    ensures done[model := qs[model]].Keys == done.Keys + {model}
  {
  }

  /** One iteration of `update`'s loop: the write to one more model. */
  lemma BatchWriteStep(rows0: map<RowKey, Row>, done: map<ModelClass, set<int>>, model: ModelClass,
                       pks: set<int>, fields: Row)
    requires model !in done
    ensures Applied(Applied(rows0, done, SetFields(fields)), map[model := pks], SetFields(fields))
         == Applied(rows0, done[model := pks], SetFields(fields))
    ensures Applied(rows0, done, SetFields(fields)).Keys == rows0.Keys
  {
    AppliedTwice(rows0, done, map[model := pks], SetFields(fields));
    AppliedSameTargets(rows0, UnionQs(done, map[model := pks]), done[model := pks], SetFields(fields));
  }

  /** One iteration of `update`'s loop: the count of one more model goes
      under its label. */
  lemma BatchCountStep(keys: set<RowKey>, done: map<ModelClass, set<int>>, model: ModelClass,
                       pks: set<int>, count: int)
    requires model !in done
    requires count == |Hits(map[model := pks], keys)|
    ensures PerLabel(Counts(done[model := pks], keys)) ==
            Bump(PerLabel(Counts(done, keys)), model.metaLabel, count)
  {
    var after := Counts(done[model := pks], keys);
    assert model in after && after[model] == count;
    assert after - {model} == Counts(done, keys);
    PerLabelAdd(after, model);
  }
}
