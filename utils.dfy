/** `django_resurrected.utils.restore`: restores through several collectors
    in turn and folds their results into one total and one per-label map. */
module Utils {
  import opened Orm
  import opened Sums
  import opened Collector

  /** The objects each collector holds, in argument order. */
  function CollectedSets(collectors: seq<RelatedCollector>): (r: seq<set<Obj>>)
    reads collectors
    ensures |r| == |collectors|
    ensures forall i :: 0 <= i < |r| ==> r[i] == collectors[i].collected
  {
    if collectors == [] then []
    else CollectedSets(collectors[..|collectors| - 1]) + [collectors[|collectors| - 1].collected]
  }

  /** Everything the collectors hold together. */
  function AllCollected(sets: seq<set<Obj>>): set<Obj>
  {
    if sets == [] then {}
    else AllCollected(sets[..|sets| - 1]) + sets[|sets| - 1]
  }

  /** What each collector's `restore` returns, in argument order. */
  ghost function Results(sets: seq<set<Obj>>, keys: set<RowKey>): (r: seq<(int, map<string, int>)>)
    ensures |r| == |sets|
  {
    if sets == [] then []
    else Results(sets[..|sets| - 1], keys) + [Tally(sets[|sets| - 1], keys)]
  }

  /** One more collector's result joins the list. */
  lemma ResultsStep(sets: seq<set<Obj>>, keys: set<RowKey>, i: int)
    requires 0 <= i < |sets|
    ensures Results(sets[..i + 1], keys) == Results(sets[..i], keys) + [Tally(sets[i], keys)]
  {
    PrefixOfPrefix(sets, i);
  }

  /** One more result joins the fold. */
  lemma FoldLast(results: seq<(int, map<string, int>)>, result: (int, map<string, int>))
    ensures SumOfTotals(results + [result]) == SumOfTotals(results) + result.0
    ensures MergedCounts(results + [result]) == MergedCounts(results) + result.1
  {
    assert (results + [result])[..|results|] == results;
  }

  /** The sum of the totals. */
  function SumOfTotals(results: seq<(int, map<string, int>)>): int
  {
    if results == [] then 0
    else SumOfTotals(results[..|results| - 1]) + results[|results| - 1].0
  }

  /** The per-label maps merged in argument order, as `dict.update` does:
      on a shared label the later map wins. */
  function MergedCounts(results: seq<(int, map<string, int>)>): map<string, int>
  {
    if results == [] then map[]
    else MergedCounts(results[..|results| - 1]) + results[|results| - 1].1
  }

  /** A label is in the merged map exactly when some collector's map has
      it. */
  lemma {:induction false} MergedKeys(results: seq<(int, map<string, int>)>, l: string)
    ensures l in MergedCounts(results) <==> exists i :: 0 <= i < |results| && l in results[i].1
    decreases |results|
  {
    if results != [] {
      var n := |results| - 1;
      var front := results[..n];
      MergedKeys(front, l);
      if exists i :: 0 <= i < |results| && l in results[i].1 {
        var i :| 0 <= i < |results| && l in results[i].1;
        if i < n {
          assert front[i] == results[i];
        }
      }
      if exists i :: 0 <= i < |front| && l in front[i].1 {
        var i :| 0 <= i < |front| && l in front[i].1;
        assert results[i] == front[i];
      }
    }
  }

  /** On a shared label the last collector whose map has it wins. */
  lemma {:induction false} MergedLast(results: seq<(int, map<string, int>)>, l: string, i: int)
    requires 0 <= i < |results| && l in results[i].1
    requires forall j :: i < j < |results| ==> l !in results[j].1
    ensures l in MergedCounts(results) && MergedCounts(results)[l] == results[i].1[l]
    decreases |results|
  {
    var n := |results| - 1;
    var front := results[..n];
    if i < n {
      assert front[i] == results[i];
      forall j | i < j < |front| ensures l !in front[j].1 {
        assert front[j] == results[j];
      }
      MergedLast(front, l, i);
      assert l !in results[n].1;
    }
  }

  /** The table after the collectors' restores, one after the other. */
  ghost function RestoredInTurn(rows: map<RowKey, Row>, sets: seq<set<Obj>>): map<RowKey, Row>
  {
    if sets == [] then rows
    else Applied(RestoredInTurn(rows, sets[..|sets| - 1]), QuerysetsFor(ModelObjs(sets[|sets| - 1])),
                 SetFields(RestoredFields))
  }

  /** The tables a collector's `update` writes: those of its querysets. */
  function Tables(objs: set<Obj>): set<ModelClass>
  {
    QuerysetsFor(ModelObjs(objs)).Keys
  }

  /** The tables of each collector, in argument order. */
  function TablesOf(sets: seq<set<Obj>>): (r: seq<set<ModelClass>>)
    ensures |r| == |sets|
  {
    if sets == [] then []
    else TablesOf(sets[..|sets| - 1]) + [Tables(sets[|sets| - 1])]
  }

  /** One more collector's tables join the list. */
  lemma TablesOfStep(sets: seq<set<Obj>>, i: int)
    requires 0 <= i < |sets|
    ensures TablesOf(sets[..i + 1]) == TablesOf(sets[..i]) + [Tables(sets[i])]
  {
    PrefixOfPrefix(sets, i);
  }

  /** Writes in turn: the log splits into one run per entry of `tables`, in
      order, and each run is one write per table of its entry. */
  predicate WritesInTurn(log: seq<set<ModelClass>>, tables: seq<set<ModelClass>>)
    decreases |tables|, 1
  {
    if tables == [] then log == [] else EndsWithRun(log, tables)
  }

  /** The log ends with one write per table of the last entry of `tables`,
      after writes in turn for the entries before it. */
  predicate EndsWithRun(log: seq<set<ModelClass>>, tables: seq<set<ModelClass>>)
    decreases |tables|, 0
  {
    && tables != []
    && var last := tables[|tables| - 1];
    && |last| <= |log|
    && OneWriteEach(log[|log| - |last|..], last)
    && WritesInTurn(log[..|log| - |last|], tables[..|tables| - 1])
  }

  /** One more run of writes joins the log. */
  lemma WritesInTurnStep(log: seq<set<ModelClass>>, run: seq<set<ModelClass>>,
                         tables: seq<set<ModelClass>>, t: set<ModelClass>)
    requires WritesInTurn(log, tables) && OneWriteEach(run, t)
    ensures WritesInTurn(log + run, tables + [t])
  {
    OneWriteEachCount(run, t);
    var all := log + run;
    assert all[|all| - |run|..] == run;
    assert all[..|all| - |run|] == log;
    assert (tables + [t])[..|tables|] == tables;
  }

  /** The last run of a log of writes in turn, and the runs before it. */
  lemma WritesInTurnLast(log: seq<set<ModelClass>>, tables: seq<set<ModelClass>>)
    requires tables != [] && WritesInTurn(log, tables)
    ensures var last := tables[|tables| - 1];
      && |last| <= |log|
      && OneWriteEach(log[|log| - |last|..], last)
      && WritesInTurn(log[..|log| - |last|], tables[..|tables| - 1])
  {
  }

  /** With two entries, the log is one write per table of the first, then
      one write per table of the second. */
  lemma WritesInTurnTwo(log: seq<set<ModelClass>>, a: set<ModelClass>, b: set<ModelClass>)
    requires WritesInTurn(log, [a, b])
    ensures |a| <= |log|
    ensures OneWriteEach(log[..|a|], a)
    ensures OneWriteEach(log[|a|..], b)
  {
    WritesInTurnLast(log, [a, b]);
    var front := log[..|log| - |b|];
    assert [a, b][..1] == [a];
    WritesInTurnLast(front, [a]);
    assert [a][..0] == [];
    var none := front[..|front| - |a|];
    assert WritesInTurn(none, []);
    assert |none| == 0;
    assert front[|front| - |a|..] == front;
    assert log[..|a|] == front;
  }

  /** Since `log0`, the log `log` has grown by writes in turn. */
  predicate WrittenSince(log0: seq<set<ModelClass>>, log: seq<set<ModelClass>>, tables: seq<set<ModelClass>>)
  {
    |log0| <= |log| && log[..|log0|] == log0 && WritesInTurn(log[|log0|..], tables)
  }

  /** One iteration of `restore`'s loop: the collector's run of writes
      joins the log. */
  lemma RunStep(log0: seq<set<ModelClass>>, before: seq<set<ModelClass>>, after: seq<set<ModelClass>>,
                sets: seq<set<Obj>>, i: int)
    requires 0 <= i < |sets|
    requires WrittenSince(log0, before, TablesOf(sets[..i]))
    requires |before| <= |after| && after[..|before|] == before
    requires OneWriteEach(after[|before|..], QuerysetsFor(ModelObjs(sets[i])).Keys)
    ensures WrittenSince(log0, after, TablesOf(sets[..i + 1]))
  {
    Extended(log0, before, after);
    WritesInTurnStep(before[|log0|..], after[|before|..], TablesOf(sets[..i]), Tables(sets[i]));
    TablesOfStep(sets, i);
  }

  /** A log that extends a log that extends `a` extends `a`, by both
      extensions one after the other. */
  lemma Extended<T>(a: seq<T>, b: seq<T>, c: seq<T>)
    requires |a| <= |b| && b[..|a|] == a
    requires |b| <= |c| && c[..|b|] == b
    ensures |a| <= |c| && c[..|a|] == a && c[|a|..] == b[|a|..] + c[|b|..]
  {
    assert c[..|a|] == c[..|b|][..|a|];
  }

  /** `restore(*collectors)`: each collector restores its rows once, in
      argument order; the totals are added up, the maps merged, and 1 is
      taken off the total for the root that both collectors of a restore
      hold. */
  method Restore(collectors: seq<RelatedCollector>, store: Store, ghost sets: seq<set<Obj>>)
    returns (total: int, perLabel: map<string, int>)
    requires sets == CollectedSets(collectors)
    modifies store
    ensures store.rows == Applied(old(store.rows), QuerysetsFor(ModelObjs(AllCollected(sets))), SetFields(RestoredFields))
    ensures total == SumOfTotals(Results(sets, old(store.rows).Keys)) - 1
    ensures perLabel == MergedCounts(Results(sets, old(store.rows).Keys))
    ensures |old(store.writes)| <= |store.writes| && store.writes[..|old(store.writes)|] == old(store.writes)
    ensures WritesInTurn(store.writes[|old(store.writes)|..], TablesOf(sets))
  {
    ghost var rows0 := store.rows;
    ghost var keys := rows0.Keys;
    ghost var writes0 := store.writes;
    assert sets[..0] == [] && writes0[|writes0|..] == [];
    var totalRestored := 0;
    var totalRestoredPerModel: map<string, int> := map[];
    for i := 0 to |collectors|
      invariant store.rows == RestoredInTurn(rows0, sets[..i])
      invariant store.rows.Keys == keys
      invariant totalRestored == SumOfTotals(Results(sets[..i], keys))
      invariant totalRestoredPerModel == MergedCounts(Results(sets[..i], keys))
      invariant WrittenSince(writes0, store.writes, TablesOf(sets[..i]))
    {
      var collector := collectors[i];
      assert collector.collected == sets[i];
      ghost var before := store.rows;
      ghost var writesBefore := store.writes;
      var numRestored, numRestoredPerModel := collector.Restore(store);
      RestoredInTurnStep(rows0, sets, i);
      SetFieldsKeepsKeys(before, QuerysetsFor(ModelObjs(sets[i])), RestoredFields);
      ResultsStep(sets, keys, i);
      FoldLast(Results(sets[..i], keys), (numRestored, numRestoredPerModel));
      RunStep(writes0, writesBefore, store.writes, sets, i);
      totalRestored := totalRestored + numRestored;
      totalRestoredPerModel := totalRestoredPerModel + numRestoredPerModel;
    }
    Whole(sets);
    RestoredInTurnIsOneWrite(rows0, sets);
    total := totalRestored - 1;
    perLabel := totalRestoredPerModel;
  }

  /** One more collector's restore joins the table. */
  lemma RestoredInTurnStep(rows0: map<RowKey, Row>, sets: seq<set<Obj>>, i: int)
    requires 0 <= i < |sets|
    ensures RestoredInTurn(rows0, sets[..i + 1]) ==
      Applied(RestoredInTurn(rows0, sets[..i]), QuerysetsFor(ModelObjs(sets[i])), SetFields(RestoredFields))
  {
    PrefixOfPrefix(sets, i);
  }

  /** Restores in turn amount to one restore of everything collected, and
      leave the set of stored rows as it was. */
  lemma {:induction false} RestoredInTurnIsOneWrite(rows0: map<RowKey, Row>, sets: seq<set<Obj>>)
    ensures RestoredInTurn(rows0, sets) ==
            Applied(rows0, QuerysetsFor(ModelObjs(AllCollected(sets))), SetFields(RestoredFields))
    ensures RestoredInTurn(rows0, sets).Keys == rows0.Keys
  {
    var w := SetFields(RestoredFields);
    if sets == [] {
      assert ModelObjs({}) == map[];
      AppliedNothing(rows0, w);
    } else {
      var n := |sets| - 1;
      var before := AllCollected(sets[..n]);
      RestoredInTurnIsOneWrite(rows0, sets[..n]);
      var q1 := QuerysetsFor(ModelObjs(before));
      var q2 := QuerysetsFor(ModelObjs(sets[n]));
      var q := QuerysetsFor(ModelObjs(before + sets[n]));
      AppliedTwice(rows0, q1, q2, w);
      forall k ensures Targets(UnionQs(q1, q2), k) <==> Targets(q, k) {
        QuerysetsTargetSavedSoftObjects(before, k);
        QuerysetsTargetSavedSoftObjects(sets[n], k);
        QuerysetsTargetSavedSoftObjects(before + sets[n], k);
      }
      AppliedSameTargets(rows0, UnionQs(q1, q2), q, w);
    }
  }

  /** The totals of two collectors' restores count every restored row once
      and the rows both collectors hold a second time. */
  lemma TwoTallies(a: set<Obj>, b: set<Obj>, keys: set<RowKey>)
    ensures Tally(a, keys).0 + Tally(b, keys).0 ==
            |SavedSoftRows(a + b, keys)| + |SavedSoftRows(a, keys) * SavedSoftRows(b, keys)|
  {
    HitsAreSavedSoftRows(a, keys);
    HitsAreSavedSoftRows(b, keys);
    SavedSoftRowsOfUnion(a, b, keys);
    CardUnion(SavedSoftRows(a, keys), SavedSoftRows(b, keys));
  }

  lemma SavedSoftRowsOfUnion(a: set<Obj>, b: set<Obj>, keys: set<RowKey>)
    ensures SavedSoftRows(a + b, keys) == SavedSoftRows(a, keys) + SavedSoftRows(b, keys)
  {
  }

  lemma CardUnion<T>(x: set<T>, y: set<T>)
    ensures |x + y| + |x * y| == |x| + |y|
  {
    assert x + y == x + (y - x);
    assert y == (y - x) + x * y;
  }

  /** The fold of `restore` over two collectors. */
  lemma TwoCollectors(a: set<Obj>, b: set<Obj>, keys: set<RowKey>)
    ensures AllCollected([a, b]) == a + b
    ensures SumOfTotals(Results([a, b], keys)) == Tally(a, keys).0 + Tally(b, keys).0
    ensures MergedCounts(Results([a, b], keys)) == Tally(a, keys).1 + Tally(b, keys).1
  {
    AllCollectedTwo(a, b);
    ResultsOfTwo(a, b, keys);
    FoldTwo(Tally(a, keys), Tally(b, keys));
  }

  /** The tables of two collectors. */
  lemma TablesOfTwo(a: set<Obj>, b: set<Obj>)
    ensures TablesOf([a, b]) == [Tables(a), Tables(b)]
  {
    Pair(a, b);
    TablesOfStep([a, b], 0);
    TablesOfStep([a, b], 1);
    Append2(Tables(a), Tables(b));
  }

  /** The writes of `restore` over two collectors: one write per table of
      the first, then one write per table of the second. */
  lemma WritesOfTwo(log: seq<set<ModelClass>>, a: set<Obj>, b: set<Obj>)
    requires WritesInTurn(log, TablesOf([a, b]))
    ensures |Tables(a)| <= |log|
    ensures OneWriteEach(log[..|Tables(a)|], Tables(a))
    ensures OneWriteEach(log[|Tables(a)|..], Tables(b))
  {
    TablesOfTwo(a, b);
    WritesInTurnTwo(log, Tables(a), Tables(b));
  }

  /** What two collectors hold together. */
  lemma AllCollectedTwo(a: set<Obj>, b: set<Obj>)
    ensures AllCollected([a, b]) == a + b
  {
    Pair(a, b);
    assert AllCollected([a]) == a;
  }

  /** The results of two collectors. */
  lemma ResultsOfTwo(a: set<Obj>, b: set<Obj>, keys: set<RowKey>)
    ensures Results([a, b], keys) == [Tally(a, keys), Tally(b, keys)]
  {
    Pair(a, b);
    ResultsStep([a, b], keys, 0);
    ResultsStep([a, b], keys, 1);
    Append2(Tally(a, keys), Tally(b, keys));
  }

  /** The fold of two results. */
  lemma FoldTwo(r0: (int, map<string, int>), r1: (int, map<string, int>))
    ensures SumOfTotals([r0, r1]) == r0.0 + r1.0
    ensures MergedCounts([r0, r1]) == r0.1 + r1.1
  {
    FoldLast([], r0);
    FoldLast([r0], r1);
    assert [] + [r0] == [r0] && [r0] + [r1] == [r0, r1];
    assert map[] + r0.1 == r0.1;
  }

  /** A sequence is its own longest prefix. */
  lemma Whole<T>(s: seq<T>)
    ensures s[..|s|] == s
  {
  }

  /** The first `i` elements of the first `i + 1`. */
  lemma PrefixOfPrefix<T>(s: seq<T>, i: int)
    requires 0 <= i < |s|
    ensures s[..i + 1][..i] == s[..i]
  {
  }

  /** A pair built by appending twice to the empty sequence. */
  lemma Append2<T>(x: T, y: T)
    ensures [] + [x] + [y] == [x, y]
  {
  }

  /** The prefixes of a pair. */
  lemma Pair<T>(x: T, y: T)
    ensures [x, y][..0] == [] && [x, y][..1] == [x] && [x, y][..2] == [x, y] && [x][..0] == []
  {
  }
}
