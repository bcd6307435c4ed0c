/**
 * The workout table and its aggregation: rows grouped by date, per-day totals,
 * and the nested exercise / weight / reps breakdown with set counts.
 *
 * A missing weight or rep count behaves as the table library's missing value:
 * it is listed once by `Distinct` (as `unique()` does), but it never compares
 * equal to anything, so a filter on a missing value selects no row.
 */
module Workouts {
  import opened Wrappers
  import opened Sequences

  /** One logged set. The date is an opaque day key; weights are whole numbers. */
  datatype Row = Row(date: int, exercise: string, weight: Option<int>, reps: Option<nat>, bodyweight: Option<int>)

  /** How many sets were done at one rep count. */
  datatype Tally = Tally(sets: nat, reps: Option<nat>)

  /** The tallies of one exercise at one weight. */
  datatype WeightGroup = WeightGroup(weight: Option<int>, tallies: seq<Tally>)

  /** One exercise of a day: broken down by weight, by reps only, or without data. */
  datatype ExerciseGroup =
    | Weighted(name: string, weights: seq<WeightGroup>)
    | Unweighted(name: string, tallies: seq<Tally>)
    | Unquantified(name: string)

  /** Everything reported for one date. */
  datatype DayGroup = DayGroup(
    date: int,
    sets: nat,
    reps: int,
    volume: int,
    bodyweight: Option<int>,
    exercises: seq<ExerciseGroup>)

  // ---------------------------------------------------------------- columns

  function DatesOf(rows: seq<Row>): (col: seq<int>)
    ensures |col| == |rows| && forall i :: 0 <= i < |rows| ==> col[i] == rows[i].date
  {
    if rows == [] then [] else [rows[0].date] + DatesOf(rows[1..])
  }

  function NamesOf(rows: seq<Row>): (col: seq<string>)
    ensures |col| == |rows| && forall i :: 0 <= i < |rows| ==> col[i] == rows[i].exercise
  {
    if rows == [] then [] else [rows[0].exercise] + NamesOf(rows[1..])
  }

  function WeightsOf(rows: seq<Row>): (col: seq<Option<int>>)
    ensures |col| == |rows| && forall i :: 0 <= i < |rows| ==> col[i] == rows[i].weight
  {
    if rows == [] then [] else [rows[0].weight] + WeightsOf(rows[1..])
  }

  function RepsOf(rows: seq<Row>): (col: seq<Option<nat>>)
    ensures |col| == |rows| && forall i :: 0 <= i < |rows| ==> col[i] == rows[i].reps
  {
    if rows == [] then [] else [rows[0].reps] + RepsOf(rows[1..])
  }

  /** The (exercise, weight, reps) combination of each row. */
  function KeysOf(rows: seq<Row>): (col: seq<(string, Option<int>, Option<nat>)>)
    ensures |col| == |rows|
    ensures forall i :: 0 <= i < |rows| ==> col[i] == (rows[i].exercise, rows[i].weight, rows[i].reps)
  {
    if rows == [] then [] else [(rows[0].exercise, rows[0].weight, rows[0].reps)] + KeysOf(rows[1..])
  }

  // ---------------------------------------------------------------- filters

  /** Equality of two nullable cells: a missing value equals nothing, not even itself. */
  predicate Same<T(==)>(a: Option<T>, b: Option<T>)
  {
    a.Some? && a == b
  }

  /** The rows of one date, in table order. */
  function OnDate(rows: seq<Row>, d: int): seq<Row>
  {
    if rows == [] then []
    else (if rows[0].date == d then [rows[0]] else []) + OnDate(rows[1..], d)
  }

  /** The rows of one exercise, in table order. */
  function OfExercise(rows: seq<Row>, e: string): seq<Row>
  {
    if rows == [] then []
    else (if rows[0].exercise == e then [rows[0]] else []) + OfExercise(rows[1..], e)
  }

  /** The rows whose weight equals `w`; none when `w` is missing. */
  function WithWeight(rows: seq<Row>, w: Option<int>): seq<Row>
  {
    if rows == [] then []
    else (if Same(rows[0].weight, w) then [rows[0]] else []) + WithWeight(rows[1..], w)
  }

  /** The rows whose rep count equals `r`; none when `r` is missing. */
  function WithReps(rows: seq<Row>, r: Option<nat>): seq<Row>
  {
    if rows == [] then []
    else (if Same(rows[0].reps, r) then [rows[0]] else []) + WithReps(rows[1..], r)
  }

  /** The rows that carry both a weight and a rep count. */
  function Complete(rows: seq<Row>): seq<Row>
  {
    if rows == [] then []
    else (if rows[0].weight.Some? && rows[0].reps.Some? then [rows[0]] else []) + Complete(rows[1..])
  }

  /** The rows of date `d` are exactly the table's rows with that date, each kept as often as it occurs. */
  lemma {:induction false} OnDateMembers(rows: seq<Row>, d: int)
    ensures forall r :: r in OnDate(rows, d) <==> r in rows && r.date == d
  {
    if rows != [] {
      OnDateMembers(rows[1..], d);
      assert rows == [rows[0]] + rows[1..];
    }
  }

  lemma {:induction false} OnDateCount(rows: seq<Row>, d: int)
    ensures |OnDate(rows, d)| == multiset(DatesOf(rows))[d]
  {
    if rows != [] {
      OnDateCount(rows[1..], d);
      assert DatesOf(rows) == [rows[0].date] + DatesOf(rows[1..]);
    }
  }

  /** The rows of exercise `e` are exactly those rows with that exercise name. */
  lemma {:induction false} OfExerciseMembers(rows: seq<Row>, e: string)
    ensures forall r :: r in OfExercise(rows, e) <==> r in rows && r.exercise == e
  {
    if rows != [] {
      OfExerciseMembers(rows[1..], e);
      assert rows == [rows[0]] + rows[1..];
    }
  }

  lemma {:induction false} OfExerciseCount(rows: seq<Row>, e: string)
    ensures |OfExercise(rows, e)| == multiset(NamesOf(rows))[e]
  {
    if rows != [] {
      OfExerciseCount(rows[1..], e);
      assert NamesOf(rows) == [rows[0].exercise] + NamesOf(rows[1..]);
    }
  }

  /** Filtering on a weight keeps the rows with that weight; a missing weight keeps none. */
  lemma {:induction false} WithWeightMembers(rows: seq<Row>, w: Option<int>)
    ensures forall r :: r in WithWeight(rows, w) <==> r in rows && Same(r.weight, w)
  {
    if rows != [] {
      WithWeightMembers(rows[1..], w);
      assert rows == [rows[0]] + rows[1..];
    }
  }

  lemma {:induction false} WithWeightCount(rows: seq<Row>, w: Option<int>)
    ensures |WithWeight(rows, w)| == if w.Some? then multiset(WeightsOf(rows))[w] else 0
  {
    if rows != [] {
      WithWeightCount(rows[1..], w);
      assert WeightsOf(rows) == [rows[0].weight] + WeightsOf(rows[1..]);
    }
  }

  /** Filtering on a rep count keeps the rows with that rep count; a missing count keeps none. */
  lemma {:induction false} WithRepsMembers(rows: seq<Row>, r: Option<nat>)
    ensures forall x :: x in WithReps(rows, r) <==> x in rows && Same(x.reps, r)
  {
    if rows != [] {
      WithRepsMembers(rows[1..], r);
      assert rows == [rows[0]] + rows[1..];
    }
  }

  lemma {:induction false} WithRepsCount(rows: seq<Row>, r: Option<nat>)
    ensures |WithReps(rows, r)| == if r.Some? then multiset(RepsOf(rows))[r] else 0
  {
    if rows != [] {
      WithRepsCount(rows[1..], r);
      assert RepsOf(rows) == [rows[0].reps] + RepsOf(rows[1..]);
    }
  }

  /** The complete rows are exactly those with both a weight and a rep count. */
  lemma {:induction false} CompleteMembers(rows: seq<Row>)
    ensures forall r :: r in Complete(rows) <==> r in rows && r.weight.Some? && r.reps.Some?
  {
    if rows != [] {
      CompleteMembers(rows[1..]);
      assert rows == [rows[0]] + rows[1..];
    }
  }

  /** The first row of a date's group is the first row of the table with that date. */
  lemma {:induction false} OnDateFirst(rows: seq<Row>, d: int)
    requires d in DatesOf(rows)
    ensures OnDate(rows, d) != [] && OnDate(rows, d)[0] == rows[IndexOf(DatesOf(rows), d)]
  {
    var rest := rows[1..];
    assert DatesOf(rows) == [rows[0].date] + DatesOf(rest);
    if rows[0].date == d {
      assert OnDate(rows, d) == [rows[0]] + OnDate(rest, d);
    } else {
      assert d in DatesOf(rest);
      OnDateFirst(rest, d);
      assert IndexOf(DatesOf(rows), d) == 1 + IndexOf(DatesOf(rest), d);
      assert OnDate(rows, d) == OnDate(rest, d);
    }
  }

  /** The first row of an exercise's group is the first row of the day with that exercise. */
  lemma {:induction false} OfExerciseFirst(rows: seq<Row>, e: string)
    requires e in NamesOf(rows)
    ensures OfExercise(rows, e) != [] && OfExercise(rows, e)[0] == rows[IndexOf(NamesOf(rows), e)]
  {
    var rest := rows[1..];
    assert NamesOf(rows) == [rows[0].exercise] + NamesOf(rest);
    if rows[0].exercise == e {
      assert OfExercise(rows, e) == [rows[0]] + OfExercise(rest, e);
    } else {
      assert e in NamesOf(rest);
      OfExerciseFirst(rest, e);
      assert IndexOf(NamesOf(rows), e) == 1 + IndexOf(NamesOf(rest), e);
      assert OfExercise(rows, e) == OfExercise(rest, e);
    }
  }

  // ---------------------------------------------------------------- totals

  /** The two per-day sums of the summary line. */
  datatype Measure = Reps | Volume

  /**
   * A row's contribution to a sum: its rep count, or its weight times its rep
   * count. A missing value contributes nothing, as the table library's sum
   * skips missing entries.
   */
  function Amount(m: Measure, r: Row): int
  {
    match m
    case Reps => if r.reps.Some? then r.reps.value else 0
    case Volume => if r.weight.Some? && r.reps.Some? then r.weight.value * r.reps.value else 0
  }

  function Total(rows: seq<Row>, m: Measure): int
  {
    if rows == [] then 0 else Amount(m, rows[0]) + Total(rows[1..], m)
  }

  lemma {:induction false} TotalAppend(a: seq<Row>, b: seq<Row>, m: Measure)
    ensures Total(a + b, m) == Total(a, m) + Total(b, m)
  {
    if a != [] {
      assert (a + b)[0] == a[0];
      assert (a + b)[1..] == a[1..] + b;
      TotalAppend(a[1..], b, m);
    } else {
      assert a + b == b;
    }
  }

  /** Taking out the row at position `k` takes its amount out of the total and the row out of the multiset. */
  lemma TotalRemove(b: seq<Row>, k: nat, m: Measure)
    requires k < |b|
    ensures multiset(b[..k] + b[k + 1..]) == multiset(b) - multiset{b[k]}
    ensures Total(b, m) == Amount(m, b[k]) + Total(b[..k] + b[k + 1..], m)
  {
    var x, before, after := b[k], b[..k], b[k + 1..];
    assert b == before + [x] + after;
    assert multiset(b) == multiset(before) + multiset{x} + multiset(after);
    TotalAppend(before + [x], after, m);
    TotalAppend(before, [x], m);
    TotalAppend(before, after, m);
  }

  /** A total does not depend on the order of the rows. */
  lemma {:induction false} TotalPermutation(a: seq<Row>, b: seq<Row>, m: Measure)
    requires multiset(a) == multiset(b)
    ensures Total(a, m) == Total(b, m)
    decreases |a|
  {
    if a == [] {
      assert |b| == |multiset(b)| == 0;
    } else {
      var x := a[0];
      assert multiset(a[1..]) == multiset(a) - multiset{x} && Total(a, m) == Amount(m, x) + Total(a[1..], m) by {
        assert a == [x] + a[1..];
      }
      assert x in b by {
        assert x in multiset(b);
      }
      var k := IndexOf(b, x);
      TotalRemove(b, k, m);
      TotalPermutation(a[1..], b[..k] + b[k + 1..], m);
    }
  }

  /** Rows missing a weight or a rep count do not contribute to the volume. */
  lemma {:induction false} VolumeOnlyFromCompleteRows(rows: seq<Row>)
    ensures Total(rows, Volume) == Total(Complete(rows), Volume)
  {
    if rows != [] {
      assert rows == [rows[0]] + rows[1..];
      VolumeOnlyFromCompleteRows(rows[1..]);
      var head := if rows[0].weight.Some? && rows[0].reps.Some? then [rows[0]] else [];
      TotalAppend(head, Complete(rows[1..]), Volume);
    }
  }

  /** Sum of a nullable rep column, skipping missing entries. */
  function RepsSum(col: seq<Option<nat>>): int
  {
    if col == [] then 0 else (if col[0].Some? then col[0].value else 0) + RepsSum(col[1..])
  }

  /** Element-wise product of a weight and a rep column; missing when either factor is. */
  function Products(ws: seq<Option<int>>, rs: seq<Option<nat>>): (ps: seq<Option<int>>)
    requires |ws| == |rs|
    ensures |ps| == |ws|
  {
    if ws == [] then []
    else [if ws[0].Some? && rs[0].Some? then Some(ws[0].value * rs[0].value) else None] + Products(ws[1..], rs[1..])
  }

  /** Sum of a nullable column, skipping missing entries. */
  function ColumnSum(col: seq<Option<int>>): int
  {
    if col == [] then 0 else (if col[0].Some? then col[0].value else 0) + ColumnSum(col[1..])
  }

  /** The rep total is the sum of the rep column with missing entries skipped. */
  lemma {:induction false} RepsTotalIsColumnSum(rows: seq<Row>)
    ensures Total(rows, Reps) == RepsSum(RepsOf(rows))
  {
    if rows != [] {
      RepsTotalIsColumnSum(rows[1..]);
      assert RepsOf(rows)[1..] == RepsOf(rows[1..]);
    }
  }

  /** The volume is the sum of the weight-times-reps column with missing products skipped. */
  lemma {:induction false} VolumeIsColumnSum(rows: seq<Row>)
    ensures Total(rows, Volume) == ColumnSum(Products(WeightsOf(rows), RepsOf(rows)))
  {
    if rows != [] {
      VolumeIsColumnSum(rows[1..]);
      assert WeightsOf(rows)[1..] == WeightsOf(rows[1..]);
      assert RepsOf(rows)[1..] == RepsOf(rows[1..]);
    }
  }

  // ---------------------------------------------------------------- grouping

  /** One tally per listed rep value, counting the rows of `sub` with that rep count. */
  function Tallies(sub: seq<Row>, rs: seq<Option<nat>>): (ts: seq<Tally>)
    ensures |ts| == |rs|
  {
    if rs == [] then []
    else Tallies(sub, rs[..|rs| - 1]) + [Tally(|WithReps(sub, rs[|rs| - 1])|, rs[|rs| - 1])]
  }

  /** The `i`-th tally counts the rows with the `i`-th listed rep value. */
  lemma {:induction false} TalliesAt(sub: seq<Row>, rs: seq<Option<nat>>)
    ensures forall i :: 0 <= i < |rs| ==> Tallies(sub, rs)[i] == Tally(|WithReps(sub, rs[i])|, rs[i])
  {
    if rs != [] {
      var p := rs[..|rs| - 1];
      TalliesAt(sub, p);
      assert forall i :: 0 <= i < |p| ==> rs[i] == p[i];
    }
  }

  /** The tallies of `sub` for each of its distinct rep values. */
  function RepTallies(sub: seq<Row>): seq<Tally>
  {
    Tallies(sub, Distinct(RepsOf(sub)))
  }

  /** One group per listed weight, holding the rep tallies of the rows at that weight. */
  function WeightGroups(ex: seq<Row>, ws: seq<Option<int>>): (gs: seq<WeightGroup>)
    ensures |gs| == |ws|
  {
    if ws == [] then []
    else WeightGroups(ex, ws[..|ws| - 1]) + [WeightGroup(ws[|ws| - 1], RepTallies(WithWeight(ex, ws[|ws| - 1])))]
  }

  /** The `i`-th group holds the tallies of the rows at the `i`-th listed weight. */
  lemma {:induction false} WeightGroupsAt(ex: seq<Row>, ws: seq<Option<int>>)
    ensures forall i :: 0 <= i < |ws| ==>
      WeightGroups(ex, ws)[i] == WeightGroup(ws[i], RepTallies(WithWeight(ex, ws[i])))
  {
    if ws != [] {
      var p := ws[..|ws| - 1];
      WeightGroupsAt(ex, p);
      assert forall i :: 0 <= i < |p| ==> ws[i] == p[i];
    }
  }

  /**
   * The breakdown of exercise `e` on a day. The first weight seen decides
   * whether it is weighted; if not, the first rep value seen decides whether
   * it has rep tallies or no data at all.
   */
  function Group(day: seq<Row>, e: string): ExerciseGroup
    requires e in NamesOf(day)
  {
    OfExerciseNonEmpty(day, e);
    var ex := OfExercise(day, e);
    var ws := Distinct(WeightsOf(ex));
    if ws[0].Some? then Weighted(e, WeightGroups(ex, ws))
    else
      var rs := Distinct(RepsOf(ex));
      if rs[0].Some? then Unweighted(e, RepTallies(ex)) else Unquantified(e)
  }

  lemma OfExerciseNonEmpty(day: seq<Row>, e: string)
    requires e in NamesOf(day)
    ensures OfExercise(day, e) != []
  {
    OfExerciseCount(day, e);
  }

  function Groups(day: seq<Row>, es: seq<string>): (gs: seq<ExerciseGroup>)
    requires forall e :: e in es ==> e in NamesOf(day)
    ensures |gs| == |es|
  {
    Map(e requires e in NamesOf(day) => Group(day, e), es)
  }

  /** The `i`-th breakdown is that of the `i`-th exercise name. */
  lemma GroupsAt(day: seq<Row>, es: seq<string>, i: nat)
    requires forall e :: e in es ==> e in NamesOf(day)
    requires i < |es|
    ensures Groups(day, es)[i] == Group(day, es[i])
  {
    MapAt(e requires e in NamesOf(day) => Group(day, e), es, i);
  }

  lemma GroupsSnoc(day: seq<Row>, es: seq<string>, i: nat)
    requires forall e :: e in es ==> e in NamesOf(day)
    requires i < |es|
    ensures forall e :: e in es[..i + 1] ==> e in NamesOf(day)
    ensures Groups(day, es[..i + 1]) == Groups(day, es[..i]) + [Group(day, es[i])]
  {
    MapSnoc(e requires e in NamesOf(day) => Group(day, e), es, i);
  }

  lemma OnDateNonEmpty(rows: seq<Row>, d: int)
    requires d in DatesOf(rows)
    ensures OnDate(rows, d) != []
  {
    OnDateCount(rows, d);
  }

  /** The report for date `d`, built from the rows of that date. */
  function SummarizeDay(rows: seq<Row>, d: int): DayGroup
    requires d in DatesOf(rows)
  {
    OnDateNonEmpty(rows, d);
    var day := OnDate(rows, d);
    DistinctMembers(NamesOf(day));
    DayGroup(d, |day|, Total(day, Reps), Total(day, Volume), day[0].bodyweight, Groups(day, Distinct(NamesOf(day))))
  }

  /** One report per distinct date, in the order the dates first appear. */
  function Summarize(rows: seq<Row>): (days: seq<DayGroup>)
    ensures |days| == |Distinct(DatesOf(rows))|
  {
    DistinctMembers(DatesOf(rows));
    Map(d requires d in DatesOf(rows) => SummarizeDay(rows, d), Distinct(DatesOf(rows)))
  }

  /** The `i`-th report is the report of the `i`-th distinct date. */
  lemma SummarizeAt(rows: seq<Row>, i: nat)
    requires i < |Distinct(DatesOf(rows))|
    ensures Distinct(DatesOf(rows))[i] in DatesOf(rows)
    ensures Summarize(rows)[i] == SummarizeDay(rows, Distinct(DatesOf(rows))[i])
    ensures Summarize(rows)[i].date == Distinct(DatesOf(rows))[i]
  {
    DistinctMembers(DatesOf(rows));
    MapAt(d requires d in DatesOf(rows) => SummarizeDay(rows, d), Distinct(DatesOf(rows)), i);
  }

  // ---------------------------------------------------------------- projections

  function DayDates(days: seq<DayGroup>): (col: seq<int>)
    ensures |col| == |days| && forall i :: 0 <= i < |days| ==> col[i] == days[i].date
  {
    seq(|days|, i requires 0 <= i < |days| => days[i].date)
  }

  function GroupNames(gs: seq<ExerciseGroup>): (col: seq<string>)
    ensures |col| == |gs| && forall i :: 0 <= i < |gs| ==> col[i] == gs[i].name
  {
    seq(|gs|, i requires 0 <= i < |gs| => gs[i].name)
  }

  function GroupWeights(gs: seq<WeightGroup>): (col: seq<Option<int>>)
    ensures |col| == |gs| && forall i :: 0 <= i < |gs| ==> col[i] == gs[i].weight
  {
    seq(|gs|, i requires 0 <= i < |gs| => gs[i].weight)
  }

  function TallyReps(ts: seq<Tally>): (col: seq<Option<nat>>)
    ensures |col| == |ts| && forall i :: 0 <= i < |ts| ==> col[i] == ts[i].reps
  {
    seq(|ts|, i requires 0 <= i < |ts| => ts[i].reps)
  }

  /** Total number of sets listed in some tallies. */
  function TallySets(ts: seq<Tally>): nat
  {
    if ts == [] then 0 else TallySets(ts[..|ts| - 1]) + ts[|ts| - 1].sets
  }

  /** Total number of sets over some day reports. */
  function DaySets(days: seq<DayGroup>): nat
  {
    if days == [] then 0 else DaySets(days[..|days| - 1]) + days[|days| - 1].sets
  }

  // ---------------------------------------------------------------- properties

  /** Summarize yields one report per distinct date, in order of first appearance. */
  lemma OneReportPerDate(rows: seq<Row>)
    ensures FirstAppearanceOrder(DayDates(Summarize(rows)), DatesOf(rows))
  {
    var ds, days := Distinct(DatesOf(rows)), Summarize(rows);
    forall i | 0 <= i < |days|
      ensures days[i].date == ds[i]
    {
      SummarizeAt(rows, i);
    }
    assert DayDates(days) == ds;
    DistinctInFirstAppearanceOrder(DatesOf(rows));
  }

  lemma {:induction false} DaySetsAreCounts(days: seq<DayGroup>, ds: seq<int>, m: multiset<int>)
    requires |days| == |ds|
    requires forall i :: 0 <= i < |ds| ==> days[i].sets == m[ds[i]]
    ensures DaySets(days) == SumCounts(ds, m)
  {
    if days != [] {
      DaySetsAreCounts(days[..|days| - 1], ds[..|ds| - 1], m);
    }
  }

  /** Every row is counted as a set of exactly one day. */
  lemma SetsPartitionRows(rows: seq<Row>)
    ensures DaySets(Summarize(rows)) == |rows|
  {
    var ds := Distinct(DatesOf(rows));
    var days := Summarize(rows);
    DistinctMembers(DatesOf(rows));
    forall i | 0 <= i < |ds|
      ensures days[i].sets == multiset(DatesOf(rows))[ds[i]]
    {
      SummarizeAt(rows, i);
      OnDateCount(rows, ds[i]);
    }
    DaySetsAreCounts(days, ds, multiset(DatesOf(rows)));
    SumCountsOverDistinct(DatesOf(rows));
  }

  /**
   * A day's set count is the number of rows with its date; its rep total and
   * volume are the column sums over those rows with missing entries skipped,
   * so the volume comes only from rows with both a weight and a rep count;
   * and its bodyweight is that of the first row with its date.
   */
  lemma DayTotals(rows: seq<Row>, d: int)
    requires d in DatesOf(rows)
    ensures SummarizeDay(rows, d).date == d
    ensures SummarizeDay(rows, d).sets == multiset(DatesOf(rows))[d]
    ensures SummarizeDay(rows, d).reps == RepsSum(RepsOf(OnDate(rows, d)))
    ensures SummarizeDay(rows, d).volume == ColumnSum(Products(WeightsOf(OnDate(rows, d)), RepsOf(OnDate(rows, d))))
    ensures SummarizeDay(rows, d).volume == Total(Complete(OnDate(rows, d)), Volume)
    ensures SummarizeDay(rows, d).bodyweight == rows[IndexOf(DatesOf(rows), d)].bodyweight
  {
    OnDateCount(rows, d);
    OnDateFirst(rows, d);
    RepsTotalIsColumnSum(OnDate(rows, d));
    VolumeIsColumnSum(OnDate(rows, d));
    VolumeOnlyFromCompleteRows(OnDate(rows, d));
  }

  /** The totals of a day do not depend on the order of that day's rows. */
  lemma DayTotalsIgnoreRowOrder(rows: seq<Row>, rows': seq<Row>, d: int)
    requires d in DatesOf(rows) && d in DatesOf(rows')
    requires multiset(OnDate(rows, d)) == multiset(OnDate(rows', d))
    ensures SummarizeDay(rows, d).sets == SummarizeDay(rows', d).sets
    ensures SummarizeDay(rows, d).reps == SummarizeDay(rows', d).reps
    ensures SummarizeDay(rows, d).volume == SummarizeDay(rows', d).volume
  {
    var a, b := OnDate(rows, d), OnDate(rows', d);
    assert |a| == |multiset(a)| == |multiset(b)| == |b|;
    TotalPermutation(a, b, Reps);
    TotalPermutation(a, b, Volume);
  }

  /** A day lists each of its exercises once, in order of first appearance. */
  lemma DayExercises(rows: seq<Row>, d: int)
    requires d in DatesOf(rows)
    ensures FirstAppearanceOrder(GroupNames(SummarizeDay(rows, d).exercises), NamesOf(OnDate(rows, d)))
  {
    var day := OnDate(rows, d);
    var names := Distinct(NamesOf(day));
    var gs := SummarizeDay(rows, d).exercises;
    forall i | 0 <= i < |gs|
      ensures gs[i].name == names[i]
    {
      DayExerciseAt(rows, d, i);
    }
    assert GroupNames(gs) == names;
    DistinctInFirstAppearanceOrder(NamesOf(day));
  }

  /** The `i`-th exercise of a day is broken down from that exercise's rows of the day. */
  lemma DayExerciseAt(rows: seq<Row>, d: int, i: nat)
    requires d in DatesOf(rows) && i < |SummarizeDay(rows, d).exercises|
    ensures var g := SummarizeDay(rows, d).exercises[i];
      && g.name == Distinct(NamesOf(OnDate(rows, d)))[i]
      && g.name in NamesOf(OnDate(rows, d))
      && g == Group(OnDate(rows, d), g.name)
  {
    var day := OnDate(rows, d);
    var names := Distinct(NamesOf(day));
    DistinctMembers(NamesOf(day));
    GroupsAt(day, names, i);
    GroupName(day, names[i]);
  }

  lemma GroupName(day: seq<Row>, e: string)
    requires e in NamesOf(day)
    ensures Group(day, e).name == e
  {
  }

  /** The first row of an exercise decides the kind of its breakdown. */
  lemma GroupKind(day: seq<Row>, e: string)
    requires e in NamesOf(day)
    ensures Group(day, e).name == e
    ensures var first := day[IndexOf(NamesOf(day), e)];
      && (Group(day, e).Weighted? <==> first.weight.Some?)
      && (Group(day, e).Unweighted? <==> first.weight.None? && first.reps.Some?)
      && (Group(day, e).Unquantified? <==> first.weight.None? && first.reps.None?)
  {
    OfExerciseFirst(day, e);
  }

  lemma {:induction false} TallySetsAreCounts(ts: seq<Tally>, m: multiset<Option<nat>>)
    requires forall i :: 0 <= i < |ts| ==> ts[i].sets == m[ts[i].reps]
    ensures TallySets(ts) == SumCounts(TallyReps(ts), m)
  {
    if ts != [] {
      var p := ts[..|ts| - 1];
      assert TallyReps(p) == TallyReps(ts)[..|ts| - 1];
      TallySetsAreCounts(p, m);
    }
  }

  /** The tallies of a set of rows list each rep value once, in order of first appearance. */
  lemma RepTalliesOrder(sub: seq<Row>)
    ensures FirstAppearanceOrder(TallyReps(RepTallies(sub)), RepsOf(sub))
  {
    TalliesAt(sub, Distinct(RepsOf(sub)));
    assert TallyReps(RepTallies(sub)) == Distinct(RepsOf(sub));
    DistinctInFirstAppearanceOrder(RepsOf(sub));
  }

  /** A tally counts the rows with its rep value. */
  lemma RepTallyCount(sub: seq<Row>, j: nat)
    requires j < |RepTallies(sub)|
    ensures RepTallies(sub)[j].reps in RepsOf(sub)
    ensures RepTallies(sub)[j].reps.Some? ==>
      RepTallies(sub)[j].sets == multiset(RepsOf(sub))[RepTallies(sub)[j].reps]
  {
    var rs := Distinct(RepsOf(sub));
    TalliesAt(sub, rs);
    DistinctMembers(RepsOf(sub));
    WithRepsCount(sub, rs[j]);
  }

  /** When no rep count is missing, the tallies account for every row. */
  lemma RepTalliesTotal(sub: seq<Row>)
    requires None !in RepsOf(sub)
    ensures TallySets(RepTallies(sub)) == |sub|
  {
    var ts := RepTallies(sub);
    forall j | 0 <= j < |ts|
      ensures ts[j].sets == multiset(RepsOf(sub))[ts[j].reps]
    {
      RepTallyCount(sub, j);
      assert ts[j].reps.Some?;
    }
    TallySetsAreCounts(ts, multiset(RepsOf(sub)));
    RepTalliesOrder(sub);
    SumCountsOverDistinct(RepsOf(sub));
  }

  /** Filtering by exercise, weight and rep count counts the rows with that combination. */
  lemma {:induction false} CombinationCount(rows: seq<Row>, e: string, w: Option<int>, r: Option<nat>)
    requires w.Some? && r.Some?
    ensures |WithReps(WithWeight(OfExercise(rows, e), w), r)| == multiset(KeysOf(rows))[(e, w, r)]
  {
    if rows != [] {
      CombinationCount(rows[1..], e, w, r);
      var x := rows[0];
      var rest := OfExercise(rows[1..], e);
      assert KeysOf(rows) == [(x.exercise, x.weight, x.reps)] + KeysOf(rows[1..]);
      if x.exercise == e {
        assert OfExercise(rows, e) == [x] + rest;
        assert ([x] + rest)[1..] == rest;
        var atWeight := WithWeight(rest, w);
        if Same(x.weight, w) {
          assert WithWeight([x] + rest, w) == [x] + atWeight;
          assert ([x] + atWeight)[1..] == atWeight;
        } else {
          assert WithWeight([x] + rest, w) == atWeight;
        }
      } else {
        assert OfExercise(rows, e) == rest;
      }
    }
  }

  /** A tally under weight `w` counts the day's rows with that exercise, weight and rep count. */
  lemma WeightLineCount(day: seq<Row>, e: string, w: Option<int>, j: nat)
    requires j < |RepTallies(WithWeight(OfExercise(day, e), w))|
    ensures var t := RepTallies(WithWeight(OfExercise(day, e), w))[j];
      w.Some? && t.reps.Some? ==> t.sets == multiset(KeysOf(day))[(e, w, t.reps)]
  {
    var sub := WithWeight(OfExercise(day, e), w);
    TalliesAt(sub, Distinct(RepsOf(sub)));
    var t := RepTallies(sub)[j];
    if w.Some? && t.reps.Some? {
      CombinationCount(day, e, w, t.reps);
    }
  }

  /** When no rep count of the exercise is missing, the tallies under `w` add up to its rows at `w`. */
  lemma WeightLineTotal(day: seq<Row>, e: string, w: Option<int>)
    requires w.Some? && None !in RepsOf(OfExercise(day, e))
    ensures TallySets(RepTallies(WithWeight(OfExercise(day, e), w))) == multiset(WeightsOf(OfExercise(day, e)))[w]
  {
    var ex := OfExercise(day, e);
    WithWeightMembers(ex, w);
    WithWeightCount(ex, w);
    RepsPresentInSubset(ex, w);
    RepTalliesTotal(WithWeight(ex, w));
  }

  /** Rows at one weight have a rep count when every row of the exercise has one. */
  lemma RepsPresentInSubset(ex: seq<Row>, w: Option<int>)
    requires None !in RepsOf(ex)
    requires forall r :: r in WithWeight(ex, w) ==> r in ex
    ensures None !in RepsOf(WithWeight(ex, w))
  {
    var sub := WithWeight(ex, w);
    forall k | 0 <= k < |sub| ensures RepsOf(sub)[k] != None {
      assert sub[k] in ex;
      var k' :| 0 <= k' < |ex| && ex[k'] == sub[k];
      assert RepsOf(ex)[k'] == sub[k].reps;
    }
  }

  /**
   * A weighted exercise lists each of its weights once, in order of first
   * appearance; under each weight the rep values are listed once, in order of
   * first appearance; each tally counts the day's rows with that exercise,
   * weight and rep count; and when no rep count is missing, the tallies under
   * a weight add up to the number of rows at that weight.
   */
  lemma WeightedBreakdown(day: seq<Row>, e: string)
    requires e in NamesOf(day) && Group(day, e).Weighted?
    ensures var ex := OfExercise(day, e); var ws := Group(day, e).weights;
      && FirstAppearanceOrder(GroupWeights(ws), WeightsOf(ex))
      && (forall i :: 0 <= i < |ws| ==>
            FirstAppearanceOrder(TallyReps(ws[i].tallies), RepsOf(WithWeight(ex, ws[i].weight))))
      && (forall i, j :: 0 <= i < |ws| && 0 <= j < |ws[i].tallies| && ws[i].weight.Some? && ws[i].tallies[j].reps.Some? ==>
            ws[i].tallies[j].sets == multiset(KeysOf(day))[(e, ws[i].weight, ws[i].tallies[j].reps)])
      && (forall i :: 0 <= i < |ws| && ws[i].weight.Some? && None !in RepsOf(ex) ==>
            TallySets(ws[i].tallies) == multiset(WeightsOf(ex))[ws[i].weight])
  {
    var ex := OfExercise(day, e);
    var ws := Group(day, e).weights;
    assert ws == WeightGroups(ex, Distinct(WeightsOf(ex)));
    WeightGroupsAt(ex, Distinct(WeightsOf(ex)));
    assert GroupWeights(ws) == Distinct(WeightsOf(ex));
    DistinctInFirstAppearanceOrder(WeightsOf(ex));
    forall i | 0 <= i < |ws|
      ensures FirstAppearanceOrder(TallyReps(ws[i].tallies), RepsOf(WithWeight(ex, ws[i].weight)))
      ensures forall j :: 0 <= j < |ws[i].tallies| && ws[i].weight.Some? && ws[i].tallies[j].reps.Some? ==>
        ws[i].tallies[j].sets == multiset(KeysOf(day))[(e, ws[i].weight, ws[i].tallies[j].reps)]
      ensures ws[i].weight.Some? && None !in RepsOf(ex) ==>
        TallySets(ws[i].tallies) == multiset(WeightsOf(ex))[ws[i].weight]
    {
      var w := ws[i].weight;
      assert ws[i].tallies == RepTallies(WithWeight(ex, w));
      RepTalliesOrder(WithWeight(ex, w));
      forall j | 0 <= j < |ws[i].tallies|
        ensures w.Some? && ws[i].tallies[j].reps.Some? ==>
          ws[i].tallies[j].sets == multiset(KeysOf(day))[(e, w, ws[i].tallies[j].reps)]
      {
        WeightLineCount(day, e, w, j);
      }
      if w.Some? && None !in RepsOf(ex) {
        WeightLineTotal(day, e, w);
      }
    }
  }

  /**
   * An exercise without a first weight but with a first rep count lists each
   * rep value once, in order of first appearance, with the number of its rows
   * having that rep count; when no rep count is missing the tallies account
   * for every row of the exercise.
   */
  lemma UnweightedBreakdown(day: seq<Row>, e: string)
    requires e in NamesOf(day) && Group(day, e).Unweighted?
    ensures var ex := OfExercise(day, e); var ts := Group(day, e).tallies;
      && FirstAppearanceOrder(TallyReps(ts), RepsOf(ex))
      && (forall j :: 0 <= j < |ts| && ts[j].reps.Some? ==> ts[j].sets == multiset(RepsOf(ex))[ts[j].reps])
      && (None !in RepsOf(ex) ==> TallySets(ts) == multiset(NamesOf(day))[e])
  {
    var ex := OfExercise(day, e);
    var ts := Group(day, e).tallies;
    assert ts == RepTallies(ex);
    RepTalliesOrder(ex);
    forall j | 0 <= j < |ts|
      ensures ts[j].reps.Some? ==> ts[j].sets == multiset(RepsOf(ex))[ts[j].reps]
    {
      RepTallyCount(ex, j);
    }
    if None !in RepsOf(ex) {
      RepTalliesTotal(ex);
      OfExerciseCount(day, e);
    }
  }
}
