/**
 * The names of the table columns the program reads, which depend on the unit
 * system, and the column names its filters look up.
 */
module Columns {
  import opened Wrappers
  import opened Sequences

  /** The columns loaded from the export, kilogram or pound variants. */
  function LoadedColumns(metric: bool): (cols: seq<string>)
    ensures |cols| == 6 && cols[0] == "Date Lifted" && cols[1] == "Exercise" && cols[3] == "Reps"
  {
    if metric then ["Date Lifted", "Exercise", "Weight (kg)", "Reps", "Bodyweight (kg)", "Percentile (%)"]
    else ["Date Lifted", "Exercise", "Weight (lb)", "Reps", "Bodyweight (lb)", "Percentile (%)"]
  }

  /** The weight column, as the volume total and the per-exercise weight list name it. */
  function WeightColumn(metric: bool): string
  {
    if metric then "Weight (kg)" else "Weight (lb)"
  }

  /** The weight column as the per-weight filters name it in the source. */
  function FilterWeightColumnAsWritten(metric: bool): string
  {
    if metric then "Weight (kg)" else "Weight lb"
  }

  /** Looking a column up by name: its position, or nothing (the table library raises a key error). */
  function Lookup(cols: seq<string>, name: string): (k: Option<nat>)
    ensures k.Some? <==> name in cols
    ensures k.Some? ==> k.value < |cols| && cols[k.value] == name
  {
    var i := IndexOf(cols, name);
    if i < |cols| then Some(i) else None
  }

  /** With pound units, the per-weight filters look up a column the table does not have. */
  lemma FilterLookupFailsInPounds()
    ensures Lookup(LoadedColumns(false), FilterWeightColumnAsWritten(false)).None?
    ensures Lookup(LoadedColumns(true), FilterWeightColumnAsWritten(true)).Some?
  {
    var cols := LoadedColumns(false);
    assert forall i :: 0 <= i < |cols| ==> cols[i] != "Weight lb";
  }

  /** The weight column the rest of the program uses is loaded in both unit systems, at the same position. */
  lemma WeightColumnLoaded(metric: bool)
    ensures Lookup(LoadedColumns(metric), WeightColumn(metric)) == Some(2)
  {
    assert LoadedColumns(metric)[2] == WeightColumn(metric);
    var cols := LoadedColumns(metric);
    assert cols[0] != WeightColumn(metric) && cols[1] != WeightColumn(metric);
  }
}
