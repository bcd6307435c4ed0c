# strengthleveltomd in Dafny

`strengthleveltomd.py` converts a Strength Level workout export into Markdown
notes, one per workout date. It reads four settings from the command line:

- the input file;
- the output directory;
- a frontmatter style;
- the unit system.

It then loads the table of logged sets. For every distinct date it writes a
document containing:

- an optional Joplin frontmatter block;
- two summary lines: the date, then the counts of exercises, sets and reps, the volume and the bodyweight;
- one block per exercise: per-weight lines of `<sets> x <reps>` tokens, a single
  line of such tokens when the exercise has no weight, or ` -` when it has no
  data at all.

This project models that core and proves what it computes:

- `Sequences` holds the generic pieces:
  - first-appearance de-duplication (`Distinct`, the table library's `unique()`) and its characterisation;
  - `SumCounts`;
  - a back-to-front `Map` with its index lemma.
- `Workouts` covers the table as a sequence of `Row`s:
  - the row filters, each with its membership and count lemmas;
  - the per-day sums;
  - the grouped report (`DayGroup`, `ExerciseGroup`, `WeightGroup`, `Tally`);
  - the properties promised about it.
- `Markdown` is the document text, written as functions.
- `Converter` holds the source's nested append loops as methods. Each method
  is proved to build exactly the `Markdown` text of the `Workouts` report. It
  also has the per-date loop that yields one document per distinct date.
- `CommandLine` has:
  - the `Settings` class, with the defaults and the option loop that overwrites them;
  - the option semantics as the functions `Step` and `Run`;
  - lemmas about completed and failed runs.
- `Columns` holds the column names the program loads and looks up. It records
  the imperial weight-column defect; see Findings.

The program's behaviour on missing values is modelled as follows:

- A missing weight or rep count behaves like the table library's missing value.
- `Distinct` lists it once.
- It never compares equal to anything (`Same`), so a filter on it keeps no row.
- Sums skip it.

Dates are opaque integer keys. Their texts (long date, ISO day, creation
timestamp) come from a `Calendar` parameter. The file system enters as two
sets of paths:

- the paths that exist;
- the directories an attempt to create would succeed for.

Where the behaviour described for the program and its code differ, the model
follows the code. Passing `-f interactive` explicitly is checked as a path like
any other (strengthleveltomd.py:34-37), so it fails unless a file of that name
exists. Options before a help flag are still applied, including directory
creation (strengthleveltomd.py:21-32).

## Model

| member | source | states |
|---|---|---|
| Sequences.Distinct | strengthleveltomd.py:93 | the de-duplicated list is no longer than its input and starts with the input's first element |
| Sequences.DistinctInFirstAppearanceOrder | strengthleveltomd.py:93 | `Distinct(s)` lists every element of `s` exactly once, with no duplicates, in order of first occurrence in `s` |
| Sequences.SumCountsOverDistinct | strengthleveltomd.py:93-96 | summing the multiplicities of the distinct values of `s` gives `\|s\|` |
| Workouts.OnDateMembers | strengthleveltomd.py:96 | the rows selected for a date are exactly the table rows with that date |
| Workouts.OnDateCount | strengthleveltomd.py:96 | the number of rows selected for a date is the number of occurrences of that date |
| Workouts.OnDateFirst | strengthleveltomd.py:96 | the first row of a date's selection is the table's first row with that date |
| Workouts.OfExerciseMembers | strengthleveltomd.py:122 | the rows selected for an exercise are exactly the rows with that exercise name |
| Workouts.OfExerciseCount | strengthleveltomd.py:122 | the number of rows selected for an exercise is the number of occurrences of that name |
| Workouts.OfExerciseFirst | strengthleveltomd.py:122 | the first row of an exercise's selection is the day's first row with that exercise |
| Workouts.WithWeightMembers | strengthleveltomd.py:130 | filtering on a weight keeps exactly the rows with that weight, and nothing for a missing weight |
| Workouts.WithWeightCount | strengthleveltomd.py:130 | the filter keeps as many rows as the weight occurs, or none for a missing weight |
| Workouts.WithRepsMembers | strengthleveltomd.py:137 | filtering on a rep count keeps exactly the rows with that count, and nothing for a missing count |
| Workouts.WithRepsCount | strengthleveltomd.py:145 | the filter keeps as many rows as the rep count occurs, or none for a missing count |
| Workouts.CompleteMembers | strengthleveltomd.py:113 | the complete rows are exactly those with both a weight and a rep count |
| Workouts.TotalAppend | strengthleveltomd.py:112-113 | a sum over concatenated rows is the sum of the two sums |
| Workouts.TotalPermutation | strengthleveltomd.py:112-113 | rep and volume sums depend only on the multiset of rows |
| Workouts.VolumeOnlyFromCompleteRows | strengthleveltomd.py:113 | the volume of some rows equals the volume of their complete rows; rows missing a weight or reps add nothing |
| Workouts.RepsTotalIsColumnSum | strengthleveltomd.py:112 | the rep total equals the sum of the rep column with missing entries skipped |
| Workouts.VolumeIsColumnSum | strengthleveltomd.py:113 | the volume equals the sum of the element-wise weight-times-reps column, a product being missing when either factor is |
| Workouts.TalliesAt | strengthleveltomd.py:136-138 | the i-th tally counts the rows with the i-th listed rep value |
| Workouts.WeightGroupsAt | strengthleveltomd.py:129-139 | the i-th weight group holds the rep tallies of the rows at the i-th listed weight |
| Workouts.GroupsAt | strengthleveltomd.py:121-124 | the i-th exercise breakdown of a day is that of the i-th listed exercise name |
| Workouts.SummarizeAt | strengthleveltomd.py:93-96 | the i-th report is the report for the i-th distinct date and carries that date |
| Workouts.OneReportPerDate | strengthleveltomd.py:93-95 | the report dates list every date of the table exactly once, in order of first appearance |
| Workouts.SetsPartitionRows | strengthleveltomd.py:95-96 | the set counts of all reports add up to the number of rows, so every row is counted in exactly one day |
| Workouts.DayTotals | strengthleveltomd.py:111-118 | a day's report: its set count is the number of rows with its date; its rep total and volume are the column sums over those rows, skipping missing entries; its volume comes only from complete rows; its bodyweight is the first such row's |
| Workouts.DayTotalsIgnoreRowOrder | strengthleveltomd.py:111-113 | sets, reps and volume of a day are unchanged by reordering that day's rows |
| Workouts.DayExercises | strengthleveltomd.py:114 | the exercises of a day's report list each exercise of that day exactly once, in order of first appearance, so their number is the number of distinct exercise names |
| Workouts.DayExerciseAt | strengthleveltomd.py:121-124 | the i-th exercise of a day's report is the breakdown of the i-th distinct exercise name of that day |
| Workouts.GroupName | strengthleveltomd.py:124 | an exercise's breakdown carries its own name |
| Workouts.GroupKind | strengthleveltomd.py:127 | the breakdown is per weight iff the exercise's first row has a weight; rep-only iff the first row has reps but no weight; empty iff it has neither |
| Workouts.RepTalliesOrder | strengthleveltomd.py:141 | tallies list each rep value of the rows once, in order of first appearance |
| Workouts.RepTallyCount | strengthleveltomd.py:145 | a tally's rep value occurs in the rows, and a present rep value's tally counts its occurrences |
| Workouts.RepTalliesTotal | strengthleveltomd.py:141-147 | with no missing rep count, the tallies add up to the number of rows |
| Workouts.CombinationCount | strengthleveltomd.py:137 | filtering on exercise, weight and reps keeps as many rows as that combination occurs in the day |
| Workouts.WeightLineCount | strengthleveltomd.py:137-138 | each tally under a present weight counts the day's rows with that exercise, weight and rep value |
| Workouts.WeightLineTotal | strengthleveltomd.py:129-139 | with no missing rep count in the exercise, the tallies under a weight add up to that weight's row count |
| Workouts.WeightedBreakdown | strengthleveltomd.py:127-139 | for a weighted exercise: weights are listed once each, in first-appearance order; under each weight rep values are listed once each, in first-appearance order; tally counts are combination counts; with no missing reps they sum to the weight's rows |
| Workouts.UnweightedBreakdown | strengthleveltomd.py:140-147 | for a rep-only exercise: each rep value is listed once, in first-appearance order, with its row count; with no missing reps they sum to the exercise's rows for the day |
| Markdown.NatText | strengthleveltomd.py:118 | a count renders as a non-empty string of decimal digits with no leading zero |
| Markdown.NatTextRoundTrip | strengthleveltomd.py:118 | reading the rendered digits back gives the number |
| Markdown.ListingIsJoin | strengthleveltomd.py:138 | the appended tokens are empty, or the lead followed by the tokens joined with ", " (no comma before the first) |
| Markdown.OutputPath | strengthleveltomd.py:153 | the path is the directory, then exactly one `/`, then the file name; a `/` is added only when the directory does not already end in one |
| Converter.TallyTextStep | strengthleveltomd.py:136-139 | appending one more tally extends the token text by the separator (the lead for the first, ", " after) and `<sets> x <reps>` |
| Converter.AppendTallies | strengthleveltomd.py:143-147 | the rep loop appends exactly the token list of the distinct rep values, in order, after the lead |
| Converter.AppendWeightLines | strengthleveltomd.py:128-139 | the weight loop appends exactly one line per distinct weight, each with its token list |
| Converter.AppendExercise | strengthleveltomd.py:124-149 | one exercise's text is appended, exactly as its breakdown renders |
| Converter.RenderContent | strengthleveltomd.py:110-149 | the content built for a date is the summary lines followed by every exercise block of that date's report |
| Converter.RenderDocument | strengthleveltomd.py:98-154 | the document built for a date is its frontmatter and content, at the path `<dir>/Strength_Level_Workout_<day>.md` |
| Converter.DocumentsAt | strengthleveltomd.py:93-95 | the i-th document is the one of the i-th report |
| Converter.ConvertAll | strengthleveltomd.py:93-156 | the date loop yields the documents of all reports, one per distinct date, in first-appearance order |
| CommandLine.FlagOf | strengthleveltomd.py:22-52 | each option is recognised exactly by its short or its long spelling |
| CommandLine.Lower | strengthleveltomd.py:54-56 | lower-casing keeps the length and maps each character on its own |
| CommandLine.ParseMetricSpelling | strengthleveltomd.py:54-59 | a token reads as true iff it spells `t` or `true` in any case; as false iff it spells `f` or `false` in any case |
| CommandLine.ParseMetricIgnoresCase | strengthleveltomd.py:54-56 | lower-casing the token first does not change how it is read |
| CommandLine.CompletedRunValues | strengthleveltomd.py:21-59 | a run that completes met no help option, only supported frontmatter styles and only readable metric tokens |
| CommandLine.CompletedRunSettings | strengthleveltomd.py:34-59 | after a completed run, each setting holds the value of its last option, or its starting value when no option names it |
| CommandLine.CompletedRunValid | strengthleveltomd.py:14-17 | starting from valid settings, a completed run leaves a supported frontmatter style and a non-empty output directory |
| CommandLine.FailedRunCause | strengthleveltomd.py:34-59 | each failure has a witnessing option: a missing file, an uncreatable directory, an unsupported style or an unreadable metric token |
| CommandLine.Settings.constructor | strengthleveltomd.py:14-17 | the defaults: input `interactive`, the working directory, frontmatter `none`, metric true |
| CommandLine.Settings.ParseOptions | strengthleveltomd.py:21-59 | the option loop leaves the status and settings that `Run` gives for the starting settings |
| Columns.LoadedColumns | strengthleveltomd.py:78-83 | six columns are loaded, with date, exercise and reps at fixed positions |
| Columns.Lookup | strengthleveltomd.py:130 | a name is found iff it is a loaded column, at a position holding that name |
| Columns.FilterLookupFailsInPounds | strengthleveltomd.py:130-137 | in pounds the per-weight filters name a column the table does not have; in kilograms they find theirs |
| Columns.WeightColumnLoaded | strengthleveltomd.py:113-122 | the weight column used for volume and the weight list is loaded, at position 2, in both unit systems |

## Left out

- The interactive file dialog (strengthleveltomd.py:68-76) is a user interface and is not part of this model.
- The getopt tokenisation is not modelled. Options enter as already-split `(option, value)` pairs. A malformed command line, which the program reports and then ignores (strengthleveltomd.py:61-62), is not modelled.
- Printing the help text and the parameters, and the progress bar, are output only and are left out.
- File-system checks are set membership. Directory creation is membership in the set of creatable paths. Writing the files is left out: the model yields the path and text of each document.
- Loading the export file, its dtype coercion and date parsing are left out. The model starts from the rows. The `Percentile (%)` column is loaded but never used.
- Calendar formatting (`strftime`, `isoformat`) is a parameter. The replacements that turn the ISO timestamp into the `created:` value are part of that parameter.
- Weights, bodyweight and volume are whole numbers rendered in decimal. Floating-point values and their rendering (`60.0`) are left out.
- A missing value after a present first value (a missing weight under a weighted exercise, a missing rep count in a tally list) is computed as the program does, but no lemma describes that output. The lemmas assume present values where the source's counts are degenerate.
- Several rows that fall on the same day but have different timestamps give documents with the same file name. The later document would overwrite the earlier one on disk; the model keeps both documents.
- CommandLine.Lower: lower-cases ASCII letters only. The program uses full Unicode lower-casing. No non-ASCII character lower-cases to a letter of `t`, `true`, `f` or `false`, so metric parsing is unaffected.
- CommandLine.Settings.ParseOptions: when a metric token is unreadable, the program has already stored the raw token in its `metric` variable before it fails. The model keeps the previous boolean, because the program stops right there.
- Workouts.GroupsAt: requires every listed name to occur in the day. The source only ever lists names taken from the day itself (strengthleveltomd.py:114).
- The output directory must be non-empty to build a path. In the source an empty directory never gets that far: it neither exists nor can be created.

## Findings

| source | as written | input that shows it | evidently intended | confidence | as-written member | corrected member |
|---|---|---|---|---|---|---|
| strengthleveltomd.py:130-137 | the per-weight filters index the weight column as `"Weight lb"` when metric is false | `-m false` with any exercise that has a weight: the loaded columns are `Weight (lb)` etc., so the lookup of `Weight lb` fails with a key error | index `"Weight (lb)"`, the column loaded at line 82 and used at lines 113 and 122 | not executed | Columns.FilterLookupFailsInPounds | Columns.WeightColumnLoaded |
