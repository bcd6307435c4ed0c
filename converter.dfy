/**
 * The conversion loop: for every distinct date, the document text is built by
 * appending to a string inside nested loops over exercises, weights and rep
 * values. Each method is proved to produce exactly the text that the
 * Markdown functions give for the Workouts summary of that date.
 */
module Converter {
  import opened Wrappers
  import opened Sequences
  import opened Workouts
  import opened Markdown

  /** One output file: where it is written and what it holds. */
  datatype Document = Document(path: string, text: string)

  /** The text of the first `i + 1` tallies extends that of the first `i` by one token. */
  lemma TallyTextStep(sub: seq<Row>, rs: seq<Option<nat>>, i: nat, lead: string)
    requires i < |rs|
    ensures TallyText(Tallies(sub, rs[..i + 1]), lead)
      == TallyText(Tallies(sub, rs[..i]), lead)
         + ((if i > 0 then ", " else lead) + NatText(|WithReps(sub, rs[i])|) + " x " + RepsText(rs[i]))
  {
    var done, t := Tallies(sub, rs[..i]), Tally(|WithReps(sub, rs[i])|, rs[i]);
    assert rs[..i + 1][..i] == rs[..i];
    assert Tallies(sub, rs[..i + 1]) == done + [t];
    assert (done + [t])[..|done|] == done;
    var parts := Tokens(done + [t]);
    assert parts == Tokens(done) + [Token(t)];
    assert parts[..|parts| - 1] == Tokens(done);
    var sep := if i > 0 then ", " else lead;
    var listed := Listing(Tokens(done), lead);
    assert Listing(parts, lead) == listed + sep + Token(t);
    var a, b, c := NatText(t.sets), " x ", RepsText(t.reps);
    calc {
      listed + sep + Token(t);
      { Associative(listed, sep, Token(t)); }
      listed + (sep + ((a + b) + c));
      { Associative(sep, a + b, c); Associative(sep, a, b); }
      listed + (((sep + a) + b) + c);
    }
  }

  lemma Associative(a: string, b: string, c: string)
    ensures (a + b) + c == a + (b + c)
  {
  }

  /**
   * Appends one `<sets> x <reps>` token per distinct rep value of `sub`, the
   * first after `lead` and the others after ", ".
   */
  method AppendTallies(content: string, sub: seq<Row>, lead: string) returns (result: string)
    ensures result == content + TallyText(RepTallies(sub), lead)
  {
    var uniqueReps := Distinct(RepsOf(sub));
    result := content;
    var repInd := 0;
    while repInd < |uniqueReps|
      invariant 0 <= repInd <= |uniqueReps|
      invariant result == content + TallyText(Tallies(sub, uniqueReps[..repInd]), lead)
    {
      var reps := uniqueReps[repInd];
      var nSetsAtRep := |WithReps(sub, reps)|;
      ghost var done := TallyText(Tallies(sub, uniqueReps[..repInd]), lead);
      var token := (if repInd > 0 then ", " else lead) + NatText(nSetsAtRep) + " x " + RepsText(reps);
      result := result + token;
      TallyTextStep(sub, uniqueReps, repInd, lead);
      Associative(content, done, token);
      repInd := repInd + 1;
    }
    assert uniqueReps[..repInd] == uniqueReps;
  }

  /** The weight lines of the first `i + 1` weights extend those of the first `i` by one line. */
  lemma WeightLinesStep(ex: seq<Row>, ws: seq<Option<int>>, i: nat, unit: string)
    requires i < |ws|
    ensures WeightLinesText(WeightGroups(ex, ws[..i + 1]), unit)
      == WeightLinesText(WeightGroups(ex, ws[..i]), unit)
         + WeightLineText(WeightGroup(ws[i], RepTallies(WithWeight(ex, ws[i]))), unit)
  {
    var done, g := WeightGroups(ex, ws[..i]), WeightGroup(ws[i], RepTallies(WithWeight(ex, ws[i])));
    assert ws[..i + 1][..i] == ws[..i];
    assert WeightGroups(ex, ws[..i + 1]) == done + [g];
    assert (done + [g])[..|done|] == done;
  }

  /** Appends one line per distinct weight of `ex`, each followed by its tokens. */
  method AppendWeightLines(content: string, ex: seq<Row>, unit: string) returns (result: string)
    ensures result == content + WeightLinesText(WeightGroups(ex, Distinct(WeightsOf(ex))), unit)
  {
    var uniqueWeights := Distinct(WeightsOf(ex));
    result := content;
    var weightInd := 0;
    while weightInd < |uniqueWeights|
      invariant 0 <= weightInd <= |uniqueWeights|
      invariant result == content + WeightLinesText(WeightGroups(ex, uniqueWeights[..weightInd]), unit)
    {
      var weight := uniqueWeights[weightInd];
      ghost var done := WeightLinesText(WeightGroups(ex, uniqueWeights[..weightInd]), unit);
      var heading := "\n   " + WeightText(weight) + " " + unit + ": ";
      ghost var before := result;
      result := result + heading;
      result := AppendTallies(result, WithWeight(ex, weight), "");
      ghost var tokens := TallyText(RepTallies(WithWeight(ex, weight)), "");
      assert result == (before + heading) + tokens;
      Associative(before, heading, tokens);
      Associative(content, done, heading + tokens);
      WeightLinesStep(ex, uniqueWeights, weightInd, unit);
      weightInd := weightInd + 1;
    }
    assert uniqueWeights[..weightInd] == uniqueWeights;
  }

  /** Appends the line(s) of one exercise of the day. */
  method AppendExercise(content: string, day: seq<Row>, exercise: string, unit: string) returns (result: string)
    requires exercise in NamesOf(day)
    ensures result == content + GroupText(Group(day, exercise), unit)
  {
    OfExerciseNonEmpty(day, exercise);
    var ex := OfExercise(day, exercise);
    var uniqueWeights := Distinct(WeightsOf(ex));
    var heading := "\n" + exercise + ":";
    result := content + heading;
    ghost var body;
    if uniqueWeights[0].Some? {
      result := AppendWeightLines(result, ex, unit);
      body := WeightLinesText(Group(day, exercise).weights, unit);
    } else {
      var uniqueReps := Distinct(RepsOf(ex));
      if uniqueReps[0].Some? {
        result := AppendTallies(result, ex, " ");
        body := TallyText(Group(day, exercise).tallies, " ");
      } else {
        result := result + " -";
        body := " -";
      }
    }
    assert result == content + GroupText(Group(day, exercise), unit) by {
      assert result == (content + heading) + body;
      Associative(content, heading, body);
    }
  }

  /** The exercise text of the first `i + 1` names extends that of the first `i` by one exercise. */
  lemma GroupsTextStep(day: seq<Row>, es: seq<string>, i: nat, unit: string)
    requires forall e :: e in es ==> e in NamesOf(day)
    requires i < |es|
    ensures GroupsText(Groups(day, es[..i + 1]), unit)
      == GroupsText(Groups(day, es[..i]), unit) + GroupText(Group(day, es[i]), unit)
  {
    var done, g := Groups(day, es[..i]), Group(day, es[i]);
    GroupsSnoc(day, es, i);
    GroupsTextSnoc(done, g, unit);
  }

  lemma GroupsTextSnoc(gs: seq<ExerciseGroup>, g: ExerciseGroup, unit: string)
    ensures GroupsText(gs + [g], unit) == GroupsText(gs, unit) + GroupText(g, unit)
  {
    assert (gs + [g])[..|gs|] == gs;
  }

  /** The summary lines of date `d` followed by the lines of its exercises. */
  method RenderContent(rows: seq<Row>, d: int, metric: bool, cal: Calendar) returns (content: string)
    requires d in DatesOf(rows)
    ensures content == ContentText(SummarizeDay(rows, d), metric, cal)
  {
    var unit := Unit(metric);
    var dfDate := OnDate(rows, d);
    OnDateNonEmpty(rows, d);
    var totalSets := |dfDate|;
    var totalReps := Total(dfDate, Reps);
    var totalVolume := Total(dfDate, Volume);
    var uniqueExercises := Distinct(NamesOf(dfDate));
    content := SummaryLines(cal.longDate(d), |uniqueExercises|, totalSets, totalReps, totalVolume,
                            dfDate[0].bodyweight, unit);
    ghost var header := content;
    assert forall e :: e in uniqueExercises ==> e in NamesOf(dfDate) by {
      DistinctMembers(NamesOf(dfDate));
    }
    var exerciseInd := 0;
    while exerciseInd < |uniqueExercises|
      invariant 0 <= exerciseInd <= |uniqueExercises|
      invariant content == header + GroupsText(Groups(dfDate, uniqueExercises[..exerciseInd]), unit)
    {
      var exercise := uniqueExercises[exerciseInd];
      ghost var done := GroupsText(Groups(dfDate, uniqueExercises[..exerciseInd]), unit);
      content := AppendExercise(content, dfDate, exercise, unit);
      assert content == header + GroupsText(Groups(dfDate, uniqueExercises[..exerciseInd + 1]), unit) by {
        GroupsTextStep(dfDate, uniqueExercises, exerciseInd, unit);
        Associative(header, done, GroupText(Group(dfDate, exercise), unit));
      }
      exerciseInd := exerciseInd + 1;
    }
    assert content == ContentText(SummarizeDay(rows, d), metric, cal) by {
      assert uniqueExercises[..exerciseInd] == uniqueExercises;
    }
  }

  /** The file written for the report `g`. */
  function DocumentOf(g: DayGroup, frontmatter: string, metric: bool, outputDir: string, cal: Calendar): Document
    requires outputDir != ""
  {
    Document(
      OutputPath(outputDir, FileName(g.date, cal)),
      FrontmatterText(frontmatter, g.date, cal) + ContentText(g, metric, cal))
  }

  /** The frontmatter, the content and the path of the file for one date. */
  method RenderDocument(rows: seq<Row>, date: int, frontmatter: string, metric: bool, outputDir: string, cal: Calendar)
    returns (doc: Document)
    requires date in DatesOf(rows) && outputDir != ""
    ensures doc == DocumentOf(SummarizeDay(rows, date), frontmatter, metric, outputDir, cal)
  {
    var frontmatterString := if frontmatter == "joplin" then
        "---\ntitle: \"Strength Level Workout " + cal.isoDate(date) + "\"\ncreated: " + cal.created(date) + "Z\n---\n\n"
      else "";
    var contentString := RenderContent(rows, date, metric, cal);
    var fileName := FileName(date, cal);
    doc := Document(OutputPath(outputDir, fileName), frontmatterString + contentString);
  }

  /** The documents of the listed reports, in the order listed. */
  function Documents(days: seq<DayGroup>, frontmatter: string, metric: bool, outputDir: string, cal: Calendar)
    : (docs: seq<Document>)
    requires outputDir != ""
    ensures |docs| == |days|
  {
    Map(g requires outputDir != "" => DocumentOf(g, frontmatter, metric, outputDir, cal), days)
  }

  /** The `i`-th document is the one of the `i`-th report. */
  lemma DocumentsAt(days: seq<DayGroup>, i: nat, frontmatter: string, metric: bool, outputDir: string, cal: Calendar)
    requires i < |days| && outputDir != ""
    ensures Documents(days, frontmatter, metric, outputDir, cal)[i] == DocumentOf(days[i], frontmatter, metric, outputDir, cal)
  {
    MapAt(g requires outputDir != "" => DocumentOf(g, frontmatter, metric, outputDir, cal), days, i);
  }

  lemma ConvertStep(rows: seq<Row>, k: nat, frontmatter: string, metric: bool, outputDir: string, cal: Calendar)
    requires k < |Distinct(DatesOf(rows))| && outputDir != ""
    ensures Distinct(DatesOf(rows))[k] in DatesOf(rows)
    ensures Documents(Summarize(rows)[..k + 1], frontmatter, metric, outputDir, cal)
      == Documents(Summarize(rows)[..k], frontmatter, metric, outputDir, cal)
         + [DocumentOf(SummarizeDay(rows, Distinct(DatesOf(rows))[k]), frontmatter, metric, outputDir, cal)]
  {
    SummarizeAt(rows, k);
    MapSnoc(g requires outputDir != "" => DocumentOf(g, frontmatter, metric, outputDir, cal), Summarize(rows), k);
  }

  /** One document per distinct date, in order of first appearance of the date. */
  method ConvertAll(rows: seq<Row>, frontmatter: string, metric: bool, outputDir: string, cal: Calendar)
    returns (docs: seq<Document>)
    requires outputDir != ""
    ensures docs == Documents(Summarize(rows), frontmatter, metric, outputDir, cal)
  {
    var uniqueDates := Distinct(DatesOf(rows));
    DistinctMembers(DatesOf(rows));
    ghost var days := Summarize(rows);
    docs := [];
    var dateInd := 0;
    while dateInd < |uniqueDates|
      invariant 0 <= dateInd <= |uniqueDates|
      invariant docs == Documents(days[..dateInd], frontmatter, metric, outputDir, cal)
    {
      ConvertStep(rows, dateInd, frontmatter, metric, outputDir, cal);
      var doc := RenderDocument(rows, uniqueDates[dateInd], frontmatter, metric, outputDir, cal);
      docs := docs + [doc];
      dateInd := dateInd + 1;
    }
    assert days[..dateInd] == days;
  }
}
