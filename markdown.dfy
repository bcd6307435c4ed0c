/**
 * The text of one workout document: optional Joplin frontmatter, the summary
 * line, and one line per exercise with its `<sets> x <reps>` tokens.
 */
module Markdown {
  import opened Wrappers
  import opened Workouts

  /**
   * Date texts used by the document: the long form of the summary line, the
   * ISO day of the title and file name, and the creation timestamp (without
   * its trailing zone marker). Calendar formatting is outside this model.
   */
  datatype Calendar = Calendar(longDate: int -> string, isoDate: int -> string, created: int -> string)

  // ---------------------------------------------------------------- numbers

  predicate IsDigits(s: string)
  {
    forall i :: 0 <= i < |s| ==> '0' <= s[i] <= '9'
  }

  function DigitChar(n: nat): (c: char)
    requires n < 10
    ensures '0' <= c <= '9' && c as int - '0' as int == n
  {
    ('0' as int + n) as char
  }

  /** Decimal text of a natural number, without leading zeros. */
  function NatText(n: nat): (s: string)
    ensures |s| > 0 && IsDigits(s)
    ensures s[0] == '0' ==> n == 0
  {
    if n < 10 then [DigitChar(n)] else NatText(n / 10) + [DigitChar(n % 10)]
  }

  /** Value of a string of decimal digits. */
  function DecimalValue(s: string): nat
    requires IsDigits(s)
  {
    if s == [] then 0 else DecimalValue(s[..|s| - 1]) * 10 + (s[|s| - 1] as int - '0' as int)
  }

  lemma {:induction false} NatTextRoundTrip(n: nat)
    ensures DecimalValue(NatText(n)) == n
  {
    if n >= 10 {
      var s := NatText(n);
      assert s[..|s| - 1] == NatText(n / 10);
      NatTextRoundTrip(n / 10);
    }
  }

  function IntText(i: int): string
  {
    if i < 0 then "-" + NatText(-i) else NatText(i)
  }

  /** A weight or bodyweight; a missing one prints as the float NaN does. */
  function WeightText(w: Option<int>): string
  {
    match w
    case Some(v) => IntText(v)
    case None => "nan"
  }

  /** A rep count; a missing one prints as the integer column's missing value does. */
  function RepsText(r: Option<nat>): string
  {
    match r
    case Some(v) => NatText(v)
    case None => "<NA>"
  }

  function Unit(metric: bool): string
  {
    if metric then "kg" else "lb"
  }

  // ---------------------------------------------------------------- tokens

  /** `<sets> x <reps>` */
  function Token(t: Tally): string
  {
    NatText(t.sets) + " x " + RepsText(t.reps)
  }

  function Tokens(ts: seq<Tally>): (tokens: seq<string>)
    ensures |tokens| == |ts| && forall i :: 0 <= i < |ts| ==> tokens[i] == Token(ts[i])
  {
    if ts == [] then [] else Tokens(ts[..|ts| - 1]) + [Token(ts[|ts| - 1])]
  }

  /**
   * Parts as the renderer appends them: the first is preceded by `lead`,
   * every later one by a comma and a space.
   */
  function Listing(parts: seq<string>, lead: string): string
  {
    if parts == [] then ""
    else Listing(parts[..|parts| - 1], lead) + (if |parts| == 1 then lead else ", ") + parts[|parts| - 1]
  }

  /** The `<sets> x <reps>` tokens of some tallies, as appended after `lead`. */
  function TallyText(ts: seq<Tally>, lead: string): string
  {
    Listing(Tokens(ts), lead)
  }

  /** Comma-separated list, built from the front. */
  function Join(parts: seq<string>): string
  {
    if parts == [] then ""
    else if |parts| == 1 then parts[0]
    else parts[0] + ", " + Join(parts[1..])
  }

  lemma {:induction false} JoinAppend(parts: seq<string>, last: string)
    requires parts != []
    ensures Join(parts + [last]) == Join(parts) + ", " + last
  {
    if |parts| > 1 {
      assert (parts + [last])[1..] == parts[1..] + [last];
      JoinAppend(parts[1..], last);
    }
  }

  /** The appended list is `lead` followed by the parts joined with ", ". */
  lemma {:induction false} ListingIsJoin(parts: seq<string>, lead: string)
    ensures Listing(parts, lead) == if parts == [] then "" else lead + Join(parts)
  {
    if |parts| == 1 {
      assert parts[..0] == [];
    } else if |parts| > 1 {
      var p, t := parts[..|parts| - 1], parts[|parts| - 1];
      ListingIsJoin(p, lead);
      assert parts == p + [t];
      JoinAppend(p, t);
      var joined := Join(p);
      calc {
        Listing(parts, lead);
        Listing(p, lead) + ", " + t;
        (lead + joined) + ", " + t;
        lead + (joined + ", " + t);
      }
    }
  }

  // ---------------------------------------------------------------- lines

  /** `\n   <weight> <unit>: ` followed by that weight's tokens. */
  function WeightLineText(g: WeightGroup, unit: string): string
  {
    "\n   " + WeightText(g.weight) + " " + unit + ": " + TallyText(g.tallies, "")
  }

  function WeightLinesText(gs: seq<WeightGroup>, unit: string): string
  {
    if gs == [] then ""
    else WeightLinesText(gs[..|gs| - 1], unit) + WeightLineText(gs[|gs| - 1], unit)
  }

  /** `\n<exercise>:` followed by its weight lines, its space-led tokens, or ` -`. */
  function GroupText(g: ExerciseGroup, unit: string): string
  {
    "\n" + g.name + ":" +
    match g
    case Weighted(_, ws) => WeightLinesText(ws, unit)
    case Unweighted(_, ts) => TallyText(ts, " ")
    case Unquantified(_) => " -"
  }

  function GroupsText(gs: seq<ExerciseGroup>, unit: string): string
  {
    if gs == [] then ""
    else GroupsText(gs[..|gs| - 1], unit) + GroupText(gs[|gs| - 1], unit)
  }

  /** The two summary lines: date, then counts, totals and bodyweight. */
  function SummaryLines(longDate: string, exercises: nat, sets: nat, reps: int, volume: int,
                        bodyweight: Option<int>, unit: string): string
  {
    "Strength Level Workout on " + longDate + "\n"
    + NatText(exercises) + " exercises, "
    + NatText(sets) + " total sets, "
    + IntText(reps) + " total reps, "
    + IntText(volume) + " " + unit + " total volume, "
    + WeightText(bodyweight) + " " + unit + " bodyweight.\n"
  }

  /** The two summary lines of a day. */
  function SummaryText(g: DayGroup, unit: string, longDate: string): string
  {
    SummaryLines(longDate, |g.exercises|, g.sets, g.reps, g.volume, g.bodyweight, unit)
  }

  /** The body of a day's document. */
  function ContentText(g: DayGroup, metric: bool, cal: Calendar): string
  {
    SummaryText(g, Unit(metric), cal.longDate(g.date)) + GroupsText(g.exercises, Unit(metric))
  }

  /** The header block, present only for the `joplin` style. */
  function FrontmatterText(frontmatter: string, d: int, cal: Calendar): string
  {
    if frontmatter == "joplin" then
      "---\ntitle: \"Strength Level Workout " + cal.isoDate(d) + "\"\ncreated: " + cal.created(d) + "Z\n---\n\n"
    else ""
  }

  // ---------------------------------------------------------------- files

  function FileName(d: int, cal: Calendar): string
  {
    "Strength_Level_Workout_" + cal.isoDate(d) + ".md"
  }

  /** The output directory and the file name, with exactly one `/` between them. */
  function OutputPath(dir: string, name: string): (path: string)
    requires dir != ""
    ensures |path| >= |dir| + |name|
    ensures path[..|dir|] == dir && path[|path| - |name|..] == name
    ensures |path| - |name| - 1 >= 0 && path[|path| - |name| - 1] == '/'
    ensures |path| == |dir| + |name| || (|path| == |dir| + |name| + 1 && dir[|dir| - 1] != '/')
  {
    dir + (if dir[|dir| - 1] != '/' then "/" else "") + name
  }
}
