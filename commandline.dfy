/**
 * The command-line settings: their defaults, the loop over the parsed
 * `(option, value)` pairs that overwrites them, and the checks that stop the
 * program on a missing input file, an output directory that cannot be made,
 * an unsupported frontmatter style or an unreadable metric token.
 *
 * The file system is given as two sets of paths: those that exist, and the
 * directories an attempt to create would succeed for.
 */
module CommandLine {
  import opened Wrappers

  /** The options the program recognises, each with a short and a long spelling. */
  datatype Flag = Help | File | Directory | Frontmatter | Metric

  function FlagOf(arg: string): (f: Option<Flag>)
    ensures f == Some(Help) <==> arg == "-h" || arg == "--help"
    ensures f == Some(File) <==> arg == "-f" || arg == "--file"
    ensures f == Some(Directory) <==> arg == "-d" || arg == "--directory"
    ensures f == Some(Frontmatter) <==> arg == "-o" || arg == "--frontmatter"
    ensures f == Some(Metric) <==> arg == "-m" || arg == "--metric"
  {
    if arg == "-h" || arg == "--help" then Some(Help)
    else if arg == "-f" || arg == "--file" then Some(File)
    else if arg == "-d" || arg == "--directory" then Some(Directory)
    else if arg == "-o" || arg == "--frontmatter" then Some(Frontmatter)
    else if arg == "-m" || arg == "--metric" then Some(Metric)
    else None
  }

  /** Why option handling stopped the program. */
  datatype Failure = FileNotFound | DirectoryNotCreated | UnsupportedFrontmatter | InvalidMetric

  datatype Status = Completed | HelpRequested | Failed(failure: Failure)

  /** The four settings the options control. */
  datatype Config = Config(csvPath: string, outputDir: string, frontmatter: string, metric: bool)

  /** The settings before any option is read; `cwd` is the working directory. */
  function Defaults(cwd: string): Config
  {
    Config("interactive", cwd, "none", true)
  }

  // ---------------------------------------------------------------- values

  function LowerChar(c: char): char
  {
    if 'A' <= c <= 'Z' then (c as int - 'A' as int + 'a' as int) as char else c
  }

  /** Lower case of the ASCII letters of `s`. */
  function Lower(s: string): (t: string)
    ensures |t| == |s| && forall i :: 0 <= i < |s| ==> t[i] == LowerChar(s[i])
  {
    if s == [] then [] else Lower(s[..|s| - 1]) + [LowerChar(s[|s| - 1])]
  }

  /** `s` spells the lower-case word `w` in any mixture of cases. */
  predicate SpellsIgnoringCase(s: string, w: string)
  {
    |s| == |w| && forall i :: 0 <= i < |s| ==> LowerChar(s[i]) == w[i]
  }

  /** The metric token: `t`/`true` for kilograms, `f`/`false` for pounds, in any case. */
  function ParseMetric(token: string): Option<bool>
  {
    var low := Lower(token);
    if low == "t" || low == "true" then Some(true)
    else if low == "f" || low == "false" then Some(false)
    else None
  }

  /** The tokens read as `true` and as `false` are exactly the case variants of the four words. */
  lemma ParseMetricSpelling(token: string)
    ensures ParseMetric(token) == Some(true) <==> SpellsIgnoringCase(token, "t") || SpellsIgnoringCase(token, "true")
    ensures ParseMetric(token) == Some(false) <==> SpellsIgnoringCase(token, "f") || SpellsIgnoringCase(token, "false")
  {
  }

  lemma LowerIdempotent(s: string)
    ensures Lower(Lower(s)) == Lower(s)
  {
  }

  /** Lower-casing the token first does not change how it is read. */
  lemma ParseMetricIgnoresCase(token: string)
    ensures ParseMetric(Lower(token)) == ParseMetric(token)
  {
    LowerIdempotent(token);
  }

  predicate SupportedFrontmatter(style: string)
  {
    style == "none" || style == "joplin"
  }

  // ---------------------------------------------------------------- options

  /** Result of handling one option: go on with new settings and paths, or stop. */
  datatype Outcome = Continue(config: Config, present: set<string>) | Stop(status: Status, config: Config)

  /**
   * One option: help stops the program; a file must exist; a directory is
   * created when missing; the frontmatter style and the metric token must be
   * valid. The setting is assigned before it is checked.
   */
  function Step(c: Config, present: set<string>, creatable: set<string>, arg: string, val: string): Outcome
  {
    match FlagOf(arg)
    case Some(Help) => Stop(HelpRequested, c)
    case Some(File) =>
      var c' := c.(csvPath := val);
      if val in present then Continue(c', present) else Stop(Failed(FileNotFound), c')
    case Some(Directory) =>
      var c' := c.(outputDir := val);
      if val in present then Continue(c', present)
      else if val in creatable then Continue(c', present + {val})
      else Stop(Failed(DirectoryNotCreated), c')
    case Some(Frontmatter) =>
      var c' := c.(frontmatter := val);
      if SupportedFrontmatter(val) then Continue(c', present) else Stop(Failed(UnsupportedFrontmatter), c')
    case Some(Metric) =>
      (match ParseMetric(val)
       case Some(m) => Continue(c.(metric := m), present)
       case None => Stop(Failed(InvalidMetric), c))
    case None => Continue(c, present)
  }

  /** All options in order, from settings `c`, until one stops the program. */
  function Run(c: Config, present: set<string>, creatable: set<string>, opts: seq<(string, string)>): (Status, Config)
    decreases |opts|
  {
    if opts == [] then (Completed, c)
    else
      match Step(c, present, creatable, opts[0].0, opts[0].1)
      case Continue(c', present') => Run(c', present', creatable, opts[1..])
      case Stop(status, c') => (status, c')
  }

  /** The value of the last option spelled as `f`, or `d` when there is none. */
  function LastValue(opts: seq<(string, string)>, f: Flag, d: string): string
  {
    if opts == [] then d
    else if FlagOf(opts[|opts| - 1].0) == Some(f) then opts[|opts| - 1].1
    else LastValue(opts[..|opts| - 1], f, d)
  }

  /** The value of the last metric option, or `d` when there is none. */
  function LastMetric(opts: seq<(string, string)>, d: bool): bool
  {
    if opts == [] then d
    else if FlagOf(opts[|opts| - 1].0) == Some(Metric) && ParseMetric(opts[|opts| - 1].1).Some? then
      ParseMetric(opts[|opts| - 1].1).value
    else LastMetric(opts[..|opts| - 1], d)
  }

  lemma {:induction false} LastValueCons(o: (string, string), rest: seq<(string, string)>, f: Flag, d: string)
    ensures LastValue([o] + rest, f, d) == LastValue(rest, f, if FlagOf(o.0) == Some(f) then o.1 else d)
  {
    if rest != [] {
      var p := rest[..|rest| - 1];
      assert ([o] + rest)[..|rest|] == [o] + p;
      LastValueCons(o, p, f, d);
    }
  }

  lemma {:induction false} LastMetricCons(o: (string, string), rest: seq<(string, string)>, d: bool)
    ensures LastMetric([o] + rest, d)
      == LastMetric(rest, if FlagOf(o.0) == Some(Metric) && ParseMetric(o.1).Some? then ParseMetric(o.1).value else d)
  {
    if rest != [] {
      var p := rest[..|rest| - 1];
      assert ([o] + rest)[..|rest|] == [o] + p;
      LastMetricCons(o, p, d);
    }
  }

  /**
   * A run that completes met no help option, only supported frontmatter
   * styles and only readable metric tokens.
   */
  lemma {:induction false} CompletedRunValues(c: Config, present: set<string>, creatable: set<string>, opts: seq<(string, string)>)
    requires Run(c, present, creatable, opts).0 == Completed
    ensures forall i :: 0 <= i < |opts| ==> FlagOf(opts[i].0) != Some(Help)
    ensures forall i :: 0 <= i < |opts| && FlagOf(opts[i].0) == Some(Frontmatter) ==> SupportedFrontmatter(opts[i].1)
    ensures forall i :: 0 <= i < |opts| && FlagOf(opts[i].0) == Some(Metric) ==> ParseMetric(opts[i].1).Some?
    decreases |opts|
  {
    if opts != [] {
      var s := Step(c, present, creatable, opts[0].0, opts[0].1);
      CompletedRunValues(s.config, s.present, creatable, opts[1..]);
      assert forall i :: 1 <= i < |opts| ==> opts[i] == opts[1..][i - 1];
    }
  }

  /**
   * After a completed run, each setting holds the value of the last option
   * that names it, or its starting value when no option does.
   */
  lemma {:induction false} CompletedRunSettings(c: Config, present: set<string>, creatable: set<string>, opts: seq<(string, string)>)
    requires Run(c, present, creatable, opts).0 == Completed
    ensures var r := Run(c, present, creatable, opts).1;
      && r.csvPath == LastValue(opts, File, c.csvPath)
      && r.outputDir == LastValue(opts, Directory, c.outputDir)
      && r.frontmatter == LastValue(opts, Frontmatter, c.frontmatter)
      && r.metric == LastMetric(opts, c.metric)
    decreases |opts|
  {
    if opts != [] {
      var o, rest := opts[0], opts[1..];
      assert opts == [o] + rest;
      var s := Step(c, present, creatable, o.0, o.1);
      CompletedRunSettings(s.config, s.present, creatable, rest);
      LastValueCons(o, rest, File, c.csvPath);
      LastValueCons(o, rest, Directory, c.outputDir);
      LastValueCons(o, rest, Frontmatter, c.frontmatter);
      LastMetricCons(o, rest, c.metric);
    }
  }

  /**
   * Starting from valid settings, a completed run leaves a supported
   * frontmatter style and a non-empty output directory (the empty path
   * neither exists nor can be created).
   */
  lemma {:induction false} CompletedRunValid(c: Config, present: set<string>, creatable: set<string>, opts: seq<(string, string)>)
    requires SupportedFrontmatter(c.frontmatter) && c.outputDir != ""
    requires "" !in present && "" !in creatable
    requires Run(c, present, creatable, opts).0 == Completed
    ensures SupportedFrontmatter(Run(c, present, creatable, opts).1.frontmatter)
    ensures Run(c, present, creatable, opts).1.outputDir != ""
    decreases |opts|
  {
    if opts != [] {
      var s := Step(c, present, creatable, opts[0].0, opts[0].1);
      CompletedRunValid(s.config, s.present, creatable, opts[1..]);
    }
  }

  /**
   * A run stops with a failure only because of an option that shows it: a
   * file that did not exist, a missing directory that could not be created,
   * an unsupported frontmatter style, or an unreadable metric token.
   */
  lemma {:induction false} FailedRunCause(c: Config, present: set<string>, creatable: set<string>, opts: seq<(string, string)>)
    ensures Run(c, present, creatable, opts).0 == Failed(FileNotFound) ==>
      exists i :: 0 <= i < |opts| && FlagOf(opts[i].0) == Some(File) && opts[i].1 !in present
    ensures Run(c, present, creatable, opts).0 == Failed(DirectoryNotCreated) ==>
      exists i :: 0 <= i < |opts| && FlagOf(opts[i].0) == Some(Directory) && opts[i].1 !in present + creatable
    ensures Run(c, present, creatable, opts).0 == Failed(UnsupportedFrontmatter) ==>
      exists i :: 0 <= i < |opts| && FlagOf(opts[i].0) == Some(Frontmatter) && !SupportedFrontmatter(opts[i].1)
    ensures Run(c, present, creatable, opts).0 == Failed(InvalidMetric) ==>
      exists i :: 0 <= i < |opts| && FlagOf(opts[i].0) == Some(Metric) && ParseMetric(opts[i].1).None?
    decreases |opts|
  {
    if opts != [] {
      var s := Step(c, present, creatable, opts[0].0, opts[0].1);
      if s.Continue? {
        var rest := opts[1..];
        FailedRunCause(s.config, s.present, creatable, rest);
        assert present <= s.present;
        assert forall i :: 0 <= i < |rest| ==> rest[i] == opts[i + 1];
      }
    }
  }

  /** The program's settings, overwritten option by option. */
  class Settings {
    var csvPath: string
    var outputDir: string
    var frontmatter: string
    var metric: bool

    function Current(): Config
      reads this
    {
      Config(csvPath, outputDir, frontmatter, metric)
    }

    constructor (cwd: string)
      ensures Current() == Defaults(cwd)
    {
      csvPath := "interactive";
      outputDir := cwd;
      frontmatter := "none";
      metric := true;
    }

    /** Applies the options in order; stops at help or at the first failed check. */
    method ParseOptions(opts: seq<(string, string)>, existing: set<string>, creatable: set<string>)
      returns (status: Status)
      modifies this
      ensures (status, Current()) == Run(old(Current()), existing, creatable, opts)
    {
      var present := existing;
      var k := 0;
      while k < |opts|
        invariant 0 <= k <= |opts|
        invariant Run(old(Current()), existing, creatable, opts) == Run(Current(), present, creatable, opts[k..])
      {
        assert opts[k..][1..] == opts[k + 1..];
        var (arg, val) := opts[k];
        if arg == "-h" || arg == "--help" {
          return HelpRequested;
        }
        if arg == "-f" || arg == "--file" {
          csvPath := val;
          if val !in present {
            return Failed(FileNotFound);
          }
        }
        if arg == "-d" || arg == "--directory" {
          outputDir := val;
          if val !in present {
            if val in creatable {
              present := present + {val};
            } else {
              return Failed(DirectoryNotCreated);
            }
          }
        }
        if arg == "-o" || arg == "--frontmatter" {
          frontmatter := val;
          if !(val == "none" || val == "joplin") {
            return Failed(UnsupportedFrontmatter);
          }
        }
        if arg == "-m" || arg == "--metric" {
          var low := Lower(val);
          if low == "t" || low == "true" {
            metric := true;
          } else if low == "f" || low == "false" {
            metric := false;
          } else {
            return Failed(InvalidMetric);
          }
        }
        k := k + 1;
      }
      status := Completed;
    }
  }
}
