/**
 * `print_output_information` (src/utils.rs:9-29): every command-line path
 * processed in order, the counts summed, the paths joined by single spaces,
 * and the summary rendered as text. The first path that fails aborts the
 * whole summary.
 *
 * src/utils.rs prints the summary and returns `()`, and takes only two
 * counts from each path; its caller in src/main.rs:27 expects the summary
 * text back. This model returns the text and carries the non-empty line
 * count as a fourth line, summed like the others.
 */
module Summary {
  import opened Wrappers
  import opened Utils
  import opened Paths
  import opened FileSystem
  import opened Cli
  import opened FileOperations
  import opened Dispatch

  /** The `paths` string and the three running totals. */
  datatype Tally = Tally(paths: string, chars: nat, words: nat, lines: nat)

  /** `paths` with one more path appended, a space first unless `paths` is still empty. */
  function AddPath(paths: string, display: string): string
  {
    (if paths != [] then paths + " " else paths) + display
  }

  /** One iteration of the loop: an earlier error stays, a failing path aborts, a successful one is added. */
  function TallyStep(acc: Result<Tally, ProcessError>, path: Path, result: Result<Chunk, ProcessError>): Result<Tally, ProcessError>
  {
    if acc.Err? then acc
    else if result.Err? then Err(result.error)
    else
      var t, c := acc.value, result.value;
      Ok(Tally(AddPath(t.paths, Display(path)), t.chars + c.chars, t.words + c.words, t.lines + c.lines))
  }

  lemma TallyStepOk(t: Tally, path: Path, c: Chunk)
    ensures TallyStep(Ok(t), path, Ok(c))
      == Ok(Tally(AddPath(t.paths, Display(path)), t.chars + c.chars, t.words + c.words, t.lines + c.lines))
  {
  }

  /** The tally after the loop has seen the first `n` command-line paths, or the first error. */
  function SummaryTally(cli: Cli, fs: Node, n: nat, other: (Cli, Path) -> Result<Chunk, ProcessError>): Result<Tally, ProcessError>
    requires n <= |cli.paths|
  {
    if n == 0 then Ok(Tally("", 0, 0, 0))
    else TallyStep(SummaryTally(cli, fs, n - 1, other), cli.paths[n - 1], PathResult(cli, fs, cli.paths[n - 1], other))
  }

  /** The four summary lines. */
  function SummaryText(t: Tally): string
  {
    "Paths: " + t.paths + "\n"
    + "Total Characters: " + NatToDecimal(t.chars) + "\n"
    + "Total Words: " + NatToDecimal(t.words) + "\n"
    + "Total Non-Empty Lines: " + NatToDecimal(t.lines) + "\n"
  }

  /** The summary of the command line's paths, or the error that aborted it. */
  function SummaryOutput(cli: Cli, fs: Node, other: (Cli, Path) -> Result<Chunk, ProcessError>): Result<string, ProcessError>
  {
    match SummaryTally(cli, fs, |cli.paths|, other)
    case Err(e) => Err(e)
    case Ok(t) => Ok(SummaryText(t))
  }

  method OutputInformation(cli: Cli, fs: Node, other: (Cli, Path) -> Result<Chunk, ProcessError>) returns (r: Result<string, ProcessError>)
    ensures r == SummaryOutput(cli, fs, other)
  {
    var totalChars: nat, totalWords: nat, totalLines: nat := 0, 0, 0;
    var paths := "";
    for i := 0 to |cli.paths|
      invariant SummaryTally(cli, fs, i, other) == Ok(Tally(paths, totalChars, totalWords, totalLines))
    {
      var path := cli.paths[i];
      ghost var acc := Tally(paths, totalChars, totalWords, totalLines);
      var result := ProcessPath(cli, fs, path, other);
      assert SummaryTally(cli, fs, i + 1, other) == TallyStep(Ok(acc), path, result);
      if result.Err? {
        ErrorPersists(cli, fs, i + 1, other);
        return Err(result.error);
      }
      var counts := result.value;
      TallyStepOk(acc, path, counts);
      totalChars := totalChars + counts.chars;
      totalWords := totalWords + counts.words;
      totalLines := totalLines + counts.lines;
      if paths != [] {
        paths := paths + " ";
      }
      paths := paths + Display(path);
      assert paths == AddPath(acc.paths, Display(path));
    }
    return Ok(SummaryText(Tally(paths, totalChars, totalWords, totalLines)));
  }

  /** Once the fold has failed, later paths do not change the error. */
  lemma {:induction false} ErrorPersists(cli: Cli, fs: Node, k: nat, other: (Cli, Path) -> Result<Chunk, ProcessError>)
    requires k <= |cli.paths|
    requires SummaryTally(cli, fs, k, other).Err?
    ensures SummaryTally(cli, fs, |cli.paths|, other) == SummaryTally(cli, fs, k, other)
    decreases |cli.paths| - k
  {
    if k < |cli.paths| {
      ErrorPersists(cli, fs, k + 1, other);
    }
  }

  // ------------------------------------------------------------ properties

  /** The summary of the first `n` paths succeeds exactly when each of them succeeds. */
  lemma {:induction false} SummaryOkIff(cli: Cli, fs: Node, n: nat, other: (Cli, Path) -> Result<Chunk, ProcessError>)
    requires n <= |cli.paths|
    ensures SummaryTally(cli, fs, n, other).Ok?
      <==> forall i :: 0 <= i < n ==> PathResult(cli, fs, cli.paths[i], other).Ok?
  {
    if n > 0 {
      SummaryOkIff(cli, fs, n - 1, other);
      TallyOkStep(cli, fs, n, other);
    }
  }

  lemma TallyOkStep(cli: Cli, fs: Node, n: nat, other: (Cli, Path) -> Result<Chunk, ProcessError>)
    requires 0 < n <= |cli.paths|
    ensures SummaryTally(cli, fs, n, other).Ok?
      <==> SummaryTally(cli, fs, n - 1, other).Ok? && PathResult(cli, fs, cli.paths[n - 1], other).Ok?
  {
  }

  /** A failing summary reports the error of the first path that fails. */
  lemma SummaryFirstError(cli: Cli, fs: Node, i: nat, other: (Cli, Path) -> Result<Chunk, ProcessError>)
    requires i < |cli.paths|
    requires forall j :: 0 <= j < i ==> PathResult(cli, fs, cli.paths[j], other).Ok?
    requires PathResult(cli, fs, cli.paths[i], other).Err?
    ensures SummaryOutput(cli, fs, other) == Err(PathResult(cli, fs, cli.paths[i], other).error)
  {
    SummaryOkIff(cli, fs, i, other);
    ErrorPersists(cli, fs, i + 1, other);
  }

  /** The chunks of the successful paths among the first `n`, in input order. */
  function PathChunks(cli: Cli, fs: Node, n: nat, other: (Cli, Path) -> Result<Chunk, ProcessError>): seq<Chunk>
    requires n <= |cli.paths|
  {
    if n == 0 then []
    else
      var last := PathResult(cli, fs, cli.paths[n - 1], other);
      PathChunks(cli, fs, n - 1, other) + (if last.Ok? then [last.value] else [])
  }

  lemma PathChunksStep(cli: Cli, fs: Node, n: nat, other: (Cli, Path) -> Result<Chunk, ProcessError>)
    requires 0 < n <= |cli.paths|
    ensures var last := PathResult(cli, fs, cli.paths[n - 1], other);
      PathChunks(cli, fs, n, other) == PathChunks(cli, fs, n - 1, other) + (if last.Ok? then [last.value] else [])
  {
  }

  /** A successful tally of `n` paths extends the successful tally of the first `n - 1` by the last path's chunk. */
  lemma TallyUnfold(cli: Cli, fs: Node, n: nat, other: (Cli, Path) -> Result<Chunk, ProcessError>)
    requires 0 < n <= |cli.paths|
    requires SummaryTally(cli, fs, n, other).Ok?
    ensures var path := cli.paths[n - 1];
      var result := PathResult(cli, fs, path, other);
      var prev := SummaryTally(cli, fs, n - 1, other);
      && prev.Ok? && result.Ok?
      && SummaryTally(cli, fs, n, other).value
         == Tally(AddPath(prev.value.paths, Display(path)), prev.value.chars + result.value.chars,
                  prev.value.words + result.value.words, prev.value.lines + result.value.lines)
  {
  }

  /** In a successful summary each total is the sum of that count over the paths. */
  lemma {:induction false} SummaryTotals(cli: Cli, fs: Node, n: nat, other: (Cli, Path) -> Result<Chunk, ProcessError>)
    requires n <= |cli.paths|
    requires SummaryTally(cli, fs, n, other).Ok?
    ensures var t := SummaryTally(cli, fs, n, other).value;
      var cs := PathChunks(cli, fs, n, other);
      t.chars == TotalChars(cs) && t.words == TotalWords(cs) && t.lines == TotalLines(cs)
  {
    if n > 0 {
      TallyUnfold(cli, fs, n, other);
      SummaryTotals(cli, fs, n - 1, other);
      PathChunksStep(cli, fs, n, other);
      TotalsSnoc(PathChunks(cli, fs, n - 1, other), PathResult(cli, fs, cli.paths[n - 1], other).value);
    }
  }

  lemma TotalsSnoc(cs: seq<Chunk>, c: Chunk)
    ensures TotalChars(cs + [c]) == TotalChars(cs) + c.chars
    ensures TotalWords(cs + [c]) == TotalWords(cs) + c.words
    ensures TotalLines(cs + [c]) == TotalLines(cs) + c.lines
  {
    assert (cs + [c])[..|cs|] == cs;
  }

  /**
   * In a successful summary the `Paths:` field is the paths in input order,
   * one space between neighbours and none before the first or after the last.
   */
  lemma {:induction false} SummaryPaths(cli: Cli, fs: Node, n: nat, other: (Cli, Path) -> Result<Chunk, ProcessError>)
    requires n <= |cli.paths|
    requires SummaryTally(cli, fs, n, other).Ok?
    requires forall i :: 0 <= i < n ==> cli.paths[i] != []
    ensures SummaryTally(cli, fs, n, other).value.paths == JoinWith(Displays(cli.paths[..n]), " ")
  {
    if n > 0 {
      TallyUnfold(cli, fs, n, other);
      SummaryPaths(cli, fs, n - 1, other);
      DisplaysSnoc(cli.paths, n);
      DisplaysNonEmpty(cli.paths[..n - 1]);
      DisplayNonEmpty(cli.paths[n - 1]);
      AddPathJoins(Displays(cli.paths[..n - 1]), Display(cli.paths[n - 1]));
    }
  }

  lemma DisplaysSnoc(paths: seq<Path>, n: nat)
    requires 0 < n <= |paths|
    ensures Displays(paths[..n]) == Displays(paths[..n - 1]) + [Display(paths[n - 1])]
  {
  }

  /** `AddPath` extends a space-join of non-empty strings by one more. */
  lemma AddPathJoins(ds: seq<string>, d: string)
    requires forall i :: 0 <= i < |ds| ==> ds[i] != []
    ensures AddPath(JoinWith(ds, " "), d) == JoinWith(ds + [d], " ")
  {
    JoinWithEmpty(ds, " ");
    if ds == [] {
      assert ds + [d] == [d];
    } else {
      JoinWithSnoc(ds, " ", d);
    }
  }

  /** The paths rendered with `/` between components. */
  function Displays(paths: seq<Path>): (ds: seq<string>)
    ensures |ds| == |paths| && forall i :: 0 <= i < |paths| ==> ds[i] == Display(paths[i])
  {
    seq(|paths|, i requires 0 <= i < |paths| => Display(paths[i]))
  }

  lemma DisplaysNonEmpty(paths: seq<Path>)
    requires forall i :: 0 <= i < |paths| ==> paths[i] != []
    ensures forall i :: 0 <= i < |paths| ==> Displays(paths)[i] != []
  {
    forall i | 0 <= i < |paths|
      ensures Displays(paths)[i] != []
    {
      DisplayNonEmpty(paths[i]);
    }
  }
}
