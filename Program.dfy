/**
 * src/main.rs: the command line is validated, the paths are folded into one
 * body (or into the summary), and the result is either printed or handed to
 * the clipboard. The clipboard and the two output streams are not modelled;
 * the model returns the action `main` chooses.
 */
module Program {
  import opened Wrappers
  import opened Utils
  import opened Paths
  import opened FileSystem
  import opened Cli
  import opened FileOperations
  import opened DirectoryOperations
  import opened Dispatch
  import opened Summary

  /** The errors that end a run with a message. */
  datatype FatalError = NoPathsProvided | PathDoesNotExist(path: Path) | PathFailed(error: ProcessError)

  // ------------------------------------------------------------ validation

  /** `cli.paths[i]` is the first command-line path that does not exist. */
  predicate FirstMissing(cli: Cli, fs: Node, i: int)
  {
    && 0 <= i < |cli.paths|
    && !Exists(fs, cli.paths[i])
    && forall j :: 0 <= j < i ==> Exists(fs, cli.paths[j])
  }

  /** The command line passes validation: at least one path, and every path exists. */
  predicate ValidPaths(cli: Cli, fs: Node)
  {
    cli.paths != [] && forall i :: 0 <= i < |cli.paths| ==> Exists(fs, cli.paths[i])
  }

  /** Lines 16-24 of `main`: no paths, or the first path that does not exist, is fatal. */
  method Validate(cli: Cli, fs: Node) returns (r: Option<FatalError>)
    ensures cli.paths == [] ==> r == Some(NoPathsProvided)
    ensures forall i :: FirstMissing(cli, fs, i) ==> r == Some(PathDoesNotExist(cli.paths[i]))
    ensures r == None <==> ValidPaths(cli, fs)
  {
    if |cli.paths| == 0 {
      return Some(NoPathsProvided);
    }
    for i := 0 to |cli.paths|
      invariant forall j :: 0 <= j < i ==> Exists(fs, cli.paths[j])
    {
      if !Exists(fs, cli.paths[i]) {
        return Some(PathDoesNotExist(cli.paths[i]));
      }
    }
    return None;
  }

  /** A command line that fails validation has either no paths or a first missing one. */
  lemma InvalidHasCause(cli: Cli, fs: Node)
    requires !ValidPaths(cli, fs)
    ensures cli.paths == [] || exists i :: FirstMissing(cli, fs, i)
  {
    if cli.paths != [] {
      FirstMissingFrom(cli, fs, 0);
    }
  }

  lemma {:induction false} FirstMissingFrom(cli: Cli, fs: Node, k: nat)
    requires k <= |cli.paths|
    requires forall j :: 0 <= j < k ==> Exists(fs, cli.paths[j])
    requires exists i :: k <= i < |cli.paths| && !Exists(fs, cli.paths[i])
    ensures exists i :: FirstMissing(cli, fs, i)
    decreases |cli.paths| - k
  {
    if !Exists(fs, cli.paths[k]) {
      assert FirstMissing(cli, fs, k);
    } else {
      FirstMissingFrom(cli, fs, k + 1);
    }
  }

  // ------------------------------------------------------------ output_content

  /** One iteration of `output_content`: a failed path adds nothing; a separator goes in only after the first path, between non-empty texts. */
  function ContentStep(buf: string, i: nat, result: Result<Chunk, ProcessError>): string
  {
    match result
    case Err(_) => buf
    case Ok(c) => if i > 0 && c.text != [] && buf != [] then buf + Separator() + "\n" + c.text else buf + c.text
  }

  /** The buffer after `output_content` has seen the first `n` paths. */
  function ContentUpTo(cli: Cli, fs: Node, n: nat, other: (Cli, Path) -> Result<Chunk, ProcessError>): string
    requires n <= |cli.paths|
  {
    if n == 0 then ""
    else ContentStep(ContentUpTo(cli, fs, n - 1, other), n - 1, PathResult(cli, fs, cli.paths[n - 1], other))
  }

  /** What `output_content` returns. */
  function ContentBody(cli: Cli, fs: Node, other: (Cli, Path) -> Result<Chunk, ProcessError>): string
  {
    ContentUpTo(cli, fs, |cli.paths|, other)
  }

  /** `output_content`: never fails; a failing path is skipped (and reported when `include_errors` is set). */
  method OutputContent(cli: Cli, fs: Node, other: (Cli, Path) -> Result<Chunk, ProcessError>) returns (r: Result<string, FatalError>)
    ensures r == Ok(ContentBody(cli, fs, other))
  {
    var buf := "";
    for i := 0 to |cli.paths|
      invariant buf == ContentUpTo(cli, fs, i, other)
    {
      var result := ProcessPath(cli, fs, cli.paths[i], other);
      if result.Ok? {
        var content := result.value.text;
        if i > 0 && content != [] && buf != [] {
          buf := buf + Separator();
          buf := buf + "\n";
        }
        buf := buf + content;
      }
    }
    return Ok(buf);
  }

  /** The non-empty texts of `cs`, in order. */
  function NonEmptyTexts(cs: seq<Chunk>): (ts: seq<string>)
    ensures forall i :: 0 <= i < |ts| ==> ts[i] != []
  {
    if cs == [] then []
    else NonEmptyTexts(cs[..|cs| - 1]) + (if cs[|cs| - 1].text != [] then [cs[|cs| - 1].text] else [])
  }

  lemma NonEmptyTextsSnoc(cs: seq<Chunk>, c: Chunk)
    ensures NonEmptyTexts(cs + [c]) == NonEmptyTexts(cs) + (if c.text != [] then [c.text] else [])
  {
    assert (cs + [c])[..|cs|] == cs;
  }

  /**
   * The body is the non-empty texts of the successful paths in input order,
   * with exactly one separator line between neighbours and none before the
   * first: failing paths and empty texts contribute nothing, and the `i > 0`
   * test adds nothing to the rule that the buffer be non-empty.
   */
  lemma {:induction false} ContentJoinsTexts(cli: Cli, fs: Node, n: nat, other: (Cli, Path) -> Result<Chunk, ProcessError>)
    requires n <= |cli.paths|
    ensures ContentUpTo(cli, fs, n, other) == JoinWith(NonEmptyTexts(PathChunks(cli, fs, n, other)), SeparatorLine())
  {
    if n > 0 {
      ContentJoinsTexts(cli, fs, n - 1, other);
      ContentUpToStep(cli, fs, n, other);
      PathChunksStep(cli, fs, n, other);
      var result := PathResult(cli, fs, cli.paths[n - 1], other);
      if result.Ok? {
        var prev := PathChunks(cli, fs, n - 1, other);
        NonEmptyTextsSnoc(prev, result.value);
        JoinPush(NonEmptyTexts(prev), result.value.text);
      } else {
        assert PathChunks(cli, fs, n - 1, other) + [] == PathChunks(cli, fs, n - 1, other);
      }
    }
  }

  /** One step of `output_content` pushes a successful text exactly as `process_directory` pushes a block. */
  lemma ContentUpToStep(cli: Cli, fs: Node, n: nat, other: (Cli, Path) -> Result<Chunk, ProcessError>)
    requires 0 < n <= |cli.paths|
    ensures var buf := ContentUpTo(cli, fs, n - 1, other);
      ContentUpTo(cli, fs, n, other)
      == match PathResult(cli, fs, cli.paths[n - 1], other)
         case Err(_) => buf
         case Ok(c) => PushContent(buf, c.text, false)
  {
  }

  /** Pushing a text onto a join of non-empty texts extends the join by that text, if it is non-empty. */
  lemma JoinPush(ts: seq<string>, text: string)
    requires forall i :: 0 <= i < |ts| ==> ts[i] != []
    ensures PushContent(JoinWith(ts, SeparatorLine()), text, false)
      == JoinWith(ts + (if text != [] then [text] else []), SeparatorLine())
  {
    if text != [] {
      PushExtendsJoin(ts, text);
    } else {
      assert ts + [] == ts;
    }
  }

  /** Two paths that each produce a non-empty text are separated by exactly one separator line. */
  lemma TwoPathsOneSeparator(cli: Cli, fs: Node, other: (Cli, Path) -> Result<Chunk, ProcessError>)
    requires |cli.paths| == 2
    requires PathResult(cli, fs, cli.paths[0], other).Ok? && PathResult(cli, fs, cli.paths[0], other).value.text != []
    requires PathResult(cli, fs, cli.paths[1], other).Ok? && PathResult(cli, fs, cli.paths[1], other).value.text != []
    ensures ContentBody(cli, fs, other)
      == PathResult(cli, fs, cli.paths[0], other).value.text + SeparatorLine() + PathResult(cli, fs, cli.paths[1], other).value.text
  {
    var a := PathResult(cli, fs, cli.paths[0], other).value.text;
    var b := PathResult(cli, fs, cli.paths[1], other).value.text;
    assert ContentUpTo(cli, fs, 1, other) == a;
    assert a + Separator() + "\n" == a + SeparatorLine();
  }

  // ------------------------------------------------------------ the output decision

  /** What lines 32-42 of `main` do with the buffer. */
  datatype Action = PrintToStdout(text: string) | CopyToClipboard(text: string) | ReportNothingToCopy | Silent

  function OutputAction(copy: bool, outputInformation: bool, buffer: string): Action
  {
    if !copy then PrintToStdout(buffer)
    else if buffer != [] then CopyToClipboard(buffer)
    else if !outputInformation then ReportNothingToCopy
    else Silent
  }

  /**
   * The decision: without `--copy` the buffer is printed, whatever it is;
   * with `--copy` nothing reaches stdout, a non-empty buffer goes to the
   * clipboard unchanged, and an empty one is reported only outside summary mode.
   */
  lemma OutputDecision(copy: bool, outputInformation: bool, buffer: string)
    ensures var a := OutputAction(copy, outputInformation, buffer);
      && (a.PrintToStdout? <==> !copy)
      && (a.CopyToClipboard? <==> copy && buffer != [])
      && (a.ReportNothingToCopy? <==> copy && buffer == [] && !outputInformation)
      && (a.Silent? <==> copy && buffer == [] && outputInformation)
      && (a.PrintToStdout? || a.CopyToClipboard? ==> a.text == buffer)
  {
  }

  // ------------------------------------------------------------ main

  /** How a run ends: a fatal error, or the chosen output action. */
  datatype Outcome = Failed(error: FatalError) | Completed(action: Action)

  /** `main`, with Cli parsing replaced by the `cli` parameter. */
  method Run(cli: Cli, fs: Node, other: (Cli, Path) -> Result<Chunk, ProcessError>) returns (o: Outcome)
    ensures cli.paths == [] ==> o == Failed(NoPathsProvided)
    ensures forall i :: FirstMissing(cli, fs, i) ==> o == Failed(PathDoesNotExist(cli.paths[i]))
    ensures ValidPaths(cli, fs) && !cli.outputInformation ==> o == Completed(OutputAction(cli.copy, false, ContentBody(cli, fs, other)))
    ensures ValidPaths(cli, fs) && cli.outputInformation ==>
      o == match SummaryOutput(cli, fs, other)
           case Err(e) => Failed(PathFailed(e))
           case Ok(s) => Completed(OutputAction(cli.copy, true, s))
    ensures cli.copy && o.Completed? ==> !o.action.PrintToStdout?
  {
    var invalid := Validate(cli, fs);
    if invalid.Some? {
      return Failed(invalid.value);
    }
    var buffer: string;
    if cli.outputInformation {
      var summary := OutputInformation(cli, fs, other);
      if summary.Err? {
        return Failed(PathFailed(summary.error));
      }
      buffer := summary.value;
    } else {
      var content := OutputContent(cli, fs, other);
      buffer := content.value;
    }
    return Completed(OutputAction(cli.copy, cli.outputInformation, buffer));
  }
}
