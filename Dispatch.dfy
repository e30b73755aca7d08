/**
 * `process_path`, which src/main.rs:9 imports from src/utils.rs but which
 * that file does not define: a directory goes to `process_directory`, a
 * regular file to `process_file`, and any other kind of path to a handler
 * the source does not show, taken here as the parameter `other`, which
 * is given the command line as `process_path` is.
 */
module Dispatch {
  import opened Wrappers
  import opened Paths
  import opened FileSystem
  import opened Cli
  import opened FileOperations
  import opened DirectoryOperations

  /** What `process_path(cli, path)` returns on the filesystem `fs`. */
  function PathResult(cli: Cli, fs: Node, path: Path, other: (Cli, Path) -> Result<Chunk, ProcessError>): Result<Chunk, ProcessError>
  {
    var found := Lookup(fs, path);
    if found.Some? && found.value.Dir? then Ok(DirectoryResult(cli, path, found.value))
    else if found.Some? && found.value.File? then FileContentResult(path, [], cli.outputInformation, found.value.read)
    else other(cli, path)
  }

  method ProcessPath(cli: Cli, fs: Node, path: Path, other: (Cli, Path) -> Result<Chunk, ProcessError>)
    returns (r: Result<Chunk, ProcessError>)
    ensures r == PathResult(cli, fs, path, other)
  {
    var found := Lookup(fs, path);
    if found.Some? && found.value.Dir? {
      r := ProcessDirectory(cli, path, found.value);
    } else if found.Some? && found.value.File? {
      r := ProcessFile(cli, path, found.value.read);
    } else {
      r := other(cli, path);
    }
  }

  // ------------------------------------------------------------ properties

  /** A directory path never fails: its failures are absorbed inside the walk. */
  lemma DirectoryPathNeverFails(cli: Cli, fs: Node, path: Path, other: (Cli, Path) -> Result<Chunk, ProcessError>)
    requires Lookup(fs, path).Some? && Lookup(fs, path).value.Dir?
    ensures PathResult(cli, fs, path, other).Ok?
    ensures cli.outputInformation ==> PathResult(cli, fs, path, other).value.text == ""
  {
    var items := Walk(Lookup(fs, path).value, path, 0, cli.maxDepth);
    if cli.outputInformation {
      SummaryModeSameTotals(items, path);
    }
  }

  /**
   * A file given on the command line succeeds exactly when it can be read,
   * and is labelled by its bare name whatever directories lead to it.
   */
  lemma FilePathLabelledByName(cli: Cli, fs: Node, path: Path, other: (Cli, Path) -> Result<Chunk, ProcessError>)
    requires Lookup(fs, path).Some? && Lookup(fs, path).value.File?
    ensures var read := Lookup(fs, path).value.read;
      var r := PathResult(cli, fs, path, other);
      && (r.Ok? <==> read.Contents?)
      && (r.Ok? && !cli.outputInformation ==> r.value.text == Block(FileName(path), read.text))
  {
    FileContentContract(path, [], cli.outputInformation, Lookup(fs, path).value.read);
  }

  /** The path is one that `process_directory` or `process_file` handles. */
  predicate DirectoryOrFile(fs: Node, path: Path)
  {
    Lookup(fs, path).Some? && (Lookup(fs, path).value.Dir? || Lookup(fs, path).value.File?)
  }

  /** Two results agree on success and on every count; their texts may differ. */
  predicate SameCounts(a: Result<Chunk, ProcessError>, b: Result<Chunk, ProcessError>)
  {
    && (a.Ok? <==> b.Ok?)
    && (a.Ok? ==> a.value.chars == b.value.chars && a.value.words == b.value.words && a.value.lines == b.value.lines)
  }

  /**
   * Summary mode and default mode agree on success and on every count of a
   * directory or a regular file; only the text differs. Any other path is
   * left to the handler `other`, which is told the mode, so for such a path
   * the agreement holds exactly when the handler keeps it.
   */
  lemma PathSummaryModeSameTotals(cli: Cli, fs: Node, path: Path, other: (Cli, Path) -> Result<Chunk, ProcessError>)
    ensures var full := PathResult(cli.(outputInformation := false), fs, path, other);
      var summary := PathResult(cli.(outputInformation := true), fs, path, other);
      && (DirectoryOrFile(fs, path) ==> SameCounts(full, summary))
      && (!DirectoryOrFile(fs, path) ==>
            (SameCounts(full, summary)
             <==> SameCounts(other(cli.(outputInformation := false), path), other(cli.(outputInformation := true), path))))
  {
    var found := Lookup(fs, path);
    if found.Some? && found.value.Dir? {
      var items := Walk(found.value, path, 0, cli.maxDepth);
      SummaryModeSameTotals(items, path);
    } else if found.Some? && found.value.File? {
      SummaryModeKeepsCounts(path, [], found.value.read);
    }
  }
}
