/**
 * src/file_operations.rs: one file turned into its labelled block and its
 * three counts.
 */
module FileOperations {
  import opened Wrappers
  import opened Paths
  import opened FileSystem
  import opened TextStats
  import opened Cli

  /** The `(String, usize, usize, usize)` every processing step returns: text, characters, words, non-empty lines. */
  datatype Chunk = Chunk(text: string, chars: nat, words: nat, lines: nat)

  const EmptyChunk: Chunk := Chunk("", 0, 0, 0)

  /** The three ways `process_file_content` fails. */
  datatype ProcessError = PrefixMismatch | CannotOpen | NotValidUtf8

  /**
   * The label of `file` when listed under `base`: its bare name when `base`
   * is empty or is the file's parent, otherwise the path below `base`.
   */
  function Label(file: Path, base: Path): string
    requires base <= file
  {
    if base == [] || base == Parent(file) then FileName(file) else Display(file[|base|..])
  }

  /** The rendered block: a bold label, a colon, the contents verbatim and one newline. */
  function Block(heading: string, contents: string): string
  {
    "**" + heading + ":**\n" + contents + "\n"
  }

  /** What `process_file_content(file, base, outputInformation)` returns when the read of `file` gives `read`. */
  function FileContentResult(file: Path, base: Path, outputInformation: bool, read: ReadResult): Result<Chunk, ProcessError>
  {
    if !(base <= file) then Err(PrefixMismatch)
    else match read
      case OpenFails => Err(CannotOpen)
      case NotUtf8 => Err(NotValidUtf8)
      case Contents(s) =>
        Ok(Chunk(if outputInformation then "" else Block(Label(file, base), s),
                 |s|, WordCount(s), NonEmptyLineCount(s)))
  }

  /** `process_file_content`: label first, then the read, then the counts, then the block pushed onto an empty buffer. */
  method ProcessFileContent(file: Path, base: Path, outputInformation: bool, read: ReadResult)
    returns (r: Result<Chunk, ProcessError>)
    ensures r == FileContentResult(file, base, outputInformation, read)
  {
    if !(base <= file) {
      return Err(PrefixMismatch);
    }
    var displayPath := Label(file, base);
    match read
    case OpenFails =>
      return Err(CannotOpen);
    case NotUtf8 =>
      return Err(NotValidUtf8);
    case Contents(contents) =>
      var charCount := |contents|;
      var wordCount := WordCount(contents);
      var nonEmptyLineCount := NonEmptyLineCount(contents);
      var outputBuffer := "";
      if !outputInformation {
        outputBuffer := outputBuffer + ("**" + displayPath + ":**\n");
        assert outputBuffer == "**" + displayPath + ":**\n";
        outputBuffer := outputBuffer + contents;
        outputBuffer := outputBuffer + "\n";
      }
      return Ok(Chunk(outputBuffer, charCount, wordCount, nonEmptyLineCount));
  }

  /** `process_file`: the file processed against the empty base, so its label is its bare name. */
  method ProcessFile(cli: Cli, path: Path, read: ReadResult) returns (r: Result<Chunk, ProcessError>)
    ensures r == FileContentResult(path, [], cli.outputInformation, read)
    ensures r.Ok? <==> read.Contents?
    ensures r.Ok? && !cli.outputInformation ==> r.value.text == Block(FileName(path), read.text)
  {
    r := ProcessFileContent(path, [], cli.outputInformation, read);
  }

  /**
   * The file's contract: it fails when the base is not a prefix of the path,
   * when the open fails and when the bytes are not UTF-8, in that order;
   * otherwise the text is the block (or nothing in summary mode) and the
   * counts are those of the contents.
   */
  lemma FileContentContract(file: Path, base: Path, outputInformation: bool, read: ReadResult)
    ensures var r := FileContentResult(file, base, outputInformation, read);
      && (r.Ok? <==> base <= file && read.Contents?)
      && (!(base <= file) ==> r == Err(PrefixMismatch))
      && (base <= file && read.OpenFails? ==> r == Err(CannotOpen))
      && (base <= file && read.NotUtf8? ==> r == Err(NotValidUtf8))
      && (r.Ok? && !outputInformation ==> r.value.text == "**" + Label(file, base) + ":**\n" + read.text + "\n")
      && (r.Ok? && outputInformation ==> r.value.text == "")
      && (r.Ok? ==> r.value.chars == |read.text| && r.value.words == WordCount(read.text)
                    && r.value.lines == NonEmptyLineCount(read.text))
  {
  }

  /** Below a non-empty base, the label is the path relative to it with `/` between components. */
  lemma LabelIsRelativePath(file: Path, base: Path)
    requires base != [] && base <= file && |file| > |base|
    ensures Label(file, base) == Display(file[|base|..])
  {
    if |file| == |base| + 1 {
      assert base == Parent(file);
      assert file[|base|..] == [file[|file| - 1]];
    } else {
      assert |Parent(file)| != |base|;
    }
  }

  /** Summary mode empties the text and leaves success and every count as in default mode. */
  lemma SummaryModeKeepsCounts(file: Path, base: Path, read: ReadResult)
    ensures FileContentResult(file, base, true, read).Ok? == FileContentResult(file, base, false, read).Ok?
    ensures FileContentResult(file, base, true, read).Ok? ==>
      var full := FileContentResult(file, base, false, read).value;
      FileContentResult(file, base, true, read).value == Chunk("", full.chars, full.words, full.lines)
  {
  }

  /** A processed file has no more non-empty lines than words and no more words than characters. */
  lemma FileCountsBounded(file: Path, base: Path, outputInformation: bool, read: ReadResult)
    requires FileContentResult(file, base, outputInformation, read).Ok?
    ensures var c := FileContentResult(file, base, outputInformation, read).value;
      c.lines <= c.words <= c.chars
  {
    CountBounds(read.text);
  }

  /** In default mode a processed file's text is never empty (it holds at least the label markup). */
  lemma BlockNonEmpty(file: Path, base: Path, read: ReadResult)
    requires FileContentResult(file, base, false, read).Ok?
    ensures |FileContentResult(file, base, false, read).value.text| >= 7
  {
  }

  // Sums of the counts of a sequence of chunks.

  function TotalChars(cs: seq<Chunk>): nat
  {
    if cs == [] then 0 else TotalChars(cs[..|cs| - 1]) + cs[|cs| - 1].chars
  }

  function TotalWords(cs: seq<Chunk>): nat
  {
    if cs == [] then 0 else TotalWords(cs[..|cs| - 1]) + cs[|cs| - 1].words
  }

  function TotalLines(cs: seq<Chunk>): nat
  {
    if cs == [] then 0 else TotalLines(cs[..|cs| - 1]) + cs[|cs| - 1].lines
  }

  function Texts(cs: seq<Chunk>): (ts: seq<string>)
    ensures |ts| == |cs| && forall i :: 0 <= i < |cs| ==> ts[i] == cs[i].text
  {
    seq(|cs|, i requires 0 <= i < |cs| => cs[i].text)
  }
}
