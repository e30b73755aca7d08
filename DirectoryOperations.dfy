/**
 * src/directory_operations.rs: a directory walked to a bounded depth, each
 * regular file processed against the directory as base, the results folded
 * into one buffer and three totals. Entries that fail are skipped.
 */
module DirectoryOperations {
  import opened Wrappers
  import opened Utils
  import opened Paths
  import opened FileSystem
  import opened Cli
  import opened FileOperations

  /** `should_add_separator`: a separator goes in only between two non-empty texts, and never in summary mode. */
  predicate ShouldAddSeparator(buffer: string, content: string, outputInformation: bool)
  {
    buffer != [] && content != [] && !outputInformation
  }

  /** The buffer after one file's content is pushed onto it, with a separator line first when one is due. */
  function PushContent(buffer: string, content: string, outputInformation: bool): string
  {
    if ShouldAddSeparator(buffer, content, outputInformation) then buffer + Separator() + "\n" + content
    else buffer + content
  }

  /** The result of processing one walk item's file, or `None` for an error item or a non-file entry. */
  function ItemResult(item: WalkItem, directory: Path, outputInformation: bool): Option<Result<Chunk, ProcessError>>
  {
    if item.Entry? && item.node.File? then
      Some(FileContentResult(item.path, directory, outputInformation, item.node.read))
    else None
  }

  /** True when the item is a regular file that was processed successfully. */
  predicate Processed(item: WalkItem, directory: Path, outputInformation: bool)
  {
    var r := ItemResult(item, directory, outputInformation);
    r.Some? && r.value.Ok?
  }

  /** One iteration of the loop in `process_directory`. */
  function WalkStep(acc: Chunk, item: WalkItem, directory: Path, outputInformation: bool): Chunk
  {
    if Processed(item, directory, outputInformation) then
      var c := ItemResult(item, directory, outputInformation).value.value;
      Chunk(PushContent(acc.text, c.text, outputInformation),
            acc.chars + c.chars, acc.words + c.words, acc.lines + c.lines)
    else acc
  }

  /** The buffer and totals after the loop has seen the first `n` items. */
  function FoldUpTo(items: seq<WalkItem>, n: nat, directory: Path, outputInformation: bool): Chunk
    requires n <= |items|
  {
    if n == 0 then EmptyChunk
    else WalkStep(FoldUpTo(items, n - 1, directory, outputInformation), items[n - 1], directory, outputInformation)
  }

  /** The buffer and totals after the loop has seen all of `items`. */
  function WalkFold(items: seq<WalkItem>, directory: Path, outputInformation: bool): Chunk
  {
    FoldUpTo(items, |items|, directory, outputInformation)
  }

  /** What `process_directory` returns for the directory `root` found at `directory`. */
  function DirectoryResult(cli: Cli, directory: Path, root: Node): Chunk
  {
    WalkFold(Walk(root, directory, 0, cli.maxDepth), directory, cli.outputInformation)
  }

  /** `process_directory`: never fails as a whole. */
  method ProcessDirectory(cli: Cli, directory: Path, root: Node) returns (r: Result<Chunk, ProcessError>)
    ensures r.Ok?
    ensures r.value == DirectoryResult(cli, directory, root)
  {
    var buffer := "";
    var totalChars: nat, totalWords: nat, totalLines: nat := 0, 0, 0;
    var entries := Walk(root, directory, 0, cli.maxDepth);
    for i := 0 to |entries|
      invariant Chunk(buffer, totalChars, totalWords, totalLines) == FoldUpTo(entries, i, directory, cli.outputInformation)
    {
      var entry := entries[i];
      ghost var acc := Chunk(buffer, totalChars, totalWords, totalLines);
      assert FoldUpTo(entries, i + 1, directory, cli.outputInformation) == WalkStep(acc, entry, directory, cli.outputInformation);
      if entry.WalkError? {
        continue;
      }
      if !entry.node.File? {
        continue;
      }
      var result := ProcessFileContent(entry.path, directory, cli.outputInformation, entry.node.read);
      if result.Err? {
        continue;
      }
      var content := result.value;
      WalkStepProcessed(acc, entry, directory, cli.outputInformation, content);
      totalChars := totalChars + content.chars;
      totalWords := totalWords + content.words;
      totalLines := totalLines + content.lines;
      if ShouldAddSeparator(buffer, content.text, cli.outputInformation) {
        buffer := buffer + Separator();
        buffer := buffer + "\n";
      }
      buffer := buffer + content.text;
      assert buffer == PushContent(acc.text, content.text, cli.outputInformation);
    }
    return Ok(Chunk(buffer, totalChars, totalWords, totalLines));
  }

  lemma WalkStepProcessed(acc: Chunk, item: WalkItem, directory: Path, outputInformation: bool, c: Chunk)
    requires ItemResult(item, directory, outputInformation) == Some(Ok(c))
    ensures WalkStep(acc, item, directory, outputInformation)
      == Chunk(PushContent(acc.text, c.text, outputInformation), acc.chars + c.chars, acc.words + c.words, acc.lines + c.lines)
  {
  }

  /** The fold of the first `n` items does not look past them. */
  lemma {:induction false} FoldUpToPrefix(a: seq<WalkItem>, b: seq<WalkItem>, n: nat, directory: Path, outputInformation: bool)
    requires n <= |a|
    ensures FoldUpTo(a + b, n, directory, outputInformation) == FoldUpTo(a, n, directory, outputInformation)
  {
    if n > 0 {
      FoldUpToPrefix(a, b, n - 1, directory, outputInformation);
      assert (a + b)[n - 1] == a[n - 1];
    }
  }

  /** The whole fold is the fold of all but the last item, then one more step. */
  lemma WalkFoldLast(items: seq<WalkItem>, directory: Path, outputInformation: bool)
    requires items != []
    ensures WalkFold(items, directory, outputInformation)
      == WalkStep(WalkFold(items[..|items| - 1], directory, outputInformation), items[|items| - 1], directory, outputInformation)
  {
    var init := items[..|items| - 1];
    assert items == init + [items[|items| - 1]];
    FoldUpToPrefix(init, [items[|items| - 1]], |init|, directory, outputInformation);
  }

  // ------------------------------------------------------------ properties

  /** The results of the successfully processed files among `items`, in walk order. */
  function ProcessedFiles(items: seq<WalkItem>, directory: Path, outputInformation: bool): seq<Chunk>
  {
    if items == [] then []
    else
      var last := items[|items| - 1];
      ProcessedFiles(items[..|items| - 1], directory, outputInformation)
      + (if Processed(last, directory, outputInformation)
         then [ItemResult(last, directory, outputInformation).value.value] else [])
  }

  /** Counter additivity: each total is the sum of that count over the processed files. */
  lemma {:induction false} TotalsAreSums(items: seq<WalkItem>, directory: Path, outputInformation: bool)
    ensures var f := WalkFold(items, directory, outputInformation);
      var files := ProcessedFiles(items, directory, outputInformation);
      f.chars == TotalChars(files) && f.words == TotalWords(files) && f.lines == TotalLines(files)
  {
    if items != [] {
      var init, last := items[..|items| - 1], items[|items| - 1];
      WalkFoldLast(items, directory, outputInformation);
      TotalsAreSums(init, directory, outputInformation);
      var prev := ProcessedFiles(init, directory, outputInformation);
      var files := ProcessedFiles(items, directory, outputInformation);
      if Processed(last, directory, outputInformation) {
        var c := ItemResult(last, directory, outputInformation).value.value;
        assert files == prev + [c];
        assert files[..|files| - 1] == prev;
      } else {
        assert files == prev;
      }
    }
  }

  /** Pushing a non-empty block onto the join of earlier non-empty blocks extends the join. */
  lemma PushExtendsJoin(blocks: seq<string>, block: string)
    requires forall i :: 0 <= i < |blocks| ==> blocks[i] != []
    requires block != []
    ensures PushContent(JoinWith(blocks, SeparatorLine()), block, false) == JoinWith(blocks + [block], SeparatorLine())
  {
    var joined := JoinWith(blocks, SeparatorLine());
    assert joined + Separator() + "\n" == joined + SeparatorLine();
    JoinWithEmpty(blocks, SeparatorLine());
    if blocks == [] {
      assert blocks + [block] == [block];
    } else {
      JoinWithSnoc(blocks, SeparatorLine(), block);
    }
  }

  /**
   * Separator placement: in default mode the body is the processed files'
   * blocks in walk order with exactly one separator line between
   * neighbours and none before the first; N blocks take N - 1 separators.
   */
  lemma {:induction false} BodyJoinsBlocks(items: seq<WalkItem>, directory: Path)
    ensures var files := ProcessedFiles(items, directory, false);
      && (forall i :: 0 <= i < |files| ==> files[i].text != [])
      && WalkFold(items, directory, false).text == JoinWith(Texts(files), SeparatorLine())
  {
    if items != [] {
      var init := items[..|items| - 1];
      var last := items[|items| - 1];
      WalkFoldLast(items, directory, false);
      BodyJoinsBlocks(init, directory);
      if Processed(last, directory, false) {
        var c := ItemResult(last, directory, false).value.value;
        BlockNonEmpty(last.path, directory, last.node.read);
        var prev := Texts(ProcessedFiles(init, directory, false));
        PushExtendsJoin(prev, c.text);
        assert ProcessedFiles(items, directory, false) == ProcessedFiles(init, directory, false) + [c];
        assert Texts(ProcessedFiles(items, directory, false)) == prev + [c.text];
        assert WalkFold(items, directory, false).text == PushContent(JoinWith(prev, SeparatorLine()), c.text, false);
      } else {
        assert ProcessedFiles(items, directory, false) == ProcessedFiles(init, directory, false);
      }
    }
  }

  /** The default-mode body's length: the blocks plus 81 characters for each of the N - 1 separator lines. */
  lemma BodyLength(items: seq<WalkItem>, directory: Path)
    requires ProcessedFiles(items, directory, false) != []
    ensures var files := ProcessedFiles(items, directory, false);
      |WalkFold(items, directory, false).text| == TotalLength(Texts(files)) + (|files| - 1) * 81
  {
    BodyJoinsBlocks(items, directory);
    JoinWithLength(Texts(ProcessedFiles(items, directory, false)), SeparatorLine());
  }

  /** Summary mode gives an empty body and exactly the totals of default mode. */
  lemma {:induction false} SummaryModeSameTotals(items: seq<WalkItem>, directory: Path)
    ensures var full := WalkFold(items, directory, false);
      WalkFold(items, directory, true) == Chunk("", full.chars, full.words, full.lines)
  {
    if items != [] {
      var last := items[|items| - 1];
      WalkFoldLast(items, directory, false);
      WalkFoldLast(items, directory, true);
      SummaryModeSameTotals(items[..|items| - 1], directory);
      if last.Entry? && last.node.File? {
        SummaryModeKeepsCounts(last.path, directory, last.node.read);
      }
    }
  }

  /** Failure isolation: an item that is not a successfully processed file can be removed anywhere without changing the result. */
  lemma {:induction false} SkippedItemChangesNothing(before: seq<WalkItem>, item: WalkItem, after: seq<WalkItem>,
                                                     directory: Path, outputInformation: bool)
    requires !Processed(item, directory, outputInformation)
    ensures WalkFold(before + [item] + after, directory, outputInformation) == WalkFold(before + after, directory, outputInformation)
    decreases |after|
  {
    var all := before + [item] + after;
    WalkFoldLast(all, directory, outputInformation);
    if after == [] {
      assert all[..|all| - 1] == before;
      assert before + after == before;
    } else {
      var init := after[..|after| - 1];
      WalkFoldLast(before + after, directory, outputInformation);
      SkippedItemChangesNothing(before, item, init, directory, outputInformation);
      assert all[..|all| - 1] == before + [item] + init;
      assert (before + after)[..|before + after| - 1] == before + init;
    }
  }

  /** Depth 0: a directory yields no file, so the result is empty with zero totals. */
  lemma MaxDepthZeroIsEmpty(cli: Cli, directory: Path, root: Node)
    requires root.Dir? && cli.maxDepth == 0
    ensures DirectoryResult(cli, directory, root) == EmptyChunk
  {
    var items := Walk(root, directory, 0, 0);
    WalkDepthZero(root, directory);
    WalkFoldLast(items, directory, cli.outputInformation);
    assert items[..0] == [];
    assert WalkFold(items[..0], directory, cli.outputInformation) == EmptyChunk;
    assert !Processed(items[0], directory, cli.outputInformation);
  }

  /** An empty directory gives the empty result at every depth bound. */
  lemma EmptyDirectoryIsEmpty(cli: Cli, directory: Path, name: Name)
    ensures DirectoryResult(cli, directory, Dir(name, [])) == EmptyChunk
  {
    var root := Dir(name, []);
    var items := Walk(root, directory, 0, cli.maxDepth);
    assert WalkChildren([], directory, 1, cli.maxDepth) == [];
    assert items == [Entry(directory, 0, root)];
    WalkFoldLast(items, directory, cli.outputInformation);
    assert items[..0] == [];
    assert WalkFold(items[..0], directory, cli.outputInformation) == EmptyChunk;
    assert !Processed(items[0], directory, cli.outputInformation);
  }

  /** In the walk of a named directory, every file below it is labelled by its path relative to the directory. */
  lemma WalkedFilesLabelledRelative(cli: Cli, directory: Path, root: Node, item: WalkItem)
    requires directory != []
    requires item in Walk(root, directory, 0, cli.maxDepth) && item.depth >= 1
    ensures directory <= item.path && Label(item.path, directory) == Display(item.path[|directory|..])
  {
    WalkShape(root, directory, cli.maxDepth);
    LabelIsRelativePath(item.path, directory);
  }
}
