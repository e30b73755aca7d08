# pacont path aggregation, modelled in Dafny

pacont takes a list of paths from the command line and turns them into one
annotated text body, or into a summary of counters.

- **A regular file** becomes a block `**label:**\n`, then the file's contents verbatim, then `\n`. Alongside the block come three counts: characters, whitespace-separated words and non-blank lines.
- **A directory** is walked in pre-order down to `--max-depth`, with the directory itself at depth 0. Each regular file found is processed against the directory as base. The blocks go into one buffer, with an 80-dash separator line between non-empty neighbours, and the counts are summed. Entries that fail are skipped.
- **The paths** are first validated: there must be at least one, and every one must exist. Then they are folded with the same separator rule, and paths that fail are skipped (`output_content`). In summary mode (`--output-information`) they are folded into a space-joined `Paths:` field and summed totals instead, and the first failing path aborts the run.
- **The result** is printed, copied to the clipboard, or reported as "nothing to copy".

The modules follow the source files:

| module | models |
|---|---|
| `Wrappers` | `Option` and `Result` |
| `Utils` | the separator (`src/utils.rs:5-7`), joining with a separator, decimal rendering of counters |
| `Paths` | paths as sequences of non-empty components, their `/`-joined display, `parent` and `file_name` |
| `Cli` | the parsed command line (`src/cli.rs`) as a plain record |
| `FileSystem` | the filesystem as a tree, and the walk `WalkDir::new(root).max_depth(m)` makes of it |
| `TextStats` | `chars().count()`, `split_whitespace().count()` and the `lines()`/`trim()` count |
| `FileOperations` | `process_file_content` and `process_file` |
| `DirectoryOperations` | `should_add_separator` and `process_directory` |
| `Dispatch` | `process_path`, which `src/main.rs` imports but `src/utils.rs` does not define |
| `Summary` | `print_output_information` |
| `Program` | validation, `output_content`, the output decision and `main` |

Code that changes state step by step is a method, proved equal to a function of its inputs:

- `ProcessFileContent` builds its buffer with pushes, as `process_file_content` does; it has no loop, and its result is `FileContentResult`;
- `ProcessDirectory` loops over the walk;
- `Validate`, `OutputContent` and `OutputInformation` loop over the command-line paths.

The three loops over the walk and over the paths carry loop invariants that tie their mutable state to a fold function. The lemmas then state what the source promises about those functions.

The filesystem is a parameter (`fs: Node`), and so is the result of paths that are neither a directory nor a regular file (`other`). The clipboard and the two output streams are not modelled; `Run` returns the `Action` that `main` chooses.

Where the source and its callers disagree, the model follows what the callers and the tests use. The disagreements are all in `src/utils.rs`:

- `separator` returns `()` after printing the dashes, but `src/directory_operations.rs:62` and `src/main.rs:54` push its value onto a buffer. `Separator()` is that value: 80 `-` characters. `tests/integration_tests.rs:220` counts exactly that string.
- `print_output_information` prints the summary and returns `()`, and takes only two counts from each path. Its caller at `src/main.rs:27` expects the summary text back under another name (`output_information`). The tests also expect a `Total Non-Empty Lines:` line (`tests/integration_tests.rs:131`, `:179`). `SummaryOutput` returns the text and carries the non-empty line count as a fourth line, summed like the other totals.
- `process_path` (imported at `src/main.rs:9`) is not defined. `PathResult` sends a directory to `process_directory`, a regular file to `process_file`, and anything else to the parameter `other`.

## Model

| member | source | states |
|---|---|---|
| Utils.Separator | src/utils.rs:5-7 | the separator is exactly 80 characters, each of them `-` |
| Utils.SeparatorLine | src/directory_operations.rs:62-63 | what callers push between two blocks: the 80 dashes, then `\n` (81 characters) |
| Utils.Repeat | src/utils.rs:6 | `c` repeated `n` times has length `n` and holds only `c` |
| Utils.JoinWithLength | tests/integration_tests.rs:219-221 | joining N >= 1 parts inserts the separator exactly N - 1 times, so the join's length is the parts' total plus (N - 1) separator lengths |
| Utils.JoinWithEmpty | src/utils.rs:18-21 | a join of non-empty parts is empty exactly when there are no parts |
| Utils.JoinWithSnoc | src/utils.rs:18-21 | appending a part to a non-empty join adds the separator and then the part |
| Utils.NatToDecimal | src/utils.rs:25-26 | a counter renders as a non-empty string of decimal digits with no leading zero |
| Utils.DecimalRoundTrip | src/utils.rs:25-26 | the decimal rendering of `n` reads back as `n` |
| Paths.DisplayNonEmpty | src/utils.rs:21 | a path with a component displays as a non-empty string |
| FileSystem.FindChild | src/main.rs:21 | the child found has the requested name and is a child; none is found only when no child has that name |
| FileSystem.Exists | src/main.rs:21 | `path.exists()`: something is found at the path and its metadata can be read |
| FileSystem.Walk | src/directory_operations.rs:35 | the items `WalkDir::new(directory).max_depth(m)` yields: the entry, then its children's walks in order one level deeper, nothing beyond the bound, an error item for an unreadable entry |
| FileSystem.AtMost | src/directory_operations.rs:35 | an item survives the depth filter exactly when it was there and is no deeper than the bound |
| FileSystem.FullWalkShape | src/directory_operations.rs:35 | every item of the full pre-order walk is at least as deep as the start, and its path extends the start path by one component per level |
| FileSystem.WalkIsBoundedFullWalk | src/directory_operations.rs:35 | the walk bounded by `max_depth` is exactly the full pre-order walk with every item deeper than the bound removed, order kept |
| FileSystem.WalkMembership | src/directory_operations.rs:35 | an item is walked exactly when it is in the tree and its depth is at most `max_depth` (both directions) |
| FileSystem.WalkMonotone | src/directory_operations.rs:35 | the walk at bound k is the walk at bound k + 1 with only depth-(k + 1) items removed, so every item walked at k is walked at k + 1 |
| FileSystem.WalkShape | src/directory_operations.rs:35 | every walked item is within the bound, below the start path, and has one component per level of depth |
| FileSystem.WalkDepthZero | src/directory_operations.rs:35 | with bound 0 the walk of a directory yields the directory alone |
| TextStats.RunEnd | src/file_operations.rs:33 | the leading run of non-whitespace ends at the first whitespace character or at the end |
| TextStats.WordsAreRuns | src/file_operations.rs:33 | every word `split_whitespace` yields is non-empty and holds no whitespace |
| TextStats.WordCountIsWordStarts | src/file_operations.rs:33 | the number of words equals the number of non-whitespace characters not preceded by one, counted by an independent scanner |
| TextStats.WordCountAround | src/file_operations.rs:33 | no word spans a whitespace character: the count splits over it |
| TextStats.WordCountZero | src/file_operations.rs:33 | the word count is 0 exactly when the text is empty or all whitespace |
| TextStats.WordCountAtMostChars | src/file_operations.rs:32-33 | there are never more words than characters |
| TextStats.NewlineIndex | src/file_operations.rs:34 | the index of the first `\n` lies within the text |
| TextStats.NewlineIndexAtNewline | src/file_operations.rs:34 | that index holds a `\n` unless it is the end |
| TextStats.NewlineIndexFirst | src/file_operations.rs:34 | no `\n` comes before that index |
| TextStats.NewlineIndexUnique | src/file_operations.rs:34 | any index with no `\n` before it that holds a `\n` or is the end is that index |
| TextStats.TrimEmpty | src/file_operations.rs:34 | a line trims to nothing exactly when it is all whitespace |
| TextStats.TrimEndEmpty | src/file_operations.rs:34 | trimming the back leaves nothing exactly when the text is all whitespace |
| TextStats.TrimStartBlank | src/file_operations.rs:34 | trimming the front keeps a text blank, or not blank |
| TextStats.StripCrBlank | src/file_operations.rs:34 | dropping the `\r` of a `\r\n` ending does not change whether a line is blank |
| TextStats.TrimStripCr | src/file_operations.rs:34 | dropping that `\r` does not change whether the line trims to nothing |
| TextStats.NonEmptyLinesAreSegments | src/file_operations.rs:34 | the count of non-blank `lines()` equals the number of `\n`-separated segments holding a non-whitespace character, counted independently |
| TextStats.SegmentsWithNewline | src/file_operations.rs:34 | appending a `\n` adds no non-blank segment |
| TextStats.TrailingNewlineIgnored | src/file_operations.rs:34 | a trailing newline does not change the non-empty line count |
| TextStats.SegmentsAtMostWords | src/file_operations.rs:33-34 | there are no more non-blank segments than words |
| TextStats.CountBounds | src/file_operations.rs:32-34 | non-empty lines <= words <= characters, because `\n` is whitespace |
| FileOperations.Label | src/file_operations.rs:15-23 | the display label: the bare file name when the base is empty or is the file's parent, otherwise the path below the base joined with `/` |
| FileOperations.ProcessFileContent | src/file_operations.rs:7-44 | the method computes `FileContentResult`: checks the base prefix, chooses the label, opens, reads, counts, and pushes the block onto an empty buffer |
| FileOperations.ProcessFile | src/file_operations.rs:46-48 | with the empty base a file never hits the prefix error; it succeeds exactly when it can be read, and its block is labelled by its bare file name |
| FileOperations.FileContentContract | src/file_operations.rs:12-43 | the errors come in source order (prefix, open, UTF-8), and success needs both a prefix and a read; the block is `**label:**\n` + contents + `\n`, or empty in summary mode; the counts are the characters, words and non-empty lines of the contents |
| FileOperations.LabelIsRelativePath | src/file_operations.rs:15-23 | below a non-empty base, the label is the path relative to the base, joined with `/`, whether or not the base is the parent |
| FileOperations.SummaryModeKeepsCounts | src/file_operations.rs:32-41 | summary mode empties the text and changes neither success nor any count |
| FileOperations.FileCountsBounded | src/file_operations.rs:32-34 | a processed file has lines <= words <= characters |
| FileOperations.BlockNonEmpty | src/file_operations.rs:37-41 | outside summary mode a processed file's text is at least the 7 characters of markup, so it is never empty |
| DirectoryOperations.ShouldAddSeparator | src/directory_operations.rs:25-27 | a separator goes in exactly when the buffer and the content are both non-empty and summary mode is off |
| DirectoryOperations.ProcessDirectory | src/directory_operations.rs:29-70 | the loop over the walk skips walk errors, non-files and failing files, sums the counts and pushes each content with a separator when due; it always returns `Ok`, and the result is the fold `DirectoryResult` |
| DirectoryOperations.PushExtendsJoin | src/directory_operations.rs:61-66 | pushing a non-empty block onto a separator-joined buffer of non-empty blocks extends the join by exactly one separator line and the block |
| DirectoryOperations.TotalsAreSums | src/directory_operations.rs:57-59 | each of the three totals is the sum of that count over the successfully processed files, in walk order, in either mode |
| DirectoryOperations.BodyJoinsBlocks | src/directory_operations.rs:61-66 | outside summary mode every processed file's text is non-empty, and the body is those texts in walk order, with exactly one separator line between neighbours and none before the first |
| DirectoryOperations.BodyLength | src/directory_operations.rs:61-66 | N processed files give a body of their block lengths plus 81 characters for each of the N - 1 separators |
| DirectoryOperations.SummaryModeSameTotals | src/directory_operations.rs:61-66 | summary mode gives an empty body and exactly the totals of default mode |
| DirectoryOperations.SkippedItemChangesNothing | src/directory_operations.rs:36-55 | a walk error, a non-file or a file that fails can be removed from anywhere in the walk without changing the result |
| DirectoryOperations.MaxDepthZeroIsEmpty | src/directory_operations.rs:35 | with `max_depth` 0 a directory gives the empty text and zero totals |
| DirectoryOperations.EmptyDirectoryIsEmpty | src/directory_operations.rs:30-33 | an empty directory gives the empty text and zero totals, at every depth bound |
| DirectoryOperations.WalkedFilesLabelledRelative | src/directory_operations.rs:49 | every walked item below the directory lies under it, and is labelled by its path relative to the directory |
| Dispatch.ProcessPath | src/main.rs:51 | a directory goes to `ProcessDirectory`, a regular file to `ProcessFile`, and anything else to `other`; the result is `PathResult` |
| Dispatch.DirectoryPathNeverFails | src/directory_operations.rs:69 | a directory path always succeeds, with an empty text in summary mode |
| Dispatch.FilePathLabelledByName | src/file_operations.rs:46-48 | a regular file given on the command line succeeds exactly when it can be read; its block is labelled by its bare name |
| Dispatch.PathSummaryModeSameTotals | src/file_operations.rs:32-41 | for a directory or a regular file, summary mode and default mode agree on success and on all three counts; for any other path they agree exactly when the handler's two results agree |
| Summary.SummaryText | src/utils.rs:24-26 | the summary lines `Paths:`, `Total Characters:` and `Total Words:`, plus the `Total Non-Empty Lines:` line the tests expect (tests/integration_tests.rs:131), each value in decimal and each line ending in `\n` |
| Summary.OutputInformation | src/utils.rs:9-29 | the loop over the paths sums the counts and appends each path after a space unless it is the first; the first failing path aborts; the result is `SummaryOutput` |
| Summary.ErrorPersists | src/utils.rs:15 | once a path has failed, later paths do not change the error |
| Summary.SummaryOkIff | src/utils.rs:14-22 | the summary of the first n paths succeeds exactly when each of them succeeds (both directions) |
| Summary.SummaryFirstError | src/utils.rs:15 | when path i is the first to fail, the summary is that path's error |
| Summary.SummaryTotals | src/utils.rs:16-17 | each total of a successful summary is the sum of that count over the paths |
| Summary.SummaryPaths | src/utils.rs:18-21 | the `Paths:` field is the path displays in input order, one space between neighbours, none leading or trailing |
| Summary.AddPathJoins | src/utils.rs:18-21 | appending a non-empty display extends a space-join of non-empty displays by one |
| Summary.DisplaysNonEmpty | src/utils.rs:21 | no display of a path is empty |
| Program.Validate | src/main.rs:16-24 | an empty list gives `NoPathsProvided`; otherwise the first missing path gives `PathDoesNotExist` for that path; no error exactly when the paths are valid |
| Program.InvalidHasCause | src/main.rs:16-24 | input that fails validation has either no paths or a first missing one |
| Program.OutputContent | src/main.rs:47-67 | the loop over the paths skips failing paths and pushes each content with a separator when due; it never fails, and the result is `ContentBody` |
| Program.NonEmptyTexts | src/main.rs:53 | the texts kept are all non-empty |
| Program.ContentJoinsTexts | src/main.rs:50-64 | the body is the non-empty texts of the successful paths in input order, joined by exactly one separator line; failing paths and empty texts add nothing, and the `i > 0` test adds nothing to the non-empty-buffer test |
| Program.TwoPathsOneSeparator | src/main.rs:53-57 | two paths with non-empty texts give the first text, one separator line, then the second |
| Program.OutputAction | src/main.rs:32-42 | the action chosen: print without `--copy`; with it, the clipboard for a non-empty buffer, the "nothing to copy" report outside summary mode, and nothing otherwise |
| Program.OutputDecision | src/main.rs:32-42 | without `--copy` the buffer is printed; with it, a non-empty buffer goes to the clipboard unchanged, an empty one is reported outside summary mode and nothing happens in summary mode (each an if-and-only-if) |
| Program.Run | src/main.rs:13-45 | `main`: validation errors come before any processing; a valid run yields the output decision over `ContentBody`, or over the summary (whose error is fatal); with `--copy` stdout is never chosen |

## Left out

- src/clipboard.rs, the `cli_clipboard` calls and the two clipboard failure paths (src/main.rs:35-38): these are foreign libraries and process I/O. `Run` returns the chosen `Action` instead.
- `print!`, the `println!` of the summary and every `eprintln!` diagnostic: output streams are not modelled. `include_errors` only switches diagnostics on, so its value changes no result.
- Command-line parsing (src/cli.rs): `Cli` is a plain record. `DefaultMaxDepth` records the default of 10.
- The real filesystem and `walkdir`: the tree's child order stands for the platform's enumeration order. Symbolic links are `Other` entries (not followed), and an entry whose metadata cannot be read is `Broken`, which the walk reports as an error. `Path::exists` is "found and not `Broken`", and the empty path names nothing.
- UTF-8 decoding: a read gives the contents as characters, or fails to open, or is not UTF-8. Rust's `char` and Dafny's `char` are both Unicode scalar values.
- FileSystem.Node: the tree does not require sibling names to be unique, as a real directory does; `FindChild` takes the first child of a name, and no property depends on uniqueness.
- `char::is_whitespace` is the Unicode White_Space property, written out in `IsWhitespace`.
- Paths.Display: a path has no root marker, so an absolute path and the relative path with the same components display alike. The source prints `path.display()` as typed (src/utils.rs:21): for `/tmp/x/file1.txt` it prints a leading `/`, which the model's `Paths:` field omits. The paths `/`, `.` and `..`, and a trailing `/`, cannot be written at all.
- Native path display: paths are `/`-joined component sequences on every platform. `to_string_lossy` has no effect on components that are already strings.
- `FileOperations.Label`: the `file_name()` fallback for a path ending in `..` is not modelled, because a component is a plain name here. The empty path's label is its own empty display.
- Counter overflow: the counters are unbounded `nat`. A `usize` sum past 2^64 - 1 panics in a debug build and wraps in a release build; neither is modelled.
- Dispatch.PathResult: a path that is neither a directory nor a regular file goes to the `other` parameter, because that case is not defined in the source. The handler receives the `Cli`, as `process_path(cli, path)` does. So `PathSummaryModeSameTotals` proves that summary mode keeps success and counts for such a path exactly when the handler does, and does not promise it unconditionally.
- Summary.OutputInformation: it returns the summary text instead of printing it. It also adds a fourth `Total Non-Empty Lines:` line, because the tests expect one, as described above.
- Utils.Separator: it is the separator's value, instead of a function that prints it and returns `()`.
