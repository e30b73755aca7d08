/** The parsed command line (src/cli.rs), taken as a plain record; parsing is not modelled. */
module Cli {
  import opened Paths

  /** `--max-depth` when it is not given. */
  const DefaultMaxDepth: nat := 10

  datatype Cli = Cli(
    paths: seq<Path>,
    maxDepth: nat,
    includeErrors: bool,
    outputInformation: bool,
    copy: bool)
}
