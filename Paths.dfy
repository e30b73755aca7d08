/**
 * Paths as sequences of path components. Labels and the `Paths:` field
 * render them with `/` between components on every platform.
 */
module Paths {
  import opened Utils

  /** One path component; components are never empty. */
  type Name = s: string | |s| > 0 witness "_"

  type Path = seq<Name>

  /** The path rendered with `/` between its components. */
  function Display(p: Path): string
  {
    JoinWith(p, "/")
  }

  /** `Path::parent`, with the parent of the empty path taken as the empty path (`unwrap_or("")`). */
  function Parent(p: Path): Path
  {
    if p == [] then [] else p[..|p| - 1]
  }

  /** `Path::file_name`; the empty path falls back to its own (empty) rendering. */
  function FileName(p: Path): string
  {
    if p == [] then "" else p[|p| - 1]
  }

  /** A path with at least one component renders as a non-empty string. */
  lemma {:induction false} DisplayNonEmpty(p: Path)
    requires p != []
    ensures Display(p) != []
  {
    JoinWithEmpty(p, "/");
  }
}
