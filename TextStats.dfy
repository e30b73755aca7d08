/**
 * The three statistics `process_file_content` takes of a file's text:
 * `chars().count()`, `split_whitespace().count()` and the number of
 * `lines()` whose `trim()` is not empty. A Dafny `char` is a Unicode scalar
 * value, so the character count of `s` is `|s|`.
 */
module TextStats {

  /** `char::is_whitespace`: the characters with the Unicode White_Space property. */
  predicate IsWhitespace(c: char)
  {
    var n := c as int;
    (0x09 <= n <= 0x0D) || n == 0x20 || n == 0x85 || n == 0xA0 || n == 0x1680
    || (0x2000 <= n <= 0x200A) || n == 0x2028 || n == 0x2029 || n == 0x202F
    || n == 0x205F || n == 0x3000
  }

  predicate IsBlank(s: string)
  {
    forall i :: 0 <= i < |s| ==> IsWhitespace(s[i])
  }

  // ---------------------------------------------------------------- words

  /** Length of the run of non-whitespace characters that starts `s`. */
  function RunEnd(s: string): (k: nat)
    ensures k <= |s|
    ensures forall i :: 0 <= i < k ==> !IsWhitespace(s[i])
    ensures k < |s| ==> IsWhitespace(s[k])
  {
    if s == [] || IsWhitespace(s[0]) then 0 else 1 + RunEnd(s[1..])
  }

  /** `str::split_whitespace`: the maximal runs of non-whitespace characters, in order. */
  function SplitWhitespace(s: string): seq<string>
    decreases |s|
  {
    if s == [] then []
    else if IsWhitespace(s[0]) then SplitWhitespace(s[1..])
    else
      var k := RunEnd(s);
      [s[..k]] + SplitWhitespace(s[k..])
  }

  /** Every word is non-empty and free of whitespace. */
  lemma {:induction false} WordsAreRuns(s: string)
    ensures forall i :: 0 <= i < |SplitWhitespace(s)| ==> SplitWhitespace(s)[i] != []
    ensures forall i, j :: 0 <= i < |SplitWhitespace(s)| && 0 <= j < |SplitWhitespace(s)[i]| ==>
      !IsWhitespace(SplitWhitespace(s)[i][j])
    decreases |s|
  {
    if s != [] {
      if IsWhitespace(s[0]) {
        WordsAreRuns(s[1..]);
      } else {
        WordsAreRuns(s[RunEnd(s)..]);
      }
    }
  }

  function WordCount(s: string): nat
  {
    |SplitWhitespace(s)|
  }

  /**
   * Reference count of words, as a two-state scanner: a word starts at every
   * non-whitespace character that is not preceded by one. `inWord` says
   * whether the previous character was non-whitespace.
   */
  function WordStarts(s: string, inWord: bool): nat
  {
    if s == [] then 0
    else if IsWhitespace(s[0]) then WordStarts(s[1..], false)
    else (if inWord then 0 else 1) + WordStarts(s[1..], true)
  }

  lemma {:induction false} SkipRun(s: string)
    ensures WordStarts(s, true) == WordStarts(s[RunEnd(s)..], false)
  {
    if s != [] && !IsWhitespace(s[0]) {
      SkipRun(s[1..]);
      assert s[RunEnd(s)..] == s[1..][RunEnd(s[1..])..];
    }
  }

  /** The words `split_whitespace` yields are counted by the scanner. */
  lemma {:induction false} WordCountIsWordStarts(s: string)
    ensures WordCount(s) == WordStarts(s, false)
    decreases |s|
  {
    if s != [] {
      if IsWhitespace(s[0]) {
        WordCountIsWordStarts(s[1..]);
      } else {
        var k := RunEnd(s);
        WordCountIsWordStarts(s[k..]);
        SkipRun(s[1..]);
        assert s[1..][RunEnd(s[1..])..] == s[k..];
      }
    }
  }

  lemma {:induction false} WordStartsAround(a: string, c: char, b: string, inWord: bool)
    requires IsWhitespace(c)
    ensures WordStarts(a + [c] + b, inWord) == WordStarts(a, inWord) + WordStarts(b, false)
  {
    if a == [] {
      assert a + [c] + b == [c] + b;
      assert ([c] + b)[1..] == b;
    } else {
      assert (a + [c] + b)[1..] == a[1..] + [c] + b;
      WordStartsAround(a[1..], c, b, !IsWhitespace(a[0]));
    }
  }

  /** A whitespace character splits the word count: no word spans it. */
  lemma WordCountAround(a: string, c: char, b: string)
    requires IsWhitespace(c)
    ensures WordCount(a + [c] + b) == WordCount(a) + WordCount(b)
  {
    WordCountIsWordStarts(a + [c] + b);
    WordCountIsWordStarts(a);
    WordCountIsWordStarts(b);
    WordStartsAround(a, c, b, false);
  }

  lemma {:induction false} WordStartsZero(s: string)
    ensures WordStarts(s, false) == 0 <==> IsBlank(s)
  {
    if s != [] {
      WordStartsZero(s[1..]);
      if !IsWhitespace(s[0]) {
        assert !IsBlank(s);
      }
    }
  }

  /** Empty or all-whitespace text has no words, and only such text. */
  lemma WordCountZero(s: string)
    ensures WordCount(s) == 0 <==> IsBlank(s)
  {
    WordCountIsWordStarts(s);
    WordStartsZero(s);
  }

  lemma {:induction false} WordStartsAtMostLength(s: string, inWord: bool)
    ensures WordStarts(s, inWord) <= |s|
  {
    if s != [] {
      WordStartsAtMostLength(s[1..], !IsWhitespace(s[0]));
    }
  }

  /** There are never more words than characters. */
  lemma WordCountAtMostChars(s: string)
    ensures WordCount(s) <= |s|
  {
    WordCountIsWordStarts(s);
    WordStartsAtMostLength(s, false);
  }

  // ---------------------------------------------------------------- lines

  /** Index of the first `'\n'` in `s`, or `|s|` when there is none. */
  function NewlineIndex(s: string): (k: nat)
    ensures k <= |s|
  {
    if s == [] || s[0] == '\n' then 0 else 1 + NewlineIndex(s[1..])
  }

  /** `NewlineIndex` stops at a `'\n'` unless it reaches the end. */
  lemma {:induction false} NewlineIndexAtNewline(s: string)
    ensures NewlineIndex(s) < |s| ==> s[NewlineIndex(s)] == '\n'
  {
    if s != [] && s[0] != '\n' {
      NewlineIndexAtNewline(s[1..]);
    }
  }

  /** No `'\n'` comes before the index `NewlineIndex` returns. */
  lemma {:induction false} NewlineIndexFirst(s: string)
    ensures forall i :: 0 <= i < NewlineIndex(s) ==> s[i] != '\n'
  {
    if s != [] && s[0] != '\n' {
      NewlineIndexFirst(s[1..]);
      forall i | 0 <= i < NewlineIndex(s)
        ensures s[i] != '\n'
      {
        if i > 0 {
          assert s[i] == s[1..][i - 1];
        }
      }
    }
  }

  /** The index `NewlineIndex` returns is the only one with no `'\n'` before it that is a `'\n'` or the end. */
  lemma {:induction false} NewlineIndexUnique(s: string, j: nat)
    requires j <= |s|
    requires forall i :: 0 <= i < j ==> s[i] != '\n'
    requires j < |s| ==> s[j] == '\n'
    ensures NewlineIndex(s) == j
  {
    if j > 0 {
      assert s[0] != '\n';
      forall i | 0 <= i < j - 1
        ensures s[1..][i] != '\n'
      {
        assert s[1..][i] == s[i + 1];
      }
      NewlineIndexUnique(s[1..], j - 1);
    }
  }

  /** Drops the `'\r'` of a `"\r\n"` line ending. */
  function StripCr(line: string): string
  {
    if line != [] && line[|line| - 1] == '\r' then line[..|line| - 1] else line
  }

  /**
   * `str::lines`: the text cut at each `'\n'`, a `'\r'` just before a
   * `'\n'` removed; a final line ending adds no empty line, and empty text
   * has no lines.
   */
  function Lines(s: string): seq<string>
    decreases |s|
  {
    if s == [] then []
    else
      var k := NewlineIndex(s);
      if k == |s| then [s] else [StripCr(s[..k])] + Lines(s[k + 1..])
  }

  /**
   * Reference count: the `'\n'`-separated segments of `s` (a last empty one
   * included) that hold a non-whitespace character.
   */
  function NonBlankSegments(s: string): nat
    decreases |s|
  {
    var k := NewlineIndex(s);
    (if Trim(s[..k]) != [] then 1 else 0) + (if k == |s| then 0 else NonBlankSegments(s[k + 1..]))
  }

  /** `str::trim_start` for whitespace. */
  function TrimStart(s: string): string
  {
    if s != [] && IsWhitespace(s[0]) then TrimStart(s[1..]) else s
  }

  /** `str::trim_end` for whitespace. */
  function TrimEnd(s: string): string
  {
    if s != [] && IsWhitespace(s[|s| - 1]) then TrimEnd(s[..|s| - 1]) else s
  }

  /** `str::trim`. */
  function Trim(s: string): string
  {
    TrimEnd(TrimStart(s))
  }

  /** A text is blank exactly when its first character is whitespace and the rest is blank. */
  lemma BlankFront(s: string)
    requires s != []
    ensures IsBlank(s) <==> IsWhitespace(s[0]) && IsBlank(s[1..])
  {
    if IsBlank(s) {
      forall i | 0 <= i < |s| - 1
        ensures IsWhitespace(s[1..][i])
      {
        assert s[1..][i] == s[i + 1];
      }
    }
    if IsWhitespace(s[0]) && IsBlank(s[1..]) {
      forall i | 0 < i < |s|
        ensures IsWhitespace(s[i])
      {
        assert s[i] == s[1..][i - 1];
      }
    }
  }

  /** A text is blank exactly when its last character is whitespace and the rest is blank. */
  lemma BlankBack(s: string)
    requires s != []
    ensures IsBlank(s) <==> IsBlank(s[..|s| - 1]) && IsWhitespace(s[|s| - 1])
  {
    if IsBlank(s[..|s| - 1]) && IsWhitespace(s[|s| - 1]) {
      forall i | 0 <= i < |s| - 1
        ensures IsWhitespace(s[i])
      {
        assert s[i] == s[..|s| - 1][i];
      }
    }
  }

  /** Trimming the front keeps a text blank or not blank. */
  lemma {:induction false} TrimStartBlank(s: string)
    ensures IsBlank(TrimStart(s)) <==> IsBlank(s)
  {
    if s != [] && IsWhitespace(s[0]) {
      TrimStartBlank(s[1..]);
      BlankFront(s);
    }
  }

  /** Trimming the back leaves nothing exactly when the text is all whitespace. */
  lemma {:induction false} TrimEndEmpty(s: string)
    ensures TrimEnd(s) == [] <==> IsBlank(s)
  {
    if s != [] {
      BlankBack(s);
      if IsWhitespace(s[|s| - 1]) {
        TrimEndEmpty(s[..|s| - 1]);
      }
    }
  }

  /** A line trims to nothing exactly when it is all whitespace. */
  lemma TrimEmpty(s: string)
    ensures Trim(s) == [] <==> IsBlank(s)
  {
    TrimStartBlank(s);
    TrimEndEmpty(TrimStart(s));
  }

  function CountNonBlank(lines: seq<string>): nat
  {
    if lines == [] then 0
    else (if Trim(lines[0]) != [] then 1 else 0) + CountNonBlank(lines[1..])
  }

  lemma CountNonBlankCons(line: string, lines: seq<string>)
    ensures CountNonBlank([line] + lines) == (if Trim(line) != [] then 1 else 0) + CountNonBlank(lines)
  {
    assert ([line] + lines)[1..] == lines;
  }

  /** `lines().filter(|line| !line.trim().is_empty()).count()`. */
  function NonEmptyLineCount(s: string): nat
  {
    CountNonBlank(Lines(s))
  }

  lemma StripCrBlank(line: string)
    ensures IsBlank(StripCr(line)) <==> IsBlank(line)
  {
    if line != [] && line[|line| - 1] == '\r' {
      BlankBack(line);
    }
  }

  /** Dropping a final `'\r'` does not change whether a line trims to nothing. */
  lemma TrimStripCr(line: string)
    ensures (Trim(StripCr(line)) != []) == (Trim(line) != [])
  {
    TrimEmpty(line);
    TrimEmpty(StripCr(line));
    StripCrBlank(line);
  }

  /** The non-empty lines are the `'\n'`-separated segments holding a non-whitespace character. */
  lemma {:induction false} NonEmptyLinesAreSegments(s: string)
    ensures NonEmptyLineCount(s) == NonBlankSegments(s)
    decreases |s|
  {
    var k := NewlineIndex(s);
    if s == [] {
      TrimEmpty("");
    } else if k < |s| {
      LinesCons(s);
      NonEmptyLinesAreSegments(s[k + 1..]);
      TrimStripCr(s[..k]);
      CountNonBlankCons(StripCr(s[..k]), Lines(s[k + 1..]));
    } else {
      LinesSingle(s);
      CountNonBlankCons(s, []);
      assert [s] + [] == [s];
      assert s[..k] == s;
    }
  }

  lemma LinesSingle(s: string)
    requires s != [] && NewlineIndex(s) == |s|
    ensures Lines(s) == [s]
  {
  }

  lemma LinesCons(s: string)
    requires NewlineIndex(s) < |s|
    ensures var k := NewlineIndex(s); Lines(s) == [StripCr(s[..k])] + Lines(s[k + 1..])
  {
  }

  /** A `'\n'` appended to `s` adds only an empty segment. */
  lemma {:induction false} SegmentsWithNewline(s: string)
    ensures NonBlankSegments(s + "\n") == NonBlankSegments(s)
    decreases |s|
  {
    var t := s + "\n";
    var k := NewlineIndex(s);
    var k' := NewlineIndex(t);
    NewlineIndexFirst(s);
    forall i | 0 <= i < k
      ensures t[i] != '\n'
    {
      assert t[i] == s[i];
    }
    if k == |s| {
      NewlineIndexUnique(t, |s|);
      assert t[..k'] == s;
      assert t[k' + 1..] == "";
      assert s[..k] == s;
      TrimEmpty("");
    } else {
      NewlineIndexAtNewline(s);
      assert t[k] == s[k];
      NewlineIndexUnique(t, k);
      assert t[..k'] == s[..k];
      assert t[k' + 1..] == s[k + 1..] + "\n";
      SegmentsWithNewline(s[k + 1..]);
    }
  }

  /** A trailing `'\n'` does not change the count of non-empty lines. */
  lemma TrailingNewlineIgnored(s: string)
    ensures NonEmptyLineCount(s + "\n") == NonEmptyLineCount(s)
  {
    NonEmptyLinesAreSegments(s + "\n");
    NonEmptyLinesAreSegments(s);
    SegmentsWithNewline(s);
  }

  lemma LineHasWord(line: string)
    ensures Trim(line) != [] ==> WordCount(line) >= 1
  {
    TrimEmpty(line);
    WordCountZero(line);
  }

  /** The newline between a line and the rest separates their words. */
  lemma WordsAtNewline(s: string)
    requires NewlineIndex(s) < |s|
    ensures var k := NewlineIndex(s);
      WordCount(s) == WordCount(s[..k]) + WordCount(s[k + 1..])
  {
    var k := NewlineIndex(s);
    NewlineIndexAtNewline(s);
    SplitAround(s, k);
    WordCountAround(s[..k], '\n', s[k + 1..]);
  }

  lemma SplitAround(s: string, k: nat)
    requires k < |s|
    ensures s == s[..k] + [s[k]] + s[k + 1..]
  {
    assert s[k..] == [s[k]] + s[k + 1..];
    assert s == s[..k] + s[k..];
  }

  /** Each non-blank segment holds at least one word. */
  lemma {:induction false} SegmentsAtMostWords(s: string)
    ensures NonBlankSegments(s) <= WordCount(s)
    decreases |s|
  {
    var k := NewlineIndex(s);
    LineHasWord(s[..k]);
    if k == |s| {
      assert s[..k] == s;
    } else {
      SegmentsAtMostWords(s[k + 1..]);
      WordsAtNewline(s);
    }
  }

  /** Since `'\n'` is whitespace: non-empty lines <= words <= characters. */
  lemma CountBounds(s: string)
    ensures NonEmptyLineCount(s) <= WordCount(s) <= |s|
  {
    NonEmptyLinesAreSegments(s);
    SegmentsAtMostWords(s);
    WordCountAtMostChars(s);
  }
}
