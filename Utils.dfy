/**
 * String helpers shared by the whole model: the 80-dash separator of
 * src/utils.rs, joining a list of strings with a separator, and the decimal
 * rendering that `format!("{}", n)` performs on a counter.
 */
module Utils {

  /** `c` repeated `n` times, as `String::repeat` does. */
  function Repeat(c: char, n: nat): (s: string)
    ensures |s| == n
    ensures forall i :: 0 <= i < n ==> s[i] == c
  {
    if n == 0 then [] else Repeat(c, n - 1) + [c]
  }

  /**
   * The separator text `"-".repeat(80)`. In src/utils.rs the function prints
   * that text and returns `()`, while its callers push its value onto a
   * buffer; the model makes it the value the callers expect.
   */
  function Separator(): (s: string)
    ensures |s| == 80
    ensures forall i :: 0 <= i < |s| ==> s[i] == '-'
  {
    Repeat('-', 80)
  }

  /** What callers push between two blocks: the separator and then `'\n'`. */
  function SeparatorLine(): (s: string)
    ensures |s| == 81 && s[..80] == Separator() && s[80] == '\n'
  {
    Separator() + "\n"
  }

  /** `parts` in order with `sep` between each pair of neighbours (nothing before the first or after the last). */
  function JoinWith(parts: seq<string>, sep: string): string
  {
    if |parts| == 0 then ""
    else if |parts| == 1 then parts[0]
    else JoinWith(parts[..|parts| - 1], sep) + sep + parts[|parts| - 1]
  }

  function TotalLength(parts: seq<string>): nat
  {
    if |parts| == 0 then 0 else TotalLength(parts[..|parts| - 1]) + |parts[|parts| - 1]|
  }

  /** Joining N >= 1 parts inserts the separator exactly N - 1 times. */
  lemma {:induction false} JoinWithLength(parts: seq<string>, sep: string)
    requires |parts| > 0
    ensures |JoinWith(parts, sep)| == TotalLength(parts) + (|parts| - 1) * |sep|
  {
    var n := |parts|;
    if n > 1 {
      var init := parts[..n - 1];
      JoinWithLength(init, sep);
      assert TotalLength(parts) == TotalLength(init) + |parts[n - 1]|;
      assert (n - 1) * |sep| == (n - 2) * |sep| + |sep| by {
        MulStep(n - 2, |sep|);
      }
    }
  }

  lemma MulStep(k: nat, m: nat)
    ensures (k + 1) * m == k * m + m
  {
  }

  /** When no part is empty, the join is empty exactly when there are no parts. */
  lemma {:induction false} JoinWithEmpty(parts: seq<string>, sep: string)
    requires forall i :: 0 <= i < |parts| ==> parts[i] != []
    ensures JoinWith(parts, sep) == [] <==> parts == []
  {
    if |parts| > 1 {
      JoinWithEmpty(parts[..|parts| - 1], sep);
    }
  }

  /** Appending one more part to a join. */
  lemma JoinWithSnoc(parts: seq<string>, sep: string, last: string)
    requires parts != []
    ensures JoinWith(parts + [last], sep) == JoinWith(parts, sep) + sep + last
  {
    assert (parts + [last])[..|parts|] == parts;
  }

  function DigitChar(d: nat): (c: char)
    requires d < 10
    ensures '0' <= c <= '9'
  {
    ['0', '1', '2', '3', '4', '5', '6', '7', '8', '9'][d]
  }

  function DigitValue(c: char): nat
    requires '0' <= c <= '9'
  {
    (c as int - '0' as int) as nat
  }

  /** Decimal rendering of a counter, as `{}` formats a `usize`. */
  function NatToDecimal(n: nat): (s: string)
    ensures |s| > 0
    ensures forall i :: 0 <= i < |s| ==> '0' <= s[i] <= '9'
    ensures |s| > 1 ==> s[0] != '0'
  {
    if n < 10 then [DigitChar(n)] else NatToDecimal(n / 10) + [DigitChar(n % 10)]
  }

  /** The number a string of decimal digits denotes. */
  function DecimalValue(s: string): nat
    requires forall i :: 0 <= i < |s| ==> '0' <= s[i] <= '9'
  {
    if s == [] then 0 else DecimalValue(s[..|s| - 1]) * 10 + DigitValue(s[|s| - 1])
  }

  /** The rendering is read back as the same number. */
  lemma {:induction false} DecimalRoundTrip(n: nat)
    ensures DecimalValue(NatToDecimal(n)) == n
  {
    var s := NatToDecimal(n);
    if n < 10 {
      assert s[..0] == [];
    } else {
      DecimalRoundTrip(n / 10);
      assert s[..|s| - 1] == NatToDecimal(n / 10);
    }
  }
}
