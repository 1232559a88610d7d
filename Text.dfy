/**
 * The .NET string primitives the table writer is built from: `new string(c, n)`,
 * `String.PadRight`, `String.PadLeft`, `string.Join` and `Math.Max`.
 * Lengths are plain character counts.
 */
module Text {

  /** `Math.Max` on integers. */
  function Max(a: int, b: int): (m: int)
    ensures m >= a && m >= b
    ensures m == a || m == b
  {
    if a < b then b else a
  }

  /** `new string(c, n)`: the string of `n` copies of `c`. */
  function Repeat(c: char, n: nat): (r: string)
    ensures |r| == n
    ensures forall i :: 0 <= i < n ==> r[i] == c
  {
    seq(n, _ => c)
  }

  /**
   * `s.PadRight(width)`: `s` left-aligned in a field of `width` characters.
   * A string already at least `width` long comes back unchanged (never truncated).
   */
  function PadRight(s: string, width: nat): (r: string)
    ensures |r| == Max(|s|, width)
    ensures r[..|s|] == s
    ensures forall i :: |s| <= i < |r| ==> r[i] == ' '
  {
    if |s| >= width then s else s + Repeat(' ', width - |s|)
  }

  /**
   * `s.PadLeft(width)`: `s` right-aligned in a field of `width` characters.
   * A string already at least `width` long comes back unchanged (never truncated).
   */
  function PadLeft(s: string, width: nat): (r: string)
    ensures |r| == Max(|s|, width)
    ensures r[|r| - |s|..] == s
    ensures forall i :: 0 <= i < |r| - |s| ==> r[i] == ' '
  {
    if |s| >= width then s else Repeat(' ', width - |s|) + s
  }

  /** `string.Join(sep, parts)`: the parts in order, with `sep` between neighbours. */
  function Join(sep: string, parts: seq<string>): string
    decreases |parts|
  {
    if |parts| == 0 then ""
    else if |parts| == 1 then parts[0]
    else Join(sep, parts[..|parts| - 1]) + sep + parts[|parts| - 1]
  }
}
