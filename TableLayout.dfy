/**
 * The shapes of the three kinds of line in a table of records: the ruled border, and the
 * framed header and data rows. `Border` and `JoinedRow` are the lines as the writer builds
 * them with `string.Join`; `Ruled` and `Framed` are the same lines described column by
 * column, which is where their lengths and separator positions can be read off.
 */
module TableLayout {
  import opened Text

  /** The sum of the column widths. */
  function Sum(widths: seq<nat>): nat
    decreases |widths|
  {
    if |widths| == 0 then 0 else Sum(widths[..|widths| - 1]) + widths[|widths| - 1]
  }

  /**
   * The position of the last separator of a line over columns of these widths: every column
   * takes its width plus one space on each side plus one separator.
   */
  function LastSeparator(widths: seq<nat>): nat
  {
    Sum(widths) + 3 * |widths|
  }

  /** `p` is the position of a separator (`+` in a border, `|` in a header or row). */
  predicate IsSeparator(widths: seq<nat>, p: int)
    decreases |widths|
  {
    p == LastSeparator(widths) || (|widths| > 0 && IsSeparator(widths[..|widths| - 1], p))
  }

  /** The dash runs of a border: `width + 2` dashes per column. */
  function Dashes(widths: seq<nat>): (d: seq<string>)
    ensures |d| == |widths|
  {
    seq(|widths|, i requires 0 <= i < |widths| => Repeat('-', widths[i] + 2))
  }

  /** The border line as the writer builds it: `"+" + string.Join("+", dashes) + "+"`. */
  function Border(widths: seq<nat>): string
  {
    "+" + Join("+", Dashes(widths)) + "+"
  }

  /** The border described column by column: `"+"`, then `width + 2` dashes and `"+"` per column. */
  function Ruled(widths: seq<nat>): string
    decreases |widths|
  {
    if |widths| == 0 then "+"
    else Ruled(widths[..|widths| - 1]) + Repeat('-', widths[|widths| - 1] + 2) + "+"
  }

  /**
   * A header or row described column by column: `"|"`, then `" " + cell + " |"` per column.
   * This is also how the header is appended to its string builder.
   */
  function Framed(cells: seq<string>): string
    decreases |cells|
  {
    if |cells| == 0 then "|"
    else Framed(cells[..|cells| - 1]) + " " + cells[|cells| - 1] + " |"
  }

  /** A data row as the writer builds it: every cell gets a trailing space, then `"| " + string.Join("| ", cells) + "|"`. */
  function JoinedRow(cells: seq<string>): string
  {
    "| " + Join("| ", seq(|cells|, i requires 0 <= i < |cells| => cells[i] + " ")) + "|"
  }

  /** With at least one column, the border the writer joins is the column-by-column ruled line. */
  lemma {:induction false} BorderIsRuled(widths: seq<nat>)
    requires |widths| >= 1
    ensures Border(widths) == Ruled(widths)
    decreases |widths|
  {
    var n := |widths|;
    if n > 1 {
      var front := widths[..n - 1];
      BorderIsRuled(front);
      assert Dashes(widths)[..n - 1] == Dashes(front);
      calc {
        Border(widths);
        "+" + (Join("+", Dashes(front)) + "+" + Dashes(widths)[n - 1]) + "+";
        ("+" + Join("+", Dashes(front)) + "+") + Repeat('-', widths[n - 1] + 2) + "+";
        Ruled(widths);
      }
    }
  }

  /** With at least one column, a joined data row has the same framing as the header. */
  lemma {:induction false} RowIsFramed(cells: seq<string>)
    requires |cells| >= 1
    ensures JoinedRow(cells) == Framed(cells)
    decreases |cells|
  {
    var n := |cells|;
    var spaced := seq(n, i requires 0 <= i < n => cells[i] + " ");
    if n == 1 {
      assert spaced == [cells[0] + " "];
      assert JoinedRow(cells) == "| " + cells[0] + " |";
    } else {
      var front := cells[..n - 1];
      RowIsFramed(front);
      assert spaced[..n - 1] == seq(n - 1, i requires 0 <= i < n - 1 => front[i] + " ");
      calc {
        JoinedRow(cells);
        "| " + (Join("| ", spaced[..n - 1]) + "| " + spaced[n - 1]) + "|";
        ("| " + Join("| ", spaced[..n - 1]) + "|") + " " + cells[n - 1] + " |";
        Framed(cells);
      }
    }
  }

  /** Without columns the lines lose their common length: `"++"`, `"|"` and `"| |"`. */
  lemma ZeroColumns()
    ensures Border([]) == "++"
    ensures Framed([]) == "|"
    ensures JoinedRow([]) == "| |"
  {
  }

  /** Separator positions never lie beyond the last one. */
  lemma {:induction false} SeparatorBound(widths: seq<nat>, p: int)
    requires IsSeparator(widths, p)
    ensures 0 <= p <= LastSeparator(widths)
    decreases |widths|
  {
    if p != LastSeparator(widths) {
      var front := widths[..|widths| - 1];
      SeparatorBound(front, p);
      assert LastSeparator(widths) == LastSeparator(front) + widths[|widths| - 1] + 3;
    }
  }

  /**
   * The border is `LastSeparator(widths) + 1` characters long and holds `+` exactly at the separator
   * positions and `-` everywhere else.
   */
  lemma {:induction false} RuledShape(widths: seq<nat>)
    ensures |Ruled(widths)| == LastSeparator(widths) + 1
    ensures forall p :: 0 <= p < |Ruled(widths)| ==>
              Ruled(widths)[p] == (if IsSeparator(widths, p) then '+' else '-')
    decreases |widths|
  {
    var n := |widths|;
    if n > 0 {
      var front := widths[..n - 1];
      RuledShape(front);
      var w := widths[n - 1];
      var r := Ruled(widths);
      var rf := Ruled(front);
      assert LastSeparator(widths) == LastSeparator(front) + w + 3;
      assert r == rf + Repeat('-', w + 2) + "+";
      forall p | 0 <= p < |r|
        ensures r[p] == (if IsSeparator(widths, p) then '+' else '-')
      {
        if p < |rf| {
          assert r[p] == rf[p];
        } else if p < LastSeparator(widths) {
          if IsSeparator(front, p) {
            SeparatorBound(front, p);
          }
        }
      }
    }
  }

  /**
   * A framed line whose cells are exactly as wide as their columns is as long as the border,
   * and holds `|` at every separator position of the border.
   */
  lemma {:induction false} FramedShape(cells: seq<string>, widths: seq<nat>)
    requires |cells| == |widths|
    requires forall i :: 0 <= i < |cells| ==> |cells[i]| == widths[i]
    ensures |Framed(cells)| == LastSeparator(widths) + 1
    ensures forall p :: IsSeparator(widths, p) ==> 0 <= p < |Framed(cells)| && Framed(cells)[p] == '|'
    decreases |cells|
  {
    var n := |cells|;
    if n > 0 {
      var front, wfront := cells[..n - 1], widths[..n - 1];
      FramedShape(front, wfront);
      var f := Framed(cells);
      var ff := Framed(front);
      assert LastSeparator(widths) == LastSeparator(wfront) + widths[n - 1] + 3;
      assert f == ff + " " + cells[n - 1] + " |";
      forall p | IsSeparator(widths, p)
        ensures 0 <= p < |f| && f[p] == '|'
      {
        if p != LastSeparator(widths) {
          assert IsSeparator(wfront, p);
          assert f[p] == ff[p];
        }
      }
    }
  }
}
