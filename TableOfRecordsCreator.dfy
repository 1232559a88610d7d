/**
 * `TableOfRecordsCreator.WriteTable`: writes a non-empty collection of records to a text
 * sink as a fixed-width table with a ruled border around every line.
 *
 * Reflection is replaced by an explicit schema (the record type's public properties, in
 * order, each with its name and its property type) and every record by the values of those
 * properties, already converted to strings.
 */
module TableOfRecordsCreator {
  import opened Wrappers
  import opened Text
  import opened TableLayout

  /** The property types the writer distinguishes: `string`, `char`, and everything else. */
  datatype PropertyType = StringType | CharType | OtherType

  /** One public property of the record type; it becomes one column. */
  datatype Column = Column(name: string, propertyType: PropertyType)

  /** The result of `GetValue(item)?.ToString()`: `None` when it is null. */
  type Cell = Option<string>

  /** An element of the collection: a null reference, or an instance with one value per property. */
  datatype Item = Null | Instance(values: seq<Cell>)

  /** The exceptions `WriteTable` throws before it writes anything. */
  datatype Error =
    | NullCollection   // ArgumentNullException for the collection
    | NullWriter       // ArgumentNullException for the writer
    | EmptyCollection  // ArgumentException: "Collection is empty"
    | NullElement      // reading a property of a null element throws

  /** `string` and `char` columns are left-aligned; all others are right-aligned. */
  predicate LeftAligned(column: Column)
  {
    column.propertyType == StringType || column.propertyType == CharType
  }

  /** `?? string.Empty`: a null value prints as the empty string. */
  function CellText(cell: Cell): string
  {
    match cell
    case None => ""
    case Some(s) => s
  }

  /** Every instance has exactly one value per property: all elements are of the record type. */
  predicate WellTyped(schema: seq<Column>, items: seq<Item>)
  {
    forall k :: 0 <= k < |items| && items[k].Instance? ==> |items[k].values| == |schema|
  }

  /** The properties of every element can be read: there are none, or no element is null. */
  predicate Readable(schema: seq<Column>, items: seq<Item>)
  {
    |schema| == 0 || forall k :: 0 <= k < |items| ==> items[k].Instance?
  }

  /** The values of one item that can be rendered as a row. */
  predicate RowReady(schema: seq<Column>, item: Item)
  {
    |schema| == 0 || (item.Instance? && |item.values| == |schema|)
  }

  /** The printed values of column `j`, one per item, in order. */
  function ColumnTexts(items: seq<Item>, j: nat): (texts: seq<string>)
    requires forall k :: 0 <= k < |items| ==> items[k].Instance? && j < |items[k].values|
    ensures |texts| == |items|
  {
    seq(|items|, k requires 0 <= k < |items| => CellText(items[k].values[j]))
  }

  /**
   * The width of a column: the length of its name widened to the longest of its values,
   * folded over the values in order.
   */
  function ColumnWidth(name: string, texts: seq<string>): (w: nat)
    ensures |name| <= w
    ensures forall k :: 0 <= k < |texts| ==> |texts[k]| <= w
    decreases |texts|
  {
    if |texts| == 0 then |name|
    else Max(ColumnWidth(name, texts[..|texts| - 1]), |texts[|texts| - 1]|)
  }

  /** The fold widens only to a value it has seen: the width is the name's length or one value's length. */
  lemma {:induction false} ColumnWidthAttained(name: string, texts: seq<string>)
    ensures ColumnWidth(name, texts) == |name| ||
            exists k :: 0 <= k < |texts| && ColumnWidth(name, texts) == |texts[k]|
    decreases |texts|
  {
    if |texts| > 0 {
      var front := texts[..|texts| - 1];
      ColumnWidthAttained(name, front);
      if ColumnWidth(name, texts) != |texts[|texts| - 1]| {
        assert ColumnWidth(name, texts) == ColumnWidth(name, front);
        if ColumnWidth(name, front) != |name| {
          var k :| 0 <= k < |front| && ColumnWidth(name, front) == |front[k]|;
          assert texts[k] == front[k];
        }
      }
    }
  }

  /** Every column is wide enough for its name and for each of its values. */
  predicate Fits(schema: seq<Column>, widths: seq<nat>, items: seq<Item>)
    requires WellTyped(schema, items)
  {
    && |widths| == |schema|
    && (forall j :: 0 <= j < |schema| ==> |schema[j].name| <= widths[j])
    && (forall j, k :: 0 <= j < |schema| && 0 <= k < |items| && items[k].Instance? ==>
          |CellText(items[k].values[j])| <= widths[j])
  }

  /** The final width of every column. */
  function ColumnWidths(schema: seq<Column>, items: seq<Item>): (widths: seq<nat>)
    requires WellTyped(schema, items) && Readable(schema, items)
    ensures Fits(schema, widths, items)
  {
    var widths := seq(|schema|, j requires 0 <= j < |schema| =>
      ColumnWidth(schema[j].name, ColumnTexts(items, j)));
    assert forall j, k :: 0 <= j < |schema| && 0 <= k < |items| ==>
      ColumnTexts(items, j)[k] == CellText(items[k].values[j]);
    widths
  }

  /** Widening a column by one more element's value is one more step of the fold. */
  lemma WidenStep(name: string, items: seq<Item>, k: nat, j: nat)
    requires k < |items|
    requires forall m :: 0 <= m <= k ==> items[m].Instance? && j < |items[m].values|
    ensures ColumnWidth(name, ColumnTexts(items[..k + 1], j)) ==
              Max(ColumnWidth(name, ColumnTexts(items[..k], j)), |CellText(items[k].values[j])|)
  {
    var longer := ColumnTexts(items[..k + 1], j);
    assert longer[..k] == ColumnTexts(items[..k], j);
  }

  /**
   * Each final column width is the maximum of the name's length and the lengths of the
   * column's values: no smaller than any of them, and equal to one of them.
   */
  lemma WidthIsMaximum(schema: seq<Column>, items: seq<Item>, j: nat)
    requires WellTyped(schema, items) && Readable(schema, items) && j < |schema|
    ensures |schema[j].name| <= ColumnWidths(schema, items)[j]
    ensures forall k :: 0 <= k < |items| ==> |CellText(items[k].values[j])| <= ColumnWidths(schema, items)[j]
    ensures ColumnWidths(schema, items)[j] == |schema[j].name| ||
            exists k :: 0 <= k < |items| && ColumnWidths(schema, items)[j] == |CellText(items[k].values[j])|
  {
    var texts := ColumnTexts(items, j);
    ColumnWidthAttained(schema[j].name, texts);
    if ColumnWidths(schema, items)[j] != |schema[j].name| {
      var k :| 0 <= k < |texts| && ColumnWidth(schema[j].name, texts) == |texts[k]|;
      assert texts[k] == CellText(items[k].values[j]);
    }
  }

  /**
   * The width pass: start every column at the length of its name, then widen it to each
   * element's value in turn. Reading a property of a null element fails.
   */
  method ComputeWidths(schema: seq<Column>, items: seq<Item>) returns (result: Result<seq<nat>, Error>)
    requires WellTyped(schema, items)
    ensures result.Success? <==> Readable(schema, items)
    ensures result.Success? ==> result.value == ColumnWidths(schema, items)
    ensures result.Failure? ==> result.error == NullElement
  {
    var n := |schema|;
    var columnWidth := seq(n, j requires 0 <= j < n => |schema[j].name|);
    for k := 0 to |items|
      invariant |columnWidth| == n
      invariant n > 0 ==> forall m :: 0 <= m < k ==> items[m].Instance?
      invariant forall j :: 0 <= j < n ==>
                  columnWidth[j] == ColumnWidth(schema[j].name, ColumnTexts(items[..k], j))
    {
      for i := 0 to n
        invariant |columnWidth| == n
        invariant i > 0 ==> items[k].Instance?
        invariant forall j :: 0 <= j < i ==>
                    columnWidth[j] == ColumnWidth(schema[j].name, ColumnTexts(items[..k + 1], j))
        invariant forall j :: i <= j < n ==>
                    columnWidth[j] == ColumnWidth(schema[j].name, ColumnTexts(items[..k], j))
      {
        if items[k].Null? {
          return Failure(NullElement);
        }
        var propertyValue := CellText(items[k].values[i]);
        WidenStep(schema[i].name, items, k, i);
        columnWidth := columnWidth[i := Max(columnWidth[i], |propertyValue|)];
      }
    }
    assert items[..|items|] == items;
    assert n > 0 ==> Readable(schema, items);
    return Success(columnWidth);
  }

  /** A value padded to its column's width on the side its property type calls for. */
  function Aligned(column: Column, text: string, width: nat): string
  {
    if LeftAligned(column) then PadRight(text, width) else PadLeft(text, width)
  }

  /**
   * Alignment law: in a column wide enough for it, a `string` or `char` value is followed
   * by spaces and any other value is preceded by spaces, up to exactly the column width.
   */
  lemma AlignmentLaw(column: Column, text: string, width: nat)
    requires |text| <= width
    ensures |Aligned(column, text, width)| == width
    ensures LeftAligned(column) ==>
              Aligned(column, text, width) == text + Repeat(' ', width - |text|)
    ensures !LeftAligned(column) ==>
              Aligned(column, text, width) == Repeat(' ', width - |text|) + text
  {
    var a := Aligned(column, text, width);
    if LeftAligned(column) {
      assert a == a[..|text|] + a[|text|..];
    } else {
      assert a == a[..width - |text|] + a[width - |text|..];
    }
  }

  /** The header cells: every property name padded on the right to its column width. */
  function HeaderCells(schema: seq<Column>, widths: seq<nat>): (cells: seq<string>)
    requires |widths| == |schema|
    ensures |cells| == |schema|
  {
    seq(|schema|, i requires 0 <= i < |schema| => PadRight(schema[i].name, widths[i]))
  }

  /** The header line: `"|"` and then `" " + name + " |"` per column. */
  function HeaderLine(schema: seq<Column>, widths: seq<nat>): string
    requires |widths| == |schema|
  {
    Framed(HeaderCells(schema, widths))
  }

  /** Builds the header by appending one column at a time to a string builder that starts as `"|"`. */
  method BuildHeader(schema: seq<Column>, widths: seq<nat>) returns (header: string)
    requires |widths| == |schema|
    ensures header == HeaderLine(schema, widths)
  {
    ghost var cells := HeaderCells(schema, widths);
    header := "|";
    for i := 0 to |schema|
      invariant header == Framed(cells[..i])
    {
      assert cells[..i + 1][..i] == cells[..i];
      header := header + (" " + PadRight(schema[i].name, widths[i]) + " |");
    }
    assert cells[..|schema|] == cells;
  }

  /** The printed values of one item, in column order. */
  function RowTexts(schema: seq<Column>, item: Item): (texts: seq<string>)
    requires RowReady(schema, item)
    ensures |texts| == |schema|
  {
    if |schema| == 0 then []
    else seq(|schema|, i requires 0 <= i < |schema| => CellText(item.values[i]))
  }

  /** The cells of one row: every value aligned within its column width. */
  function RowCells(schema: seq<Column>, widths: seq<nat>, item: Item): (cells: seq<string>)
    requires |widths| == |schema| && RowReady(schema, item)
    ensures |cells| == |schema|
  {
    var texts := RowTexts(schema, item);
    seq(|schema|, i requires 0 <= i < |schema| => Aligned(schema[i], texts[i], widths[i]))
  }

  /** The row line of one item, joined as the writer joins it. */
  function RowLine(schema: seq<Column>, widths: seq<nat>, item: Item): string
    requires |widths| == |schema| && RowReady(schema, item)
  {
    JoinedRow(RowCells(schema, widths, item))
  }

  /** Every item can be rendered as a row. */
  predicate AllRowsReady(schema: seq<Column>, items: seq<Item>)
  {
    forall k :: 0 <= k < |items| ==> RowReady(schema, items[k])
  }

  /** The row lines of all items, in iteration order. */
  function RowLines(schema: seq<Column>, widths: seq<nat>, items: seq<Item>): (rows: seq<string>)
    requires |widths| == |schema| && AllRowsReady(schema, items)
    ensures |rows| == |items|
  {
    seq(|items|, k requires 0 <= k < |items| => RowLine(schema, widths, items[k]))
  }

  /** The lines after the header, in the order they are written: every row followed by a border. */
  function Body(rows: seq<string>, border: string): seq<string>
    decreases |rows|
  {
    if |rows| == 0 then []
    else Body(rows[..|rows| - 1], border) + [rows[|rows| - 1], border]
  }

  /** The lines of a table: border, header, border, then a row and a border per item. */
  function Layout(border: string, header: string, rows: seq<string>): seq<string>
  {
    [border, header, border] + Body(rows, border)
  }

  /** All lines of the table of these items. */
  function TableLines(schema: seq<Column>, widths: seq<nat>, items: seq<Item>): seq<string>
    requires |widths| == |schema| && AllRowsReady(schema, items)
  {
    Layout(Border(widths), HeaderLine(schema, widths), RowLines(schema, widths, items))
  }

  /**
   * What a call writes, or the exception it throws: the argument checks in order, then the
   * width pass, which fails on a null element when there is a property to read.
   */
  function Render(schema: seq<Column>, collection: Option<seq<Item>>, writerPresent: bool)
    : Result<seq<string>, Error>
    requires collection.Some? ==> WellTyped(schema, collection.value)
  {
    if collection.None? then Failure(NullCollection)
    else if !writerPresent then Failure(NullWriter)
    else if |collection.value| < 1 then Failure(EmptyCollection)
    else if !Readable(schema, collection.value) then Failure(NullElement)
    else
      var items := collection.value;
      assert AllRowsReady(schema, items);
      Success(TableLines(schema, ColumnWidths(schema, items), items))
  }

  /**
   * Emission order: border, header, border, then row `k` followed by a border for every row
   * in order; `3 + 2 * count` lines, every even-numbered one the border.
   */
  lemma {:induction false} LayoutOrder(border: string, header: string, rows: seq<string>)
    ensures |Layout(border, header, rows)| == 3 + 2 * |rows|
    ensures Layout(border, header, rows)[1] == header
    ensures forall i :: 0 <= i < |Layout(border, header, rows)| && i % 2 == 0 ==>
              Layout(border, header, rows)[i] == border
    ensures forall k :: 0 <= k < |rows| ==> Layout(border, header, rows)[2 * k + 3] == rows[k]
    decreases |rows|
  {
    var n := |rows|;
    if n > 0 {
      var front := rows[..n - 1];
      LayoutOrder(border, header, front);
      var t := Layout(border, header, rows);
      var tf := Layout(border, header, front);
      assert t == tf + [rows[n - 1], border];
      forall i | 0 <= i < |t| && i % 2 == 0
        ensures t[i] == border
      {
        if i < |tf| {
          assert t[i] == tf[i];
        }
      }
      forall k | 0 <= k < n
        ensures t[2 * k + 3] == rows[k]
      {
        if k < n - 1 {
          assert t[2 * k + 3] == tf[2 * k + 3];
          assert front[k] == rows[k];
        }
      }
    }
  }

  /** Writing one more row and its border extends the layout by those two lines. */
  lemma LayoutSnoc(border: string, header: string, rows: seq<string>, k: nat)
    requires k < |rows|
    ensures Layout(border, header, rows[..k + 1]) == Layout(border, header, rows[..k]) + [rows[k], border]
  {
    assert rows[..k + 1][..k] == rows[..k];
  }

  /** A border line is one that starts with `+`; headers and rows start with `|`. */
  predicate IsBorderLine(line: string)
  {
    |line| > 0 && line[0] == '+'
  }

  /** The number of border lines. */
  function CountBorders(lines: seq<string>): nat
    decreases |lines|
  {
    if |lines| == 0 then 0
    else CountBorders(lines[..|lines| - 1]) + (if IsBorderLine(lines[|lines| - 1]) then 1 else 0)
  }

  /** Counting borders distributes over concatenation. */
  lemma {:induction false} CountBordersAppend(a: seq<string>, b: seq<string>)
    ensures CountBorders(a + b) == CountBorders(a) + CountBorders(b)
    decreases |b|
  {
    if |b| == 0 {
      assert a + b == a;
    } else {
      var front := b[..|b| - 1];
      CountBordersAppend(a, front);
      assert (a + b)[..|a + b| - 1] == a + front;
      assert (a + b)[|a + b| - 1] == b[|b| - 1];
    }
  }

  /** When no row starts with `+` and the border does, the table holds `count + 2` borders. */
  lemma {:induction false} LayoutBorders(border: string, header: string, rows: seq<string>)
    requires IsBorderLine(border) && !IsBorderLine(header)
    requires forall k :: 0 <= k < |rows| ==> !IsBorderLine(rows[k])
    ensures CountBorders(Layout(border, header, rows)) == |rows| + 2
    decreases |rows|
  {
    var n := |rows|;
    if n == 0 {
      assert Layout(border, header, rows) == [border, header, border];
      assert [border, header, border][..2] == [border, header];
      assert [border, header][..1] == [border];
      assert [border][..0] == [];
      assert CountBorders([border]) == 1;
      assert CountBorders([border, header]) == 1;
    } else {
      var front := rows[..n - 1];
      LayoutBorders(border, header, front);
      var pair := [rows[n - 1], border];
      assert Layout(border, header, rows) == Layout(border, header, front) + pair;
      CountBordersAppend(Layout(border, header, front), pair);
      assert pair[..1] == [rows[n - 1]];
      assert [rows[n - 1]][..0] == [];
      assert !IsBorderLine(rows[n - 1]);
      assert CountBorders([rows[n - 1]]) == 0;
      assert CountBorders(pair) == 1;
    }
  }

  /** A framed line starts with `|`. */
  lemma {:induction false} FramedStartsWithBar(cells: seq<string>)
    ensures |Framed(cells)| > 0 && Framed(cells)[0] == '|'
    decreases |cells|
  {
    if |cells| > 0 {
      FramedStartsWithBar(cells[..|cells| - 1]);
    }
  }

  /** A table over `count` items holds `count + 2` border lines, for any number of columns. */
  lemma BorderCount(schema: seq<Column>, widths: seq<nat>, items: seq<Item>)
    requires |widths| == |schema| && AllRowsReady(schema, items)
    ensures CountBorders(TableLines(schema, widths, items)) == |items| + 2
  {
    FramedStartsWithBar(HeaderCells(schema, widths));
    LayoutBorders(Border(widths), HeaderLine(schema, widths), RowLines(schema, widths, items));
  }

  /** `line` is `LastSeparator(widths) + 1` long and holds `sep` at every separator position. */
  ghost predicate Shaped(line: string, widths: seq<nat>, sep: char)
  {
    && |line| == LastSeparator(widths) + 1
    && forall p :: IsSeparator(widths, p) ==> 0 <= p < |line| && line[p] == sep
  }

  /** With at least one column, the border is shaped with `+`. */
  lemma BorderShaped(widths: seq<nat>)
    requires |widths| >= 1
    ensures Shaped(Border(widths), widths, '+')
  {
    BorderIsRuled(widths);
    RuledShape(widths);
    forall p | IsSeparator(widths, p)
      ensures 0 <= p < |Ruled(widths)|
    {
      SeparatorBound(widths, p);
    }
  }

  /** Padding never truncates: in columns wide enough for the names, every header cell is exactly as wide as its column. */
  lemma HeaderCellWidths(schema: seq<Column>, widths: seq<nat>)
    requires |widths| == |schema|
    requires forall j :: 0 <= j < |schema| ==> |schema[j].name| <= widths[j]
    ensures forall j :: 0 <= j < |schema| ==> |HeaderCells(schema, widths)[j]| == widths[j]
  {
  }

  /** Alignment never truncates: in columns wide enough for an item's values, every cell of its row is exactly as wide as its column. */
  lemma RowCellWidths(schema: seq<Column>, widths: seq<nat>, item: Item)
    requires |widths| == |schema| && RowReady(schema, item)
    requires forall j :: 0 <= j < |schema| ==> |RowTexts(schema, item)[j]| <= widths[j]
    ensures forall j :: 0 <= j < |schema| ==> |RowCells(schema, widths, item)[j]| == widths[j]
  {
    forall j | 0 <= j < |schema|
      ensures |RowCells(schema, widths, item)[j]| == widths[j]
    {
      AlignmentLaw(schema[j], RowTexts(schema, item)[j], widths[j]);
    }
  }

  /** With widths that fit the names, the header is shaped with `|`. */
  lemma HeaderShaped(schema: seq<Column>, widths: seq<nat>)
    requires |widths| == |schema|
    requires forall j :: 0 <= j < |schema| ==> |schema[j].name| <= widths[j]
    ensures Shaped(HeaderLine(schema, widths), widths, '|')
  {
    HeaderCellWidths(schema, widths);
    FramedShape(HeaderCells(schema, widths), widths);
  }

  /** With at least one column and widths that fit the item's values, a row is shaped with `|`. */
  lemma RowShaped(schema: seq<Column>, widths: seq<nat>, item: Item)
    requires |schema| >= 1 && |widths| == |schema| && RowReady(schema, item)
    requires forall j :: 0 <= j < |schema| ==> |CellText(item.values[j])| <= widths[j]
    ensures Shaped(RowLine(schema, widths, item), widths, '|')
  {
    var cells := RowCells(schema, widths, item);
    RowCellWidths(schema, widths, item);
    RowIsFramed(cells);
    FramedShape(cells, widths);
  }

  /** If the border and every row are shaped, so is every line of the layout. */
  lemma LayoutShaped(widths: seq<nat>, border: string, header: string, rows: seq<string>)
    requires Shaped(border, widths, '+') && Shaped(header, widths, '|')
    requires forall k :: 0 <= k < |rows| ==> Shaped(rows[k], widths, '|')
    ensures forall i :: 0 <= i < |Layout(border, header, rows)| ==>
              Shaped(Layout(border, header, rows)[i], widths, if i % 2 == 0 then '+' else '|')
  {
    var t := Layout(border, header, rows);
    LayoutOrder(border, header, rows);
    forall i | 0 <= i < |t|
      ensures Shaped(t[i], widths, if i % 2 == 0 then '+' else '|')
    {
      if i % 2 == 0 {
        assert t[i] == border;
      } else if i == 1 {
        assert t[i] == header;
      } else {
        var k := (i - 3) / 2;
        assert i == 2 * k + 3;
        assert t[i] == rows[k];
      }
    }
  }

  /**
   * With at least one column and widths that fit every value, every line of the table has
   * the same length, and at every separator position a border holds `+` while the header
   * and every row hold `|`.
   */
  lemma TableColumnsAlign(schema: seq<Column>, widths: seq<nat>, items: seq<Item>)
    requires |schema| >= 1 && WellTyped(schema, items) && Fits(schema, widths, items)
    requires AllRowsReady(schema, items)
    ensures forall i :: 0 <= i < |TableLines(schema, widths, items)| ==>
              Shaped(TableLines(schema, widths, items)[i], widths, if i % 2 == 0 then '+' else '|')
  {
    var rows := RowLines(schema, widths, items);
    BorderShaped(widths);
    HeaderShaped(schema, widths);
    forall k | 0 <= k < |items|
      ensures Shaped(rows[k], widths, '|')
    {
      RowShaped(schema, widths, items[k]);
    }
    LayoutShaped(widths, Border(widths), HeaderLine(schema, widths), rows);
  }

  /** A call succeeds exactly with the table of the collection under its computed widths. */
  lemma RenderSucceeds(schema: seq<Column>, collection: Option<seq<Item>>)
    requires collection.Some? ==> WellTyped(schema, collection.value)
    requires Render(schema, collection, true).Success?
    ensures collection.Some? && |collection.value| >= 1
    ensures Readable(schema, collection.value) && AllRowsReady(schema, collection.value)
    ensures Render(schema, collection, true).value ==
              TableLines(schema, ColumnWidths(schema, collection.value), collection.value)
  {
  }

  /**
   * A successful call on a collection of `count` elements writes border, header, border and
   * then each element's row followed by a border: `3 + 2 * count` lines, of which
   * `count + 2` are borders.
   */
  lemma RenderedTable(schema: seq<Column>, collection: Option<seq<Item>>)
    requires collection.Some? ==> WellTyped(schema, collection.value)
    requires Render(schema, collection, true).Success?
    ensures var lines := Render(schema, collection, true).value;
            var items := collection.value;
            var widths := ColumnWidths(schema, items);
            && |lines| == 3 + 2 * |items|
            && lines[1] == HeaderLine(schema, widths)
            && (forall k :: 0 <= k < |items| ==> lines[2 * k + 3] == RowLines(schema, widths, items)[k])
            && (forall i :: 0 <= i < |lines| && i % 2 == 0 ==> lines[i] == Border(widths))
            && CountBorders(lines) == |items| + 2
  {
    var items := collection.value;
    var widths := ColumnWidths(schema, items);
    RenderSucceeds(schema, collection);
    var rows := RowLines(schema, widths, items);
    LayoutOrder(Border(widths), HeaderLine(schema, widths), rows);
    BorderCount(schema, widths, items);
  }

  /**
   * With at least one column, every line a successful call writes is
   * `sum(widths) + 3 * columns + 1` characters long, and at every separator position the
   * borders hold `+` and the header and rows hold `|`.
   */
  lemma RenderedColumnsAlign(schema: seq<Column>, collection: Option<seq<Item>>)
    requires collection.Some? ==> WellTyped(schema, collection.value)
    requires Render(schema, collection, true).Success?
    requires |schema| >= 1
    ensures var lines := Render(schema, collection, true).value;
            var widths := ColumnWidths(schema, collection.value);
            && LastSeparator(widths) == Sum(widths) + 3 * |schema|
            && forall i :: 0 <= i < |lines| ==> Shaped(lines[i], widths, if i % 2 == 0 then '+' else '|')
  {
    var items := collection.value;
    RenderSucceeds(schema, collection);
    TableColumnsAlign(schema, ColumnWidths(schema, items), items);
  }

  /**
   * A record type without public properties: no property is read, so even null elements are
   * accepted, and the table is `"++"`, `"|"`, `"++"` and then `"| |"`, `"++"` per element.
   */
  lemma ZeroColumnTable(items: seq<Item>)
    requires |items| >= 1 && WellTyped([], items)
    ensures Render([], Some(items), true).Success?
    ensures var lines := Render([], Some(items), true).value;
            && |lines| == 3 + 2 * |items|
            && lines[1] == "|"
            && (forall i :: 0 <= i < |lines| && i % 2 == 0 ==> lines[i] == "++")
            && (forall k :: 0 <= k < |items| ==> lines[2 * k + 3] == "| |")
  {
    ZeroColumns();
    RenderSucceeds([], Some(items));
    assert ColumnWidths([], items) == [];
    var rows := RowLines([], [], items);
    assert HeaderLine([], []) == "|" by {
      assert HeaderCells([], []) == [];
    }
    forall k | 0 <= k < |items|
      ensures rows[k] == "| |"
    {
      assert RowCells([], [], items[k]) == [];
      assert rows[k] == JoinedRow([]);
    }
    var lines := Render([], Some(items), true).value;
    assert lines == Layout("++", "|", rows);
    LayoutOrder("++", "|", rows);
    forall k | 0 <= k < |items|
      ensures lines[2 * k + 3] == "| |"
    {
      assert lines[2 * k + 3] == rows[k];
    }
  }

  /** Two columns: a header or row over cells `a` and `b` reads `"| a | b |"`, however it is joined. */
  lemma TwoColumns(a: string, b: string)
    ensures Framed([a, b]) == "| " + a + " | " + b + " |"
    ensures JoinedRow([a, b]) == Framed([a, b])
  {
    assert [a, b][..1] == [a];
    assert [a][..0] == [];
    calc {
      Framed([a, b]);
      Framed([a]) + " " + b + " |";
      "|" + " " + a + " |" + " " + b + " |";
      { assert "|" + " " == "| "; assert " |" + " " == " | "; }
      "| " + a + " | " + b + " |";
    }
    RowIsFramed([a, b]);
  }

  /** The records of the worked example: `{Id = 1, Name = "Ann"}` and `{Id = 10, Name = "Bo"}`. */
  const ExampleSchema: seq<Column> := [Column("Id", OtherType), Column("Name", StringType)]
  const ExampleItems: seq<Item> := [Instance([Some("1"), Some("Ann")]), Instance([Some("10"), Some("Bo")])]

  /** In the worked example `Id` is 2 wide (its name, and "10") and `Name` is 4 wide (its name). */
  lemma ExampleWidths()
    ensures ColumnWidths(ExampleSchema, ExampleItems) == [2, 4]
  {
    assert ColumnTexts(ExampleItems, 0) == ["1", "10"];
    assert ColumnTexts(ExampleItems, 1) == ["Ann", "Bo"];
    assert ["1", "10"][..1] == ["1"] && ["Ann", "Bo"][..1] == ["Ann"];
    assert ColumnWidth("Id", ["1"]) == 2;
    assert ColumnWidth("Name", ["Ann"]) == 4;
  }

  /** The worked example's border and header. */
  lemma ExampleFrame()
    ensures Border([2, 4]) == "+----+------+"
    ensures HeaderLine(ExampleSchema, [2, 4]) == "| Id | Name |"
  {
    assert Repeat('-', 4) == "----" && Repeat('-', 6) == "------";
    assert Dashes([2, 4]) == ["----", "------"];
    assert ["----", "------"][..1] == ["----"];
    assert HeaderCells(ExampleSchema, [2, 4]) == ["Id", "Name"];
    TwoColumns("Id", "Name");
  }

  /** The worked example's first row's cells: `"1"` right-aligned and `"Ann"` left-aligned. */
  lemma ExampleFirstCells()
    ensures RowCells(ExampleSchema, [2, 4], ExampleItems[0]) == [" 1", "Ann "]
  {
    assert RowTexts(ExampleSchema, ExampleItems[0]) == ["1", "Ann"];
    assert PadLeft("1", 2) == " 1" by { assert Repeat(' ', 1) == " "; }
    assert PadRight("Ann", 4) == "Ann " by { assert Repeat(' ', 1) == " "; }
  }

  /** The worked example's second row's cells: `"10"` fills its column, `"Bo"` is padded on the right. */
  lemma ExampleSecondCells()
    ensures RowCells(ExampleSchema, [2, 4], ExampleItems[1]) == ["10", "Bo  "]
  {
    assert RowTexts(ExampleSchema, ExampleItems[1]) == ["10", "Bo"];
    assert PadLeft("10", 2) == "10";
    assert PadRight("Bo", 4) == "Bo  " by { assert Repeat(' ', 2) == "  "; }
  }

  /** The worked example's two rows. */
  lemma ExampleRows()
    ensures RowLine(ExampleSchema, [2, 4], ExampleItems[0]) == "|  1 | Ann  |"
    ensures RowLine(ExampleSchema, [2, 4], ExampleItems[1]) == "| 10 | Bo   |"
  {
    ExampleFirstCells();
    TwoColumns(" 1", "Ann ");
    ExampleSecondCells();
    TwoColumns("10", "Bo  ");
  }

  /** The worked example, line by line. */
  lemma ExampleTable()
    ensures Render(ExampleSchema, Some(ExampleItems), true)
            == Success([
                 "+----+------+",
                 "| Id | Name |",
                 "+----+------+",
                 "|  1 | Ann  |",
                 "+----+------+",
                 "| 10 | Bo   |",
                 "+----+------+"])
  {
    RenderSucceeds(ExampleSchema, Some(ExampleItems));
    ExampleWidths();
    ExampleFrame();
    ExampleRows();
    var border := "+----+------+";
    var rows := RowLines(ExampleSchema, [2, 4], ExampleItems);
    assert rows == ["|  1 | Ann  |", "| 10 | Bo   |"];
    assert Body(rows[..1], border) == [rows[0], border] by {
      assert rows[..1][..0] == [];
    }
    assert Body(rows, border) == [rows[0], border, rows[1], border];
    assert Layout(border, "| Id | Name |", rows) == [border, "| Id | Name |", border, rows[0], border, rows[1], border];
  }

  /** The text sink: `WriteLine` appends one line. */
  class Writer {
    var lines: seq<string>

    constructor ()
      ensures lines == []
    {
      lines := [];
    }

    method WriteLine(line: string)
      modifies this
      ensures lines == old(lines) + [line]
    {
      lines := lines + [line];
    }
  }

  /**
   * The writing pass, once the widths are final: border, header, border, then for every item
   * its row and a border, each with one `WriteLine`.
   */
  method EmitTable(schema: seq<Column>, widths: seq<nat>, items: seq<Item>, writer: Writer)
    requires |widths| == |schema| && AllRowsReady(schema, items)
    modifies writer
    ensures writer.lines == old(writer.lines) + TableLines(schema, widths, items)
  {
    var boundary := Border(widths);
    var header := BuildHeader(schema, widths);
    writer.WriteLine(boundary);
    writer.WriteLine(header);
    writer.WriteLine(boundary);
    ghost var rows := RowLines(schema, widths, items);
    for k := 0 to |items|
      invariant writer.lines == old(writer.lines) + Layout(boundary, header, rows[..k])
    {
      LayoutSnoc(boundary, header, rows, k);
      ghost var before := writer.lines;
      var row := RowLine(schema, widths, items[k]);
      assert row == rows[k];
      writer.WriteLine(row);
      writer.WriteLine(boundary);
      assert writer.lines == before + [rows[k], boundary];
    }
    assert rows[..|items|] == rows;
    assert Layout(boundary, header, rows) == TableLines(schema, widths, items);
  }

  /**
   * Writes the collection to the writer as a table. On any rejected argument, and on a null
   * element, nothing is written; otherwise exactly the lines of `Render` are appended.
   */
  method WriteTable(schema: seq<Column>, collection: Option<seq<Item>>, writer: Writer?)
    returns (outcome: Outcome<Error>)
    requires collection.Some? ==> WellTyped(schema, collection.value)
    modifies writer
    ensures collection.None? ==> outcome == Fail(NullCollection)
    ensures collection.Some? && writer == null ==> outcome == Fail(NullWriter)
    ensures collection.Some? && writer != null && |collection.value| == 0 ==>
              outcome == Fail(EmptyCollection)
    ensures outcome.Pass? <==> Render(schema, collection, writer != null).Success?
    ensures outcome.Fail? ==> outcome.error == Render(schema, collection, writer != null).error
    ensures writer != null ==>
              writer.lines == old(writer.lines) +
                (if outcome.Pass? then Render(schema, collection, true).value else [])
  {
    if collection.None? {
      return Fail(NullCollection);
    }
    if writer == null {
      return Fail(NullWriter);
    }
    var items := collection.value;
    if |items| < 1 {
      return Fail(EmptyCollection);
    }
    var measured := ComputeWidths(schema, items);
    if measured.Failure? {
      return Fail(measured.error);
    }
    var columnWidth := measured.value;
    assert AllRowsReady(schema, items);
    EmitTable(schema, columnWidth, items, writer);
    assert Render(schema, collection, true) == Success(TableLines(schema, columnWidth, items));
    return Pass;
  }
}
