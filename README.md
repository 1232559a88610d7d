# Table of records

`TableOfRecordsCreator.WriteTable<T>(collection, writer)` writes a non-empty collection of
records to a `TextWriter` as a fixed-width text table. It has one column per public property
of `T`. Every column is as wide as the longest of its property's name and its printed values.
`string` and `char` values are padded on the right and all other values on the left. The
table is ruled: a `+----+` border goes before the header, after the header and after every
row.

This project is a Dafny model of that method and of everything it writes. It has four modules:

- `Wrappers`: `Option`, `Result` and `Outcome`.
- `Text`: `Max`, `Repeat`, `PadRight`, `PadLeft` and `Join`. These are the .NET string
  operations the writer uses, on `seq<char>`.
- `TableLayout`: the three kinds of line. `Border` and `JoinedRow` are built with
  `string.Join`, as the writer builds them. `Ruled` and `Framed` describe the same lines
  column by column. Proving the two forms equal makes line lengths and separator positions
  readable.
- `TableOfRecordsCreator`:
  - the data model;
  - the width pass `ComputeWidths`, a pair of nested loops;
  - the header builder `BuildHeader`, a loop over a string builder;
  - the writing pass `EmitTable` and the entry point `WriteTable`, both over a `Writer` class
    whose `lines` field holds what has been written;
  - `Render`, a function that says what a call writes or which exception it throws;
  - the lemmas about the table.

Reflection is replaced by a schema. The schema is a `seq<Column>` holding the public properties
of `T` in order, each with its name and its property type (`string`, `char` or other). An
element of the collection is `Null` or an `Instance` holding the values of those properties.
Each value is already converted with `ToString()`, and `None` stands for a null value. A null
collection is `None`, and a null writer is `null`. The four exceptions are the `Error`
datatype.

On the worked example, `{Id = 1, Name = "Ann"}` and `{Id = 10, Name = "Bo"}`, the source
writes the first data row as `|  1 | Ann  |`. The `Id` column is two wide, and every cell
gets one space on each side. `ExampleTable` proves the whole table line by line.

## Model

| member | source | states |
|---|---|---|
| TableOfRecordsCreator.WriteTable | TableOfRecords/TableOfRecordsCreator.cs:25-80 | Arguments are checked in order: a null collection, then a null writer, then an empty collection. Each throws before anything is written. Otherwise the call succeeds exactly when `Render` does. On failure it reports `Render`'s error and the writer is unchanged. On success exactly `Render`'s lines are appended to the writer |
| TableOfRecordsCreator.RenderSucceeds | TableOfRecords/TableOfRecordsCreator.cs:27-47 | A successful call had a non-null, non-empty collection whose elements' properties can all be read, and writes the table of that collection under its computed column widths |
| TableOfRecordsCreator.ComputeWidths | TableOfRecords/TableOfRecordsCreator.cs:38-47 | The width pass succeeds exactly when every element can be read (there are no properties, or no element is null). On success it returns the column widths. Otherwise the error is the null-element failure |
| TableOfRecordsCreator.ColumnWidth | TableOfRecords/TableOfRecordsCreator.cs:38-47 | A column's width, folded with `Math.Max`, is no smaller than its name's length and no smaller than any of its values' lengths |
| TableOfRecordsCreator.ColumnWidthAttained | TableOfRecords/TableOfRecordsCreator.cs:38-47 | The fold only widens to a length it has seen: the width equals the name's length or one value's length |
| TableOfRecordsCreator.ColumnWidths | TableOfRecords/TableOfRecordsCreator.cs:38-47 | The computed widths fit every column: each is at least its property's name and at least every element's printed value |
| TableOfRecordsCreator.WidthIsMaximum | TableOfRecords/TableOfRecordsCreator.cs:38-47 | Each final width is exactly the maximum of the name's length and the column's value lengths: an upper bound on all of them and equal to one of them |
| TableOfRecordsCreator.WidenStep | TableOfRecords/TableOfRecordsCreator.cs:44-45 | Visiting one more element widens a column to the maximum of its old width and that element's value length |
| TableOfRecordsCreator.BuildHeader | TableOfRecords/TableOfRecordsCreator.cs:51-56 | The string builder, which starts as a bar and gets a space, the name padded right, a space and a bar per property, yields the header line |
| TableOfRecordsCreator.HeaderShaped | TableOfRecords/TableOfRecordsCreator.cs:51-56 | With widths that fit the names, the header is `LastSeparator(widths) + 1` long and holds a bar at every separator position |
| TableOfRecordsCreator.AlignmentLaw | TableOfRecords/TableOfRecordsCreator.cs:69-74 | In a column wide enough for it, a `string` or `char` value is followed by spaces and any other value is preceded by spaces, up to exactly the column width |
| TableOfRecordsCreator.HeaderCellWidths | TableOfRecords/TableOfRecordsCreator.cs:55 | Padding never truncates: in columns wide enough for the names, every header cell is exactly its column's width |
| TableOfRecordsCreator.RowCellWidths | TableOfRecords/TableOfRecordsCreator.cs:64-75 | Alignment never truncates: in columns wide enough for an element's values, every cell of its row is exactly its column's width |
| TableOfRecordsCreator.RowShaped | TableOfRecords/TableOfRecordsCreator.cs:64-77 | With at least one column and widths that fit the element's values, a data row is `LastSeparator(widths) + 1` long with a bar at every separator position |
| TableOfRecordsCreator.EmitTable | TableOfRecords/TableOfRecordsCreator.cs:49-79 | The writing pass appends border, header and border, then each element's row followed by the border, in iteration order, and nothing else |
| TableOfRecordsCreator.Writer.WriteLine | TableOfRecords/TableOfRecordsCreator.cs:58-60 | Writing a line appends exactly that line to what the sink holds |
| TableOfRecordsCreator.Writer.constructor | TableOfRecords/TableOfRecordsCreator.cs:25 | A fresh sink holds no lines |
| TableOfRecordsCreator.LayoutOrder | TableOfRecords/TableOfRecordsCreator.cs:58-79 | The emission order has `3 + 2 * count` lines. Line 1 is the header, every even-numbered line is the border, and line `2k + 3` is row `k` |
| TableOfRecordsCreator.LayoutSnoc | TableOfRecords/TableOfRecordsCreator.cs:77-78 | Writing one more row and its border extends the emitted lines by exactly those two lines |
| TableOfRecordsCreator.CountBordersAppend | TableOfRecords/TableOfRecordsCreator.cs:58-79 | Counting border lines distributes over concatenation |
| TableOfRecordsCreator.LayoutBorders | TableOfRecords/TableOfRecordsCreator.cs:58-79 | If the border starts with `+` and the header and rows do not, the emitted lines hold exactly `count + 2` borders |
| TableOfRecordsCreator.FramedStartsWithBar | TableOfRecords/TableOfRecordsCreator.cs:51 | A header starts with a bar, so it is never mistaken for a border |
| TableOfRecordsCreator.BorderCount | TableOfRecords/TableOfRecordsCreator.cs:58-79 | A table over `count` elements holds exactly `count + 2` border lines, whatever the number of columns |
| TableOfRecordsCreator.RenderedTable | TableOfRecords/TableOfRecordsCreator.cs:58-79 | A successful call on `count` elements writes `3 + 2 * count` lines. Line 1 is the header, line `2k + 3` is element `k`'s row, every even-numbered line is the border, and exactly `count + 2` lines are borders |
| TableOfRecordsCreator.BorderShaped | TableOfRecords/TableOfRecordsCreator.cs:49 | With at least one column, the border is `LastSeparator(widths) + 1` long and holds `+` at every separator position |
| TableOfRecordsCreator.LayoutShaped | TableOfRecords/TableOfRecordsCreator.cs:58-79 | If the border, header and rows are each shaped, every emitted line is shaped, with `+` on border lines and a bar elsewhere |
| TableOfRecordsCreator.TableColumnsAlign | TableOfRecords/TableOfRecordsCreator.cs:49-79 | With at least one column and fitting widths, every line of the table has the same length, and its separators line up: `+` in borders, a bar in header and rows |
| TableOfRecordsCreator.RenderedColumnsAlign | TableOfRecords/TableOfRecordsCreator.cs:38-79 | With at least one property, every line a successful call writes is `sum(widths) + 3 * columns + 1` long, with separators in the same positions on every line |
| TableOfRecordsCreator.ZeroColumnTable | TableOfRecords/TableOfRecordsCreator.cs:36-79 | A record type without public properties reads no property, so null elements are accepted. The table is `++`, a lone bar, `++`, then a bar-space-bar row and `++` per element |
| TableOfRecordsCreator.TwoColumns | TableOfRecords/TableOfRecordsCreator.cs:51-77 | Over two cells, the header built cell by cell and the row built with `string.Join` both read bar, `a`, bar, `b`, bar, with one space on each side of each cell |
| TableOfRecordsCreator.ExampleWidths | TableOfRecords/TableOfRecordsCreator.cs:38-47 | In the worked example the `Id` column is 2 wide (its name and `"10"`) and the `Name` column is 4 wide (its name) |
| TableOfRecordsCreator.ExampleFrame | TableOfRecords/TableOfRecordsCreator.cs:49-56 | In the worked example the border is `+----+------+` and the header holds `Id` and `Name` between bars, each with one space on each side |
| TableOfRecordsCreator.ExampleFirstCells | TableOfRecords/TableOfRecordsCreator.cs:64-75 | `1` is right-aligned to `" 1"` and `Ann` left-aligned to `"Ann "` |
| TableOfRecordsCreator.ExampleSecondCells | TableOfRecords/TableOfRecordsCreator.cs:64-75 | `10` fills its column and `Bo` is padded to `"Bo  "` |
| TableOfRecordsCreator.ExampleRows | TableOfRecords/TableOfRecordsCreator.cs:77 | The worked example's rows hold `" 1"` and `"Ann "`, then `"10"` and `"Bo  "`, each between bars with one space on each side |
| TableOfRecordsCreator.ExampleTable | TableOfRecords/TableOfRecordsCreator.cs:25-80 | The worked example's whole output, all seven lines in order |
| TableLayout.BorderIsRuled | TableOfRecords/TableOfRecordsCreator.cs:49 | With at least one column, the border joined with `string.Join("+", …)` is `"+"` followed by `width + 2` dashes and a `+` per column |
| TableLayout.RowIsFramed | TableOfRecords/TableOfRecordsCreator.cs:77 | With at least one column, the row joined with `string.Join` on bar-space equals a bar followed by a space, the cell, a space and a bar per column, the same form as the header |
| TableLayout.ZeroColumns | TableOfRecords/TableOfRecordsCreator.cs:49-77 | Without columns the border is `++`, the header a lone bar and a row bar-space-bar |
| TableLayout.SeparatorBound | TableOfRecords/TableOfRecordsCreator.cs:49-77 | Every separator position lies within the line |
| TableLayout.RuledShape | TableOfRecords/TableOfRecordsCreator.cs:49 | The ruled line is `LastSeparator(widths) + 1` long, with `+` exactly at separator positions and `-` everywhere else |
| TableLayout.FramedShape | TableOfRecords/TableOfRecordsCreator.cs:51-56 | A framed line whose cells are exactly their columns' widths is `LastSeparator(widths) + 1` long, with a bar at every separator position |
| Text.Max | TableOfRecords/TableOfRecordsCreator.cs:45 | `Math.Max` is an upper bound of both arguments and equals one of them |
| Text.Repeat | TableOfRecords/TableOfRecordsCreator.cs:49 | `new string(c, n)` is `n` copies of `c` |
| Text.PadRight | TableOfRecords/TableOfRecordsCreator.cs:55 | `PadRight(width)` keeps the string as its prefix, never truncates, and fills up to `width` with trailing spaces |
| Text.PadLeft | TableOfRecords/TableOfRecordsCreator.cs:74 | `PadLeft(width)` keeps the string as its suffix, never truncates, and fills up to `width` with leading spaces |

## Left out

- Reflection (`typeof(T).GetProperties()`) is replaced by the schema. The model assumes the
  order of the properties is the same at every use, as the source does within a single call.
- `ToString()` of the property values is left out. The values come already converted, so
  culture-dependent formatting is not modelled.
- A static property can be read on a null element. The model treats every property as an
  instance property, so any null element fails the width pass when the type has properties.
- The model assumes both passes see the same elements in the same order. A collection that
  changes between the width pass and the writing pass is not modelled.
- Failures of the `TextWriter` itself (I/O errors, a closed stream) are not modelled. The sink
  is a `Writer` whose `WriteLine` always appends. Line terminators are not modelled.
- Exception types and messages are collapsed to the four `Error` values. The parameter names
  they carry are not modelled.
- TableOfRecordsCreator.ComputeWidths: widths are unbounded `nat`. The source's `int` width
  plus 2 (line 49) would overflow only for strings near `int.MaxValue` long, and this is not
  modelled.
- Text.PadRight, Text.PadLeft: a string is a sequence of Unicode scalar values, so a character
  outside the Basic Multilingual Plane counts 1 where .NET's `Length` counts 2 (a surrogate
  pair). For names and values holding such characters, the column widths (lines 38 and 45),
  the padding and the border differ from the source. Display width (wide or combining
  characters) is not modelled either.
- An element that throws from a property getter is not modelled, apart from the null element.
