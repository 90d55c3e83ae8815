# react-windowed-table: the rendering pipeline as data transformation

This project models the core of `react-windowed-table`, a small virtualized
table for React, in Dafny. Without React, the table is a pure, synchronous
pipeline. It turns the rows, the columns, the index the windowing list mounts,
that list's positioning style and the caller's options into a row descriptor
that holds one cell descriptor per column. A non-primitive cell value with
nothing to coerce it is the one way the pipeline can fail.

The modules follow the source files:

- `Values` (values.dfy) holds the shared vocabulary. A JavaScript value is
  `Num`, `Str`, `Bool`, `Null`, `Undefined`, `List`, `Object` or `Callback`. A
  row record is a `map<string, Value>`, and a field the record lacks reads as
  `Undefined`. A style is a `map<string, Value>`. An attribute bag is
  `HtmlProps(style, attrs)`, already split the way the components destructure
  it (`{style, ...rest}`): the type of `attrs` excludes a `style` key.
  `className` is an ordinary key of `attrs`.
- `Cells` (cell.dfy) models `src/Cell.tsx`. The cell computes its flex
  factors and text alignment, then the caller's style wins key by key
  (`computed + custom`).
- `Rows` (row.dfy) models `src/Row.tsx`. The row style is three layers:
  defaults, then the windowing style, then the caller's style. The row's
  attributes drop `className`. The cells come from the columns in order, and
  each column is resolved by the custom cell renderer, then the non-primitive
  error, then `primitizeCell`, then the raw value. The `throw` is a
  `Failure(NonPrimitiveCell(rowIndex, colIndex))`. Because `columns.map` runs
  in order, the first offending column is the one reported.
- `Tables` (table.dfy) models the render callback of `src/Table.tsx`. It turns
  `itemSize` into a function of the index and sets the item count to the
  number of rows. For each mounted index it binds `rows[index]` as `data` and
  dispatches to the custom row renderer or to the default row.

Custom cell and row renderers are total functions into a type parameter `E`,
which stands for whatever element the caller builds. `primitizeCell` is a
function from `CellProps` to `Content` (`string | number`). On two paths the
code never calls a callback: `primitizeCell` when a custom cell renderer is
given, and `Row` when a custom row renderer is given. The model states this as
independence: the result is the same whatever that callback or those options
are.

## Model

| member | source | states |
|---|---|---|
| `Values.Field` | src/Row.tsx:67 | definition of `data[col.field]`: the record's value for the field, and `Undefined` for a field the record lacks |
| `Values.AsContent` | src/Row.tsx:101 | definition of the cast of a primitive value to a number or a string: a number stays a number and a string stays a string |
| `Values.CustomStyle` | src/Cell.tsx:15-21 | definition of the `style` half of `{style, ...rest}` (also Row.tsx:45-51): the caller's style, or nothing when the bag or its style is absent |
| `Values.RestAttrs` | src/Cell.tsx:15-21 | definition of the `rest` half of `{style, ...rest}` (also Row.tsx:45-51): the bag's non-style attributes, or none when the bag is absent; its type excludes a `style` key |
| `Cells.ComputedStyle` | src/Cell.tsx:25-30 | the computed layer has exactly the keys `flexGrow`, `flexBasis`, `textAlign` and `flexShrink`; the three flex factors equal the width and `textAlign` is the content's alignment |
| `Rows.CellPropsAt` | src/Row.tsx:73-79 | definition of the cell props object (also Row.tsx:94-100): `dataKey` is the column's field, `cellData` is `data[field]`, and the row index, column index and record are passed as given |
| `Rows.Uncoercible` | src/Row.tsx:82-86 | definition of the throw condition: it holds only when neither a custom cell renderer nor `primitizeCell` is given, and then exactly when the column's value is neither a number nor a string |
| `Cells.Alignment` | src/Cell.tsx:28-29 | the alignment is `center` exactly for numeric content and `left` exactly for string content |
| `Cells.Cell` | src/Cell.tsx:12-37 | the content is displayed unchanged; the style keys are the four computed keys plus the caller's keys; each caller key takes the caller's value; each flex factor the caller leaves alone equals the width; an unset `textAlign` is `center` for numbers and `left` for strings; every non-style attribute, `className` included, passes through, and there are none without cell props |
| `Cells.CellWithoutProps` | src/Cell.tsx:15-33 | without cell props, the style is exactly the three flex factors at the width plus the alignment, and there are no attributes |
| `Cells.DisjointStyleOnlyAdds` | src/Cell.tsx:25-31 | a caller style that sets no computed key loses no computed value and adds exactly its own keys |
| `Cells.RightAlignedNumber` | src/Cell.tsx:25-31 | `textAlign: 'right'` overrides a number's `center`, and all three flex factors stay at the width |
| `Rows.ResolveCell` | src/Row.tsx:66-106 | one column fails exactly when it has neither override and a non-primitive value, and the error names the row and column; a custom renderer's output for the column's cell props is used verbatim; otherwise the entry is the default cell of `primitizeCell`'s result if given, else of the raw value, with the column's own width and the shared cell props |
| `Rows.ResolveCells` | src/Row.tsx:66-107 | mapping the columns succeeds exactly when no column from `from` on is uncoercible; on success there is one entry per column, each equal to that column's resolution; on failure the error is the first uncoercible column's |
| `Rows.RowStyle` | src/Row.tsx:55-63 | for every key, the caller's row style wins, then the windowing style, then the five flex-container defaults; the keys are the union of the three layers |
| `Rows.RowAttrs` | src/Row.tsx:45-64 | `className` never reaches the row; every other non-style attribute of `rowProps` passes through unchanged |
| `Rows.Row` | src/Row.tsx:33-110 | the row fails exactly when some column is uncoercible, which needs both overrides absent; the error carries the row index and the first non-primitive column; on success there is one cell per column, in order, with the layered style and the filtered attributes |
| `Rows.CustomCellRendererCells` | src/Row.tsx:70-81 | with a custom cell renderer the row cannot fail, and entry `i` is the renderer's output for `{dataKey: field, cellData: data[field], rowIndex, colIndex: i, rowData: data}` |
| `Rows.CustomCellRendererIgnoresPrimitize` | src/Row.tsx:70-100 | with a custom cell renderer, replacing `primitizeCell` by anything does not change the row, so it is never consulted |
| `Rows.PrimitizedCells` | src/Row.tsx:86-105 | with `primitizeCell` and no custom cell renderer, the row cannot fail and each cell is the default cell of `primitizeCell`'s result, primitive values included, with its own column's width and the shared cell props |
| `Rows.RawCells` | src/Row.tsx:82-105 | with neither override and only primitive values, each cell is the default cell of the raw field value with its own column's width and the shared cell props |
| `Rows.UncoercibleRow` | src/Row.tsx:82-91 | with neither override, the first non-primitive column makes the row fail with that row index and column index, and no row is produced |
| `Rows.AliceExample` | src/Row.tsx:66-106 | `{id: 1, name: "Alice"}` under column `name` of width 2 renders "Alice", left-aligned, with flex grow 2 |
| `Rows.TagsExample` | src/Row.tsx:82-101 | `{id: 1, tags: ["a","b"]}` under column `tags` fails at column 0 without coercion, and shows "a,b" when `primitizeCell` joins the tags |
| `Tables.Extent` | src/Table.tsx:52-54 | a numeric `itemSize` gives that extent for every index, and a function `itemSize` is used as it is |
| `Tables.Configure` | src/Table.tsx:49-54 | the item count is the number of rows, and the per-index extent follows `itemSize` |
| `Tables.BindRow` | src/Table.tsx:59-63 | the mounted row's props are the list's `index`, `style` and `isScrolling` with `data` bound to `rows[index]` |
| `Tables.RenderItem` | src/Table.tsx:58-76 | a custom row renderer's output for the bound row props is returned as is; otherwise the result is the default row for the bound props with the row options forwarded unchanged, including its error |
| `Tables.CustomRowRendererShortCircuits` | src/Table.tsx:64-65 | with a custom row renderer the callback cannot fail, returns the custom row, and does not depend on the columns or any cell option |
| `Tables.RenderItemFails` | src/Table.tsx:64-75 | the callback fails exactly when there is no custom row renderer, no custom cell renderer, no `primitizeCell` and some non-primitive column value; the error names the mounted index and the first such column |

## Left out

- The auto-sizer (`react-virtualized-auto-sizer`) and its `onResize` forwarding are not modelled. They are an external library that measures the container, and how often `onResize` fires is that library's behaviour.
- The windowing list (`react-window`'s `VariableSizeList`) appears only as the supplier of `(index, style, isScrolling)` with `index < rows.length`, and as the receiver of the item count and the extent function. Which indices it mounts, and its caching of extents, are not modelled.
- How the browser distributes width among flex items (each cell's `w_i / Σw` share) is not modelled. It is done by the layout engine with floating-point rounding, and no code in the repository computes it. The model states only that the flex factors equal the column width.
- React element construction, fragments and reconciliation keys (`itemKey`) are rendering plumbing. Plain descriptor datatypes stand in for them.
- The container `style` and `className` that the table hands to the list are passed through untouched and are not modelled.
- `Column.headerName` is carried in `Column` but never rendered by the core.
- Numbers are `int`. The pipeline does no arithmetic on them and only checks whether a value is a number.
- The order of keys in a spread object is not modelled: styles and attribute bags are maps.
- Table declares `primitizeCell` as a function of the cell value, but Row calls it with the full cell props. The model uses Row's calling convention.
- Object spread also copies a key whose value is `undefined`. The model keeps that: a caller style key mapped to `Undefined` replaces the computed value.

## Notes on the source

- One might expect the windowing list's positioning style on a row never to be dropped. The code does not promise this. `rowProps.style` is spread last, so a caller key such as `top` replaces the list's value. `Rows.RowStyle` states the order as the code has it.
- A column whose field the record lacks reads as `undefined`. That value is not primitive, so without `primitizeCell` it fails the row like any other non-primitive value.
