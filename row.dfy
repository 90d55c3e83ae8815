/** The default row (src/Row.tsx): a horizontal flex container whose cells
    come from the columns in order, each resolved by a fixed precedence:
    custom cell renderer, then the non-primitive error, then `primitizeCell`,
    then the raw field value. */
module Rows {
  import opened Values
  import opened Cells

  /** A column of the schema. `headerName` is carried but never rendered. */
  datatype Column = Column(field: string, headerName: string, width: int)

  /** What a row renderer receives from the windowing list. */
  datatype RowProps = RowProps(index: nat, style: Style, data: Record, isScrolling: Option<bool>)

  /** What a custom cell renderer and `primitizeCell` receive. */
  datatype CellProps = CellProps(dataKey: string, cellData: Value, rowIndex: nat, colIndex: nat, rowData: Record)

  /** The options the table forwards to a row. `E` is whatever the caller's
      custom cell renderer produces. */
  datatype RowOptions<E> = RowOptions(
    columns: seq<Column>,
    primitizeCell: Option<CellProps -> Content>,
    rowProps: Option<HtmlProps>,
    cellProps: Option<HtmlProps>,
    customCellRenderer: Option<CellProps -> E>)

  /** One child of a row: the caller's element, or a default cell. */
  datatype CellNode<E> = Custom(element: E) | Default(cell: CellDiv)

  /** The rendered row `<div>`. */
  datatype RowDiv<E> = RowDiv(style: Style, attrs: Attrs, cells: seq<CellNode<E>>)

  /** The error thrown for a non-primitive value with nothing to coerce it. */
  datatype RenderError = NonPrimitiveCell(rowIndex: nat, colIndex: nat)

  /** The bottom layer of the row style. */
  const RowDefaults: Style := map[
    "display" := Str("flex"),
    "flexDirection" := Str("row"),
    "flexWrap" := Str("nowrap"),
    "justifyContent" := Str("space-around"),
    "alignItems" := Str("stretch")]

  /** The object literal handed to a custom cell renderer and to `primitizeCell`. */
  function CellPropsAt(data: Record, rowIndex: nat, col: Column, colIndex: nat): (p: CellProps)
    ensures p.dataKey == col.field && p.cellData == Field(data, col.field)
    ensures p.rowIndex == rowIndex && p.colIndex == colIndex && p.rowData == data
  {
    CellProps(col.field, Field(data, col.field), rowIndex, colIndex, data)
  }

  /** True when column `colIndex` makes the default path throw: its value is
      not primitive and no coercion is given. */
  predicate Uncoercible<E>(data: Record, opts: RowOptions<E>, colIndex: nat): (b: bool)
    requires colIndex < |opts.columns|
    ensures b ==> opts.customCellRenderer.None? && opts.primitizeCell.None?
    ensures opts.customCellRenderer.None? && opts.primitizeCell.None? ==>
      (b <==> !IsPrimitive(Field(data, opts.columns[colIndex].field)))
  {
    opts.customCellRenderer.None? && opts.primitizeCell.None?
    && !IsPrimitive(Field(data, opts.columns[colIndex].field))
  }

  /** The body of the `columns.map` callback for one column. */
  function ResolveCell<E>(data: Record, rowIndex: nat, opts: RowOptions<E>, colIndex: nat): (r: Result<CellNode<E>, RenderError>)
    requires colIndex < |opts.columns|
    ensures r.Failure? <==> Uncoercible(data, opts, colIndex)
    ensures r.Failure? ==> r.error == NonPrimitiveCell(rowIndex, colIndex)
    ensures opts.customCellRenderer.Some? ==>
      r == Success(Custom(opts.customCellRenderer.value(CellPropsAt(data, rowIndex, opts.columns[colIndex], colIndex))))
    ensures r.Success? && opts.customCellRenderer.None? ==>
      r.value == Default(Cell(
        if opts.primitizeCell.Some?
        then opts.primitizeCell.value(CellPropsAt(data, rowIndex, opts.columns[colIndex], colIndex))
        else AsContent(Field(data, opts.columns[colIndex].field)),
        opts.columns[colIndex].width, opts.cellProps))
  {
    var col := opts.columns[colIndex];
    var cellProps := CellPropsAt(data, rowIndex, col, colIndex);
    match opts.customCellRenderer
    case Some(render) => Success(Custom(render(cellProps)))
    case None =>
      var cellData := Field(data, col.field);
      if !IsPrimitive(cellData) && opts.primitizeCell.None? then
        Failure(NonPrimitiveCell(rowIndex, colIndex))
      else
        var toRender := if opts.primitizeCell.Some? then opts.primitizeCell.value(cellProps) else AsContent(cellData);
        Success(Default(Cell(toRender, col.width, opts.cellProps)))
  }

  /** `columns.map` from column `from` on: the cells in column order, or the
      error of the first column that throws. */
  function ResolveCells<E>(data: Record, rowIndex: nat, opts: RowOptions<E>, from: nat): (r: Result<seq<CellNode<E>>, RenderError>)
    requires from <= |opts.columns|
    decreases |opts.columns| - from
    ensures r.Success? <==> forall i :: from <= i < |opts.columns| ==> !Uncoercible(data, opts, i)
    ensures r.Success? ==> |r.value| == |opts.columns| - from
    ensures r.Success? ==> forall i :: from <= i < |opts.columns| ==>
      ResolveCell(data, rowIndex, opts, i) == Success(r.value[i - from])
    ensures r.Failure? ==>
      && from <= r.error.colIndex < |opts.columns|
      && r.error == NonPrimitiveCell(rowIndex, r.error.colIndex)
      && Uncoercible(data, opts, r.error.colIndex)
      && forall j :: from <= j < r.error.colIndex ==> !Uncoercible(data, opts, j)
  {
    if from == |opts.columns| then Success([])
    else
      match ResolveCell(data, rowIndex, opts, from)
      case Failure(e) => Failure(e)
      case Success(cell) =>
        match ResolveCells(data, rowIndex, opts, from + 1)
        case Failure(e) => Failure(e)
        case Success(rest) => Success([cell] + rest)
  }

  /** The row style: defaults, then the windowing style, then the caller's. */
  function RowStyle(windowStyle: Style, rowProps: Option<HtmlProps>): (s: Style)
    ensures s.Keys == RowDefaults.Keys + windowStyle.Keys + CustomStyle(rowProps).Keys
    ensures forall k :: k in CustomStyle(rowProps) ==> s[k] == CustomStyle(rowProps)[k]
    ensures forall k :: k !in CustomStyle(rowProps) && k in windowStyle ==> s[k] == windowStyle[k]
    ensures forall k :: k !in CustomStyle(rowProps) && k !in windowStyle && k in RowDefaults ==>
      s[k] == RowDefaults[k]
  {
    RowDefaults + windowStyle + CustomStyle(rowProps)
  }

  /** The row's own attributes: the caller's `rowProps` without `style` and
      without `className`. */
  function RowAttrs(rowProps: Option<HtmlProps>): (a: Attrs)
    ensures "className" !in a
    ensures a.Keys == RestAttrs(rowProps).Keys - {"className"}
    ensures forall k :: k in RestAttrs(rowProps) && k != "className" ==> a[k] == RestAttrs(rowProps)[k]
  {
    RestAttrs(rowProps) - {"className"}
  }

  /** Renders a row, or fails with the error the source throws. */
  function Row<E>(props: RowProps, opts: RowOptions<E>): (r: Result<RowDiv<E>, RenderError>)
    // fails exactly when some column is uncoercible, and only without either override
    ensures r.Failure? <==> exists i :: 0 <= i < |opts.columns| && Uncoercible(props.data, opts, i)
    ensures r.Failure? ==> opts.customCellRenderer.None? && opts.primitizeCell.None?
    ensures r.Failure? ==>
      && r.error.rowIndex == props.index
      && r.error.colIndex < |opts.columns|
      && !IsPrimitive(Field(props.data, opts.columns[r.error.colIndex].field))
      && forall j :: 0 <= j < r.error.colIndex ==> IsPrimitive(Field(props.data, opts.columns[j].field))
    // one cell per column, in column order
    ensures r.Success? ==> |r.value.cells| == |opts.columns|
    ensures r.Success? ==> forall i :: 0 <= i < |opts.columns| ==>
      ResolveCell(props.data, props.index, opts, i) == Success(r.value.cells[i])
    ensures r.Success? ==> r.value.style == RowStyle(props.style, opts.rowProps)
    ensures r.Success? ==> r.value.attrs == RowAttrs(opts.rowProps)
  {
    match ResolveCells(props.data, props.index, opts, 0)
    case Failure(e) =>
      assert Uncoercible(props.data, opts, e.colIndex);
      assert forall j :: 0 <= j < e.colIndex ==>
        !Uncoercible(props.data, opts, j) && IsPrimitive(Field(props.data, opts.columns[j].field));
      Failure(e)
    case Success(cells) => Success(RowDiv(RowStyle(props.style, opts.rowProps), RowAttrs(opts.rowProps), cells))
  }

  /** With a custom cell renderer every entry is its output for the column's
      cell props, and the row cannot fail. */
  lemma CustomCellRendererCells<E>(props: RowProps, opts: RowOptions<E>, render: CellProps -> E)
    requires opts.customCellRenderer == Some(render)
    ensures Row(props, opts).Success?
    ensures var cells := Row(props, opts).value.cells;
      && |cells| == |opts.columns|
      && forall i :: 0 <= i < |opts.columns| ==>
        cells[i] == Custom(render(CellProps(opts.columns[i].field, Field(props.data, opts.columns[i].field),
                                            props.index, i, props.data)))
  {
  }

  /** With a custom cell renderer, `primitizeCell` is never consulted: any
      other coercion function gives the same row. */
  lemma CustomCellRendererIgnoresPrimitize<E>(props: RowProps, opts: RowOptions<E>, other: Option<CellProps -> Content>)
    requires opts.customCellRenderer.Some?
    ensures Row(props, opts) == Row(props, opts.(primitizeCell := other))
  {
    var opts' := opts.(primitizeCell := other);
    CustomCellRendererCells(props, opts, opts.customCellRenderer.value);
    CustomCellRendererCells(props, opts', opts.customCellRenderer.value);
    var a, b := Row(props, opts).value, Row(props, opts').value;
    assert a.cells == b.cells;
  }

  /** With `primitizeCell` and no custom cell renderer every cell displays the
      coercion's result, primitive values included, and the row cannot fail. */
  lemma PrimitizedCells<E>(props: RowProps, opts: RowOptions<E>, primitize: CellProps -> Content)
    requires opts.customCellRenderer.None? && opts.primitizeCell == Some(primitize)
    ensures Row(props, opts).Success?
    ensures var cells := Row(props, opts).value.cells;
      && |cells| == |opts.columns|
      && forall i :: 0 <= i < |opts.columns| ==>
        cells[i] == Default(Cell(primitize(CellPropsAt(props.data, props.index, opts.columns[i], i)),
                                 opts.columns[i].width, opts.cellProps))
  {
  }

  /** With neither override and only primitive values, every cell displays
      the raw field value with its own column's width and the shared cell props. */
  lemma RawCells<E>(props: RowProps, opts: RowOptions<E>)
    requires opts.customCellRenderer.None? && opts.primitizeCell.None?
    requires forall i :: 0 <= i < |opts.columns| ==> IsPrimitive(Field(props.data, opts.columns[i].field))
    ensures Row(props, opts).Success?
    ensures var cells := Row(props, opts).value.cells;
      && |cells| == |opts.columns|
      && forall i :: 0 <= i < |opts.columns| ==>
        cells[i] == Default(Cell(AsContent(Field(props.data, opts.columns[i].field)),
                                 opts.columns[i].width, opts.cellProps))
  {
  }

  /** With neither override, a non-primitive value fails the whole row with the
      row index and the first offending column index; no row is produced. */
  lemma UncoercibleRow<E>(props: RowProps, opts: RowOptions<E>, c: nat)
    requires opts.customCellRenderer.None? && opts.primitizeCell.None?
    requires c < |opts.columns| && !IsPrimitive(Field(props.data, opts.columns[c].field))
    requires forall j :: 0 <= j < c ==> IsPrimitive(Field(props.data, opts.columns[j].field))
    ensures Row(props, opts) == Failure(NonPrimitiveCell(props.index, c))
  {
    assert Uncoercible(props.data, opts, c);
  }

  /** The record `{ id: 1, name: "Alice" }` under the column `name` of width 2
      renders "Alice", left-aligned, with flex factor 2. */
  lemma AliceExample(style: Style)
    ensures var opts := RowOptions([Column("name", "Name", 2)], None, None, None, None);
      var r := Row<int>(RowProps(0, style, map["id" := Num(1), "name" := Str("Alice")], None), opts);
      && r.Success? && |r.value.cells| == 1
      && r.value.cells[0] == Default(Cell(Text("Alice"), 2, None))
      && r.value.cells[0].cell.content == Text("Alice")
      && r.value.cells[0].cell.style["textAlign"] == Str("left")
      && r.value.cells[0].cell.style["flexGrow"] == Num(2)
  {
  }

  /** The record `{ id: 1, tags: ["a", "b"] }` under the column `tags` fails
      with the row's index and column 0 when nothing coerces the list, and
      renders the coercion's text when `primitizeCell` joins the tags. */
  lemma TagsExample(index: nat, style: Style)
    ensures var data := map["id" := Num(1), "tags" := List([Str("a"), Str("b")])];
      var cols := [Column("tags", "Tags", 1)];
      && Row<int>(RowProps(index, style, data, None), RowOptions(cols, None, None, None, None))
         == Failure(NonPrimitiveCell(index, 0))
      && Row<int>(RowProps(index, style, data, None), RowOptions(cols, Some(JoinTags), None, None, None))
         .value.cells[0].cell.content == Text("a,b")
  {
  }

  /** A coercion that joins the `tags` list of a record with commas. */
  function JoinTags(p: CellProps): Content {
    var tags := Field(p.rowData, "tags");
    if tags.List? then Text(JoinStrings(tags.items)) else Text("")
  }

  /** Joins the string items of a list with commas. Only string lists are
      meant: an item that is not a string contributes the empty string here,
      whereas `Array.prototype.join` would stringify it. */
  function JoinStrings(items: seq<Value>): string {
    if |items| == 0 then ""
    else
      var head := if items[0].Str? then items[0].s else "";
      if |items| == 1 then head else head + "," + JoinStrings(items[1..])
  }
}
