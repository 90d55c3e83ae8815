/** The table (src/Table.tsx): configures the windowing list with an item
    count and a per-index extent, and for every index the list mounts binds
    the record at that index and dispatches to the caller's row renderer or
    to the default row. */
module Tables {
  import opened Values
  import opened Rows

  /** `itemSize`: a fixed extent or one computed per index. */
  datatype ItemSize = Fixed(size: int) | PerIndex(sizeOf: int -> int)

  /** The table's props, less the container and auto-sizer plumbing. `E` is
      whatever the caller's renderers produce. */
  datatype TableProps<E> = TableProps(
    rows: seq<Record>,
    itemSize: ItemSize,
    customRowRenderer: Option<RowProps -> E>,
    options: RowOptions<E>)

  /** What the windowing list is configured with. */
  datatype ListConfig = ListConfig(itemCount: nat, itemSize: int -> int)

  /** What the windowing list hands the render callback for a mounted index. */
  datatype ListChild = ListChild(index: nat, style: Style, isScrolling: Option<bool>)

  /** What the render callback returns for one mounted index. */
  datatype RenderedRow<E> = CustomRow(element: E) | DefaultRow(row: RowDiv<E>)

  /** `itemSize` turned into a function of the index. */
  function Extent(itemSize: ItemSize): (f: int -> int)
    ensures itemSize.Fixed? ==> forall i :: f(i) == itemSize.size
    ensures itemSize.PerIndex? ==> forall i :: f(i) == itemSize.sizeOf(i)
  {
    match itemSize
    case Fixed(n) => _ => n
    case PerIndex(sizeOf) => sizeOf
  }

  /** The configuration handed to the windowing list. */
  function Configure<E>(t: TableProps<E>): (c: ListConfig)
    ensures c.itemCount == |t.rows|
    ensures t.itemSize.Fixed? ==> forall i :: c.itemSize(i) == t.itemSize.size
    ensures t.itemSize.PerIndex? ==> forall i :: c.itemSize(i) == t.itemSize.sizeOf(i)
  {
    ListConfig(|t.rows|, Extent(t.itemSize))
  }

  /** The props of a mounted row: the list's props with `data` bound to the record. */
  function BindRow(rows: seq<Record>, child: ListChild): (p: RowProps)
    requires child.index < |rows|
    ensures p.data == rows[child.index]
    ensures p.index == child.index && p.style == child.style && p.isScrolling == child.isScrolling
  {
    RowProps(child.index, child.style, rows[child.index], child.isScrolling)
  }

  /** The render callback for one mounted index. A failure is the default
      row's error, which propagates out of the render. */
  function RenderItem<E>(t: TableProps<E>, child: ListChild): (r: Result<RenderedRow<E>, RenderError>)
    requires child.index < |t.rows|
    // a custom row renderer gets the bound row props and its output is returned as is
    ensures t.customRowRenderer.Some? ==>
      r == Success(CustomRow(t.customRowRenderer.value(
        RowProps(child.index, child.style, t.rows[child.index], child.isScrolling))))
    // otherwise the default row is rendered with the options forwarded unchanged
    ensures t.customRowRenderer.None? ==>
      var row := Row(RowProps(child.index, child.style, t.rows[child.index], child.isScrolling), t.options);
      && (r.Success? <==> row.Success?)
      && (r.Success? ==> r.value == DefaultRow(row.value))
      && (r.Failure? ==> r.error == row.error)
  {
    var props := BindRow(t.rows, child);
    match t.customRowRenderer
    case Some(render) => Success(CustomRow(render(props)))
    case None =>
      match Row(props, t.options)
      case Success(row) => Success(DefaultRow(row))
      case Failure(e) => Failure(e)
  }

  /** A custom row renderer short-circuits everything: the row options play no
      part, so neither the columns nor any cell override are consulted, and
      the callback cannot fail. */
  lemma CustomRowRendererShortCircuits<E>(t: TableProps<E>, child: ListChild, other: RowOptions<E>)
    requires child.index < |t.rows| && t.customRowRenderer.Some?
    ensures RenderItem(t, child).Success? && RenderItem(t, child).value.CustomRow?
    ensures RenderItem(t, child) == RenderItem(t.(options := other), child)
  {
  }

  /** Without a custom row renderer the callback fails exactly when the row
      holds a non-primitive value that nothing coerces, and the error names the
      mounted index and the first such column. */
  lemma RenderItemFails<E>(t: TableProps<E>, child: ListChild)
    requires child.index < |t.rows|
    ensures RenderItem(t, child).Failure? <==>
      && t.customRowRenderer.None?
      && t.options.customCellRenderer.None?
      && t.options.primitizeCell.None?
      && exists c :: 0 <= c < |t.options.columns| && !IsPrimitive(Field(t.rows[child.index], t.options.columns[c].field))
    ensures RenderItem(t, child).Failure? ==>
      var e := RenderItem(t, child).error;
      && e.rowIndex == child.index
      && e.colIndex < |t.options.columns|
      && !IsPrimitive(Field(t.rows[child.index], t.options.columns[e.colIndex].field))
      && forall j :: 0 <= j < e.colIndex ==> IsPrimitive(Field(t.rows[child.index], t.options.columns[j].field))
  {
    var props := BindRow(t.rows, child);
    if t.customRowRenderer.None? && t.options.customCellRenderer.None? && t.options.primitizeCell.None? {
      if exists c :: 0 <= c < |t.options.columns| && !IsPrimitive(Field(t.rows[child.index], t.options.columns[c].field)) {
        var c :| 0 <= c < |t.options.columns| && !IsPrimitive(Field(t.rows[child.index], t.options.columns[c].field));
        assert Uncoercible(props.data, t.options, c);
      }
    }
  }
}
