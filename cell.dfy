/** The default cell (src/Cell.tsx): a flex item whose grow, basis and
    shrink factors are the column width, aligned by the kind of its content,
    with the caller's cell attributes merged on top. */
module Cells {
  import opened Values

  /** The rendered `<div>` of a default cell. */
  datatype CellDiv = CellDiv(style: Style, attrs: Attrs, content: Content)

  /** The style properties the cell computes itself. */
  const ComputedKeys: set<string> := {"flexGrow", "flexBasis", "textAlign", "flexShrink"}

  function Alignment(content: Content): (a: string)
    ensures content.Number? <==> a == "center"
    ensures content.Text? <==> a == "left"
  {
    if content.Number? then "center" else "left"
  }

  /** The computed layer of the cell style, before the caller's style. */
  function ComputedStyle(content: Content, width: int): (s: Style)
    ensures s.Keys == ComputedKeys
    ensures s["flexGrow"] == s["flexBasis"] == s["flexShrink"] == Num(width)
    ensures s["textAlign"] == Str(Alignment(content))
  {
    map["flexGrow" := Num(width), "flexBasis" := Num(width),
        "textAlign" := Str(Alignment(content)), "flexShrink" := Num(width)]
  }

  /** Renders one default cell. The caller's style wins key by key over the
      computed layer, and the caller's other attributes pass through. */
  function Cell(content: Content, width: int, cellProps: Option<HtmlProps>): (c: CellDiv)
    // the content is displayed as given
    ensures c.content == content
    // no computed key is lost, and nothing but the caller's keys is added
    ensures c.style.Keys == ComputedKeys + CustomStyle(cellProps).Keys
    // every key the caller styles takes the caller's value
    ensures forall k :: k in CustomStyle(cellProps) ==> c.style[k] == CustomStyle(cellProps)[k]
    // every flex factor the caller leaves alone is the width
    ensures "flexGrow" !in CustomStyle(cellProps) ==> c.style["flexGrow"] == Num(width)
    ensures "flexBasis" !in CustomStyle(cellProps) ==> c.style["flexBasis"] == Num(width)
    ensures "flexShrink" !in CustomStyle(cellProps) ==> c.style["flexShrink"] == Num(width)
    // numbers are centred and strings left-aligned unless the caller says otherwise
    ensures "textAlign" !in CustomStyle(cellProps) ==>
      c.style["textAlign"] == Str(if content.Number? then "center" else "left")
    // every non-style attribute, className included, passes through unchanged
    ensures cellProps.Some? ==> c.attrs == cellProps.value.attrs
    ensures cellProps.None? ==> c.attrs == map[]
  {
    CellDiv(ComputedStyle(content, width) + CustomStyle(cellProps), RestAttrs(cellProps), content)
  }

  /** Without cell props the style is exactly the four computed properties. */
  lemma CellWithoutProps(content: Content, width: int)
    ensures Cell(content, width, None).style ==
      map["flexGrow" := Num(width), "flexBasis" := Num(width), "flexShrink" := Num(width),
          "textAlign" := Str(if content.Number? then "center" else "left")]
    ensures Cell(content, width, None).attrs == map[]
  {
  }

  /** A caller style that sets none of the computed keys only adds to the
      computed style: the two layers never collide. */
  lemma DisjointStyleOnlyAdds(content: Content, width: int, cellProps: Option<HtmlProps>)
    requires CustomStyle(cellProps).Keys !! ComputedKeys
    ensures |Cell(content, width, cellProps).style| == 4 + |CustomStyle(cellProps)|
    ensures forall k :: k in ComputedKeys ==>
      Cell(content, width, cellProps).style[k] == ComputedStyle(content, width)[k]
  {
  }

  /** A caller style that sets `textAlign: 'right'` overrides the alignment of
      a numeric cell and leaves every flex factor at the width. */
  lemma RightAlignedNumber(n: int, width: int)
    ensures var c := Cell(Number(n), width, Some(HtmlProps(Some(map["textAlign" := Str("right")]), map[])));
      && c.style["textAlign"] == Str("right")
      && c.style["flexGrow"] == Num(width)
      && c.style["flexBasis"] == Num(width)
      && c.style["flexShrink"] == Num(width)
  {
  }
}
