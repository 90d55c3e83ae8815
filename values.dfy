/** Shared vocabulary of the table pipeline: JavaScript values as they reach
    a row, style maps, attribute bags split into `style` and the rest, and
    the Option/Result wrappers used for optional props and the one error. */
module Values {

  datatype Option<+T> = None | Some(value: T)

  datatype Result<+R, +E> = Success(value: R) | Failure(error: E)

  /** A JavaScript value as far as the pipeline can observe it.
      Functions (event handlers in an attribute bag) are known only by identity. */
  datatype Value =
    | Num(n: int)
    | Str(s: string)
    | Bool(b: bool)
    | Null
    | Undefined
    | List(items: seq<Value>)
    | Object(fields: map<string, Value>)
    | Callback(id: nat)

  /** The `typeof v === 'number' || typeof v === 'string'` test. */
  predicate IsPrimitive(v: Value) {
    v.Num? || v.Str?
  }

  /** What a cell may display: `string | number`. */
  datatype Content = Number(n: int) | Text(s: string)

  function AsContent(v: Value): (c: Content)
    requires IsPrimitive(v)
    ensures v.Num? ==> c == Number(v.n)
    ensures v.Str? ==> c == Text(v.s)
  {
    if v.Num? then Number(v.n) else Text(v.s)
  }

  /** A row record: the caller's object, read only through `record[field]`. */
  type Record = map<string, Value>

  /** `record[field]`: a field the record lacks reads as `undefined`. */
  function Field(record: Record, field: string): (v: Value)
    ensures field in record ==> v == record[field]
    ensures field !in record ==> v == Undefined
  {
    if field in record then record[field] else Undefined
  }

  /** A CSS style object, property name to value. */
  type Style = map<string, Value>

  /** The attributes of a div other than `style`, as `{style, ...rest}`
      leaves them in `rest`: a `style` key cannot occur. */
  type Attrs = m: map<string, Value> | "style" !in m witness map[]

  /** An HTML attribute bag of a div, already split the way the components
      destructure it: the `style` attribute, and every other attribute
      (`className` included) in `attrs`. */
  datatype HtmlProps = HtmlProps(style: Option<Style>, attrs: Attrs)

  /** The caller's style out of an optional bag; absent reads as empty, which
      is what spreading `undefined` contributes. */
  function CustomStyle(props: Option<HtmlProps>): (s: Style)
    ensures props.None? || props.value.style.None? ==> s == map[]
    ensures props.Some? && props.value.style.Some? ==> s == props.value.style.value
  {
    match props
    case None => map[]
    case Some(p) => if p.style.Some? then p.style.value else map[]
  }

  /** Every non-style attribute of an optional bag (`{style, ...rest}`). */
  function RestAttrs(props: Option<HtmlProps>): (a: Attrs)
    ensures props.None? ==> a == map[]
    ensures props.Some? ==> a == props.value.attrs
  {
    if props.Some? then props.value.attrs else map[]
  }
}
