/** Values that travel through the two form handlers: optional form fields,
    error results, and the dynamically typed entries of the dictionaries that
    the handlers build before inserting a database row or rendering a PDF. */
module Values {
  import opened Calendar

  /** A Python value that may be `None`. */
  datatype Option<+T> = None | Some(value: T)

  /** An operation that either produces a value or raises. */
  datatype Result<+T, +E> = Ok(value: T) | Err(error: E)

  /** One entry of the ordered `checkboxes` dictionary: a column and whether
      its box was ticked. */
  datatype CheckItem<K> = CheckItem(key: K, checked: bool)

  /** A value stored under a key of a form dictionary or of a database row.
      `Checks` is the nested, ordered checkbox dictionary. The keys `K` are
      the names a handler writes as string literals; each handler has its own
      enumeration of them. */
  datatype Value<K> =
    | Null
    | Text(text: string)
    | Flag(flag: bool)
    | DateValue(date: Date)
    | TimeValue(time: Time)
    | Checks(items: seq<CheckItem<K>>)

  /** Python truthiness of an optional string: neither `None` nor empty. */
  predicate Truthy(o: Option<string>) {
    o.Some? && o.value != ""
  }

  /** An optional form string as a dictionary value (`None` stays `None`). */
  function OptText<K>(o: Option<string>): Value<K>
  {
    match o
    case None => Null
    case Some(s) => Text(s)
  }

  /** An optional parsed date as a dictionary value. */
  function OptDate<K>(o: Option<Date>): Value<K>
  {
    match o
    case None => Null
    case Some(d) => DateValue(d)
  }

  /** An optional parsed time as a dictionary value. */
  function OptTime<K>(o: Option<Time>): Value<K>
  {
    match o
    case None => Null
    case Some(t) => TimeValue(t)
  }
}
