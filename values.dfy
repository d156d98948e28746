/** Field values as the grid reads them from records, and the Unicode text
    Django's `smart_unicode` gives for each. */
module Values {
  import opened Wrappers
  import PyText

  /** A Python value held by a model attribute. Date, time and number payloads
      are their `str()` text; parsing and formatting them is not modelled,
      except that a date or datetime keeps its year, on which `strftime`
      depends. */
  datatype Value =
    | Null                          // None
    | Bool(b: bool)
    | Int(i: int)
    | Real(text: string)            // a float or Decimal
    | Text(s: string)
    | DateTime(year: int, stamp: string)  // datetime.datetime
    | Date(year: int, day: string)        // datetime.date
    | Time(clock: string)           // datetime.time
    | Object(display: string)       // a related model instance and its unicode()
    | File(name: Option<string>)    // a FieldFile and its .name

  /** One database row: its primary key and its attributes by field name. */
  datatype Record = Record(pk: Value, attrs: map<string, Value>)

  /** `getattr(item, field)`, with a failing lookup read as None (grid.py:356-359). */
  function Attr(item: Record, field: string): Value {
    if field in item.attrs then item.attrs[field] else Null
  }

  /** `smart_unicode(value)`. */
  function Display(v: Value): string {
    match v
    case Null => "None"
    case Bool(b) => if b then "True" else "False"
    case Int(i) => PyText.ShowInt(i)
    case Real(t) => t
    case Text(s) => s
    case DateTime(_, t) => t
    case Date(_, t) => t
    case Time(t) => t
    case Object(d) => d
    case File(n) => if n.Some? then n.value else ""
  }

  /** Python's `value == True`: True itself and the integer 1. */
  predicate IsTrue(v: Value) {
    v == Bool(true) || v == Int(1)
  }
}
