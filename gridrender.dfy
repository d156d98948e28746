/** Per-type cell rendering (`Grid.analize`) and the assembly of one grid
    row (the inner loop of `Grid.get_data`) in djgrid/grid.py. */
module GridRender {
  import opened Wrappers
  import opened FieldKinds
  import opened Values

  /** Grid.UNDEFINED. */
  const Undefined: string := "undefined"

  /** The strftime patterns a grid is configured with. */
  datatype Formats = Formats(datetimeFormat: string, dateFormat: string, timeFormat: string)

  /** The defaults of `Grid.__init__` (grid.py:61-63). */
  const GridDefaultFormats := Formats("%d.%m.%Y %H:%M:%s", "%d.%m.%Y", "%H:%M")

  /** One cell of a row as the JSON encoder receives it. */
  datatype Cell =
    | Plain(v: Value)                     // the value as is
    | Formatted(v: Value, pattern: string) // datetime.strftime(v, pattern); the text is not modelled
    | ActionLinks(pk: Value)              // the edit/delete link HTML for a primary key

  /** A value `datetime.strftime` formats: a date or a datetime from the
      year 1900 on. Python 2.7's `strftime` raises ValueError for an earlier
      year. */
  predicate Strftimeable(v: Value) {
    (v.DateTime? || v.Date?) && v.year >= 1900
  }

  /** `datetime.strftime(value, pattern)`: the method is the one datetime
      inherits from date, so it raises TypeError for anything but a date or
      datetime, time values and None included, and ValueError for a year
      before 1900; a raise is caught and renders Grid.UNDEFINED. */
  function FormatDate(v: Value, pattern: string): Cell {
    if Strftimeable(v) then Formatted(v, pattern) else Plain(Text(Undefined))
  }

  /** `Grid.analize(value, field_type, id)`. */
  function Analize(v: Value, kind: FieldKind, formats: Formats): Cell {
    match kind
    case DateTimeField => FormatDate(v, formats.datetimeFormat)
    case DateField => FormatDate(v, formats.dateFormat)
    case TimeField => FormatDate(v, formats.timeFormat)
    case BooleanField => Plain(Int(if v == Bool(true) || v == Int(1) then 1 else 0))
    // the format string at grid.py:276 has three %s for two arguments, so
    // the link always raises and the display string is used
    case ForeignKey => Plain(Text(Display(v)))
    case OneToOneField => Plain(Text(Display(v)))
    case FileField => FileName(v)
    case ImageField => FileName(v)
    case _ => Plain(v)
  }

  /** `value.name`, or Grid.UNDEFINED when the value has no such attribute. */
  function FileName(v: Value): Cell {
    match v
    case File(n) => Plain(if n.Some? then Text(n.value) else Null)
    case _ => Plain(Text(Undefined))
  }

  /** The field classes `analize` treats specially. */
  predicate Handled(kind: FieldKind) {
    kind in DateFields || kind == BooleanField || kind in RelatedFields || kind in FileFields
  }

  /** A cell the JSON encoder can write as a scalar: null, a boolean, a
      number, a text or a formatted date. */
  predicate JsonScalar(c: Cell) {
    match c
    case Plain(v) => v.Null? || v.Bool? || v.Int? || v.Text?
    case Formatted(v, _) => v.DateTime? || v.Date?
    case ActionLinks(_) => true
  }

  /** Booleans render 1 exactly when the value equals True, and 0 otherwise. */
  lemma BooleanCells(v: Value, formats: Formats)
    ensures Analize(v, BooleanField, formats) == Plain(Int(1)) <==> IsTrue(v)
    ensures Analize(v, BooleanField, formats) == Plain(Int(if IsTrue(v) then 1 else 0))
  {
  }

  /** A relation never renders a link: always the related object's display text. */
  lemma RelatedCellsAreText(v: Value, kind: FieldKind, formats: Formats)
    requires kind in RelatedFields
    ensures Analize(v, kind, formats) == Plain(Text(Display(v)))
  {
  }

  /** A file cell is the stored name (None when the file has none), and
      'undefined' when the value is not a file. */
  lemma FileCells(v: Value, kind: FieldKind, formats: Formats)
    requires kind in FileFields
    ensures v.File? && v.name.Some? ==> Analize(v, kind, formats) == Plain(Text(v.name.value))
    ensures v.File? && v.name.None? ==> Analize(v, kind, formats) == Plain(Null)
    ensures !v.File? ==> Analize(v, kind, formats) == Plain(Text(Undefined))
  {
  }

  /** A date-class cell is the value formatted with the pattern of its own
      class, or 'undefined'; None, time values and dates before 1900 always
      give 'undefined'. */
  lemma DateCells(v: Value, kind: FieldKind, formats: Formats)
    requires kind in DateFields
    ensures var pattern := if kind == DateTimeField then formats.datetimeFormat
                           else if kind == DateField then formats.dateFormat
                           else formats.timeFormat;
      Analize(v, kind, formats) == (if Strftimeable(v) then Formatted(v, pattern) else Plain(Text(Undefined)))
    ensures (v.DateTime? || v.Date?) && v.year < 1900 ==> Analize(v, kind, formats) == Plain(Text(Undefined))
  {
  }

  /** The classes `analize` does not list come back unchanged. */
  lemma UnlistedPassThrough(v: Value, kind: FieldKind, formats: Formats)
    requires !Handled(kind)
    ensures Analize(v, kind, formats) == Plain(v)
  {
  }

  /** Every class `analize` handles produces a JSON scalar, whatever the
      value; only unlisted classes can hand the encoder a related object, a
      file or a time. */
  lemma HandledCellsAreScalars(v: Value, kind: FieldKind, formats: Formats)
    requires Handled(kind)
    ensures JsonScalar(Analize(v, kind, formats))
  {
  }

  /** The cells of one record as the inner loop of `Grid.get_data` builds
      them: the primary key when the grid is inline, one rendered cell per
      field in order, and the action links unless the grid is read-only. */
  predicate RowOf(cells: seq<Cell>, item: Record, fields: seq<string>, model: ModelInfo,
                  inline: bool, readonly: bool, formats: Formats)
    requires AllDescribed(fields, model)
  {
    var offset := if inline then 1 else 0;
    && |cells| == offset + |fields| + (if readonly then 0 else 1)
    && (inline ==> cells[0] == Plain(item.pk))
    && (forall i :: 0 <= i < |fields| ==>
          cells[offset + i] == Analize(Attr(item, fields[i]), model.fields[fields[i]].kind, formats))
    && (!readonly ==> cells[|cells| - 1] == ActionLinks(item.pk))
  }

  /** The inner loop of `Grid.get_data` (grid.py:347-364) for one record. */
  method RenderRow(item: Record, fields: seq<string>, model: ModelInfo,
                   inline: bool, readonly: bool, formats: Formats) returns (cells: seq<Cell>)
    requires AllDescribed(fields, model)
    ensures RowOf(cells, item, fields, model, inline, readonly, formats)
  {
    var offset := if inline then 1 else 0;
    cells := [];
    if inline {
      cells := cells + [Plain(item.pk)];
    }
    var i := 0;
    while i < |fields|
      invariant 0 <= i <= |fields|
      invariant |cells| == offset + i
      invariant inline ==> cells[0] == Plain(item.pk)
      invariant forall j :: 0 <= j < i ==>
        cells[offset + j] == Analize(Attr(item, fields[j]), model.fields[fields[j]].kind, formats)
    {
      var kind := model.fields[fields[i]].kind;
      var value := Attr(item, fields[i]);
      cells := cells + [Analize(value, kind, formats)];
      i := i + 1;
    }
    if !readonly {
      cells := cells + [ActionLinks(item.pk)];
    }
  }
}
