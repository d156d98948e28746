/** Django field classes as a closed set of kinds, the class-name tables of
    djgrid/grid.py, and the part of a model's schema the core introspects. */
module FieldKinds {

  /** One constructor per Django field class the core names;
      OtherField stands for every class none of its tables mention. */
  datatype FieldKind =
    | IntegerField | SmallIntegerField | PositiveIntegerField | PositiveSmallIntegerField
    | BigIntegerField | BooleanField | NullBooleanField
    | FloatField | DecimalField
    | DateTimeField | DateField | TimeField
    | CharField | TextField | GenericIPAddressField | EmailField | IPAddressField
    | SlugField | URLField | XMLField
    | ForeignKey | OneToOneField
    | FileField | ImageField
    | AutoField | OtherField

  /** Grid.INTEGER_FIELDS: search tokens are coerced with int(). */
  const IntegerFields: seq<FieldKind> :=
    [IntegerField, SmallIntegerField, PositiveIntegerField, PositiveSmallIntegerField,
     BigIntegerField, BooleanField]

  /** Grid.FLOAT_FIELDS: search tokens are coerced with float(). */
  const FloatFields: seq<FieldKind> := [FloatField, DecimalField]

  /** Grid.TOTAL_FIELDS: the columns that get a sum in the grid's userdata. */
  const TotalFields: seq<FieldKind> := IntegerFields + FloatFields

  /** Grid.DATE_FIELDS: searched by a whole-day range. */
  const DateFields: seq<FieldKind> := [DateTimeField, DateField, TimeField]

  /** Grid.INLINE_EDITABLE_FIELDS, as listed (TextField twice, PositiveIntegerField absent). */
  const InlineEditableFields: seq<FieldKind> :=
    [IntegerField, SmallIntegerField, PositiveSmallIntegerField, CharField, TextField,
     DateTimeField, DateField, TimeField, GenericIPAddressField, BigIntegerField,
     BooleanField, EmailField, IPAddressField, SlugField, TextField, URLField, XMLField]

  /** The two relation classes the grid searches through configured sub-fields. */
  const RelatedFields: seq<FieldKind> := [ForeignKey, OneToOneField]

  /** The two file classes whose cells show the stored file name. */
  const FileFields: seq<FieldKind> := [FileField, ImageField]

  /** What `model._meta.get_field(name)` tells the core about one field. */
  datatype FieldInfo = FieldInfo(kind: FieldKind, primaryKey: bool, editable: bool, verboseName: string)

  /** A model's schema: its primary-key name, its fields by name and the
      order of `model._meta.fields`. */
  datatype ModelInfo = ModelInfo(pkName: string, fields: map<string, FieldInfo>, fieldOrder: seq<string>)

  /** The test shared by grid.py:134 (together with the grid's `inline` flag)
      and resources.py:257: a field cell that may be edited in place. */
  predicate InlineEditable(info: FieldInfo) {
    info.kind in InlineEditableFields && !info.primaryKey && info.editable
  }

  predicate AllDescribed(names: seq<string>, model: ModelInfo) {
    forall i :: 0 <= i < |names| ==> names[i] in model.fields
  }

  /** The first name, in order, that `get_field` would fail on. */
  function FirstMissing(names: seq<string>, model: ModelInfo): (r: string)
    requires !AllDescribed(names, model)
    ensures r in names && r !in model.fields
    ensures forall i :: 0 <= i < |names| && names[i] !in model.fields && AllDescribed(names[..i], model) ==> r == names[i]
  {
    if names[0] !in model.fields then names[0]
    else
      var r := FirstMissing(names[1..], model);
      forall i | 1 <= i < |names| && names[i] !in model.fields && AllDescribed(names[..i], model)
        ensures r == names[i]
      {
        assert names[1..][i - 1] == names[i];
        assert names[1..][..i - 1] == names[1..i];
      }
      r
  }
}
