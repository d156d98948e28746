/** The grid resource of djgrid/resources.py: its options, the field lists
    it derives from a model's description, and the views that serve the
    grid page, its data, and inline edits. */
module Resources {
  import opened Wrappers
  import opened PyErrors
  import opened FieldKinds
  import opened Config
  import opened Web
  import PyText
  import GridRender
  import GridColumns
  import DjGrid
  import Aed

  // ---------------------------------------------------------------------
  // Options

  /** A value of an option attribute, or of any other `Meta` attribute. */
  datatype OptionValue =
    | OBool(b: bool)
    | OInt(i: int)
    | OText(s: string)
    | ORegister(entries: seq<seq<string>>)
    | ODescription(d: Description)
    | OOther

  /** The class attributes of `GridResourceOptions`. */
  const Defaults: map<string, OptionValue> := map[
    "register" := ORegister([]),
    "description" := ODescription(map[]),
    "readonly" := OBool(false),
    "inline" := OBool(true),
    "datetime_format" := OText("%d.%m.%Y %H:%M"),
    "date_format" := OText("%d.%m.%Y"),
    "time_format" := OText("%H:%M"),
    "grid_rownum" := OInt(20),
    "datepicker_format" := OText("dd.mm.yy"),
    "timepicker_format" := OText("hh:mm"),
    "dialog_width" := OText("70%"),
    "dialog_max_height" := OInt(500),
    "wysiwyg_height" := OInt(400),
    "save_on_top" := OBool(false),
    "navigation" := OBool(true),
    "prefix" := OText("jqgrid-admin")]

  /** The public attributes of a `Meta` class: every name `dir(meta)`
      lists that does not start with an underscore. */
  function Overrides(meta: Option<map<string, OptionValue>>): map<string, OptionValue> {
    match meta
    case None => map[]
    case Some(m) => map n | n in m && !PyText.StartsWith(n, "_") :: m[n]
  }

  /** The attributes of the options class `GridResourceOptions(meta)` builds. */
  function Options(meta: Option<map<string, OptionValue>>): map<string, OptionValue> {
    Defaults + Overrides(meta)
  }

  /** An option comes from `Meta` exactly when `Meta` has a public attribute
      of that name; every other option keeps its default, and private names
      never become options. */
  lemma OptionsLookup(meta: Option<map<string, OptionValue>>, name: string)
    ensures var overridden := meta.Some? && name in meta.value && !PyText.StartsWith(name, "_");
      && (name in Options(meta) <==> name in Defaults || overridden)
      && (overridden ==> Options(meta)[name] == meta.value[name])
      && (!overridden && name in Defaults ==> Options(meta)[name] == Defaults[name])
  {
  }

  /** Without a `Meta` class the options are the defaults. */
  lemma NoMetaDefaults()
    ensures Options(None) == Defaults
    ensures SettingsOf(Options(None)) == Some(DefaultSettings)
  {
    assert Options(None) == Defaults;
    DefaultListing();
    DefaultFormats();
    DefaultWidgets();
    DefaultLayout();
  }

  lemma DefaultListing()
    ensures "register" in Defaults && Defaults["register"] == ORegister([])
    ensures "description" in Defaults && Defaults["description"] == ODescription(map[])
    ensures "readonly" in Defaults && Defaults["readonly"] == OBool(false)
    ensures "inline" in Defaults && Defaults["inline"] == OBool(true)
  {
  }

  lemma DefaultFormats()
    ensures "datetime_format" in Defaults && Defaults["datetime_format"] == OText("%d.%m.%Y %H:%M")
    ensures "date_format" in Defaults && Defaults["date_format"] == OText("%d.%m.%Y")
    ensures "time_format" in Defaults && Defaults["time_format"] == OText("%H:%M")
    ensures "grid_rownum" in Defaults && Defaults["grid_rownum"] == OInt(20)
  {
  }

  lemma DefaultWidgets()
    ensures "datepicker_format" in Defaults && Defaults["datepicker_format"] == OText("dd.mm.yy")
    ensures "timepicker_format" in Defaults && Defaults["timepicker_format"] == OText("hh:mm")
    ensures "dialog_width" in Defaults && Defaults["dialog_width"] == OText("70%")
    ensures "dialog_max_height" in Defaults && Defaults["dialog_max_height"] == OInt(500)
  {
  }

  lemma DefaultLayout()
    ensures "wysiwyg_height" in Defaults && Defaults["wysiwyg_height"] == OInt(400)
    ensures "save_on_top" in Defaults && Defaults["save_on_top"] == OBool(false)
    ensures "navigation" in Defaults && Defaults["navigation"] == OBool(true)
    ensures "prefix" in Defaults && Defaults["prefix"] == OText("jqgrid-admin")
  {
  }

  /** `GridResourceOptions.__new__(cls, meta)`: the defaults, overridden
      by the public attributes of `meta`. */
  method NewOptions(meta: Option<map<string, OptionValue>>) returns (opts: map<string, OptionValue>)
    ensures opts == Options(meta)
  {
    var overrides: map<string, OptionValue> := map[];
    if meta.Some? {
      overrides := PublicAttributes(meta.value);
    }
    opts := Defaults + overrides;
  }

  /** The loop over `dir(meta)` in `__new__`, one attribute at a time,
      skipping the names that start with an underscore. */
  method PublicAttributes(m: map<string, OptionValue>) returns (overrides: map<string, OptionValue>)
    ensures overrides == Overrides(Some(m))
  {
    overrides := map[];
    var todo := m.Keys;
    while todo != {}
      invariant todo <= m.Keys
      invariant overrides == map n | n in m && n !in todo && !PyText.StartsWith(n, "_") :: m[n]
      decreases |todo|
    {
      var name :| name in todo;
      if !PyText.StartsWith(name, "_") {
        overrides := overrides[name := m[name]];
      }
      todo := todo - {name};
    }
  }

  /** The options as the views read them. */
  datatype Settings = Settings(
    register: seq<seq<string>>,
    description: Description,
    readonly: bool,
    inline: bool,
    datetimeFormat: string,
    dateFormat: string,
    timeFormat: string,
    gridRownum: int,
    datepickerFormat: string,
    timepickerFormat: string,
    dialogWidth: string,
    dialogMaxHeight: int,
    wysiwygHeight: int,
    saveOnTop: bool,
    navigation: bool,
    prefix: string)

  const DefaultSettings := Settings([], map[], false, true, "%d.%m.%Y %H:%M", "%d.%m.%Y", "%H:%M", 20,
                                    "dd.mm.yy", "hh:mm", "70%", 500, 400, false, true, "jqgrid-admin")

  predicate HasText(o: map<string, OptionValue>, n: string) { n in o && o[n].OText? }
  predicate HasBool(o: map<string, OptionValue>, n: string) { n in o && o[n].OBool? }
  predicate HasInt(o: map<string, OptionValue>, n: string) { n in o && o[n].OInt? }

  /** The typed reading of an options class: None when an option has a
      value of another kind than its default. */
  function SettingsOf(o: map<string, OptionValue>): Option<Settings> {
    if && "register" in o && o["register"].ORegister?
       && "description" in o && o["description"].ODescription?
       && HasBool(o, "readonly") && HasBool(o, "inline")
       && HasText(o, "datetime_format") && HasText(o, "date_format") && HasText(o, "time_format")
       && HasInt(o, "grid_rownum") && HasText(o, "datepicker_format") && HasText(o, "timepicker_format")
       && HasText(o, "dialog_width") && HasInt(o, "dialog_max_height") && HasInt(o, "wysiwyg_height")
       && HasBool(o, "save_on_top") && HasBool(o, "navigation") && HasText(o, "prefix")
    then Some(Settings(
      o["register"].entries, o["description"].d, o["readonly"].b, o["inline"].b,
      o["datetime_format"].s, o["date_format"].s, o["time_format"].s, o["grid_rownum"].i,
      o["datepicker_format"].s, o["timepicker_format"].s, o["dialog_width"].s,
      o["dialog_max_height"].i, o["wysiwyg_height"].i, o["save_on_top"].b, o["navigation"].b,
      o["prefix"].s))
    else None
  }

  /** The date patterns a grid of this resource is built with. */
  function GridFormats(s: Settings): GridRender.Formats {
    GridRender.Formats(s.datetimeFormat, s.dateFormat, s.timeFormat)
  }

  // ---------------------------------------------------------------------
  // Field lists

  /** `list.remove(x)`: drop the first occurrence, or raise ValueError
      (None) when there is none. */
  function RemoveFirst(s: seq<string>, x: string): (r: Option<seq<string>>)
    ensures r.None? <==> x !in s
  {
    if s == [] then None
    else if s[0] == x then Some(s[1..])
    else
      match RemoveFirst(s[1..], x)
      case None => None
      case Some(t) => Some([s[0]] + t)
  }

  /** The position of the first occurrence. */
  function IndexOf(s: seq<string>, x: string): (i: nat)
    requires x in s
    ensures i < |s| && s[i] == x && x !in s[..i]
  {
    if s[0] == x then 0
    else
      var j := IndexOf(s[1..], x);
      assert s[..j + 1] == [s[0]] + s[1..][..j];
      j + 1
  }

  /** `remove` takes out the first occurrence and keeps the order of the
      rest. */
  lemma {:induction false} RemoveFirstAt(s: seq<string>, x: string)
    requires x in s
    ensures RemoveFirst(s, x) == Some(s[..IndexOf(s, x)] + s[IndexOf(s, x) + 1..])
  {
    if s[0] != x {
      RemoveFirstAt(s[1..], x);
      var j := IndexOf(s[1..], x);
      assert s[..j + 1] == [s[0]] + s[1..][..j];
      assert s[j + 2..] == s[1..][j + 1..];
      assert IndexOf(s, x) == j + 1;
      assert RemoveFirst(s, x) == Some([s[0]] + (s[1..][..j] + s[1..][j + 1..]));
      assert [s[0]] + (s[1..][..j] + s[1..][j + 1..]) == ([s[0]] + s[1..][..j]) + s[1..][j + 1..];
    } else {
      assert s[..0] + s[1..] == s[1..];
    }
  }

  /** `remove` takes out exactly one copy of the element. */
  lemma {:induction false} RemoveFirstCounts(s: seq<string>, x: string)
    requires x in s
    ensures multiset(RemoveFirst(s, x).value) == multiset(s) - multiset{x}
  {
    assert s == [s[0]] + s[1..];
    if s[0] != x {
      RemoveFirstCounts(s[1..], x);
      var t := RemoveFirst(s[1..], x).value;
      assert RemoveFirst(s, x).value == [s[0]] + t;
      assert multiset([s[0]] + t) == multiset{s[0]} + multiset(t);
    }
  }

  /** The excludes applied in order, each removing one occurrence. */
  function RemoveEach(s: seq<string>, excludes: seq<string>): Option<seq<string>>
    decreases |excludes|
  {
    if excludes == [] then Some(s)
    else match RemoveFirst(s, excludes[0])
      case None => None
      case Some(t) => RemoveEach(t, excludes[1..])
  }

  /** Excluding succeeds exactly when every exclude, counted with its
      repetitions, occurs in the list; the result then holds the remaining
      occurrences. */
  lemma {:induction false} RemoveEachCounts(s: seq<string>, excludes: seq<string>)
    ensures RemoveEach(s, excludes).Some? <==> multiset(excludes) <= multiset(s)
    ensures RemoveEach(s, excludes).Some? ==> multiset(RemoveEach(s, excludes).value) == multiset(s) - multiset(excludes)
    decreases |excludes|
  {
    if excludes != [] {
      var x, rest := excludes[0], excludes[1..];
      assert excludes == [x] + rest;
      assert multiset(excludes) == multiset{x} + multiset(rest);
      match RemoveFirst(s, x)
      case None =>
        assert multiset(excludes)[x] > 0 == multiset(s)[x];
      case Some(t) =>
        RemoveEachCounts(t, rest);
        RemoveFirstCounts(s, x);
        assert multiset(t) == multiset(s) - multiset{x};
        assert x in multiset(s);
        assert multiset(rest) <= multiset(t) <==> multiset(excludes) <= multiset(s) by {
          forall y ensures multiset(t)[y] == multiset(s)[y] - (if y == x then 1 else 0) {
          }
        }
    }
  }

  /** `get_field_list` before the excludes: a copy of the configured
      fields, or every field of the model when none are configured. */
  function BaseFieldList(description: Description, modelName: string, model: ModelInfo): seq<string> {
    if modelName in description && description[modelName].fields.Some? then description[modelName].fields.value
    else model.fieldOrder
  }

  function Excludes(description: Description, modelName: string): seq<string> {
    if modelName in description && description[modelName].exclude.Some? then description[modelName].exclude.value
    else []
  }

  /** The fields a grid of the model shows. */
  function FieldList(description: Description, modelName: string, model: ModelInfo): Result<seq<string>, PyError> {
    match RemoveEach(BaseFieldList(description, modelName, model), Excludes(description, modelName))
    case None => Failure(ValueError)
    case Some(fields) => Success(fields)
  }

  /** The field list fails with ValueError exactly when an exclude, counted
      with its repetitions, is not among the fields; otherwise each exclude
      removes one occurrence. */
  lemma FieldListExcludes(description: Description, modelName: string, model: ModelInfo)
    ensures var base, excl := BaseFieldList(description, modelName, model), Excludes(description, modelName);
      && (FieldList(description, modelName, model).Failure? <==> !(multiset(excl) <= multiset(base)))
      && (FieldList(description, modelName, model).Failure? ==> FieldList(description, modelName, model).error == ValueError)
      && (FieldList(description, modelName, model).Success? ==>
            multiset(FieldList(description, modelName, model).value) == multiset(base) - multiset(excl))
  {
    RemoveEachCounts(BaseFieldList(description, modelName, model), Excludes(description, modelName));
  }

  /** Without a description of the model, the grid shows all its fields. */
  lemma UndescribedShowsAll(description: Description, modelName: string, model: ModelInfo)
    requires modelName !in description
    ensures FieldList(description, modelName, model) == Success(model.fieldOrder)
  {
  }

  /** `GridResource.get_field_list`. */
  method GetFieldList(description: Description, modelName: string, model: ModelInfo)
    returns (r: Result<seq<string>, PyError>)
    ensures r == FieldList(description, modelName, model)
  {
    var fields := BaseFieldList(description, modelName, model);
    var excludes := Excludes(description, modelName);
    for i := 0 to |excludes|
      invariant RemoveEach(BaseFieldList(description, modelName, model), excludes) == RemoveEach(fields, excludes[i..])
    {
      assert excludes[i..][1..] == excludes[i + 1..];
      var rest := RemoveFirst(fields, excludes[i]);
      if rest.None? {
        return Failure(ValueError);
      }
      fields := rest.value;
    }
    assert excludes[|excludes|..] == [];
    return Success(fields);
  }

  /** `GridResource.get_plugin_list`. */
  function PluginList(description: Description, modelName: string, model: ModelInfo): (r: seq<string>)
  {
    if modelName in description && description[modelName].plugins.Some? then
      match description[modelName].plugins.value
      case Str(s) => if PyText.Lower(s) == "all" then model.fieldOrder else []
      case List(items) => items
      case OtherSetting => []
    else []
  }

  /** Plugins: a `str` spelling 'all' in any case selects every model
      field, any other `str` none, a list exactly its items, and anything
      else (or nothing configured) none. */
  lemma PluginListCases(description: Description, modelName: string, model: ModelInfo, s: string, items: seq<string>)
    ensures modelName in description && description[modelName].plugins == Some(Str(s)) ==>
      PluginList(description, modelName, model) ==
        if |s| == 3 && (s[0] == 'a' || s[0] == 'A') && (s[1] == 'l' || s[1] == 'L') && (s[2] == 'l' || s[2] == 'L')
        then model.fieldOrder else []
    ensures modelName in description && description[modelName].plugins == Some(List(items)) ==>
      PluginList(description, modelName, model) == items
    ensures (modelName !in description || description[modelName].plugins.None?
             || description[modelName].plugins == Some(OtherSetting)) ==>
      PluginList(description, modelName, model) == []
  {
    PyText.LowerIsAll(s);
  }

  /** `GridResource.get_safe_list`. */
  function SafeList(description: Description, modelName: string): seq<string> {
    if modelName in description && description[modelName].safe.Some? then description[modelName].safe.value else []
  }

  /** Safe fields: the configured list, or none. */
  lemma SafeListCases(description: Description, modelName: string)
    ensures modelName in description && description[modelName].safe.Some? ==>
      SafeList(description, modelName) == description[modelName].safe.value
    ensures (modelName !in description || description[modelName].safe.None?) ==> SafeList(description, modelName) == []
  {
  }

  /** `GridResource.get_field_types`: the class of each field, failing on
      the first field the model does not have. */
  function FieldTypes(fields: seq<string>, model: ModelInfo): (r: Result<map<string, FieldKind>, PyError>)
    ensures r.Failure? <==> !AllDescribed(fields, model)
    ensures r.Failure? ==> r.error == FieldDoesNotExist(FirstMissing(fields, model))
    ensures r.Success? ==>
      && r.value.Keys == (set f | f in fields)
      && forall f :: f in r.value ==> f in model.fields && r.value[f] == model.fields[f].kind
  {
    if AllDescribed(fields, model) then
      Success(map f | f in fields :: model.fields[f].kind)
    else Failure(FieldDoesNotExist(FirstMissing(fields, model)))
  }

  /** The fields the inline view lets a ModelForm edit: in order, those of
      an editable class that are editable and not the primary key. */
  function InlineSelection(fields: seq<string>, model: ModelInfo): seq<string>
    requires AllDescribed(fields, model)
  {
    if fields == [] then []
    else
      var rest := InlineSelection(fields[1..], model);
      if InlineEditable(model.fields[fields[0]]) then [fields[0]] + rest else rest
  }

  /** A field is selected exactly when it is listed and the grid would mark
      its column editable in an inline grid. */
  lemma {:induction false} InlineSelectionMembers(fields: seq<string>, model: ModelInfo, f: string)
    requires AllDescribed(fields, model)
    ensures f in InlineSelection(fields, model) <==>
      f in fields && GridColumns.ColumnEditable(model.fields[f], true)
    ensures |InlineSelection(fields, model)| <= |fields|
  {
    if fields != [] {
      InlineSelectionMembers(fields[1..], model, f);
      assert fields == [fields[0]] + fields[1..];
      GridColumns.EditableIsInlineEditable(model.fields[fields[0]], true);
      if f in fields {
        GridColumns.EditableIsInlineEditable(model.fields[f], true);
      }
    }
  }

  /** Selecting from a list extended by one field extends the selection
      by that field when it is editable. */
  lemma {:induction false} InlineSelectionSnoc(fields: seq<string>, model: ModelInfo, x: string)
    requires AllDescribed(fields, model) && x in model.fields
    ensures AllDescribed(fields + [x], model)
    ensures InlineSelection(fields + [x], model) ==
      InlineSelection(fields, model) + (if InlineEditable(model.fields[x]) then [x] else [])
  {
    assert AllDescribed(fields + [x], model) by {
      forall i | 0 <= i < |fields + [x]| ensures (fields + [x])[i] in model.fields {
        if i < |fields| { assert (fields + [x])[i] == fields[i]; }
      }
    }
    if fields != [] {
      assert (fields + [x])[1..] == fields[1..] + [x];
      InlineSelectionSnoc(fields[1..], model, x);
    } else {
      assert [] + [x] == [x];
    }
  }

  /** The selection loop of `GridResource.inline` (resources.py:253-258). */
  method InlineFields(fields: seq<string>, model: ModelInfo) returns (r: Result<seq<string>, PyError>)
    ensures r.Failure? <==> !AllDescribed(fields, model)
    ensures r.Failure? ==> r.error == FieldDoesNotExist(FirstMissing(fields, model))
    ensures r.Success? ==> r.value == InlineSelection(fields, model)
  {
    var inline: seq<string> := [];
    for i := 0 to |fields|
      invariant AllDescribed(fields[..i], model)
      invariant inline == InlineSelection(fields[..i], model)
    {
      if fields[i] !in model.fields {
        return Failure(FieldDoesNotExist(fields[i]));
      }
      assert fields[..i + 1] == fields[..i] + [fields[i]];
      InlineSelectionSnoc(fields[..i], model, fields[i]);
      if InlineEditable(model.fields[fields[i]]) {
        inline := inline + [fields[i]];
      }
    }
    assert fields[..|fields|] == fields;
    return Success(inline);
  }

  // ---------------------------------------------------------------------
  // Views

  /** What a view answers: an HTTP response, or one of the two JSON
      documents of the grid (its column structure and its data). */
  datatype ViewResponse =
    | Http(response: Response)
    | ColumnsJson(colModel: seq<GridColumns.Column>, colNames: seq<string>)
    | GridJson(result: DjGrid.GridResult)

  /** The answer of the `check` decorator to a user who is not a superuser. */
  const Denied: Result<ViewResponse, PyError> := Success(Http(Redirect("/")))

  /** The `check` decorator: a user who is not a superuser is sent to the
      site root, and only a superuser reaches the view. */
  function Check(request: Request, view: Request -> Result<ViewResponse, PyError>): (r: Result<ViewResponse, PyError>)
    ensures request.isSuperuser ==> r == view(request)
    ensures !request.isSuperuser ==> r == Denied
  {
    if !request.isSuperuser then Denied else view(request)
  }

  /** The wrapped view is never consulted for a user who is not a superuser. */
  lemma CheckIgnoresView(request: Request, v1: Request -> Result<ViewResponse, PyError>,
                         v2: Request -> Result<ViewResponse, PyError>)
    requires !request.isSuperuser
    ensures Check(request, v1) == Check(request, v2) == Success(Http(Redirect("/")))
  {
  }

  /** `GridResource.indexview`: redirect to the list view of the first
      registered model; it is not guarded by `check`. */
  function IndexView(settings: Settings): (r: Result<ViewResponse, PyError>)
    ensures settings.register == [] ==> r == Success(Http(Page("no registered models")))
    ensures settings.register != [] && |settings.register[0]| < 2 ==> r == Failure(IndexError)
    ensures settings.register != [] && |settings.register[0]| >= 2 ==>
      r == Success(Http(RedirectToView("djgrid-listview",
        [settings.prefix, settings.register[0][0], settings.register[0][1]])))
  {
    if |settings.register| == 0 then Success(Http(Page("no registered models")))
    else if |settings.register[0]| < 2 then Failure(IndexError)
    else Success(Http(RedirectToView("djgrid-listview",
      [settings.prefix, settings.register[0][0], settings.register[0][1]])))
  }

  /** Every registered entry has an app label and a model name: the grid
      page lists `[x[0], x[1], ...]` for every entry, and a shorter one
      raises IndexError. */
  predicate AllPairs(register: seq<seq<string>>) {
    forall i :: 0 <= i < |register| ==> |register[i]| >= 2
  }

  const ListTemplate: string := "djgrid/djgrid_listview.html"

  /** The context of the grid page. */
  function ListContext(appLabel: string, modelName: string, fields: seq<string>, plugins: seq<string>,
                       settings: Settings): Context
    requires fields != []
  {
    map[
      "app_label" := CText(appLabel),
      "model_name" := CText(modelName),
      "sort" := CText(fields[0]),
      "plugins" := CList(plugins),
      "prefix" := CText(settings.prefix),
      "navigation" := CBool(settings.navigation),
      "GRID_ROWNUM" := CInt(settings.gridRownum),
      "DIALOG_WIDTH" := CText(settings.dialogWidth),
      "DIALOG_MAX_HEIGHT" := CInt(settings.dialogMaxHeight),
      "WYSIWYG_HEIGHT" := CInt(settings.wysiwygHeight),
      "DATEPICKER_FORMAT" := CText(settings.datepickerFormat)]
  }

  /** The configuration of the grid the list view builds for a data
      request. */
  function DataConfig(fields: seq<string>, post: map<string, string>, req: DjGrid.GridRequest,
                      modelName: string, model: ModelInfo, settings: Settings): DjGrid.GridConfig
  {
    DjGrid.GridConfig(fields, post, req.search, req.limit, req.sidx, req.sord, model,
                      settings.inline, settings.readonly, settings.description, modelName, GridFormats(settings))
  }

  /** `GridResource.listview`, behind `check`: only registered models; then
      the grid page on GET, the column structure on a POST with `initial`,
      and the grid data on any other POST. `model` is what `get_model`
      returns for the pair, `db` what the database holds. */
  method ListView(request: Request, appLabel: string, modelName: string, settings: Settings,
                  model: ModelInfo, db: DjGrid.Database)
    returns (r: Result<ViewResponse, PyError>)
    ensures !request.isSuperuser ==> r == Denied
    ensures request.isSuperuser && [appLabel, modelName] !in settings.register ==>
      r == Success(Http(Page("not registered")))
    ensures request.isSuperuser && [appLabel, modelName] in settings.register ==>
      var fields := FieldList(settings.description, modelName, model);
      && (fields.Failure? ==> r == Failure(fields.error))
      && (fields.Success? && !AllDescribed(fields.value, model) ==>
            r == Failure(FieldDoesNotExist(FirstMissing(fields.value, model))))
      && (fields.Success? && AllDescribed(fields.value, model) ==>
            && (request.httpMethod != "POST" && !(AllPairs(settings.register) && fields.value != []) ==>
                  r == Failure(IndexError))
            && (request.httpMethod != "POST" && AllPairs(settings.register) && fields.value != [] ==>
                  r == Success(Http(Rendered(ListTemplate, ListContext(appLabel, modelName, fields.value,
                        PluginList(settings.description, modelName, model), settings)))))
            && (request.httpMethod == "POST" && "initial" in request.post ==>
                  r.Success? && r.value.ColumnsJson?
                  && GridColumns.ColumnStructure(r.value.colModel, r.value.colNames, model, fields.value,
                       SafeList(settings.description, modelName), settings.inline, settings.readonly))
            && (request.httpMethod == "POST" && "initial" !in request.post ==>
                  match DjGrid.ParseInit(request.post, fields.value)
                  case Failure(e) => r == Failure(e)
                  case Success(req) =>
                    var c := DataConfig(fields.value, request.post, req, modelName, model, settings);
                    match DjGrid.DataError(db, c, DjGrid.AllRecords, [], req.page)
                    case Some(e) => r == Failure(e)
                    case None =>
                      && r.Success? && r.value.GridJson?
                      && DjGrid.IsGridData(r.value.result, db, c, DjGrid.AllRecords, [], req.page,
                                           DjGrid.InitialResult(fields.value))))
  {
    if !request.isSuperuser {
      return Denied;
    }
    if [appLabel, modelName] !in settings.register {
      return Success(Http(Page("not registered")));
    }
    var fieldsOr := GetFieldList(settings.description, modelName, model);
    if fieldsOr.Failure? {
      return Failure(fieldsOr.error);
    }
    var fields := fieldsOr.value;
    var types := FieldTypes(fields, model);
    if types.Failure? {
      return Failure(types.error);
    }
    if request.httpMethod != "POST" {
      var plugins := PluginList(settings.description, modelName, model);
      if !AllPairs(settings.register) {
        return Failure(IndexError);
      }
      if |fields| == 0 {
        return Failure(IndexError);
      }
      return Success(Http(Rendered(ListTemplate, ListContext(appLabel, modelName, fields, plugins, settings))));
    }
    if "initial" in request.post {
      var columns := GridColumns.MakeColumnStructure(model, fields, SafeList(settings.description, modelName),
                                                     settings.inline, settings.readonly);
      assert columns.Success?;
      return Success(ColumnsJson(columns.value.0, columns.value.1));
    }
    var init := DjGrid.ParseInit(request.post, fields);
    if init.Failure? {
      return Failure(init.error);
    }
    var grid := new DjGrid.Grid(DjGrid.AllRecords, fields, request.post, appLabel, modelName, model,
                                settings.inline, settings.readonly, settings.description,
                                GridFormats(settings), settings.prefix);
    var data := grid.GetData(db);
    if data.Failure? {
      return Failure(data.error);
    }
    return Success(GridJson(data.value));
  }

  /** `get_object_or_404(model, pk=pk)`: a missing key matches nothing. */
  function ObjectOr404(objects: map<string, Instance>, pk: Option<string>): (r: Result<Instance, PyError>)
    ensures r.Success? <==> pk.Some? && pk.value in objects
    ensures r.Success? ==> r.value == objects[pk.value]
    ensures r.Failure? ==> r.error == Http404
  {
    if pk.Some? && pk.value in objects then Success(objects[pk.value]) else Failure(Http404)
  }

  /** `GridResource.inline`, behind `check`: a POST to an inline grid edits
      the selected fields of the object its key names, through the
      add/edit/delete controller in AJAX edit mode, and answers
      `{"status": "ok"}` whatever the form did; anything else is refused.
      `objects` is the stored instances by key, and `formFor(names)` the
      ModelForm class Django builds for those fields. The effect log is what
      the controller did. */
  method Inline(request: Request, appLabel: string, modelName: string, settings: Settings,
                model: ModelInfo, objects: map<string, Instance>, formFor: seq<string> -> FormClass)
    returns (r: Result<ViewResponse, PyError>, effects: seq<Aed.Effect>)
    ensures !request.isSuperuser ==> r == Denied && effects == []
    ensures request.isSuperuser && !(request.httpMethod == "POST" && settings.inline) ==>
      r == Success(Http(Page("operation is not allowed"))) && effects == []
    ensures request.isSuperuser && request.httpMethod == "POST" && settings.inline ==>
      var fields := FieldList(settings.description, modelName, model);
      var key := model.pkName + "primarykey";
      var pk := if key in request.post then Some(request.post[key]) else None;
      && (fields.Failure? ==> r == Failure(fields.error) && effects == [])
      && (fields.Success? && ObjectOr404(objects, pk).Failure? ==> r == Failure(Http404) && effects == [])
      && (fields.Success? && ObjectOr404(objects, pk).Success? && !AllDescribed(fields.value, model) ==>
            r == Failure(FieldDoesNotExist(FirstMissing(fields.value, model))) && effects == [])
      && (fields.Success? && ObjectOr404(objects, pk).Success? && AllDescribed(fields.value, model) ==>
            var form := formFor(InlineSelection(fields.value, model));
            && r == Success(Http(Json(map["status" := JText("ok")])))
            && effects == if form.valid then [Aed.Saved(form.saved)] else [])
  {
    effects := [];
    if !request.isSuperuser {
      return Denied, effects;
    }
    if !(request.httpMethod == "POST" && settings.inline) {
      return Success(Http(Page("operation is not allowed"))), effects;
    }
    var fieldsOr := GetFieldList(settings.description, modelName, model);
    if fieldsOr.Failure? {
      return Failure(fieldsOr.error), effects;
    }
    var key := model.pkName + "primarykey";
    var pk := if key in request.post then Some(request.post[key]) else None;
    var instance := ObjectOr404(objects, pk);
    if instance.Failure? {
      return Failure(instance.error), effects;
    }
    var selected := InlineFields(fieldsOr.value, model);
    if selected.Failure? {
      return Failure(selected.error), effects;
    }
    var aed := new Aed.AED(request, appLabel, modelName, "djgrid/aed_base.html", formFor(selected.value),
                           pk, map[], map[], true, Some("edit"), None, None, None, objects);
    assert Aed.Dispatch(pk, Some("edit"), request.httpMethod) == Aed.PostRoute;
    var processed := aed.ProcessRequest();
    // with no unused fields, removing them cannot raise, so the answer the
    // view discards is never an error
    assert processed.Success?;
    effects := aed.effects;
    return Success(Http(Json(map["status" := JText("ok")]))), effects;
  }
}
