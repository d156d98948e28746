/** The grid helper of djgrid/grid.py (`class Grid`): it reads the jqGrid
    postback, narrows a queryset by search, orders it, sums the numeric
    columns, cuts out one page, and renders the page's rows.

    The queryset is symbolic: the filters, the ordering and the slice that
    have been applied to it. What a queryset evaluates to is left to the
    database, which the operations that read records take as a parameter. */
module DjGrid {
  import opened Wrappers
  import opened PyErrors
  import opened FieldKinds
  import opened Values
  import opened Config
  import PyText
  import opened GridSearch
  import opened GridPaging
  import opened GridRender

  /** One `queryset.filter(...)` call. */
  datatype Filter =
    | Lookups(terms: map<string, Term>) // filter(**terms): every lookup must hold
    | AnyOf(terms: map<string, Term>)   // filter(Q(k1=v1) | Q(k2=v2) | ...): one lookup must hold

  /** A queryset: the filters applied in order, the last `order_by` key, and
      the slice taken, if any. */
  datatype QuerySet = QuerySet(filters: seq<Filter>, ordering: Option<string>, window: Option<(nat, nat)>)

  /** `model.objects.all()`. */
  const AllRecords := QuerySet([], None, None)

  /** The database: the records an unsliced queryset selects, in its order. */
  type Database = QuerySet -> seq<Record>

  /** The records a queryset evaluates to: the database's answer for its
      filters and ordering, cut to its slice. */
  function Evaluate(db: Database, qs: QuerySet): (r: seq<Record>)
    ensures qs.window.None? ==> r == db(qs)
    ensures qs.window.Some? ==> r == Window(db(qs.(window := None)), qs.window.value.0, qs.window.value.1)
  {
    var rows := db(qs.(window := None));
    match qs.window
    case None => rows
    case Some((lo, hi)) => Window(rows, lo, hi)
  }

  // ---------------------------------------------------------------------
  // The postback

  /** What the grid reads from its postback (grid.py:73-79). */
  datatype GridRequest = GridRequest(search: bool, page: int, limit: int, sidx: string, sord: string)

  const PostMessage: string :=
    "For grid render 'post' parameter should contain correct information about page, limit, sidx and sord"

  /** `_page` and `_rows` must be present and decimal integers, `_sidx` and
      `_sord` present; any failure is reported as ImproperlyConfigured. The
      search flag is set only by `_search` equal to 'true'. */
  function ParsePost(post: map<string, string>): (r: Result<GridRequest, PyError>)
    ensures r.Success? <==>
      "_page" in post && "_rows" in post && "_sidx" in post && "_sord" in post
      && PyText.ParseInt(post["_page"]).Some? && PyText.ParseInt(post["_rows"]).Some?
    ensures r.Failure? ==> r.error == ImproperlyConfigured(PostMessage)
    ensures r.Success? ==>
      && (r.value.search <==> "_search" in post && post["_search"] == "true")
      && Some(r.value.page) == PyText.ParseInt(post["_page"])
      && Some(r.value.limit) == PyText.ParseInt(post["_rows"])
      && r.value.sidx == post["_sidx"] && r.value.sord == post["_sord"]
  {
    var search := "_search" in post && post["_search"] == "true";
    if "_page" !in post then Failure(ImproperlyConfigured(PostMessage))
    else match PyText.ParseInt(post["_page"])
      case None => Failure(ImproperlyConfigured(PostMessage))
      case Some(page) =>
        if "_rows" !in post then Failure(ImproperlyConfigured(PostMessage))
        else match PyText.ParseInt(post["_rows"])
          case None => Failure(ImproperlyConfigured(PostMessage))
          case Some(limit) =>
            if "_sidx" !in post || "_sord" !in post then Failure(ImproperlyConfigured(PostMessage))
            else Success(GridRequest(search, page, limit, post["_sidx"], post["_sord"]))
  }

  /** The postback jqGrid sends for a request. */
  function EncodePost(req: GridRequest): map<string, string> {
    map["_search" := if req.search then "true" else "false",
        "_page" := PyText.ShowInt(req.page),
        "_rows" := PyText.ShowInt(req.limit),
        "_sidx" := req.sidx,
        "_sord" := req.sord]
  }

  /** The grid reads back exactly the request the postback was written for. */
  lemma ParseEncodedPost(req: GridRequest)
    ensures ParsePost(EncodePost(req)) == Success(req)
  {
    PyText.ParseShowInt(req.page);
    PyText.ParseShowInt(req.limit);
  }

  /** `Grid.__init__` up to the userdata seed: the postback must parse, and
      `fields[0]` must exist. */
  function ParseInit(post: map<string, string>, fields: seq<string>): (r: Result<GridRequest, PyError>)
    ensures r.Success? <==> ParsePost(post).Success? && |fields| > 0
    ensures ParsePost(post).Failure? ==> r == ParsePost(post)
    ensures ParsePost(post).Success? && |fields| == 0 ==> r == Failure(IndexError)
    ensures r.Success? ==> r == ParsePost(post)
  {
    match ParsePost(post)
    case Failure(e) => Failure(e)
    case Success(req) => if |fields| == 0 then Failure(IndexError) else Success(req)
  }

  // ---------------------------------------------------------------------
  // Ordering

  /** The `order_by` key of grid.py:305-310, None when `sidx` is empty. Note
      that 'asc' gives the descending key. */
  function OrderKey(sidx: string, sord: string): (r: Option<string>)
    ensures r.None? <==> sidx == ""
    ensures sidx != "" && sord == "asc" ==> r == Some("-" + sidx)
    ensures sidx != "" && sord != "asc" ==> r == Some(sidx)
  {
    if sidx == "" then None else if sord == "asc" then Some("-" + sidx) else Some(sidx)
  }

  /** Django sorts descending by a key that starts with '-'. */
  predicate DescendingKey(key: string) {
    |key| > 0 && key[0] == '-'
  }

  /** For a plain column name, the grid sorts descending exactly when jqGrid
      asks for ascending order: the sense is inverted. */
  lemma OrderSenseInverted(sidx: string, sord: string)
    requires sidx != "" && sidx[0] != '-'
    ensures DescendingKey(OrderKey(sidx, sord).value) <==> sord == "asc"
  {
  }

  // ---------------------------------------------------------------------
  // Search

  /** The field classes `Grid.filter` routes to a filter of their own and
      keeps out of the common lookup map. */
  predicate IsRouted(kind: FieldKind) {
    kind in RelatedFields || kind in DateFields
  }

  /** The fields `Grid.filter` appends to `exclude`, in order: the grid
      fields present in the postback whose class is routed. */
  function RoutedFields(fields: seq<string>, post: map<string, string>, model: ModelInfo): seq<string>
    requires AllDescribed(fields, model)
    decreases |fields|
  {
    if fields == [] then []
    else
      var init, f := fields[..|fields| - 1], fields[|fields| - 1];
      assert AllDescribed(init, model);
      RoutedFields(init, post, model) + (if f in post && IsRouted(model.fields[f].kind) then [f] else [])
  }

  /** Exactly the grid fields in the postback whose class is routed are excluded. */
  lemma {:induction false} RoutedFieldsMembers(fields: seq<string>, post: map<string, string>, model: ModelInfo)
    requires AllDescribed(fields, model)
    ensures forall f :: f in RoutedFields(fields, post, model) <==> f in fields && f in post && IsRouted(model.fields[f].kind)
    decreases |fields|
  {
    if fields != [] {
      var init, f := fields[..|fields| - 1], fields[|fields| - 1];
      assert forall g :: g in fields <==> g in init || g == f;
      RoutedFieldsMembers(init, post, model);
    }
  }

  /** `description[model_name]['search'][field]`, when every key is there. */
  function SubFields(description: Description, modelName: string, field: string): Option<seq<string>> {
    if modelName in description && description[modelName].search.Some? && field in description[modelName].search.value
    then Some(description[modelName].search.value[field])
    else None
  }

  /** The lookup `construct_search('field__sub', token)` builds for one
      configured sub-field of a relation. */
  function RelatedLookup(field: string, sub: string, token: string): (string, Term) {
    var r := ConstructSearch(field + "__" + sub, token, CharField);
    r.value
  }

  /** `orm_lookups` of grid.py:221: one lookup per configured sub-field;
      the token is compared as text whatever the sub-field's class. */
  function RelatedLookups(field: string, token: string, subs: seq<string>): (m: map<string, Term>)
    ensures m.Keys == set sub | sub in subs :: SearchKey(field + "__" + sub, token)
    ensures forall k :: k in m ==> m[k] == TextTerm(Operand(token))
  {
    map sub | sub in subs :: RelatedLookup(field, sub, token).0 := RelatedLookup(field, sub, token).1
  }

  /** `Grid.related_filter`: a relation without configured sub-fields is not
      filtered (the lookup failure is caught); an empty list of sub-fields
      makes `reduce` raise; otherwise one filter ORs the sub-field lookups. */
  function RelatedClause(description: Description, modelName: string, field: string, token: string)
    : (r: Result<Option<Filter>, PyError>)
    ensures SubFields(description, modelName, field).None? ==> r == Success(None)
    ensures SubFields(description, modelName, field) == Some([]) ==> r == Failure(TypeError)
    ensures r.Success? && r.value.Some? ==>
      var subs := SubFields(description, modelName, field).value;
      |subs| > 0 && r.value.value == AnyOf(RelatedLookups(field, token, subs))
  {
    match SubFields(description, modelName, field)
    case None => Success(None)
    case Some(subs) =>
      if |subs| == 0 then Failure(TypeError) else Success(Some(AnyOf(RelatedLookups(field, token, subs))))
  }

  /** A relation search ORs exactly one lookup per distinct configured
      sub-field: no two sub-fields share a lookup key. */
  lemma {:induction false} RelatedLookupsOnePerSubField(field: string, token: string, subs: seq<string>)
    ensures |RelatedLookups(field, token, subs)| == |set sub | sub in subs|
  {
    var subSet := set sub | sub in subs;
    SubFieldKeysCount(field, token, subSet);
    assert RelatedLookups(field, token, subs).Keys == set sub | sub in subSet :: SearchKey(field + "__" + sub, token);
  }

  lemma {:induction false} SubFieldKeysCount(field: string, token: string, subs: set<string>)
    ensures |set sub | sub in subs :: SearchKey(field + "__" + sub, token)| == |subs|
    decreases |subs|
  {
    var img := set sub | sub in subs :: SearchKey(field + "__" + sub, token);
    if subs == {} {
      assert img == {};
    } else {
      var x :| x in subs;
      var rest := subs - {x};
      SubFieldKeysCount(field, token, rest);
      var imgRest := set sub | sub in rest :: SearchKey(field + "__" + sub, token);
      assert img == imgRest + {SearchKey(field + "__" + x, token)};
      forall y | y in rest ensures SearchKey(field + "__" + y, token) != SearchKey(field + "__" + x, token) {
        SubFieldKeyInjective(field, token, x, y);
      }
    }
  }

  /** Distinct sub-fields give distinct lookup keys. */
  lemma SubFieldKeyInjective(field: string, token: string, a: string, b: string)
    ensures a != b ==> SearchKey(field + "__" + a, token) != SearchKey(field + "__" + b, token)
  {
    if SearchKey(field + "__" + a, token) == SearchKey(field + "__" + b, token) {
      SearchKeyInjective(field + "__" + a, token, field + "__" + b, token);
      assert a == (field + "__" + a)[|field| + 2..];
      assert b == (field + "__" + b)[|field| + 2..];
    }
  }

  /** `Grid.date_filter`: the whole day the token names, from its start to
      23:59:59, both ends parsed with the grid's date format. */
  function DateClause(field: string, token: string, dateFormat: string): (r: Filter)
    ensures r.Lookups? && r.terms.Keys == {field + "__gte", field + "__lte"}
    ensures r.terms[field + "__gte"] == Moment(token, dateFormat)
    ensures r.terms[field + "__lte"] == Moment(token + " 23:59:59", dateFormat + " %H:%M:%S")
  {
    assert field + "__gte" != field + "__lte" by {
      assert (field + "__gte")[|field| + 2] == 'g';
    }
    Lookups(map[field + "__gte" := Moment(token, dateFormat),
                field + "__lte" := Moment(token + " 23:59:59", dateFormat + " %H:%M:%S")])
  }

  /** The filters one grid field adds in the loop of `Grid.filter`. */
  function FieldRoute(field: string, post: map<string, string>, model: ModelInfo,
                      description: Description, modelName: string, dateFormat: string)
    : (r: Result<seq<Filter>, PyError>)
    requires field in model.fields
    ensures field !in post || !IsRouted(model.fields[field].kind) ==> r == Success([])
    ensures r.Success? ==> |r.value| <= 1
  {
    if field !in post then Success([])
    else if model.fields[field].kind in RelatedFields then
      match RelatedClause(description, modelName, field, post[field])
      case Failure(e) => Failure(e)
      case Success(None) => Success([])
      case Success(Some(c)) => Success([c])
    else if model.fields[field].kind in DateFields then
      Success([DateClause(field, post[field], dateFormat)])
    else Success([])
  }

  /** The filters the loop of `Grid.filter` adds, in field order; the first
      failure stops it. */
  function RoutedFilters(fields: seq<string>, post: map<string, string>, model: ModelInfo,
                         description: Description, modelName: string, dateFormat: string)
    : (r: Result<seq<Filter>, PyError>)
    requires AllDescribed(fields, model)
    decreases |fields|
  {
    if fields == [] then Success([])
    else
      var init, f := fields[..|fields| - 1], fields[|fields| - 1];
      match RoutedFilters(init, post, model, description, modelName, dateFormat)
      case Failure(e) => Failure(e)
      case Success(fs) =>
        match FieldRoute(f, post, model, description, modelName, dateFormat)
        case Failure(e) => Failure(e)
        case Success(gs) => Success(fs + gs)
  }

  /** One more field of the loop of `Grid.filter`. */
  lemma RoutedStep(fields: seq<string>, i: nat, post: map<string, string>, model: ModelInfo,
                   description: Description, modelName: string, dateFormat: string)
    requires AllDescribed(fields, model) && i < |fields|
    ensures AllDescribed(fields[..i], model) && AllDescribed(fields[..i + 1], model)
    ensures var f := fields[i];
      RoutedFields(fields[..i + 1], post, model)
        == RoutedFields(fields[..i], post, model) + (if f in post && IsRouted(model.fields[f].kind) then [f] else [])
    ensures RoutedFilters(fields[..i + 1], post, model, description, modelName, dateFormat)
      == match RoutedFilters(fields[..i], post, model, description, modelName, dateFormat)
         case Failure(e) => Failure(e)
         case Success(fs) =>
           match FieldRoute(fields[i], post, model, description, modelName, dateFormat)
           case Failure(e) => Failure(e)
           case Success(gs) => Success(fs + gs)
  {
    assert fields[..i + 1][..i] == fields[..i];
    assert fields[..i + 1][i] == fields[i];
  }

  /** A field the loop of `Grid.filter` gets through adds its filters and
      its exclusion after those of the fields before it. */
  lemma RoutedExtends(fields: seq<string>, i: nat, post: map<string, string>, model: ModelInfo,
                      description: Description, modelName: string, dateFormat: string,
                      doneF: seq<Filter>, doneX: seq<string>)
    requires AllDescribed(fields, model) && i < |fields|
    requires AllDescribed(fields[..i], model)
    requires RoutedFilters(fields[..i], post, model, description, modelName, dateFormat) == Success(doneF)
    requires doneX == RoutedFields(fields[..i], post, model)
    requires FieldRoute(fields[i], post, model, description, modelName, dateFormat).Success?
    ensures AllDescribed(fields[..i + 1], model)
    ensures RoutedFilters(fields[..i + 1], post, model, description, modelName, dateFormat)
      == Success(doneF + FieldRoute(fields[i], post, model, description, modelName, dateFormat).value)
    ensures RoutedFields(fields[..i + 1], post, model)
      == doneX + (if fields[i] in post && IsRouted(model.fields[fields[i]].kind) then [fields[i]] else [])
  {
    RoutedStep(fields, i, post, model, description, modelName, dateFormat);
  }

  /** A field whose filter raises ends the loop of `Grid.filter` with its error. */
  lemma RoutedFailsAt(fields: seq<string>, i: nat, post: map<string, string>, model: ModelInfo,
                      description: Description, modelName: string, dateFormat: string,
                      doneF: seq<Filter>)
    requires AllDescribed(fields, model) && i < |fields|
    requires AllDescribed(fields[..i], model)
    requires RoutedFilters(fields[..i], post, model, description, modelName, dateFormat) == Success(doneF)
    requires FieldRoute(fields[i], post, model, description, modelName, dateFormat).Failure?
    ensures RoutedFilters(fields, post, model, description, modelName, dateFormat)
      == Failure(FieldRoute(fields[i], post, model, description, modelName, dateFormat).error)
  {
    RoutedStep(fields, i, post, model, description, modelName, dateFormat);
    RoutedFailureSticks(fields, i + 1, post, model, description, modelName, dateFormat);
  }

  /** A failure in the loop of `Grid.filter` ends it: the whole loop fails
      with the same error. */
  lemma {:induction false} RoutedFailureSticks(fields: seq<string>, j: nat, post: map<string, string>, model: ModelInfo,
                                               description: Description, modelName: string, dateFormat: string)
    requires AllDescribed(fields, model) && j <= |fields|
    requires AllDescribed(fields[..j], model)
    requires RoutedFilters(fields[..j], post, model, description, modelName, dateFormat).Failure?
    ensures RoutedFilters(fields, post, model, description, modelName, dateFormat)
      == RoutedFilters(fields[..j], post, model, description, modelName, dateFormat)
    decreases |fields| - j
  {
    if j < |fields| {
      RoutedStep(fields, j, post, model, description, modelName, dateFormat);
      RoutedFailureSticks(fields, j + 1, post, model, description, modelName, dateFormat);
    } else {
      assert fields[..j] == fields;
    }
  }

  /** A postback parameter `common_filter` turns into a lookup. */
  predicate Eligible(p: string, post: map<string, string>, fields: seq<string>, exclude: seq<string>) {
    p in post && p in fields && p !in exclude
  }

  /** `construct_search(param, post[param], field_type)` for one parameter. */
  function ParamLookup(p: string, post: map<string, string>, model: ModelInfo): Result<(string, Term), PyError>
    requires p in post && p in model.fields
  {
    ConstructSearch(p, post[p], model.fields[p].kind)
  }

  /** No eligible parameter makes `construct_search` raise. */
  predicate Coercible(post: map<string, string>, fields: seq<string>, exclude: seq<string>, model: ModelInfo)
    requires AllDescribed(fields, model)
  {
    forall p :: p in post && p in fields && p !in exclude ==> ParamLookup(p, post, model).Success?
  }

  /** The lookup map of `Grid.common_filter`; a ValueError from any
      parameter propagates. */
  function CommonLookups(post: map<string, string>, fields: seq<string>, exclude: seq<string>, model: ModelInfo)
    : (r: Result<map<string, Term>, PyError>)
    requires AllDescribed(fields, model)
    ensures r.Failure? <==> !Coercible(post, fields, exclude, model)
    ensures r.Failure? ==> r.error == ValueError
  {
    if !Coercible(post, fields, exclude, model) then Failure(ValueError)
    else
      KeysDetermineParameter(post);
      Success(map p | p in post && p in fields && p !in exclude
                :: SearchKey(p, post[p]) := ParamLookup(p, post, model).value.1)
  }

  /** The common filter raises exactly when an eligible parameter of an
      integer-class field has an operand `int()` rejects, or one of a
      float-class field an operand `float()` rejects. */
  lemma CommonLookupsFailure(post: map<string, string>, fields: seq<string>, exclude: seq<string>, model: ModelInfo)
    requires AllDescribed(fields, model)
    ensures CommonLookups(post, fields, exclude, model).Failure? <==>
      exists p :: Eligible(p, post, fields, exclude) &&
        ((model.fields[p].kind in IntegerFields && PyText.ParseInt(Operand(post[p])).None?)
         || (model.fields[p].kind in FloatFields && model.fields[p].kind !in IntegerFields
             && !PyText.FloatText(Operand(post[p]))))
  {
  }

  /** The common lookup map has one key per eligible parameter, built from
      its field and operator, holding the parameter's coerced operand. */
  lemma CommonLookupsContents(post: map<string, string>, fields: seq<string>, exclude: seq<string>, model: ModelInfo)
    requires AllDescribed(fields, model)
    requires CommonLookups(post, fields, exclude, model).Success?
    ensures var m := CommonLookups(post, fields, exclude, model).value;
      && m.Keys == (set p | p in post && p in fields && p !in exclude :: SearchKey(p, post[p]))
      && forall p :: Eligible(p, post, fields, exclude) ==>
           Coerce(CoercionOf(model.fields[p].kind), Operand(post[p])) == Success(m[SearchKey(p, post[p])])
  {
    KeysDetermineParameter(post);
  }

  /** A map holding the lookup of every eligible parameter, and nothing
      else, is the common lookup map. */
  lemma CommonHashComplete(post: map<string, string>, fields: seq<string>, exclude: seq<string>,
                           model: ModelInfo, hash: map<string, Term>)
    requires AllDescribed(fields, model)
    requires forall p :: Eligible(p, post, fields, exclude) ==>
      ParamLookup(p, post, model).Success?
      && SearchKey(p, post[p]) in hash
      && hash[SearchKey(p, post[p])] == ParamLookup(p, post, model).value.1
    requires forall k :: k in hash ==>
      exists p :: Eligible(p, post, fields, exclude) && k == SearchKey(p, post[p])
    ensures CommonLookups(post, fields, exclude, model) == Success(hash)
  {
    assert Coercible(post, fields, exclude, model);
    var m := CommonLookups(post, fields, exclude, model).value;
    CommonLookupsContents(post, fields, exclude, model);
    forall k | k in m ensures k in hash && hash[k] == m[k] {
      var p :| p in post && p in fields && p !in exclude && k == SearchKey(p, post[p]);
      assert Coerce(CoercionOf(model.fields[p].kind), Operand(post[p])) == Success(m[k]);
    }
    assert hash == m;
  }

  /** Two postback parameters never share a lookup key. */
  lemma KeysDetermineParameter(post: map<string, string>)
    ensures forall p, q :: p in post && q in post && SearchKey(p, post[p]) == SearchKey(q, post[q]) ==> p == q
  {
    forall p, q | p in post && q in post && SearchKey(p, post[p]) == SearchKey(q, post[q]) ensures p == q {
      SearchKeyInjective(p, post[p], q, post[q]);
    }
  }

  /** The common lookup map holds exactly one lookup per eligible parameter. */
  lemma CommonLookupsOnePerParameter(post: map<string, string>, fields: seq<string>,
                                     exclude: seq<string>, model: ModelInfo)
    requires AllDescribed(fields, model)
    requires CommonLookups(post, fields, exclude, model).Success?
    ensures |CommonLookups(post, fields, exclude, model).value| == |set p | p in post && p in fields && p !in exclude|
  {
    var params := set p | p in post && p in fields && p !in exclude;
    ParamKeysCount(post, params);
    CommonLookupsContents(post, fields, exclude, model);
    assert CommonLookups(post, fields, exclude, model).value.Keys == set p | p in params :: SearchKey(p, post[p]);
  }

  lemma {:induction false} ParamKeysCount(post: map<string, string>, params: set<string>)
    requires params <= post.Keys
    ensures |set p | p in params :: SearchKey(p, post[p])| == |params|
    decreases |params|
  {
    var img := set p | p in params :: SearchKey(p, post[p]);
    if params == {} {
      assert img == {};
    } else {
      var x :| x in params;
      var rest := params - {x};
      ParamKeysCount(post, rest);
      var imgRest := set p | p in rest :: SearchKey(p, post[p]);
      assert img == imgRest + {SearchKey(x, post[x])};
      KeysDetermineParameter(post);
    }
  }

  /** Once `Grid.filter` has excluded the routed fields, no relation or date
      field reaches the common lookup map: every key there belongs to a grid
      field of another class. */
  lemma CommonMapSkipsRouted(post: map<string, string>, fields: seq<string>,
                             exclude: seq<string>, model: ModelInfo)
    requires AllDescribed(fields, model)
    requires forall f :: f in RoutedFields(fields, post, model) ==> f in exclude
    requires CommonLookups(post, fields, exclude, model).Success?
    ensures forall k :: k in CommonLookups(post, fields, exclude, model).value ==>
      exists p :: p in post && p in fields && !IsRouted(model.fields[p].kind) && k == SearchKey(p, post[p])
  {
    RoutedFieldsMembers(fields, post, model);
    CommonLookupsContents(post, fields, exclude, model);
  }

  // ---------------------------------------------------------------------
  // Totals and pages

  /** A userdata entry: the 'Totals' label, or the float sum of a column. */
  datatype Total = Label(text: string) | SumOf(field: string)

  /** `Grid.result`; each of page, total, records and rows is set by a
      later stage. */
  datatype GridResult = GridResult(
    userdata: map<string, Total>,
    page: Option<int>,
    total: Option<int>,
    records: Option<nat>,
    rows: Option<seq<seq<Cell>>>)

  /** `float(Sum(field))` succeeds: SQL's SUM is NULL, and `float(None)`
      raises, unless some selected record holds a value. */
  predicate HasSum(records: seq<Record>, field: string) {
    exists i :: 0 <= i < |records| && Attr(records[i], field) != Null
  }

  /** The grid fields `Grid.aggregate` writes a sum for. */
  function SummedFields(fields: seq<string>, model: ModelInfo, records: seq<Record>): set<string>
    requires AllDescribed(fields, model)
  {
    set f | f in fields && model.fields[f].kind in TotalFields && HasSum(records, f)
  }

  // ---------------------------------------------------------------------
  // The whole of get_data

  /** What a grid is built with: its fields and postback, what it read from
      the postback (all but the page, which `paginate` clamps), the model and
      the rendering settings. */
  datatype GridConfig = GridConfig(
    fields: seq<string>, post: map<string, string>,
    search: bool, limit: int, sidx: string, sord: string,
    model: ModelInfo, inline: bool, readonly: bool,
    description: Description, modelName: string, formats: Formats)

  predicate ConfigDescribed(c: GridConfig) {
    |c.fields| > 0 && AllDescribed(c.fields, c.model)
  }

  /** The userdata `Grid.__init__` starts from: the label "Totals" under
      the first field. */
  function InitialResult(fields: seq<string>): GridResult
    requires |fields| > 0
  {
    GridResult(map[fields[0] := Label("Totals")], None, None, None, None)
  }

  /** The filters `Grid.filter` appends to the queryset, given the excludes
      it starts from: none without `_search=true`; otherwise the routed
      filters in field order, then the common lookups of the parameters not
      excluded. */
  function SearchFilters(c: GridConfig, exclude: seq<string>): Result<seq<Filter>, PyError>
    requires AllDescribed(c.fields, c.model)
  {
    if !c.search then Success([])
    else match RoutedFilters(c.fields, c.post, c.model, c.description, c.modelName, c.formats.dateFormat)
      case Failure(e) => Failure(e)
      case Success(routed) =>
        match CommonLookups(c.post, c.fields, exclude + RoutedFields(c.fields, c.post, c.model), c.model)
        case Failure(e) => Failure(e)
        case Success(m) => Success(routed + [Lookups(m)])
  }

  /** `order_by(key)` when there is a key. */
  function Ordered(qs: QuerySet, key: Option<string>): QuerySet {
    if key.Some? then qs.(ordering := key) else qs
  }

  /** The queryset `filter` and `order` leave: the new filters after the old
      ones, and the ordering key when there is one. */
  function Selection(c: GridConfig, qs: QuerySet, exclude: seq<string>): Result<QuerySet, PyError>
    requires AllDescribed(c.fields, c.model)
  {
    match SearchFilters(c, exclude)
    case Failure(e) => Failure(e)
    case Success(added) => Success(Ordered(qs.(filters := qs.filters + added), OrderKey(c.sidx, c.sord)))
  }

  /** The page `paginate` cuts out of the selected records. */
  datatype PageView = PageView(total: int, page: int, start: nat, shown: seq<Record>)

  /** `Grid.paginate` on the selected records: the page count, the clamped
      page, its offset and its records, or the error of the division or of
      the slice. */
  function PageOf(all: seq<Record>, limit: int, page: int): (r: Result<PageView, PyError>)
    ensures r.Success? ==> r.value.start + limit >= 0
  {
    match TotalPages(|all|, limit)
    case Failure(e) => Failure(e)
    case Success(t) =>
      var p := ClampPage(page, t);
      var lo := PageStart(limit, p);
      match Slice(all, lo, lo + limit)
      case Failure(e) => Failure(e)
      case Success(shown) => Success(PageView(t, p, lo, shown))
  }

  /** `PageOf` from its parts, as `Grid.paginate` computes them one by one. */
  lemma PageOfParts(all: seq<Record>, limit: int, page: int, t: int, p: int, lo: int, shown: seq<Record>)
    requires TotalPages(|all|, limit) == Success(t) && p == ClampPage(page, t)
    requires lo == PageStart(limit, p) && Slice(all, lo, lo + limit) == Success(shown)
    ensures lo >= 0 && PageOf(all, limit, page) == Success(PageView(t, p, lo, shown))
  {
  }

  /** The error `Grid.get_data` raises when started from this queryset,
      these excludes and this page, or None when it returns. */
  function DataError(db: Database, c: GridConfig, qs: QuerySet, exclude: seq<string>, page: int): Option<PyError>
    requires AllDescribed(c.fields, c.model)
  {
    match Selection(c, qs, exclude)
    case Failure(e) => Some(e)
    case Success(sel) =>
      match PageOf(Evaluate(db, sel), c.limit, page)
      case Failure(e) => Some(e)
      case Success(_) => None
  }

  /** `g` is what `Grid.get_data` returns: the userdata gains the sum of
      every total-class field that has one over the selected records, the
      page, the page count and the record count are those of `paginate`,
      and the rows are the rendered records of the page, in order. */
  predicate IsGridData(g: GridResult, db: Database, c: GridConfig, qs: QuerySet, exclude: seq<string>,
                       page: int, result0: GridResult)
    requires AllDescribed(c.fields, c.model)
  {
    match Selection(c, qs, exclude)
    case Failure(_) => false
    case Success(sel) =>
      var all := Evaluate(db, sel);
      match PageOf(all, c.limit, page)
      case Failure(_) => false
      case Success(v) =>
        var summed := SummedFields(c.fields, c.model, all);
        && g.userdata.Keys == result0.userdata.Keys + summed
        && (forall f :: f in summed ==> g.userdata[f] == SumOf(f))
        && (forall f :: f in result0.userdata && f !in summed ==> g.userdata[f] == result0.userdata[f])
        && g.page == Some(v.page) && g.total == Some(v.total) && g.records == Some(|all|)
        && g.rows.Some? && |g.rows.value| == |v.shown|
        && forall i :: 0 <= i < |v.shown| ==>
             RowOf(g.rows.value[i], v.shown[i], c.fields, c.model, c.inline, c.readonly, c.formats)
  }

  /** The page is the run of selected records from its offset on: never
      longer than the page size, and a full page when the records reach
      past its end. */
  lemma PageWindow(all: seq<Record>, limit: int, page: int)
    requires PageOf(all, limit, page).Success?
    ensures var v := PageOf(all, limit, page).value;
      && (|v.shown| > 0 ==> v.start + |v.shown| <= |all|)
      && (forall i :: 0 <= i < |v.shown| ==> v.shown[i] == all[v.start + i])
      && (limit >= 0 ==> |v.shown| <= limit)
      && (limit >= 0 && v.start + limit <= |all| ==> |v.shown| == limit)
  {
    var v := PageOf(all, limit, page).value;
    assert v.shown == Window(all, v.start, v.start + limit);
    WindowRun(all, v.start, limit);
  }

  /** The rows of the grid data are the rendered records of the selection
      from the page's offset on, at most `limit` of them, and exactly
      `limit` when the selection reaches past the page. */
  lemma GridDataRows(g: GridResult, db: Database, c: GridConfig, qs: QuerySet, exclude: seq<string>,
                     page: int, result0: GridResult)
    requires AllDescribed(c.fields, c.model)
    requires IsGridData(g, db, c, qs, exclude, page, result0)
    ensures var all := Evaluate(db, Selection(c, qs, exclude).value);
      var v := PageOf(all, c.limit, page).value;
      && (|g.rows.value| > 0 ==> v.start + |g.rows.value| <= |all|)
      && (forall i :: 0 <= i < |g.rows.value| ==>
            RowOf(g.rows.value[i], all[v.start + i], c.fields, c.model, c.inline, c.readonly, c.formats))
      && (c.limit >= 0 ==> |g.rows.value| <= c.limit)
      && (c.limit >= 0 && v.start + c.limit <= |all| ==> |g.rows.value| == c.limit)
  {
    var all := Evaluate(db, Selection(c, qs, exclude).value);
    PageWindow(all, c.limit, page);
  }

  /** Without `_search=true` the grid shows the queryset it was given, only
      reordered; the search parameters do not matter. */
  lemma UnsearchedSelection(c: GridConfig, qs: QuerySet, exclude: seq<string>)
    requires AllDescribed(c.fields, c.model)
    requires !c.search
    ensures Selection(c, qs, exclude) == Success(Ordered(qs, OrderKey(c.sidx, c.sord)))
  {
    assert qs.filters + [] == qs.filters;
  }

  class Grid {
    const fields: seq<string>
    const post: map<string, string>
    const search: bool
    const limit: int
    const sidx: string
    const sord: string
    const appLabel: string
    const modelName: string
    const model: ModelInfo
    const inline: bool
    const readonly: bool
    const description: Description
    const formats: Formats
    const urlPrefix: string

    var queryset: QuerySet
    var exclude: seq<string>
    var page: int
    var count: Option<nat>
    var totalPages: Option<int>
    var start: Option<int>
    var result: GridResult

    /** Every grid field is a field of the model, and there is at least one. */
    predicate Described() {
      |fields| > 0 && AllDescribed(fields, model)
    }

    /** `Grid.__init__`; callers pass a model that has every grid field. */
    constructor (queryset: QuerySet, fields: seq<string>, post: map<string, string>,
                 appLabel: string, modelName: string, model: ModelInfo,
                 inline: bool, readonly: bool, description: Description,
                 formats: Formats, urlPrefix: string)
      requires ParseInit(post, fields).Success?
      requires AllDescribed(fields, model)
      ensures Described()
      ensures this.fields == fields && this.post == post && this.appLabel == appLabel
      ensures this.modelName == modelName && this.model == model && this.inline == inline
      ensures this.readonly == readonly && this.description == description
      ensures this.formats == formats && this.urlPrefix == urlPrefix
      ensures var req := ParsePost(post).value;
        search == req.search && page == req.page && limit == req.limit && sidx == req.sidx && sord == req.sord
      ensures this.queryset == queryset && exclude == []
      ensures count.None? && totalPages.None? && start.None?
      ensures result == InitialResult(fields)
    {
      var req := ParsePost(post).value;
      this.queryset := queryset;
      this.fields := fields;
      this.exclude := [];
      this.post := post;
      this.search := req.search;
      this.page := req.page;
      this.limit := req.limit;
      this.sidx := req.sidx;
      this.sord := req.sord;
      this.count := None;
      this.totalPages := None;
      this.start := None;
      this.result := InitialResult(fields);
      this.appLabel := appLabel;
      this.modelName := modelName;
      this.model := model;
      this.inline := inline;
      this.readonly := readonly;
      this.description := description;
      this.urlPrefix := urlPrefix;
      this.formats := formats;
    }

    /** `Grid.related_filter`. */
    method RelatedFilter(field: string, token: string) returns (outcome: Outcome<PyError>)
      modifies this`queryset
      ensures queryset.window == old(queryset).window && queryset.ordering == old(queryset).ordering
      ensures match RelatedClause(description, modelName, field, token)
        case Failure(e) => outcome == Fail(e) && queryset == old(queryset)
        case Success(None) => outcome == Pass && queryset == old(queryset)
        case Success(Some(c)) => outcome == Pass && queryset == old(queryset).(filters := old(queryset).filters + [c])
    {
      match RelatedClause(description, modelName, field, token) {
        case Failure(e) =>
          outcome := Fail(e);
        case Success(None) =>
          outcome := Pass;
        case Success(Some(c)) =>
          queryset := queryset.(filters := queryset.filters + [c]);
          outcome := Pass;
      }
    }

    /** `Grid.date_filter`. */
    method DateFilter(field: string, token: string)
      modifies this`queryset
      ensures queryset == old(queryset).(filters := old(queryset).filters + [DateClause(field, token, formats.dateFormat)])
    {
      queryset := queryset.(filters := queryset.filters + [DateClause(field, token, formats.dateFormat)]);
    }

    /** `Grid.common_filter`: the lookup map is built by one pass over the
      postback and applied as one filter; a ValueError leaves the queryset
      as it was. */
    method CommonFilter() returns (outcome: Outcome<PyError>)
      requires Described()
      modifies this`queryset
      ensures match CommonLookups(post, fields, exclude, model)
        case Failure(e) => outcome == Fail(e) && queryset == old(queryset)
        case Success(m) => outcome == Pass && queryset == old(queryset).(filters := old(queryset).filters + [Lookups(m)])
      ensures queryset.window == old(queryset).window && queryset.ordering == old(queryset).ordering
    {
      var hash: map<string, Term> := map[];
      var todo := post.Keys;
      KeysDetermineParameter(post);
      while todo != {}
        invariant todo <= post.Keys
        invariant forall p :: Eligible(p, post, fields, exclude) && p !in todo ==>
          ParamLookup(p, post, model).Success?
          && SearchKey(p, post[p]) in hash
          && hash[SearchKey(p, post[p])] == ParamLookup(p, post, model).value.1
        invariant forall k :: k in hash ==>
          exists p :: Eligible(p, post, fields, exclude) && p !in todo && k == SearchKey(p, post[p])
        decreases |todo|
      {
        var p :| p in todo;
        if p in fields && p !in exclude {
          match ParamLookup(p, post, model) {
            case Failure(e) =>
              return Fail(e);
            case Success(kv) =>
              hash := hash[kv.0 := kv.1];
          }
        }
        todo := todo - {p};
      }
      CommonHashComplete(post, fields, exclude, model, hash);
      queryset := queryset.(filters := queryset.filters + [Lookups(hash)]);
      outcome := Pass;
    }

    /** `Grid.filter`: without `_search=true` nothing happens; otherwise each
      relation and date field in the postback is excluded and gets its own
      filter, in field order, and then the common lookups are applied. */
    method Filter() returns (outcome: Outcome<PyError>)
      requires Described()
      modifies this`queryset, this`exclude
      ensures queryset.window == old(queryset).window && queryset.ordering == old(queryset).ordering
      ensures !search ==> outcome == Pass && queryset == old(queryset) && exclude == old(exclude)
      ensures search ==>
        match RoutedFilters(fields, post, model, description, modelName, formats.dateFormat)
        case Failure(e) => outcome == Fail(e)
        case Success(routed) =>
          && exclude == old(exclude) + RoutedFields(fields, post, model)
          && match CommonLookups(post, fields, exclude, model)
             case Failure(e) => outcome == Fail(e)
             case Success(m) =>
               outcome == Pass && queryset == old(queryset).(filters := old(queryset).filters + routed + [Lookups(m)])
    {
      if !search {
        return Pass;
      }
      outcome := RouteFilters();
      if outcome.Fail? {
        return;
      }
      outcome := CommonFilter();
    }

    /** The loop of `Grid.filter` over the grid fields. */
    method RouteFilters() returns (outcome: Outcome<PyError>)
      requires Described()
      modifies this`queryset, this`exclude
      ensures queryset.window == old(queryset).window && queryset.ordering == old(queryset).ordering
      ensures match RoutedFilters(fields, post, model, description, modelName, formats.dateFormat)
        case Failure(e) => outcome == Fail(e)
        case Success(routed) =>
          && outcome == Pass
          && exclude == old(exclude) + RoutedFields(fields, post, model)
          && queryset == old(queryset).(filters := old(queryset).filters + routed)
    {
      var i := 0;
      ghost var doneF: seq<Filter> := [];
      ghost var doneX: seq<string> := [];
      while i < |fields|
        invariant 0 <= i <= |fields|
        invariant AllDescribed(fields[..i], model)
        invariant RoutedFilters(fields[..i], post, model, description, modelName, formats.dateFormat) == Success(doneF)
        invariant doneX == RoutedFields(fields[..i], post, model)
        invariant exclude == old(exclude) + doneX
        invariant queryset == old(queryset).(filters := old(queryset).filters + doneF)
      {
        var o := RouteField(fields[i]);
        if o.Fail? {
          RoutedFailsAt(fields, i, post, model, description, modelName, formats.dateFormat, doneF);
          return o;
        }
        RoutedExtends(fields, i, post, model, description, modelName, formats.dateFormat, doneF, doneX);
        ghost var gs := FieldRoute(fields[i], post, model, description, modelName, formats.dateFormat).value;
        ghost var more := if fields[i] in post && IsRouted(model.fields[fields[i]].kind) then [fields[i]] else [];
        assert old(queryset).filters + doneF + gs == old(queryset).filters + (doneF + gs);
        assert old(exclude) + doneX + more == old(exclude) + (doneX + more);
        doneF, doneX := doneF + gs, doneX + more;
        i := i + 1;
      }
      assert fields[..i] == fields;
      outcome := Pass;
    }

    /** One pass of the loop of `Grid.filter`: a relation or date field in
      the postback is excluded from the common lookups and filtered on its
      own. */
    method RouteField(field: string) returns (outcome: Outcome<PyError>)
      requires field in model.fields
      modifies this`queryset, this`exclude
      ensures queryset.window == old(queryset).window && queryset.ordering == old(queryset).ordering
      ensures match FieldRoute(field, post, model, description, modelName, formats.dateFormat)
        case Failure(e) => outcome == Fail(e)
        case Success(gs) =>
          && outcome == Pass
          && exclude == old(exclude) + (if field in post && IsRouted(model.fields[field].kind) then [field] else [])
          && queryset == old(queryset).(filters := old(queryset).filters + gs)
    {
      outcome := Pass;
      if field in post {
        var kind := model.fields[field].kind;
        var token := post[field];
        if kind in RelatedFields {
          exclude := exclude + [field];
          outcome := RelatedFilter(field, token);
        } else if kind in DateFields {
          exclude := exclude + [field];
          DateFilter(field, token);
        }
      }
    }

    /** `Grid.order`. */
    method Order()
      modifies this`queryset
      ensures queryset.filters == old(queryset).filters && queryset.window == old(queryset).window
      ensures OrderKey(sidx, sord).None? ==> queryset == old(queryset)
      ensures OrderKey(sidx, sord).Some? ==> queryset == old(queryset).(ordering := OrderKey(sidx, sord))
    {
      if sidx != "" {
        if sord == "asc" {
          queryset := queryset.(ordering := Some("-" + sidx));
        } else {
          queryset := queryset.(ordering := Some(sidx));
        }
      }
    }

    /** `Grid.aggregate`: every total-class grid field whose sum exists over
      the selected records gets it in the userdata, replacing what was
      there; the rest of the userdata stays. */
    method Aggregate(db: Database)
      requires Described()
      modifies this`result
      ensures var summed := SummedFields(fields, model, Evaluate(db, queryset));
        && result == old(result).(userdata := result.userdata)
        && result.userdata.Keys == old(result).userdata.Keys + summed
        && (forall f :: f in summed ==> result.userdata[f] == SumOf(f))
        && (forall f :: f in old(result).userdata && f !in summed ==> result.userdata[f] == old(result).userdata[f])
    {
      var records := Evaluate(db, queryset);
      var i := 0;
      while i < |fields|
        invariant 0 <= i <= |fields|
        invariant result == old(result).(userdata := result.userdata)
        invariant result.userdata.Keys == old(result).userdata.Keys + SummedFields(fields[..i], model, records)
        invariant forall f :: f in SummedFields(fields[..i], model, records) ==> result.userdata[f] == SumOf(f)
        invariant forall f :: f in old(result).userdata && f !in SummedFields(fields[..i], model, records) ==>
          result.userdata[f] == old(result).userdata[f]
      {
        var field := fields[i];
        assert fields[..i + 1] == fields[..i] + [field];
        if model.fields[field].kind in TotalFields && HasSum(records, field) {
          result := result.(userdata := result.userdata[field := SumOf(field)]);
        }
        i := i + 1;
      }
      assert fields[..i] == fields;
    }

    /** `Grid.paginate`: counts the selected records, computes the page
      count (a zero page size raises), clamps the page from above, and
      slices out the page (a negative bound raises). */
    method Paginate(db: Database) returns (outcome: Outcome<PyError>)
      requires queryset.window.None?
      modifies this`count, this`totalPages, this`page, this`start, this`queryset, this`result
      ensures var n := |Evaluate(db, old(queryset))|;
        && count == Some(n)
        && match TotalPages(n, limit)
           case Failure(e) =>
             outcome == Fail(e) && page == old(page) && queryset == old(queryset) && result == old(result)
           case Success(t) =>
             var p := ClampPage(old(page), t);
             var lo := PageStart(limit, p);
             && totalPages == Some(t) && page == p && start == Some(lo)
             && match Slice(Evaluate(db, old(queryset)), lo, lo + limit)
                case Failure(e) => outcome == Fail(e) && queryset == old(queryset) && result == old(result)
                case Success(shown) =>
                  && outcome == Pass
                  && queryset == old(queryset).(window := Some((lo as nat, (lo + limit) as nat)))
                  && Evaluate(db, queryset) == shown
                  && result == old(result).(page := Some(p), total := Some(t), records := Some(n))
    {
      var n := |Evaluate(db, queryset)|;
      count := Some(n);
      var t: int;
      match TotalPages(n, limit) {
        case Failure(e) =>
          return Fail(e);
        case Success(v) =>
          t := v;
      }
      totalPages := Some(t);
      if page > t {
        page := t;
      }
      var lo := limit * page - limit;
      start := Some(lo);
      if lo < 0 || lo + limit < 0 {
        return Fail(AssertionError("Negative indexing is not supported."));
      }
      queryset := queryset.(window := Some((lo as nat, (lo + limit) as nat)));
      result := result.(page := Some(page), total := Some(t), records := Some(n));
      outcome := Pass;
    }

    /** The filter and order steps of `Grid.get_data`: the queryset becomes
      the grid's selection, or filtering raises. */
    method Select() returns (outcome: Outcome<PyError>)
      requires Described()
      modifies this`queryset, this`exclude
      ensures match Selection(Config(), old(queryset), old(exclude))
        case Failure(e) => outcome == Fail(e)
        case Success(sel) =>
          && outcome == Pass && queryset == sel
          && exclude == old(exclude) + (if search then RoutedFields(fields, post, model) else [])
      ensures queryset.window == old(queryset).window
    {
      ghost var c := Config();
      ghost var qs0, ex0 := queryset, exclude;
      outcome := Filter();
      if outcome.Fail? {
        assert SearchFilters(c, ex0) == Failure(outcome.error);
        return;
      }
      ghost var added := SearchFilters(c, ex0).value;
      assert queryset == qs0.(filters := qs0.filters + added) by {
        if search {
          ghost var routed := RoutedFilters(fields, post, model, description, modelName, formats.dateFormat).value;
          ghost var m := CommonLookups(post, fields, exclude, model).value;
          assert added == routed + [Lookups(m)];
          assert qs0.filters + routed + [Lookups(m)] == qs0.filters + added;
        } else {
          assert qs0.filters + added == qs0.filters;
          assert ex0 + [] == ex0;
        }
      }
      Order();
    }

    /** The grid's configuration. */
    function Config(): GridConfig {
      GridConfig(fields, post, search, limit, sidx, sord, model, inline, readonly, description, modelName, formats)
    }

    /** `Grid.get_data`: filter, order, sum, paginate, then one row of cells
      per record of the page, in order. */
    method GetData(db: Database) returns (r: Result<GridResult, PyError>)
      requires Described()
      requires queryset.window.None?
      modifies this`queryset, this`exclude, this`count, this`totalPages, this`page, this`start, this`result
      ensures match DataError(db, Config(), old(queryset), old(exclude), old(page))
        case Some(e) => r == Failure(e)
        case None =>
          && r == Success(result)
          && IsGridData(result, db, Config(), old(queryset), old(exclude), old(page), old(result))
          && var sel := Selection(Config(), old(queryset), old(exclude)).value;
             var v := PageOf(Evaluate(db, sel), limit, old(page)).value;
             && queryset == sel.(window := Some((v.start, (v.start + limit) as nat)))
             && count == Some(|Evaluate(db, sel)|) && page == v.page
             && totalPages == Some(v.total) && start == Some(v.start as int)
             && exclude == old(exclude) + (if search then RoutedFields(fields, post, model) else [])
    {
      var o := Select();
      if o.Fail? {
        return Failure(o.error);
      }
      r := Present(db);
    }

    /** The aggregate, paginate and row steps of `Grid.get_data` on the
      selected queryset. */
    method Present(db: Database) returns (r: Result<GridResult, PyError>)
      requires Described()
      requires queryset.window.None?
      modifies this`queryset, this`count, this`totalPages, this`page, this`start, this`result
      ensures var all := Evaluate(db, old(queryset));
        match PageOf(all, limit, old(page))
        case Failure(e) => r == Failure(e)
        case Success(v) =>
          var summed := SummedFields(fields, model, all);
          && r == Success(result)
          && result.userdata.Keys == old(result).userdata.Keys + summed
          && (forall f :: f in summed ==> result.userdata[f] == SumOf(f))
          && (forall f :: f in old(result).userdata && f !in summed ==> result.userdata[f] == old(result).userdata[f])
          && result.page == Some(v.page) && result.total == Some(v.total) && result.records == Some(|all|)
          && result.rows.Some? && |result.rows.value| == |v.shown|
          && (forall i :: 0 <= i < |v.shown| ==>
                RowOf(result.rows.value[i], v.shown[i], fields, model, inline, readonly, formats))
          && queryset == old(queryset).(window := Some((v.start, (v.start + limit) as nat)))
          && count == Some(|all|) && page == v.page
          && totalPages == Some(v.total) && start == Some(v.start as int)
    {
      ghost var all, page0 := Evaluate(db, queryset), page;
      Aggregate(db);
      var o := Paginate(db);
      if o.Fail? {
        assert PageOf(all, limit, page0).Failure?;
        return Failure(o.error);
      }
      ghost var t, lo, shown := totalPages.value, start.value, Evaluate(db, queryset);
      PageOfParts(all, limit, page0, t, page, lo, shown);
      var rows := RenderRows(Evaluate(db, queryset));
      result := result.(rows := Some(rows));
      r := Success(result);
    }

    /** The row loop of `Grid.get_data`: one row per record, in order. */
    method RenderRows(items: seq<Record>) returns (rows: seq<seq<Cell>>)
      requires Described()
      ensures |rows| == |items|
      ensures forall i :: 0 <= i < |items| ==> RowOf(rows[i], items[i], fields, model, inline, readonly, formats)
    {
      rows := [];
      var i := 0;
      while i < |items|
        invariant 0 <= i <= |items|
        invariant |rows| == i
        invariant forall j :: 0 <= j < i ==> RowOf(rows[j], items[j], fields, model, inline, readonly, formats)
      {
        var cells := RenderRow(items[i], fields, model, inline, readonly, formats);
        rows := rows + [cells];
        i := i + 1;
      }
    }
  }
}
