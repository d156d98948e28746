# django-jqgrid-playground: the grid, its resource, and the AED controller

This project models three pieces of a Django application that serves an
editable jqGrid table:

- **The grid helper** (`Grid` in djgrid/grid.py). It reads jqGrid's
  postback: page, page size, sort column and direction, search switch, and
  one search token per column. From it the grid narrows a queryset by
  search, orders it, sums the numeric columns, cuts out one page, and
  renders each record of the page as a row of cells. It also builds the
  grid's column model.
- **The grid resource** (`GridResource` and `GridResourceOptions` in
  djgrid/resources.py). Its options come from a `Meta` class over the
  defaults. It derives a model's field, plugin, safe and type lists from the
  per-model `description`. Its views serve the index redirect, the grid
  page with its column structure and data, and inline edits. Every view
  except the index is behind a superuser guard.
- **The add/edit/delete controller** (`AED` in aed.py). It holds
  callbacks, messages and redirects. It dispatches one request to deletion,
  form processing or form display, and records what it did.

The Django ORM does not run in the model. A queryset is the list of
filters, the ordering and the slice applied to it (`DjGrid.QuerySet`). The
records it selects come from a database function that the operations take
as a parameter (`DjGrid.Database`). The schema is a map from field name to
field class, primary-key flag, editability and verbose name
(`FieldKinds.ModelInfo`). The form is an oracle (`Web.FormClass`). It
gives the form's fields, whether the posted data validates, the errors it
reports, and the instance `save()` returns. What the controller does to the
world (callbacks, messages, save, delete) is an ordered effect log
(`Aed.Effect`).

Where the code and its description differ, the model follows the code:

- **Page count.** The code is Python 2, so `count / limit` is integer
  division and `math.ceil` does nothing. 25 records at 10 per page make 3
  pages, not 4. 20 records make 3 pages too, and the last one is empty
  (`GridPaging.TotalPagesExamples`, `GridPaging.TrailingEmptyPage`).
- **No lower page clamp.** Page numbers are clamped only from above. With
  a page below 1 the slice bound is negative, and Django refuses it with an
  AssertionError (`GridPaging.PageBelowOneFails`).
- **Foreign-key cells.** The format string at djgrid/grid.py:276 has three
  `%s` and two arguments, so it always raises. A foreign-key or one-to-one
  cell is therefore always the related object's display text.
- **Time cells.** `datetime.strftime` is the method `datetime` inherits from
  `date`. It accepts only date and datetime values, so a `TimeField` cell
  always renders `'undefined'`.
- **The index view.** It is not behind the superuser guard; only the list,
  inline and action views are.
- **Sort direction.** 'asc' orders by `'-' + sidx`, which is descending.

## Model

| member | source | states |
|---|---|---|
| GridSearch.ConstructSearch | djgrid/grid.py:155-173 | fails with ValueError exactly when the field is of an integer class and `int()` rejects the operand, or of a float class and `float()` rejects it; otherwise the key is the field plus the suffix of the leading operator, and the value is the coerced operand |
| GridSearch.Coerce | djgrid/grid.py:156-161 | `int` fails with ValueError exactly for text that is not, once stripped of whitespace, a run of decimal digits after an optional sign and any whitespace following that sign, and otherwise yields the spelled integer; `float` fails with ValueError exactly for text that is not, once stripped of whitespace and an optional sign, a decimal literal (digits with at most one point and an optional exponent) or `inf`, `infinity` or `nan` in any case; text coercion always succeeds and keeps the text |
| GridSearch.OperatorTable | djgrid/grid.py:162-173 | `^ = $ > <` give `__istartswith`, `__iexact`, `__iendswith`, `__gt`, `__lt` and drop the first character; any other token gives `__icontains` on the whole token |
| GridSearch.OperandRoundTrip | djgrid/grid.py:162-173 | the operator character followed by the operand is the token again |
| GridSearch.ParseBuiltToken | djgrid/grid.py:162-173 | a token built from an operator and an operand parses back to both |
| GridSearch.IntegerSearch | djgrid/grid.py:156-157 | for an integer-class field (BooleanField included), a token built from any integer yields that integer under the operator's key |
| GridSearch.NonIntegerSearch | djgrid/grid.py:156-161 | for a field of no integer class the search fails exactly when the field is of a float class and `float()` rejects the operand; an operand `int()` accepts is accepted by a float-class field too, unless whitespace follows its sign |
| GridSearch.SearchKeyInjective | djgrid/grid.py:162-173 | a lookup key determines its field and operator |
| GridPaging.TotalPages | djgrid/grid.py:227-234 | 1 without records; otherwise the floor quotient plus one; ZeroDivisionError exactly for a zero page size with records |
| GridPaging.TotalPagesCover | djgrid/grid.py:227-234 | with a positive page size there is at least one page, and the last page starts at or before the count and ends after it |
| GridPaging.RecordOnSomePage | djgrid/grid.py:227-234 | record i lies on page i div limit + 1, which exists |
| GridPaging.TrailingEmptyPage | djgrid/grid.py:231-232 | when the count is a positive multiple of the page size, the last page starts at the count, so it is empty |
| GridPaging.TotalPagesExamples | djgrid/grid.py:227-234 | 25 and 20 records at 10 per page give 3 pages; no records give 1 |
| GridPaging.ClampPage | djgrid/grid.py:323-324 | the page is at most the page count and changes only when it was above it |
| GridPaging.Slice | djgrid/grid.py:327 | a negative bound is refused; otherwise the clipped slice of the records |
| GridPaging.ShownPage | djgrid/grid.py:325-327 | with a positive page size and a page from 1 on, the slice succeeds and holds at most a page of records, exactly the page's run when it fits |
| GridPaging.PageBelowOneFails | djgrid/grid.py:323-327 | a page below 1 makes the slice fail: there is no lower clamp |
| GridRender.BooleanCells | djgrid/grid.py:269-273 | a boolean cell is 1 exactly when the value equals True, else 0 |
| GridRender.RelatedCellsAreText | djgrid/grid.py:274-278 | a relation cell is always the related object's display text |
| GridRender.FileCells | djgrid/grid.py:279-283 | a file cell is the stored name, null when that name is None, and 'undefined' only for a value with no `name` attribute |
| GridRender.DateCells | djgrid/grid.py:254-268 | a date-class cell is the value formatted with its class's pattern, or 'undefined' for anything but a date or datetime and for a date or datetime before the year 1900, whose `strftime` raises ValueError in Python 2.7 |
| GridRender.UnlistedPassThrough | djgrid/grid.py:253-284 | classes `analize` does not list come back unchanged |
| GridRender.HandledCellsAreScalars | djgrid/grid.py:253-284 | every class `analize` handles yields a JSON scalar |
| GridRender.RenderRow | djgrid/grid.py:346-366 | one row is the primary key when inline, then one rendered cell per field in order, then the action links unless read-only |
| GridColumns.ColumnFormatter | djgrid/grid.py:136-139 | `safe` wins over the number formatter of float-class fields |
| GridColumns.EditableIsInlineEditable | djgrid/grid.py:134 | a column is editable exactly when the grid is inline and the field passes the inline view's test |
| GridColumns.MakeColumnStructure | djgrid/grid.py:111-153 | fails on the first field the model lacks; otherwise the model and names have equal length `offset + len(fields) + (0 or 1)`, with the key column first when inline, one column per field in order, and the actions column last unless read-only |
| DjGrid.ParsePost | djgrid/grid.py:73-81 | succeeds exactly when `_page` and `_rows` are present integers and `_sidx` and `_sord` are present; any failure is the one ImproperlyConfigured; search is on only for `_search == 'true'` |
| DjGrid.ParseEncodedPost | djgrid/grid.py:73-81 | the postback written for a request reads back as that request |
| DjGrid.ParseInit | djgrid/grid.py:73-89 | as ParsePost, and IndexError when the grid has no fields |
| DjGrid.OrderKey | djgrid/grid.py:305-310 | no key for an empty `sidx`; `'-' + sidx` for 'asc'; `sidx` otherwise |
| DjGrid.OrderSenseInverted | djgrid/grid.py:307-310 | for a plain column the order is descending exactly when 'asc' is requested |
| DjGrid.RoutedFieldsMembers | djgrid/grid.py:289-301 | the excluded fields are exactly the grid fields in the postback whose class is a relation or a date |
| DjGrid.RelatedLookups | djgrid/grid.py:221 | one key per configured sub-field (`field__sub` plus the operator suffix), each holding the operand as text |
| DjGrid.RelatedLookupsOnePerSubField | djgrid/grid.py:221-222 | the OR has exactly as many lookups as there are distinct sub-fields |
| DjGrid.RelatedClause | djgrid/grid.py:215-225 | no configuration means no filter; an empty sub-field list raises TypeError; otherwise one OR filter over the sub-field lookups |
| DjGrid.DateClause | djgrid/grid.py:196-213 | exactly a `__gte` start of day and a `__lte` 23:59:59 end of day, both parsed with the date format |
| DjGrid.FieldRoute | djgrid/grid.py:290-301 | a field absent from the postback or of another class adds nothing; at most one filter per field |
| DjGrid.CommonLookups | djgrid/grid.py:180-186 | fails with ValueError exactly when some eligible parameter cannot be coerced, by `int()` for an integer-class field or by `float()` for a float-class one |
| DjGrid.CommonLookupsFailure | djgrid/grid.py:181-186 | it fails exactly when an eligible integer-class parameter has an operand `int()` rejects, or an eligible float-class parameter one `float()` rejects |
| DjGrid.CommonLookupsContents | djgrid/grid.py:181-186 | its keys are the lookup keys of the postback parameters that are grid fields and not excluded, each holding that parameter's coerced operand |
| DjGrid.CommonLookupsOnePerParameter | djgrid/grid.py:181-186 | exactly one lookup per eligible parameter |
| DjGrid.CommonMapSkipsRouted | djgrid/grid.py:289-303 | once the routed fields are excluded, no relation or date field reaches the common lookup map |
| DjGrid.Grid.constructor | djgrid/grid.py:51-108 | the grid holds the parsed postback, an empty exclude list, no count, page total or start, and userdata labelling the first field 'Totals' |
| DjGrid.Grid.RelatedFilter | djgrid/grid.py:215-225 | the queryset gains the relation's OR filter, stays as it was without configuration, or the call fails with TypeError |
| DjGrid.Grid.DateFilter | djgrid/grid.py:196-213 | the queryset gains the day-range filter |
| DjGrid.Grid.CommonFilter | djgrid/grid.py:176-193 | on success the queryset gains one filter holding the common lookup map; a coercion failure leaves it unchanged and raises ValueError |
| DjGrid.Grid.Filter | djgrid/grid.py:286-303 | without search nothing changes; otherwise the routed fields are appended to `exclude` in order, their filters applied in order, then the common filter |
| DjGrid.Grid.RouteFilters | djgrid/grid.py:289-301 | the loop appends the routed fields and their filters in field order and stops at the first failure |
| DjGrid.Grid.RouteField | djgrid/grid.py:290-301 | one field of the loop: routed fields are excluded and filtered, others leave the state alone |
| DjGrid.Grid.Order | djgrid/grid.py:305-310 | the ordering becomes the order key when there is one; filters and slice are untouched |
| DjGrid.Grid.Aggregate | djgrid/grid.py:312-318 | userdata gains a sum exactly for the total-class fields whose sum exists over the selected records; other entries are unchanged |
| DjGrid.Grid.Paginate | djgrid/grid.py:320-330 | the count is the number of selected records, the page is clamped, the start is `limit*page - limit`, the slice is `[start, start+limit)`, and page, total and records are stored in the result; the zero-division and negative-slice failures are reported |
| DjGrid.UnsearchedSelection | djgrid/grid.py:286-288 | without `_search=true` the selection is the given queryset, only reordered |
| DjGrid.PageOf | djgrid/grid.py:320-330 | the page count, the clamped page, its offset and its records, or the division or slice error; a page that succeeds has a non-negative offset and end |
| DjGrid.PageWindow | djgrid/grid.py:325-327 | the page is the run of selected records from its offset, at most `limit` long, and exactly `limit` long when the records reach past its end |
| DjGrid.GridDataRows | djgrid/grid.py:332-366 | the rows of the grid data render the selected records from the page's offset on, in order, at most `limit` of them, and a full page when the selection reaches past it |
| DjGrid.Grid.Select | djgrid/grid.py:286-310 | filtering then ordering leaves exactly the Selection of the starting queryset and excludes: the search filters (none without search; otherwise the routed filters in field order, then one filter of the common lookups over the parameters not excluded) after the old ones, ordered by the order key when there is one, with the routed fields appended to the excludes under search; or it raises the first error of filtering |
| DjGrid.Grid.Present | djgrid/grid.py:312-366 | on the selected records: the PageOf error, or the userdata sums of Aggregate, page, page count and record count of PageOf, the page count and offset stored on the grid, and one rendered row per record of the page, in order |
| DjGrid.Grid.GetData | djgrid/grid.py:332-368 | raises exactly the error of filtering or paging (DataError); otherwise returns its result, which is IsGridData of the starting queryset, excludes, page and userdata: sums for the summed total-class fields, the other userdata kept, the clamped page, page count and record count, and one row per record of the page. The grid keeps the page count, the offset and the excludes with the routed fields appended. The queryset is the selection cut to the page's window, and the count is the selection's size |
| DjGrid.Grid.RenderRows | djgrid/grid.py:342-366 | one row per record, in order |
| Resources.NewOptions | djgrid/resources.py:48-57 | the options are the defaults overridden by the public `Meta` attributes |
| Resources.PublicAttributes | djgrid/resources.py:52-55 | the loop over `dir(meta)` collects exactly the attributes whose names do not start with an underscore, with their values |
| Resources.OptionsLookup | djgrid/resources.py:48-57 | a name is overridden exactly when `Meta` has it and it does not start with `_`; every other option keeps its default |
| Resources.NoMetaDefaults | djgrid/resources.py:30-46 | without `Meta` the options are the class defaults, and they read as the default settings |
| Resources.Check | djgrid/resources.py:73-79 | a user who is not a superuser is redirected to '/'; a superuser gets the view's answer |
| Resources.CheckIgnoresView | djgrid/resources.py:73-79 | for a user who is not a superuser the answer does not depend on the view |
| Resources.GetFieldList | djgrid/resources.py:109-122 | computes the field list: the configured fields or all model fields, less each exclude by its first occurrence, ValueError for an absent exclude |
| Resources.FieldListExcludes | djgrid/resources.py:118-120 | it fails exactly when the excludes, counted with repetitions, are not all among the fields; otherwise it removes exactly those occurrences |
| Resources.UndescribedShowsAll | djgrid/resources.py:113-116 | a model without description shows all its fields |
| Resources.RemoveFirst | djgrid/resources.py:120 | `remove` fails exactly when the name is absent |
| Resources.RemoveFirstAt | djgrid/resources.py:120 | `remove` drops the first occurrence and keeps the order of the rest |
| Resources.RemoveEachCounts | djgrid/resources.py:119-120 | the exclude loop succeeds exactly when the multiset of excludes is within the list, and leaves the multiset difference |
| Resources.PluginListCases | djgrid/resources.py:125-135 | a `str` spelling 'all' in any case gives all model fields, any other `str` none, a list itself, anything else or nothing none |
| Resources.SafeListCases | djgrid/resources.py:138-144 | the configured safe list, or none |
| Resources.FieldTypes | djgrid/resources.py:146-147 | the class of each listed field, or FieldDoesNotExist for the first unknown one |
| Resources.InlineSelectionMembers | djgrid/resources.py:253-258 | a field is selected exactly when it is listed and the grid would mark its column editable in an inline grid |
| Resources.InlineFields | djgrid/resources.py:253-258 | the selection in list order, or FieldDoesNotExist for the first unknown field |
| Resources.IndexView | djgrid/resources.py:158-167 | 'no registered models' when nothing is registered, IndexError for a short entry, otherwise a redirect to the list view of the first registered pair |
| Resources.ListView | djgrid/resources.py:169-239 | the guard, then 'not registered' for an unregistered pair; field-list and field-type errors propagate; GET raises IndexError when some registered entry is shorter than a pair or the field list is empty, and otherwise renders the grid page with the first field as sort key; a POST with `initial` gets the column structure; any other POST gets the postback error, or the error DataError names for a grid over all records, or otherwise exactly IsGridData for that grid, starting from the 'Totals' userdata |
| Resources.ObjectOr404 | djgrid/resources.py:250-251 | the instance the posted key names, or Http404 |
| Resources.Inline | djgrid/resources.py:241-277 | the guard; 'operation is not allowed' unless a POST to an inline resource; otherwise the errors of the field list, the instance lookup and the field selection, or `{"status": "ok"}` after an AJAX edit whose only effect is saving a valid form |
| Aed.GetObject | aed.py:203-211 | a truthy id must name a stored instance, or Http404; otherwise a new instance |
| Aed.CheckAjax | aed.py:197-201 | AJAX mode is the request's flag or the forced flag |
| Aed.Dispatch | aed.py:277-282 | deletion exactly for a truthy id with the 'delete' action; otherwise POST processing for a POST and form display for anything else |
| Aed.DeleteIgnoresMethod | aed.py:277-278 | a delete request is a deletion whatever its HTTP method |
| Aed.DeleteResponseCases | aed.py:236-241 | a set delete redirect wins even in AJAX mode; otherwise '../../' without AJAX and the success object with it |
| Aed.PostSuccessCases | aed.py:298-307 | AJAX mode ignores redirects; otherwise the add redirect for a falsy id and the edit redirect for a truthy one, each falling back to the object's URL |
| Aed.EmptyIdMismatch | aed.py:292-304 | an empty id counts as an edit for callbacks (`is not None`) but as an add for the redirect (truthiness) |
| Aed.RemoveUnusedSucceeds | aed.py:243-253 | removal succeeds exactly when the unused fields are distinct, present and optional, and then removes exactly them |
| Aed.DuplicateUnusedFails | aed.py:247-248 | a field listed twice is removed once and then raises KeyError |
| Aed.BaseContextEntries | aed.py:259-267 | the context holds form, id, object and AJAX flag; with an id the edit and delete URLs that are truthy; without one the add URL if truthy; nothing else |
| Aed.AED.constructor | aed.py:89-117 | the initial state: empty registries, no redirects, success `{'result': 'OK', 'msg': 'reload'}`, failure `{'result': 'Fail'}`, AJAX by CheckAjax, and the object GetObject finds |
| Aed.AED.AddACallback | aed.py:119-123 | appends to the add callbacks |
| Aed.AED.AddECallback | aed.py:125-129 | appends to the edit callbacks |
| Aed.AED.AddDCallback | aed.py:131-135 | appends to the delete callbacks |
| Aed.AED.AddARedirect | aed.py:137-141 | overwrites the add redirect |
| Aed.AED.AddERedirect | aed.py:143-147 | overwrites the edit redirect |
| Aed.AED.AddDRedirect | aed.py:149-153 | overwrites the delete redirect |
| Aed.AED.AddAMessages | aed.py:155-160 | appends the messages in order |
| Aed.AED.AddEMessages | aed.py:162-167 | appends the messages in order |
| Aed.AED.AddDMessages | aed.py:169-174 | appends the messages in order |
| Aed.AED.SetResultSuccess | aed.py:176-181 | replaces the success object |
| Aed.AED.SetResultFail | aed.py:183-188 | replaces the failure object |
| Aed.AED.SetUnusedFields | aed.py:190-195 | replaces the unused-field list |
| Aed.AED.ProcessCallbacks | aed.py:213-219 | each callback is called once, in order, with the current object and form |
| Aed.AED.ProcessMessages | aed.py:221-227 | each message is added once, in order |
| Aed.AED.DeleteObject | aed.py:229-241 | the delete callbacks, then the deletion, then the delete messages; the answer is DeleteResponseCases's |
| Aed.AED.RemoveUnusedFields | aed.py:243-253 | in list order: KeyError for an absent field, ImproperlyConfigured for a required one, otherwise the fields without the unused ones |
| Aed.AED.GetContext | aed.py:255-271 | the base context with every extra entry overriding a base entry of the same key |
| Aed.AED.ProcessPost | aed.py:284-314 | a bound form less the unused fields; valid data is saved, then the edit (id not None) or add callbacks and messages run, and the answer follows PostSuccessCases; invalid data saves nothing and re-renders, or under AJAX answers the failure object with `msg` set to the errors |
| Aed.AED.ProcessGet | aed.py:316-326 | an unbound form with the extra initial values less the unused fields, rendered with the context |
| Aed.AED.ProcessRequest | aed.py:273-282 | the route Dispatch picks, with that route's answer and state |
| PyText.LowerIsAll | djgrid/resources.py:131 | a string lower-cases to 'all' exactly when it spells 'all' in any mix of cases |
| PyText.ParseShowInt | djgrid/grid.py:76-77 | `int()` reads back what `unicode()` writes for any integer |
| PyText.IntTextIsFloatText | djgrid/grid.py:156-159 | every text `int()` accepts without whitespace after its sign, `float()` accepts too |
| PyText.SpacedSignInt | djgrid/grid.py:156-157 | `int()` skips whitespace after the sign: a minus sign, whitespace and digits read as the negated number |
| PyText.SpacedSignNotFloat | djgrid/grid.py:159 | `float()` does not: a minus sign followed by whitespace and digits is rejected |
| PyText.LeadingLetterNotFloat | djgrid/grid.py:159 | `float()` rejects a text whose first character is not a digit, a sign, a point or the start of `inf` or `nan` |

## Left out

- Django ORM execution is not modelled. Filtering, ordering, slicing, `count` and `Sum` are symbolic. The records a queryset selects come from the database parameter, and a lookup is a key and a typed term, not SQL.
- `DjGrid.Grid.CommonFilter`: the `try` around `queryset.filter(**filter_hash)` swallows ORM errors. The model always applies the filter, because the ORM's own errors are not modelled.
- `GridRender.FormatDate`: it models the two raises of `strftime` that do not depend on the platform: the TypeError for a value that is not a date or datetime, and the ValueError for a year before 1900. A pattern that the platform's C `strftime` rejects is not modelled, and neither is the formatted text.
- `DjGrid.DateClause`: it does not model `strptime` failures, or the `time.strptime` fallback that raises ValueError for a token the date format rejects. Date parsing and formatting are outside the model: a date term keeps its text and pattern, and a formatted cell keeps its value and pattern.
- Float values and float totals are not modelled. A float term keeps its text, and a total names its column, not its value. Which texts `float()` accepts is modelled (`PyText.FloatText`).
- `GridSearch.ConstructSearch`, `GridSearch.Coerce`, `DjGrid.CommonLookups` and `DjGrid.ParsePost`: `int()` and `float()` are modelled for ASCII text. They strip only ASCII whitespace and read only ASCII digits, while Python 2's `int(unicode)` and `float(unicode)` also accept other Unicode decimal digits and whitespace.
- `GridColumns.MakeColumnStructure`: the column name is the verbose name through `lower()`, which is modelled for ASCII letters only. A verbose name is usually a unicode string, whose `lower()` also lower-cases other letters; the model leaves those unchanged. The plugin check of the resource applies `lower()` to a byte `str`, where Python 2 changes only ASCII letters, as modelled.
- The postback is a Django QueryDict that can hold several values per key. It is modelled as a map from each key to the single value `post[key]` returns, which is the last value posted.
- The `datetime_format` default of `Grid.__init__` ends in the platform-specific `%s`. The model keeps it only as text.
- `DjGrid.Grid.constructor`: it requires every grid field to be a field of the model. The Grid's own `get_field` calls would raise FieldDoesNotExist otherwise. The list view checks this first through `Resources.FieldTypes`, and `GridColumns.MakeColumnStructure` models the failure itself.
- `get_model` and schema introspection are out of scope. The model is a parameter, so a registered pair that names no installed model (an AttributeError in the code) is not modelled.
- `Resources.ListView`: the grid page's context keeps the app label, model name, sort field, plugins, prefix, navigation flag and the five display settings. It leaves out the `register` list with capitalised verbose names and its ImproperlyConfigured error for a pair that names no model (the IndexError of an entry shorter than a pair is modelled), the model's verbose name, the field types, and the three reversed URLs.
- `Resources.Settings`: the views read typed settings; `Resources.SettingsOf` reads them off an options map. An override of another kind than its default (say `readonly = 1`) has no typed reading, although Python would accept it.
- `reverse()` and URL patterns are not modelled. The index view answers with the view name and its arguments, not a URL.
- The `actionview` view and `base_urls` are wiring of the AED controller to URLs and are not modelled; the inline view's use of the controller is.
- `make_custom_field` sets widget attributes and is not modelled.
- `Aed.AED.constructor`: it requires the object lookup to succeed. `Aed.GetObject` states the Http404 case, and the inline view checks it first, through `Resources.ObjectOr404` with the same key.
- `Aed.AED.RemoveUnusedFields`: on a failure, the form is left with the fields removed up to the failing one. The contract does not state which fields those are, because the error ends the request.
- Messages, templates, JSON serialisation, `mark_safe` HTML and `get_absolute_url` are represented by their arguments: a message text, a template name and context, a JSON object, the action-link cell, and the instance's URL field.
- Form validation and persistence (`is_valid`, `save`, `delete`, `get_object_or_404`) are oracles or effect-log entries. Callbacks are known by name, and the model records their calls, not what they do.
- `traceback.print_exc()` and `print` write diagnostics only and are not modelled.
- `Aed.AED.ProcessPost`: setting `msg` on the failure object also changes the dict the caller passed to `set_result_fail`, because Python shares it. The model keeps the failure object as a value in the controller, so this aliasing is not captured.
