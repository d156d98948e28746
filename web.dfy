/** The HTTP- and form-level values the resource views and the
    add/edit/delete controller exchange with Django: requests, model
    instances, forms, JSON payloads, template contexts and responses. */
module Web {
  import opened Wrappers

  datatype Request = Request(httpMethod: string, isAjax: bool, isSuperuser: bool, post: map<string, string>)

  /** A model instance: its primary key (None while unsaved) and its
      `get_absolute_url()`. */
  datatype Instance = Instance(pk: Option<string>, absoluteUrl: string)

  datatype FormField = FormField(required: bool)

  /** A form instance: its remaining fields, whether it is bound to posted
      data, and its initial values. */
  datatype Form = Form(fields: map<string, FormField>, bound: bool, initial: map<string, string>)

  /** A form class together with what the model leaves to it as an oracle:
      its declared fields, whether the posted data validates, the errors it
      then reports, and the instance `save()` returns. */
  datatype FormClass = FormClass(
    fields: map<string, FormField>,
    valid: bool,
    errors: map<string, seq<string>>,
    saved: Instance)

  datatype JsonValue = JText(s: string) | JInt(i: int) | JErrors(errors: map<string, seq<string>>)

  type JsonObject = map<string, JsonValue>

  datatype CtxValue =
    | CForm(form: Option<Form>)
    | CId(id: Option<string>)
    | CObject(obj: Instance)
    | CBool(b: bool)
    | CText(s: string)
    | CInt(i: int)
    | CList(items: seq<string>)

  type Context = map<string, CtxValue>

  datatype Response =
    | Redirect(url: string)                           // HttpResponseRedirect(url)
    | RedirectToView(view: string, args: seq<string>) // HttpResponseRedirect(reverse(view, args))
    | Page(body: string)                              // HttpResponse(body)
    | Json(payload: JsonObject)                       // HttpResponse(simplejson.dumps(payload))
    | Rendered(template: string, context: Context)    // render_to_response(template, context)

  /** Python truthiness of an optional string: None and '' are false. */
  predicate Truthy(s: Option<string>) {
    s.Some? && s.value != ""
  }
}
