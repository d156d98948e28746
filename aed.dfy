/** The add/edit/delete controller of aed.py (`class AED`): one request
    either deletes the object, processes a submitted form, or displays the
    form.

    The database and the form are replaced by what the controller learns
    from them: a store of instances by primary key, and a form class that
    says whether the posted data validates, which errors it reports and
    which instance `save()` returns. What the controller does to the world
    (callbacks run, messages added, the object saved or deleted) is
    recorded, in order, in an effect log. */
module Aed {
  import opened Wrappers
  import opened PyErrors
  import opened Web

  /** A registered callback, known by its name. */
  type Callback = string

  /** One thing the controller does to the world. */
  datatype Effect =
    | Called(callback: Callback, obj: Instance, form: Option<Form>) // callback(obj=, form=, request=)
    | Message(text: string)                                         // messages.add_message(request, INFO, text)
    | Saved(obj: Instance)                                          // form.save()
    | Deleted(obj: Instance)                                        // obj.delete()

  /** `self.model()`: a new, unsaved instance. */
  const NewInstance := Instance(None, "")

  const RequiredMessage: string := "One of unused fields you specified is required for the form"

  /** `AED.get_object`: a truthy id must name a stored instance
      (`get_object_or_404`); otherwise a new instance. */
  function GetObject(objects: map<string, Instance>, id: Option<string>): (r: Result<Instance, PyError>)
    ensures Truthy(id) && id.value !in objects <==> r.Failure?
    ensures r.Failure? ==> r.error == Http404
    ensures r.Success? && Truthy(id) ==> r.value == objects[id.value]
    ensures !Truthy(id) ==> r == Success(NewInstance)
  {
    if Truthy(id) then
      if id.value in objects then Success(objects[id.value]) else Failure(Http404)
    else Success(NewInstance)
  }

  /** `AED.check_ajax`. */
  function CheckAjax(request: Request, forceAjax: bool): (r: bool)
    ensures r <==> request.isAjax || forceAjax
  {
    request.isAjax || forceAjax
  }

  /** What `process_callbacks` records: each callback called once, in order,
      with the current object and form. */
  function CallEffects(callbacks: seq<Callback>, obj: Instance, form: Option<Form>): seq<Effect> {
    seq(|callbacks|, i requires 0 <= i < |callbacks| => Called(callbacks[i], obj, form))
  }

  /** What `process_messages` records: each message once, in order. */
  function MessageEffects(msgs: seq<string>): seq<Effect> {
    seq(|msgs|, i requires 0 <= i < |msgs| => Message(msgs[i]))
  }

  // ---------------------------------------------------------------------
  // Decisions

  /** The three ways `process_request` can go. */
  datatype Route = DeleteRoute | PostRoute | GetRoute

  /** `AED.process_request` (aed.py:277-282). */
  function Dispatch(id: Option<string>, action: Option<string>, httpMethod: string): (r: Route)
    ensures r == DeleteRoute <==> Truthy(id) && action == Some("delete")
    ensures r == PostRoute <==> !(Truthy(id) && action == Some("delete")) && httpMethod == "POST"
  {
    if Truthy(id) && action == Some("delete") then DeleteRoute
    else if httpMethod == "POST" then PostRoute
    else GetRoute
  }

  /** Deletion wins over the HTTP method: a delete request is a delete
      whether it is a GET or a POST. */
  lemma DeleteIgnoresMethod(id: Option<string>, m1: string, m2: string)
    requires Truthy(id)
    ensures Dispatch(id, Some("delete"), m1) == Dispatch(id, Some("delete"), m2) == DeleteRoute
  {
  }

  /** The response of `delete_object` (aed.py:236-241). */
  function DeleteResponse(dRedirect: Option<string>, isAjax: bool, resultSuccess: JsonObject): Response {
    if Truthy(dRedirect) then Redirect(dRedirect.value)
    else if !isAjax then Redirect("../../")
    else Json(resultSuccess)
  }

  /** A delete redirect, once set, is followed even in AJAX mode; without
      one, the page goes two levels up, or AJAX gets the success object. */
  lemma DeleteResponseCases(dRedirect: Option<string>, isAjax: bool, resultSuccess: JsonObject)
    ensures Truthy(dRedirect) ==> DeleteResponse(dRedirect, isAjax, resultSuccess) == Redirect(dRedirect.value)
    ensures !Truthy(dRedirect) && !isAjax ==> DeleteResponse(dRedirect, isAjax, resultSuccess) == Redirect("../../")
    ensures !Truthy(dRedirect) && isAjax ==> DeleteResponse(dRedirect, isAjax, resultSuccess) == Json(resultSuccess)
    ensures DeleteResponse(dRedirect, isAjax, resultSuccess).Json? ==> isAjax
  {
  }

  /** The response of a successful `process_post` (aed.py:298-307): the
      redirect is picked by whether the id is truthy, not by whether it is
      None. */
  function PostSuccessResponse(id: Option<string>, isAjax: bool, aRedirect: Option<string>,
                               eRedirect: Option<string>, objectUrl: string, resultSuccess: JsonObject): Response
  {
    if isAjax then Json(resultSuccess)
    else if !Truthy(id) then
      if Truthy(aRedirect) then Redirect(aRedirect.value) else Redirect(objectUrl)
    else
      if Truthy(eRedirect) then Redirect(eRedirect.value) else Redirect(objectUrl)
  }

  /** AJAX mode ignores every redirect; otherwise the redirect of the
      operation wins when set, and the object's own page is the fallback. */
  lemma PostSuccessCases(id: Option<string>, isAjax: bool, aRedirect: Option<string>,
                         eRedirect: Option<string>, objectUrl: string, resultSuccess: JsonObject)
    ensures isAjax ==> PostSuccessResponse(id, isAjax, aRedirect, eRedirect, objectUrl, resultSuccess) == Json(resultSuccess)
    ensures !isAjax ==> PostSuccessResponse(id, isAjax, aRedirect, eRedirect, objectUrl, resultSuccess).Redirect?
    ensures !isAjax && Truthy(id) ==>
      PostSuccessResponse(id, isAjax, aRedirect, eRedirect, objectUrl, resultSuccess)
        == Redirect(if Truthy(eRedirect) then eRedirect.value else objectUrl)
    ensures !isAjax && !Truthy(id) ==>
      PostSuccessResponse(id, isAjax, aRedirect, eRedirect, objectUrl, resultSuccess)
        == Redirect(if Truthy(aRedirect) then aRedirect.value else objectUrl)
  {
  }

  /** The two tests disagree on an empty id: `id is not None` holds, so the
      edit callbacks and messages run, but `not id` also holds, so a
      non-AJAX response follows the add redirect. */
  lemma EmptyIdMismatch(aRedirect: Option<string>, eRedirect: Option<string>, objectUrl: string,
                        resultSuccess: JsonObject)
    requires Truthy(aRedirect) && Truthy(eRedirect) && aRedirect != eRedirect
    ensures var id := Some("");
      id.Some? && PostSuccessResponse(id, false, aRedirect, eRedirect, objectUrl, resultSuccess) == Redirect(aRedirect.value)
      && PostSuccessResponse(id, false, aRedirect, eRedirect, objectUrl, resultSuccess) != Redirect(eRedirect.value)
  {
  }

  /** `remove_unused_fields` as one function of the form's fields: each
      listed field in order must be present (the lookup raises KeyError)
      and not required (ImproperlyConfigured), and is then removed. */
  function RemoveUnused(fields: map<string, FormField>, unused: seq<string>): Result<map<string, FormField>, PyError>
    decreases |unused|
  {
    if unused == [] then Success(fields)
    else
      var f := unused[0];
      if f !in fields then Failure(KeyError(f))
      else if fields[f].required then Failure(ImproperlyConfigured(RequiredMessage))
      else RemoveUnused(fields - {f}, unused[1..])
  }

  predicate Distinct(s: seq<string>) {
    forall i, j :: 0 <= i < j < |s| ==> s[i] != s[j]
  }

  /** Removing the unused fields succeeds exactly when they are distinct,
      present and optional, and then removes exactly them. */
  lemma {:induction false} RemoveUnusedSucceeds(fields: map<string, FormField>, unused: seq<string>)
    ensures RemoveUnused(fields, unused).Success? <==>
      Distinct(unused) && forall i :: 0 <= i < |unused| ==> unused[i] in fields && !fields[unused[i]].required
    ensures RemoveUnused(fields, unused).Success? ==>
      RemoveUnused(fields, unused).value == fields - set f | f in unused
    decreases |unused|
  {
    if unused != [] {
      var f, rest := unused[0], unused[1..];
      RemoveUnusedSucceeds(fields - {f}, rest);
      assert forall g :: g in unused <==> g == f || g in rest;
      if RemoveUnused(fields, unused).Success? {
        assert f in fields && !fields[f].required;
        forall i | 1 <= i < |unused| ensures unused[i] != f {
          assert unused[i] == rest[i - 1];
        }
        assert (fields - {f}) - (set g | g in rest) == fields - (set g | g in unused);
      }
      if Distinct(unused) && forall i :: 0 <= i < |unused| ==> unused[i] in fields && !fields[unused[i]].required {
        assert f in fields && !fields[f].required;
        forall i | 0 <= i < |rest| ensures rest[i] in fields - {f} && !(fields - {f})[rest[i]].required {
          assert rest[i] == unused[i + 1];
        }
        assert Distinct(rest) by {
          forall i, j | 0 <= i < j < |rest| ensures rest[i] != rest[j] {
            assert rest[i] == unused[i + 1] && rest[j] == unused[j + 1];
          }
        }
      }
    }
  }

  /** A field listed twice is removed by the first entry and raises
      KeyError at the second. */
  lemma DuplicateUnusedFails(fields: map<string, FormField>, f: string)
    requires f in fields && !fields[f].required
    ensures RemoveUnused(fields, [f, f]) == Failure(KeyError(f))
  {
    assert [f, f][1..] == [f];
    assert [f][1..] == [];
  }

  /** The context `get_context` builds before the extra entries. */
  function BaseContext(form: Option<Form>, id: Option<string>, obj: Instance, isAjax: bool,
                       urlAdd: Option<string>, urlEdit: Option<string>, urlDelete: Option<string>): Context
  {
    var c := map["form" := CForm(form), "id" := CId(id), "object" := CObject(obj), "is_ajax" := CBool(isAjax)];
    if id.Some? then
      var withEdit := if Truthy(urlEdit) then c["url" := CText(urlEdit.value)] else c;
      if Truthy(urlDelete) then withEdit["url_delete" := CText(urlDelete.value)] else withEdit
    else if Truthy(urlAdd) then c["url" := CText(urlAdd.value)]
    else c
  }

  /** The context always holds the form, the id, the object and the AJAX
      flag; with an id it links the edit and delete urls that are set, and
      without one the add url if set; nothing else. */
  lemma BaseContextEntries(form: Option<Form>, id: Option<string>, obj: Instance, isAjax: bool,
                           urlAdd: Option<string>, urlEdit: Option<string>, urlDelete: Option<string>)
    ensures var c := BaseContext(form, id, obj, isAjax, urlAdd, urlEdit, urlDelete);
      && c["form"] == CForm(form) && c["id"] == CId(id) && c["object"] == CObject(obj) && c["is_ajax"] == CBool(isAjax)
      && ("url" in c <==> if id.Some? then Truthy(urlEdit) else Truthy(urlAdd))
      && ("url" in c ==> c["url"] == CText(if id.Some? then urlEdit.value else urlAdd.value))
      && ("url_delete" in c <==> id.Some? && Truthy(urlDelete))
      && ("url_delete" in c ==> c["url_delete"] == CText(urlDelete.value))
      && c.Keys <= {"form", "id", "object", "is_ajax", "url", "url_delete"}
  {
  }

  // ---------------------------------------------------------------------
  // The controller

  class AED {
    const request: Request
    const appName: string
    const modelName: string
    const templateName: string
    const formClass: FormClass
    const id: Option<string>
    const extraInitial: map<string, string>
    const extraContext: Context
    const action: Option<string>
    const urlAdd: Option<string>
    const urlEdit: Option<string>
    const urlDelete: Option<string>
    const isAjax: bool

    var obj: Instance
    var form: Option<Form>
    var eCallbacks: seq<Callback>
    var aCallbacks: seq<Callback>
    var dCallbacks: seq<Callback>
    var eRedirect: Option<string>
    var aRedirect: Option<string>
    var dRedirect: Option<string>
    var resultSuccess: JsonObject
    var resultFail: JsonObject
    var unusedFields: seq<string>
    var aMessages: seq<string>
    var eMessages: seq<string>
    var dMessages: seq<string>
    /** Everything done to the world so far, in order. */
    var effects: seq<Effect>

    /** `AED.__init__`; the caller has checked that `get_object` finds the
      record a truthy id names. */
    constructor (request: Request, appName: string, modelName: string, templateName: string,
                 formClass: FormClass, id: Option<string>, extraInitial: map<string, string>,
                 extraContext: Context, forceAjax: bool, action: Option<string>,
                 urlAdd: Option<string>, urlEdit: Option<string>, urlDelete: Option<string>,
                 objects: map<string, Instance>)
      requires GetObject(objects, id).Success?
      ensures this.request == request && this.appName == appName && this.modelName == modelName
      ensures this.templateName == templateName && this.formClass == formClass && this.id == id
      ensures this.extraInitial == extraInitial && this.extraContext == extraContext && this.action == action
      ensures this.urlAdd == urlAdd && this.urlEdit == urlEdit && this.urlDelete == urlDelete
      ensures isAjax == CheckAjax(request, forceAjax)
      ensures obj == GetObject(objects, id).value && form.None?
      ensures eCallbacks == aCallbacks == dCallbacks == []
      ensures eRedirect.None? && aRedirect.None? && dRedirect.None?
      ensures resultSuccess == map["result" := JText("OK"), "msg" := JText("reload")]
      ensures resultFail == map["result" := JText("Fail")]
      ensures unusedFields == [] && aMessages == [] && eMessages == [] && dMessages == []
      ensures effects == []
    {
      this.request := request;
      this.appName := appName;
      this.modelName := modelName;
      this.templateName := templateName;
      this.formClass := formClass;
      this.id := id;
      this.extraInitial := extraInitial;
      this.extraContext := extraContext;
      this.action := action;
      this.urlAdd := urlAdd;
      this.urlEdit := urlEdit;
      this.urlDelete := urlDelete;
      this.isAjax := CheckAjax(request, forceAjax);
      this.obj := GetObject(objects, id).value;
      this.form := None;
      this.eCallbacks := [];
      this.aCallbacks := [];
      this.dCallbacks := [];
      this.eRedirect := None;
      this.aRedirect := None;
      this.dRedirect := None;
      this.resultSuccess := map["result" := JText("OK"), "msg" := JText("reload")];
      this.resultFail := map["result" := JText("Fail")];
      this.unusedFields := [];
      this.aMessages := [];
      this.eMessages := [];
      this.dMessages := [];
      this.effects := [];
    }

    method AddACallback(f: Callback)
      modifies this`aCallbacks
      ensures aCallbacks == old(aCallbacks) + [f]
    {
      aCallbacks := aCallbacks + [f];
    }

    method AddECallback(f: Callback)
      modifies this`eCallbacks
      ensures eCallbacks == old(eCallbacks) + [f]
    {
      eCallbacks := eCallbacks + [f];
    }

    method AddDCallback(f: Callback)
      modifies this`dCallbacks
      ensures dCallbacks == old(dCallbacks) + [f]
    {
      dCallbacks := dCallbacks + [f];
    }

    /** A redirect is overwritten: the last one set wins. */
    method AddARedirect(url: string)
      modifies this`aRedirect
      ensures aRedirect == Some(url)
    {
      aRedirect := Some(url);
    }

    method AddERedirect(url: string)
      modifies this`eRedirect
      ensures eRedirect == Some(url)
    {
      eRedirect := Some(url);
    }

    method AddDRedirect(url: string)
      modifies this`dRedirect
      ensures dRedirect == Some(url)
    {
      dRedirect := Some(url);
    }

    /** Messages are appended one by one, in the order given. */
    method AddAMessages(msgs: seq<string>)
      modifies this`aMessages
      ensures aMessages == old(aMessages) + msgs
    {
      for i := 0 to |msgs|
        invariant aMessages == old(aMessages) + msgs[..i]
      {
        aMessages := aMessages + [msgs[i]];
        assert msgs[..i + 1] == msgs[..i] + [msgs[i]];
      }
      assert msgs[..|msgs|] == msgs;
    }

    method AddEMessages(msgs: seq<string>)
      modifies this`eMessages
      ensures eMessages == old(eMessages) + msgs
    {
      for i := 0 to |msgs|
        invariant eMessages == old(eMessages) + msgs[..i]
      {
        eMessages := eMessages + [msgs[i]];
        assert msgs[..i + 1] == msgs[..i] + [msgs[i]];
      }
      assert msgs[..|msgs|] == msgs;
    }

    method AddDMessages(msgs: seq<string>)
      modifies this`dMessages
      ensures dMessages == old(dMessages) + msgs
    {
      for i := 0 to |msgs|
        invariant dMessages == old(dMessages) + msgs[..i]
      {
        dMessages := dMessages + [msgs[i]];
        assert msgs[..i + 1] == msgs[..i] + [msgs[i]];
      }
      assert msgs[..|msgs|] == msgs;
    }

    method SetResultSuccess(result: JsonObject)
      modifies this`resultSuccess
      ensures resultSuccess == result
    {
      resultSuccess := result;
    }

    method SetResultFail(result: JsonObject)
      modifies this`resultFail
      ensures resultFail == result
    {
      resultFail := result;
    }

    method SetUnusedFields(fields: seq<string>)
      modifies this`unusedFields
      ensures unusedFields == fields
    {
      unusedFields := fields;
    }

    /** `AED.process_callbacks`: each callback runs once, in order. */
    method ProcessCallbacks(callbacks: seq<Callback>)
      modifies this`effects
      ensures effects == old(effects) + CallEffects(callbacks, obj, form)
    {
      for i := 0 to |callbacks|
        invariant effects == old(effects) + CallEffects(callbacks[..i], obj, form)
      {
        effects := effects + [Called(callbacks[i], obj, form)];
        assert CallEffects(callbacks[..i + 1], obj, form) == CallEffects(callbacks[..i], obj, form) + [Called(callbacks[i], obj, form)];
      }
      assert callbacks[..|callbacks|] == callbacks;
    }

    /** `AED.process_messages`: each message is added once, in order. */
    method ProcessMessages(msgs: seq<string>)
      modifies this`effects
      ensures effects == old(effects) + MessageEffects(msgs)
    {
      for i := 0 to |msgs|
        invariant effects == old(effects) + MessageEffects(msgs[..i])
      {
        effects := effects + [Message(msgs[i])];
        assert MessageEffects(msgs[..i + 1]) == MessageEffects(msgs[..i]) + [Message(msgs[i])];
      }
      assert msgs[..|msgs|] == msgs;
    }

    /** `AED.delete_object`: the delete callbacks, then the deletion, then
      the delete messages. */
    method DeleteObject() returns (r: Response)
      modifies this`effects
      ensures effects == old(effects) + CallEffects(dCallbacks, obj, form) + [Deleted(obj)] + MessageEffects(dMessages)
      ensures r == DeleteResponse(dRedirect, isAjax, resultSuccess)
    {
      ProcessCallbacks(dCallbacks);
      effects := effects + [Deleted(obj)];
      ProcessMessages(dMessages);
      if Truthy(dRedirect) {
        return Redirect(dRedirect.value);
      }
      if !isAjax {
        return Redirect("../../");
      }
      return Json(resultSuccess);
    }

    /** `AED.remove_unused_fields` on the current form, in list order. The
      form is left as it stood at a failure. */
    method RemoveUnusedFields() returns (outcome: Outcome<PyError>)
      requires form.Some?
      modifies this`form
      ensures form.Some? && form.value.bound == old(form).value.bound && form.value.initial == old(form).value.initial
      ensures match RemoveUnused(old(form).value.fields, unusedFields)
        case Failure(e) => outcome == Fail(e)
        case Success(m) => outcome == Pass && form == Some(old(form).value.(fields := m))
    {
      var i := 0;
      while i < |unusedFields|
        invariant 0 <= i <= |unusedFields|
        invariant form.Some? && form.value.bound == old(form).value.bound && form.value.initial == old(form).value.initial
        invariant RemoveUnused(old(form).value.fields, unusedFields) == RemoveUnused(form.value.fields, unusedFields[i..])
      {
        var field := unusedFields[i];
        assert unusedFields[i..][1..] == unusedFields[i + 1..];
        if field !in form.value.fields {
          return Fail(KeyError(field));
        }
        if form.value.fields[field].required {
          return Fail(ImproperlyConfigured(RequiredMessage));
        }
        form := Some(form.value.(fields := form.value.fields - {field}));
        i := i + 1;
      }
      outcome := Pass;
    }

    /** `AED.get_context`: the base entries, then every extra entry,
      overriding a base entry of the same key. */
    method GetContext() returns (context: Context)
      ensures context == BaseContext(form, id, obj, isAjax, urlAdd, urlEdit, urlDelete) + extraContext
    {
      var base := BaseContext(form, id, obj, isAjax, urlAdd, urlEdit, urlDelete);
      context := base;
      var todo := extraContext.Keys;
      while todo != {}
        invariant todo <= extraContext.Keys
        invariant context == base + map k | k in extraContext && k !in todo :: extraContext[k]
        decreases |todo|
      {
        var k :| k in todo;
        context := context[k := extraContext[k]];
        todo := todo - {k};
      }
      assert (map k | k in extraContext && k !in todo :: extraContext[k]) == extraContext;
    }

    /** The state `process_post` leaves and the answer it gives, from the
      object, effect log and failure result it started with: binding the
      posted data and dropping the unused fields, then saving and reporting
      on valid data (edit or add by whether the id is None), or reporting the
      errors (rendered, or in the failure result under AJAX). */
    predicate PostDone(r: Result<Response, PyError>, obj0: Instance, effects0: seq<Effect>, resultFail0: JsonObject)
      reads this
    {
      match RemoveUnused(formClass.fields, unusedFields)
      case Failure(e) => r == Failure(e) && obj == obj0 && effects == effects0 && resultFail == resultFail0
      case Success(m) =>
        && form == Some(Form(m, true, map[]))
        && (formClass.valid ==>
              && obj == formClass.saved && resultFail == resultFail0
              && effects == effects0 + [Saved(obj)]
                 + (if id.Some? then CallEffects(eCallbacks, obj, form) + MessageEffects(eMessages)
                    else CallEffects(aCallbacks, obj, form) + MessageEffects(aMessages))
              && r == Success(PostSuccessResponse(id, isAjax, aRedirect, eRedirect, obj.absoluteUrl, resultSuccess)))
        && (!formClass.valid && !isAjax ==>
              && obj == obj0 && effects == effects0 && resultFail == resultFail0
              && r == Success(Rendered(templateName, BaseContext(form, id, obj, isAjax, urlAdd, urlEdit, urlDelete) + extraContext)))
        && (!formClass.valid && isAjax ==>
              && obj == obj0 && effects == effects0
              && resultFail == resultFail0["msg" := JErrors(formClass.errors)]
              && r == Success(Json(resultFail)))
    }

    /** `AED.process_post`. */
    method ProcessPost() returns (r: Result<Response, PyError>)
      modifies this`form, this`obj, this`effects, this`resultFail
      ensures PostDone(r, old(obj), old(effects), old(resultFail))
    {
      form := Some(Form(formClass.fields, true, map[]));
      var o := RemoveUnusedFields();
      if o.Fail? {
        return Failure(o.error);
      }
      if formClass.valid {
        obj := formClass.saved;
        effects := effects + [Saved(obj)];
        if id.Some? {
          ProcessCallbacks(eCallbacks);
          ProcessMessages(eMessages);
        } else {
          ProcessCallbacks(aCallbacks);
          ProcessMessages(aMessages);
        }
        if !isAjax {
          if !Truthy(id) {
            if Truthy(aRedirect) {
              return Success(Redirect(aRedirect.value));
            }
          } else {
            if Truthy(eRedirect) {
              return Success(Redirect(eRedirect.value));
            }
          }
          return Success(Redirect(obj.absoluteUrl));
        }
        return Success(Json(resultSuccess));
      }
      if !isAjax {
        var context := GetContext();
        return Success(Rendered(templateName, context));
      }
      resultFail := resultFail["msg" := JErrors(formClass.errors)];
      return Success(Json(resultFail));
    }

    /** The state `process_get` leaves and the page it answers: an unbound
      form with the extra initial values, minus the unused fields, rendered
      with the context. */
    predicate GetDone(r: Result<Response, PyError>)
      reads this
    {
      match RemoveUnused(formClass.fields, unusedFields)
      case Failure(e) => r == Failure(e)
      case Success(m) =>
        && form == Some(Form(m, false, extraInitial))
        && r == Success(Rendered(templateName, BaseContext(form, id, obj, isAjax, urlAdd, urlEdit, urlDelete) + extraContext))
    }

    /** `AED.process_get`. */
    method ProcessGet() returns (r: Result<Response, PyError>)
      modifies this`form
      ensures GetDone(r)
    {
      var initial: map<string, string> := map[];
      var todo := extraInitial.Keys;
      while todo != {}
        invariant todo <= extraInitial.Keys
        invariant initial == map k | k in extraInitial && k !in todo :: extraInitial[k]
        decreases |todo|
      {
        var k :| k in todo;
        initial := initial[k := extraInitial[k]];
        todo := todo - {k};
      }
      assert initial == extraInitial;
      form := Some(Form(formClass.fields, false, initial));
      var o := RemoveUnusedFields();
      if o.Fail? {
        return Failure(o.error);
      }
      var context := GetContext();
      return Success(Rendered(templateName, context));
    }

    /** `AED.process_request`: deletion for a truthy id with the delete
      action, whatever the method; otherwise POST or GET processing. */
    method ProcessRequest() returns (r: Result<Response, PyError>)
      modifies this`form, this`obj, this`effects, this`resultFail
      ensures Dispatch(id, action, request.httpMethod) == DeleteRoute ==>
        && r == Success(DeleteResponse(dRedirect, isAjax, resultSuccess))
        && effects == old(effects) + CallEffects(dCallbacks, obj, form) + [Deleted(obj)] + MessageEffects(dMessages)
        && form == old(form) && obj == old(obj) && resultFail == old(resultFail)
      ensures Dispatch(id, action, request.httpMethod) == PostRoute ==>
        PostDone(r, old(obj), old(effects), old(resultFail))
      ensures Dispatch(id, action, request.httpMethod) == GetRoute ==>
        GetDone(r) && obj == old(obj) && effects == old(effects) && resultFail == old(resultFail)
    {
      if Truthy(id) && action == Some("delete") {
        var response := DeleteObject();
        return Success(response);
      }
      if request.httpMethod == "POST" {
        r := ProcessPost();
      } else {
        r := ProcessGet();
      }
    }
  }
}
