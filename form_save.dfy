/** What the three entity forms (workout, exercise, user) share: the route
    parameter decides between editing and creating, and the submit handler
    picks the request from it and navigates back to the list only when the
    response is OK. */
module FormSave {
  import opened Wrappers
  import opened Js
  import opened Http
  import opened Validation

  /** `Boolean(id)` for the `:id` route parameter (`None` on the "new" route). */
  predicate IsEdit(id: Option<string>) {
    id.Some? && id.value != ""
  }

  /** The path of one record of a collection. */
  function RecordPath(collection: string, id: string): string {
    "/" + collection + "/" + id
  }

  /** The GET that loads the record being edited. */
  function LoadRequest(origin: Origin, collection: string, id: string): (r: Request)
    ensures r.verb == Get && r.origin == origin && r.path == "/" + collection + "/" + id
    ensures r.body.None? && !r.credentials && r.headers == map[] && r.timeoutMs.None?
  {
    Read(origin, RecordPath(collection, id), false)
  }

  /** The request `handleSubmit` sends: PATCH to the record when editing,
      POST to the collection when creating, the form values as JSON body. */
  function SaveRequest(origin: Origin, collection: string, id: Option<string>, values: Values): (r: Request)
    ensures r.verb == Patch <==> IsEdit(id)
    ensures r.verb == Post <==> !IsEdit(id)
    ensures IsEdit(id) ==> r == LoadRequest(origin, collection, id.value).(verb := Patch, headers := JsonHeaders, body := Some(Serialized(values)))
    ensures !IsEdit(id) ==> r.path == "/" + collection
    ensures r.headers == JsonHeaders && !r.credentials && r.timeoutMs.None?
    ensures r.body == Some(Serialized(values))
  {
    if IsEdit(id) then Send(Patch, origin, RecordPath(collection, id.value), false, Serialized(values))
    else Send(Post, origin, "/" + collection, false, Serialized(values))
  }

  /** A submitted form: the request sent and where the form navigates. */
  datatype Saved = Saved(request: Request, navigateTo: Option<string>)

  /** `handleSubmit`: send the request, then navigate to the list view on an
      OK response only. An error status or a throw is only logged, and the
      form stays open with its values. */
  function SaveOutcome(origin: Origin, collection: string, id: Option<string>, values: Values, response: Outcome): (s: Saved)
    ensures s.request == SaveRequest(origin, collection, id, values)
    ensures s.navigateTo.Some? <==> IsOk(response)
    ensures s.navigateTo.Some? ==> s.navigateTo.value == "/" + collection
  {
    Saved(SaveRequest(origin, collection, id, values),
          if IsOk(response) then Some("/" + collection) else None)
  }

  /** Submitting a form: validation errors block the submit handler. */
  function SubmitForm(errors: map<Field, Error>, origin: Origin, collection: string, id: Option<string>,
                      values: Values, response: Outcome): (a: Attempt<Saved>)
    ensures a.Blocked? <==> errors != map[]
    ensures a.Blocked? ==> a.errors == errors
    ensures a.Submitted? ==> a.result == SaveOutcome(origin, collection, id, values, response)
  {
    if errors != map[] then Blocked(errors)
    else Submitted(SaveOutcome(origin, collection, id, values, response))
  }

  /** Editing writes back exactly the record that was loaded, and creating
      and editing send the same body. */
  lemma EditTargetsLoadedRecord(origin: Origin, collection: string, id: string, values: Values)
    requires id != ""
    ensures SaveRequest(origin, collection, Some(id), values).path == LoadRequest(origin, collection, id).path
    ensures SaveRequest(origin, collection, Some(id), values).body == SaveRequest(origin, collection, None, values).body
  {
  }
}
