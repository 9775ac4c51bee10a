/** What the four list pages (workouts, exercises, users, instructors) share:
    the list a fetch stores, the delete that re-fetches, and the admin gate.
    Each page holds its list and a loading flag. */
module Lists {
  import opened Wrappers
  import opened Js
  import opened Http

  /** The list a page stores after fetching: the parsed array of an OK
      response. An error status (thrown as an error), a throw, an
      unparseable body and a non-array payload all give the empty list. */
  function ListFromResponse(response: Outcome): (items: seq<Json>)
    ensures !IsOk(response) ==> items == []
    ensures IsOk(response) && response.body.Parsed? && response.body.value.Arr? ==> items == response.body.value.items
    ensures IsOk(response) && !(response.body.Parsed? && response.body.value.Arr?) ==> items == []
    ensures items != [] ==> IsOk(response) && response.body == Parsed(Arr(items))
  {
    if IsOk(response) && response.body.Parsed? && response.body.value.Arr? then response.body.value.items else []
  }

  /** `currentUser?.is_admin` used as a condition: only a viewer object
      whose `is_admin` is truthy, and no viewer at all is not one. */
  predicate IsAdmin(viewer: Json)
    ensures IsAdmin(viewer) <==> viewer.Obj? && "is_admin" in viewer.fields && Truthy(viewer.fields["is_admin"])
  {
    Truthy(OptionalProp(viewer, "is_admin"))
  }

  /** The DELETE of one record, identified by the id shown in the list. */
  function DeleteRequest(collection: string, id: Json): (r: Request)
    ensures r.verb == Delete && r.origin == ApiUrl && r.path == "/" + collection + "/" + ToText(id)
    ensures r.body.None? && !r.credentials && r.headers == map[] && r.timeoutMs.None?
  {
    Remove(ApiUrl, "/" + collection + "/" + ToText(id), false)
  }

  /** A delete re-fetches the list after any response status, but not when
      the DELETE throws, nor when the confirmation is declined. */
  predicate Refetches(confirmed: bool, deletion: Outcome) {
    confirmed && !deletion.Thrown?
  }

  /** One list page's state. */
  class ListPage {
    const collection: string
    var items: seq<Json>
    var loading: bool

    constructor (collection: string)
      ensures this.collection == collection && items == [] && loading
    {
      this.collection := collection;
      items := [];
      loading := true;
    }

    /** The GET of the whole collection. */
    function ListRequest(): Request {
      Read(ApiUrl, "/" + collection, false)
    }

    /** The page's fetch, run on mount: it stores the list and always ends
        with `loading` false. */
    method Fetch(response: Outcome) returns (request: Request)
      modifies this
      ensures request == ListRequest()
      ensures items == ListFromResponse(response) && !loading
    {
      request := ListRequest();
      items := ListFromResponse(response);
      loading := false;
    }

    /** The page's delete: after the confirmation, the DELETE, then the
        fetch again unless the DELETE threw. `refetch` is the outcome of that
        second fetch. */
    method DeleteItem(id: Json, confirmed: bool, deletion: Outcome, refetch: Outcome) returns (requests: seq<Request>)
      modifies this
      ensures !confirmed ==> requests == []
      ensures confirmed ==> |requests| >= 1 && requests[0] == DeleteRequest(collection, id)
      ensures Refetches(confirmed, deletion) ==>
                requests == [DeleteRequest(collection, id), ListRequest()]
                && items == ListFromResponse(refetch) && !loading
      ensures !Refetches(confirmed, deletion) ==>
                |requests| <= 1 && items == old(items) && loading == old(loading)
    {
      requests := [];
      if confirmed {
        requests := [DeleteRequest(collection, id)];
        if !deletion.Thrown? {
          var again := Fetch(refetch);
          requests := requests + [again];
        }
      }
    }
  }
}
