/**
 * What a handler does outside its own React state, in the order it does it:
 * SweetAlert2 dialogs, axios requests, `window.alert`, and the callbacks its
 * parent passed in. Server replies and dialog answers are inputs.
 */
module Effects {
  import opened Wrappers
  import opened Values

  /** `Swal.fire(title, text, icon)` or the object form with the same three fields. */
  datatype Notice = Notice(title: string, text: string, icon: string)

  datatype Verb = GET | POST | PUT | DELETE

  datatype Effect =
    | Fire(notice: Notice)
    | Confirm(notice: Notice)
    | Request(verb: Verb, path: string, body: Val)
    | Alert(message: string)
    | OnUpdate(data: Val)
    | OnClose
    | OnSuccess

  /**
   * The outcome of a request: the response payload, or a rejection carrying
   * the HTTP status when the server answered (`error.response.status`).
   * A `fetch` does not reject on an HTTP error status, so such a reply, with
   * its error body, is an `Ok`; `Fail` is then a network failure.
   */
  datatype Reply<T> = Ok(data: T) | Fail(status: Option<int>)

  /** `localStorage.getItem('token')` is truthy. */
  predicate HasToken(token: Option<string>) {
    token.Some? && token.value != ""
  }

  /** The rejection carried a 401 response. */
  predicate Unauthorized<T>(r: Reply<T>) {
    r.Fail? && r.status == Some(401)
  }

  /** None of the effects is a request. */
  predicate NoRequest(effects: seq<Effect>) {
    forall i :: 0 <= i < |effects| ==> !effects[i].Request?
  }

  /** Every listed field of the draft is truthy: the `!!a && !!b && ...` gate of the submit handlers. */
  predicate RequiredFilled(r: Record, keys: seq<string>) {
    forall i :: 0 <= i < |keys| ==> Truthy(Get(r, keys[i]))
  }

  /** The gate reads nothing but the listed fields. */
  lemma RequiredFilledLocal(r: Record, r': Record, keys: seq<string>)
    requires forall i :: 0 <= i < |keys| ==> Get(r, keys[i]) == Get(r', keys[i])
    ensures RequiredFilled(r, keys) <==> RequiredFilled(r', keys)
  {
  }

  /** The notice every form shows when its required fields are not all filled. */
  const ValidationError := Notice("Validation Error", "Please fill in all required fields.", "error")

  /** `${API_URL}/<resource>/<id>` with the base URL left out. */
  function ItemPath(resource: string, id: Val): string {
    "/" + resource + "/" + ToStr(id)
  }

  /** `draft.id ? axios.put(`/<resource>/<id>`, body) : axios.post(`/<resource>`, body)`. */
  function SaveRequest(resource: string, id: Val, body: Val): (e: Effect)
    ensures Truthy(id) ==> e == Request(PUT, ItemPath(resource, id), body)
    ensures !Truthy(id) ==> e == Request(POST, "/" + resource, body)
  {
    if Truthy(id) then Request(PUT, ItemPath(resource, id), body) else Request(POST, "/" + resource, body)
  }

  /** The notice the edit hooks show when the token is missing. */
  const NotLoggedIn := Notice("Unauthorized", "You are not logged in. Please log in again.", "error")

  /** The notice the add hooks show when the token is missing. */
  const NoToken := Notice("Error", "No token found", "error")

  /** The failure notice of the edit hooks that single out a 401 reply. */
  function UpdateFailed<T>(reply: Reply<T>, failed: string): (n: Notice)
    ensures n.title == "Oops..." && n.icon == "error"
    ensures n.text == (if Unauthorized(reply) then "Unauthorized. Please log in again." else failed)
  {
    Notice("Oops...", if Unauthorized(reply) then "Unauthorized. Please log in again." else failed, "error")
  }

  /** One DELETE per id, fired together: `Promise.all(ids.map(id => axios.delete(...)))`. */
  function DeleteRequests(resource: string, ids: seq<Val>): (r: seq<Effect>)
    ensures |r| == |ids|
    ensures forall i :: 0 <= i < |ids| ==> r[i] == Request(DELETE, ItemPath(resource, ids[i]), Undefined)
  {
    if ids == [] then [] else [Request(DELETE, ItemPath(resource, ids[0]), Undefined)] + DeleteRequests(resource, ids[1..])
  }
}
