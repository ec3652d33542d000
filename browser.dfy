/** What the popup's components see of the browser and of the storage server.

    Every effect of the extension -- `fetch` and `res.json()`, the active-tab
    query, `browser.storage.sync`, the clipboard and the toasts -- is replaced
    here by a value: the outcome of a request is an input, a toast or a request
    that was sent is an output. */
module Browser {

  datatype Option<T> = None | Some(value: T)

  /** JavaScript truthiness of a string that may be `undefined`. */
  predicate Truthy(o: Option<string>) { o.Some? && o.value != "" }

  /** The fields of the active tab that the forms read. */
  datatype Tab = Tab(title: Option<string>, url: Option<string>, favIconUrl: Option<string>)

  /** `toast.success`, `toast.error` and `toast.warning`. */
  datatype ToastKind = Success | Error | Warning
  datatype Toast = Toast(kind: ToastKind, text: string)

  /** The JSON bodies the forms post. */
  datatype Body =
    | LoginBody(username: string, password: string)
    | BookmarkBody(title: string, url: string, description: string, imageUrl: string)
    | ShortenBody(url: string, code: string)

  /** A `POST` with a JSON body; `authorization` is the `Authorization` header, when sent. */
  datatype Request = Post(url: string, authorization: Option<string>, body: Body)

  /** How a `fetch(...).then(res => res.json())` settles: the promise chain
      rejects (network failure, a body that is not JSON, an exception in the
      handler) with an error message, or the server answers with a status and
      a body. `data` is the string the form reads from the body: `body.data`
      for the shortener, `body.data.access_token` for the login. */
  datatype FetchOutcome =
    | Rejected(error: string)
    | Responded(status: int, message: string, data: string)

  /** The forms' success test, `!(res.status < 200 || res.status > 299)`. */
  predicate IsOk(status: int) { 200 <= status <= 299 }

  predicate Succeeded(outcome: FetchOutcome) { outcome.Responded? && IsOk(outcome.status) }

  /** The toast a form raises once its request has settled: `created` on a
      2xx answer, `failed` followed by the server's message on any other
      status, the error's own message when the chain rejects. */
  function Report(outcome: FetchOutcome, created: string, failed: string): (t: Toast)
    ensures t.kind == Success <==> Succeeded(outcome)
    ensures t.kind != Warning
    ensures Succeeded(outcome) ==> t.text == created
    ensures outcome.Responded? && !IsOk(outcome.status) ==> t.text == failed + outcome.message
    ensures outcome.Rejected? ==> t.text == outcome.error
  {
    match outcome
    case Rejected(error) => Toast(Error, error)
    case Responded(status, message, _) =>
      if status < 200 || status > 299 then Toast(Error, failed + message) else Toast(Success, created)
  }

  /** Which component a render shows, with the `host` and `token` props it is given. */
  datatype Screen =
    | LoginFormScreen
    | MenuScreen
    | HomeScreen(host: string, token: string)
    | BookmarkFormScreen(host: string, token: string)
    | ShortenFormScreen(host: string, token: string)

  /** A key of `browser.storage.sync`, `undefined` when it was never set. */
  function Lookup(items: map<string, string>, key: string): (r: Option<string>)
    ensures r.Some? <==> key in items
    ensures r.Some? ==> r.value == items[key]
  {
    if key in items then Some(items[key]) else None
  }

  /** `browser.storage.sync`, shared by every component of the popup. */
  class SyncStorage {
    var items: map<string, string>

    constructor (items: map<string, string>)
      ensures this.items == items
    {
      this.items := items;
    }

    /** `browser.storage.sync.set({token, host})`: both keys are overwritten,
        every other key is kept. */
    method SetSession(token: string, host: string)
      modifies this
      ensures items == old(items)["token" := token]["host" := host]
      ensures Lookup(items, "token") == Some(token) && Lookup(items, "host") == Some(host)
      ensures forall k :: k in old(items) && k != "token" && k != "host" ==> k in items && items[k] == old(items)[k]
    {
      items := items["token" := token]["host" := host];
    }
  }
}
