/** The login form: a storage-server URL, a username and a password, the
    in-flight guard `loading`, and a submit handler that posts the credentials
    to `storageUrl/v1/auth/login`. A 2xx answer saves `{token, host}` in
    `browser.storage.sync`, keeps the access token and sets `redirect`, after
    which the component renders the bookmark form in place of itself.

    Nothing is validated before the request: not the URL, not the
    credentials. */
module Login {
  import opened Browser

  datatype State = State(storageUrl: string, username: string, password: string,
                         token: string, redirect: bool, loading: bool)

  const Initial: State := State("", "", "", "", false, false)

  datatype Field = StorageUrl | Username | Password

  function Get(s: State, f: Field): string {
    match f
    case StorageUrl => s.storageUrl
    case Username => s.username
    case Password => s.password
  }

  /** Typing into one input replaces that field and nothing else. */
  function Edit(s: State, f: Field, value: string): (r: State)
    ensures Get(r, f) == value
    ensures forall g :: g != f ==> Get(r, g) == Get(s, g)
    ensures r.token == s.token && r.redirect == s.redirect && r.loading == s.loading
  {
    match f
    case StorageUrl => s.(storageUrl := value)
    case Username => s.(username := value)
    case Password => s.(password := value)
  }

  /** The login POST: to the storage URL's `/v1/auth/login`, with no
      Authorization header, its JSON body the username and password. */
  function LoginRequest(s: State): (r: Request)
    ensures r.url == s.storageUrl + "/v1/auth/login" && r.authorization == None
    ensures r.body.LoginBody? && r.body.username == Get(s, Username) && r.body.password == Get(s, Password)
  {
    Post(s.storageUrl + "/v1/auth/login", None, LoginBody(s.username, s.password))
  }

  /** The session is saved: the server answered 2xx and the storage write,
      which fails with `writeError` when there is one, went through. */
  predicate Saves(outcome: FetchOutcome, writeError: Option<string>) {
    Succeeded(outcome) && writeError.None?
  }

  /** What one submit leaves behind: the new state, the request, the toast and
      the contents of `browser.storage.sync`. */
  datatype Outcome = Outcome(state: State, request: Option<Request>, notice: Option<Toast>, items: map<string, string>)

  /** `onSubmit`, given the storage contents `items` before it, how the request
      settles, and whether the storage write of a 2xx answer is rejected. */
  function Submit(s: State, items: map<string, string>, outcome: FetchOutcome, writeError: Option<string>): (r: Outcome)
    // a submit while one is in flight changes nothing and sends nothing
    ensures s.loading ==> r == Outcome(s, None, None, items)
    // otherwise the request always goes out, unvalidated, and `loading` is
    // false again once it has settled, whatever the outcome
    ensures !s.loading ==> r.request == Some(LoginRequest(s)) && !r.state.loading
    // a saved session: storage holds exactly the new token and host, the
    // component keeps the token and redirects
    ensures !s.loading && Saves(outcome, writeError) ==>
      r.items == items["token" := outcome.data]["host" := s.storageUrl] &&
      r.state == s.(token := outcome.data, redirect := true) &&
      r.notice == Some(Toast(Success, "Login successful"))
    // any other outcome writes nothing, keeps `token` and `redirect`, and says why
    ensures !s.loading && !Saves(outcome, writeError) ==>
      r.items == items && r.state == s.(loading := false) && r.notice.Some? && r.notice.value.kind == Error
    ensures !s.loading && outcome.Responded? && !IsOk(outcome.status) ==>
      r.notice == Some(Toast(Error, "Login failed " + outcome.message))
    ensures !s.loading && outcome.Rejected? ==> r.notice == Some(Toast(Error, outcome.error))
    ensures !s.loading && Succeeded(outcome) && writeError.Some? ==> r.notice == Some(Toast(Error, writeError.value))
  {
    if s.loading then Outcome(s, None, None, items)
    else
      var request := Some(LoginRequest(s));
      var idle := s.(loading := false);
      match outcome
      case Rejected(error) => Outcome(idle, request, Some(Toast(Error, error)), items)
      case Responded(status, message, accessToken) =>
        if status < 200 || status > 299 then
          Outcome(idle, request, Some(Toast(Error, "Login failed " + message)), items)
        else if writeError.Some? then
          Outcome(idle, request, Some(Toast(Error, writeError.value)), items)
        else
          Outcome(idle.(token := accessToken, redirect := true), request, Some(Toast(Success, "Login successful")),
                  items["token" := accessToken]["host" := s.storageUrl])
  }

  /** The render: once `redirect` is set the bookmark form takes the login
      form's place, with the saved token and the storage URL as its host. */
  function Render(s: State): (r: Screen)
    ensures r == BookmarkFormScreen(s.storageUrl, s.token) <==> s.redirect
    ensures r == LoginFormScreen <==> !s.redirect
  {
    if s.redirect then BookmarkFormScreen(s.storageUrl, s.token) else LoginFormScreen
  }

  /** After a saved session the screen shows the bookmark form with exactly
      the token and host that were written to storage. */
  lemma SavedSessionShown(s: State, items: map<string, string>, outcome: FetchOutcome, writeError: Option<string>)
    requires !s.loading && Saves(outcome, writeError)
    ensures Lookup(Submit(s, items, outcome, writeError).items, "token") == Some(outcome.data)
    ensures Lookup(Submit(s, items, outcome, writeError).items, "host") == Some(s.storageUrl)
    ensures Render(Submit(s, items, outcome, writeError).state) == BookmarkFormScreen(s.storageUrl, outcome.data)
  {
    var r := Submit(s, items, outcome, writeError);
    assert "token" != "host";
    assert r.items["token"] == outcome.data;
  }

  datatype Event =
    | Changed(field: Field, value: string)
    | Submitted(outcome: FetchOutcome, writeError: Option<string>)

  function Step(s: State, items: map<string, string>, e: Event): (r: Outcome)
    ensures !e.Submitted? ==> r.items == items && r.request.None?
  {
    match e
    case Changed(f, v) => Outcome(Edit(s, f, v), None, None, items)
    case Submitted(outcome, writeError) => Submit(s, items, outcome, writeError)
  }

  /** The final state and storage contents after a sequence of events. It
      accepts edits and submits after `redirect` is set, which the component
      cannot receive once it renders the bookmark form instead of its own
      form, so it over-approximates the event sequences that can occur. */
  function Run(s: State, items: map<string, string>, events: seq<Event>): (State, map<string, string>)
    decreases |events|
  {
    if events == [] then (s, items)
    else
      var o := Step(s, items, events[0]);
      Run(o.state, o.items, events[1..])
  }

  /** The login never locks: from an idle form, `loading` is false after any
      sequence of edits and submits. */
  lemma {:induction false} NeverLocked(s: State, items: map<string, string>, events: seq<Event>)
    requires !s.loading
    ensures !Run(s, items, events).0.loading
    decreases |events|
  {
    if events != [] {
      var o := Step(s, items, events[0]);
      assert !o.state.loading;
      NeverLocked(o.state, o.items, events[1..]);
    }
  }

  /** Once redirected, always redirected. */
  lemma {:induction false} RedirectIsFinal(s: State, items: map<string, string>, events: seq<Event>)
    requires s.redirect
    ensures Run(s, items, events).0.redirect
    decreases |events|
  {
    if events != [] {
      var o := Step(s, items, events[0]);
      assert o.state.redirect;
      RedirectIsFinal(o.state, o.items, events[1..]);
    }
  }

  /** Storage is written only by a submit that saves a session. */
  lemma {:induction false} StorageOnlyFromSavedSessions(s: State, items: map<string, string>, events: seq<Event>)
    requires forall k :: 0 <= k < |events| && events[k].Submitted? ==> !Saves(events[k].outcome, events[k].writeError)
    ensures Run(s, items, events).1 == items
    decreases |events|
  {
    if events != [] {
      var o := Step(s, items, events[0]);
      assert o.items == items;
      StorageOnlyFromSavedSessions(o.state, o.items, events[1..]);
    }
  }

  /** The mounted component: its React state as fields. */
  class Component {
    var storageUrl: string
    var username: string
    var password: string
    var token: string
    var redirect: bool
    var loading: bool

    function Snapshot(): State
      reads this
    {
      State(storageUrl, username, password, token, redirect, loading)
    }

    constructor ()
      ensures Snapshot() == Initial
    {
      storageUrl := "";
      username := "";
      password := "";
      token := "";
      redirect := false;
      loading := false;
    }

    method OnChange(f: Field, value: string)
      modifies this
      ensures Snapshot() == Edit(old(Snapshot()), f, value)
    {
      match f
      case StorageUrl => storageUrl := value;
      case Username => username := value;
      case Password => password := value;
    }

    method OnSubmit(storage: SyncStorage, outcome: FetchOutcome, writeError: Option<string>)
      returns (request: Option<Request>, notice: Option<Toast>)
      modifies this, storage
      ensures Outcome(Snapshot(), request, notice, storage.items) ==
              Submit(old(Snapshot()), old(storage.items), outcome, writeError)
    {
      if loading {
        return None, None;
      }
      loading := true;
      request := Some(Post(storageUrl + "/v1/auth/login", None, LoginBody(username, password)));
      match outcome {
        case Rejected(error) =>
          notice := Some(Toast(Error, error));
        case Responded(status, message, accessToken) =>
          if status < 200 || status > 299 {
            notice := Some(Toast(Error, "Login failed " + message));
          } else if writeError.Some? {
            notice := Some(Toast(Error, writeError.value));
          } else {
            storage.SetSession(accessToken, storageUrl);
            notice := Some(Toast(Success, "Login successful"));
            token := accessToken;
            redirect := true;
          }
      }
      loading := false;
    }
  }
}
