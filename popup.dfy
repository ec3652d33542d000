/** The popup's root: it starts on the login form and, when it mounts, reads
    `token` and `host` from `browser.storage.sync`; when both are truthy it
    keeps them and switches to the home screen. It never writes storage. */
module Popup {
  import opened Browser
  import Login

  datatype State = State(redirect: bool, token: string, host: string)

  const Initial: State := State(false, "", "")

  /** Both stored values are present and non-empty. */
  predicate HasSession(items: map<string, string>) {
    Truthy(Lookup(items, "token")) && Truthy(Lookup(items, "host"))
  }

  /** The mount effect, given what storage holds when it runs. */
  function Mount(s: State, items: map<string, string>): (r: State)
    ensures !HasSession(items) ==> r == s
    ensures HasSession(items) ==> r.redirect && r.token == items["token"] && r.host == items["host"]
    ensures r.redirect ==> s.redirect || HasSession(items)
  {
    var token := Lookup(items, "token");
    var host := Lookup(items, "host");
    if Truthy(token) && Truthy(host) then State(true, token.value, host.value) else s
  }

  /** The render: home with the kept host and token, or the login form. */
  function Render(s: State): (r: Screen)
    ensures r == HomeScreen(s.host, s.token) <==> s.redirect
    ensures r == LoginFormScreen <==> !s.redirect
  {
    if s.redirect then HomeScreen(s.host, s.token) else LoginFormScreen
  }

  /** A popup opens on the home screen, given exactly the stored host and
      token, when storage holds a session, and on the login form otherwise. */
  lemma OpensOn(items: map<string, string>)
    ensures Render(Initial) == LoginFormScreen
    ensures HasSession(items) ==> Render(Mount(Initial, items)) == HomeScreen(items["host"], items["token"])
    ensures !HasSession(items) ==> Render(Mount(Initial, items)) == LoginFormScreen
  {
  }

  /** What the login saves is what the next popup reads: after a login that
      saves a session, a popup opened on that storage shows home with the
      token and storage URL of that login, provided neither is empty. */
  lemma ReopenAfterLogin(s: Login.State, items: map<string, string>, outcome: FetchOutcome, writeError: Option<string>)
    requires !s.loading && Login.Saves(outcome, writeError)
    ensures var saved := Login.Submit(s, items, outcome, writeError).items;
      Render(Mount(Initial, saved)) ==
        if outcome.data != "" && s.storageUrl != "" then HomeScreen(s.storageUrl, outcome.data)
        else LoginFormScreen
  {
    Login.SavedSessionShown(s, items, outcome, writeError);
  }

  /** The mounted root: its React state as fields. */
  class Component {
    var redirect: bool
    var token: string
    var host: string

    function Snapshot(): State
      reads this
    {
      State(redirect, token, host)
    }

    constructor ()
      ensures Snapshot() == Initial
    {
      redirect := false;
      token := "";
      host := "";
    }

    /** The mount effect; storage is only read. */
    method OnMount(storage: SyncStorage)
      modifies this
      ensures Snapshot() == Mount(old(Snapshot()), storage.items)
      ensures unchanged(storage)
    {
      var items := storage.items;
      var accessToken := Lookup(items, "token");
      var storageHost := Lookup(items, "host");
      if Truthy(accessToken) && Truthy(storageHost) {
        token := accessToken.value;
        host := storageHost.value;
        redirect := true;
      }
    }
  }
}
