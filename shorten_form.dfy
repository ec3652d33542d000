/** The URL-shortener form: a `url` and an optional custom `code`, the same
    in-flight guard `loading` as the bookmark form, a mount effect that
    prefills the url from the active tab, and a submit handler that checks the
    URL, posts `{url, code}` to `host/v1/shorten` and, on a 2xx answer, copies
    `host/<code returned>` to the clipboard.

    The form's `validURL` comes from a utility module that is not part of
    this model; it is taken to be the bookmark form's recogniser,
    `UrlPattern.ValidUrl`. */
module ShortenForm {
  import opened Browser
  import UrlPattern

  datatype State = State(url: string, code: string, loading: bool)

  const Initial: State := State("", "", false)

  datatype Field = Url | Code

  function Get(s: State, f: Field): string {
    match f
    case Url => s.url
    case Code => s.code
  }

  /** Typing into one input replaces that field and nothing else. */
  function Edit(s: State, f: Field, value: string): (r: State)
    ensures Get(r, f) == value
    ensures forall g :: g != f ==> Get(r, g) == Get(s, g)
    ensures r.loading == s.loading
  {
    match f
    case Url => s.(url := value)
    case Code => s.(code := value)
  }

  /** The mount effect: without an active tab only a warning is raised;
      otherwise the url is overwritten by the tab's url when it is truthy. */
  function Prefill(s: State, tabs: seq<Tab>): (r: (State, Option<Toast>))
    ensures tabs == [] ==> r == (s, Some(Toast(Warning, "No active tab found")))
    ensures tabs != [] ==> r.1 == None
    ensures r.0.code == s.code && r.0.loading == s.loading
    ensures tabs != [] && Truthy(tabs[0].url) ==> r.0.url == tabs[0].url.value
    ensures !(tabs != [] && Truthy(tabs[0].url)) ==> r.0.url == s.url
  {
    if tabs == [] then (s, Some(Toast(Warning, "No active tab found")))
    else if Truthy(tabs[0].url) then (s.(url := tabs[0].url.value), None)
    else (s, None)
  }

  /** The shorten POST: to the host's `/v1/shorten`, authorised by the
      token, its JSON body the url and the code as they stand. */
  function ShortenRequest(s: State, token: string, host: string): (r: Request)
    ensures r.url == host + "/v1/shorten" && r.authorization == Some(token)
    ensures r.body.ShortenBody? && r.body.url == Get(s, Url) && r.body.code == Get(s, Code)
  {
    Post(host + "/v1/shorten", Some(token), ShortenBody(s.url, s.code))
  }

  /** The short link the server's answer stands for. */
  function ShortLink(host: string, data: string): (r: string)
    // the host, one slash, then the server's code, which can be read back
    ensures |r| == |host| + 1 + |data|
    ensures r[..|host|] == host && r[|host|] == '/' && r[|host| + 1..] == data
  {
    host + "/" + data
  }

  lemma LinkStartsWithHost(host: string, data: string)
    ensures host + "/" <= ShortLink(host, data)
  {
    assert ShortLink(host, data) == (host + "/") + data;
  }

  /** What one submit leaves behind, with the text copied to the clipboard, if any. */
  datatype Outcome = Outcome(state: State, request: Option<Request>, notice: Option<Toast>, copied: Option<string>)

  /** `onSubmit`; `outcome` is how the request settles. */
  function Submit(s: State, token: string, host: string, outcome: FetchOutcome): (r: Outcome)
    // a submit while one is in flight changes nothing and sends nothing
    ensures s.loading ==> r == Outcome(s, None, None, None)
    // a request is sent exactly when the form is idle and the URL passes;
    // the body is the url and the code as they are, an empty code included
    ensures r.request.Some? <==> !s.loading && UrlPattern.ValidUrl(s.url)
    ensures r.request.Some? ==> r.request.value == ShortenRequest(s, token, host)
    // an invalid URL leaves `loading` set: the form is locked
    ensures !s.loading && !UrlPattern.ValidUrl(s.url) ==>
      r == Outcome(s.(loading := true), None, Some(Toast(Error, "Invalid URL")), None)
    // the clipboard is written exactly on a 2xx answer, with host/data
    ensures r.copied.Some? <==> r.request.Some? && Succeeded(outcome)
    ensures r.copied.Some? ==> r.copied.value == ShortLink(host, outcome.data)
    // a settled request gives the form back as it was, idle, with its report
    ensures r.request.Some? ==> r.state == s && !r.state.loading
    ensures r.request.Some? ==>
      r.notice == Some(Report(outcome, "URL shortened! Copied to clipboard", "Shorten failed "))
  {
    if s.loading then Outcome(s, None, None, None)
    else if !UrlPattern.ValidUrl(s.url) then
      Outcome(s.(loading := true), None, Some(Toast(Error, "Invalid URL")), None)
    else
      var copied := if Succeeded(outcome) then Some(ShortLink(host, outcome.data)) else None;
      Outcome(s, Some(ShortenRequest(s, token, host)),
              Some(Report(outcome, "URL shortened! Copied to clipboard", "Shorten failed ")), copied)
  }

  datatype Event =
    | Changed(field: Field, value: string)
    | Submitted(outcome: FetchOutcome)
    | TabsQueried(tabs: seq<Tab>)

  function Step(s: State, token: string, host: string, e: Event): (r: Outcome)
    ensures !e.Submitted? ==> r.request.None? && r.copied.None? && r.state.loading == s.loading
    ensures r.copied.Some? ==> e.Submitted? && e.outcome.Responded? && r.copied.value == ShortLink(host, e.outcome.data)
  {
    match e
    case Changed(f, v) => Outcome(Edit(s, f, v), None, None, None)
    case Submitted(outcome) => Submit(s, token, host, outcome)
    case TabsQueried(tabs) => var p := Prefill(s, tabs); Outcome(p.0, None, p.1, None)
  }

  /** The final state after a sequence of events, and everything copied to the clipboard on the way. */
  function Run(s: State, token: string, host: string, events: seq<Event>): (State, seq<string>)
    decreases |events|
  {
    if events == [] then (s, [])
    else
      var o := Step(s, token, host, events[0]);
      var rest := Run(o.state, token, host, events[1..]);
      (rest.0, (if o.copied.Some? then [o.copied.value] else []) + rest.1)
  }

  /** Once `loading` is stuck, nothing is ever copied again. */
  lemma {:induction false} LockedStaysLocked(s: State, token: string, host: string, events: seq<Event>)
    requires s.loading
    ensures Run(s, token, host, events).0.loading
    ensures Run(s, token, host, events).1 == []
    decreases |events|
  {
    if events != [] {
      var o := Step(s, token, host, events[0]);
      assert o.state.loading && o.copied.None?;
      LockedStaysLocked(o.state, token, host, events[1..]);
    }
  }

  /** A submit with an invalid URL locks the form: nothing is copied by it or after it. */
  lemma InvalidUrlLocksForm(s: State, token: string, host: string, outcome: FetchOutcome, later: seq<Event>)
    requires !s.loading && !UrlPattern.ValidUrl(s.url)
    ensures Run(s, token, host, [Submitted(outcome)] + later).1 == []
    ensures Run(s, token, host, [Submitted(outcome)] + later).0.loading
  {
    var events := [Submitted(outcome)] + later;
    assert events[0] == Submitted(outcome) && events[1..] == later;
    LockedStaysLocked(Submit(s, token, host, outcome).state, token, host, later);
  }

  /** Everything ever copied to the clipboard is a link on the form's own
      host: it starts with `host` followed by a slash. */
  lemma {:induction false} CopiesAreLinksOnHost(s: State, token: string, host: string, events: seq<Event>)
    ensures forall x :: x in Run(s, token, host, events).1 ==> host + "/" <= x
    decreases |events|
  {
    if events != [] {
      var o := Step(s, token, host, events[0]);
      CopiesAreLinksOnHost(o.state, token, host, events[1..]);
      if o.copied.Some? {
        LinkStartsWithHost(host, events[0].outcome.data);
      }
    }
  }

  /** The mounted component: its React state as fields, `token` and `host` as props. */
  class Component {
    const token: string
    const host: string
    var url: string
    var code: string
    var loading: bool

    function Snapshot(): State
      reads this
    {
      State(url, code, loading)
    }

    constructor (token: string, host: string)
      ensures this.token == token && this.host == host
      ensures Snapshot() == Initial
    {
      this.token := token;
      this.host := host;
      url := "";
      code := "";
      loading := false;
    }

    method OnChange(f: Field, value: string)
      modifies this
      ensures Snapshot() == Edit(old(Snapshot()), f, value)
    {
      match f
      case Url => url := value;
      case Code => code := value;
    }

    method OnTabsQueried(tabs: seq<Tab>) returns (notice: Option<Toast>)
      modifies this
      ensures (Snapshot(), notice) == Prefill(old(Snapshot()), tabs)
    {
      if |tabs| == 0 {
        return Some(Toast(Warning, "No active tab found"));
      }
      if Truthy(tabs[0].url) {
        url := tabs[0].url.value;
      }
      notice := None;
    }

    method OnSubmit(outcome: FetchOutcome) returns (request: Option<Request>, notice: Option<Toast>, copied: Option<string>)
      modifies this
      ensures Outcome(Snapshot(), request, notice, copied) == Submit(old(Snapshot()), token, host, outcome)
    {
      if loading {
        return None, None, None;
      }
      loading := true;
      if !UrlPattern.ValidUrl(url) {
        return None, Some(Toast(Error, "Invalid URL")), None;
      }
      request := Some(Post(host + "/v1/shorten", Some(token), ShortenBody(url, code)));
      copied := None;
      match outcome {
        case Rejected(error) =>
          notice := Some(Toast(Error, error));
        case Responded(status, message, data) =>
          if status < 200 || status > 299 {
            notice := Some(Toast(Error, "Shorten failed " + message));
          } else {
            copied := Some(host + "/" + data);
            notice := Some(Toast(Success, "URL shortened! Copied to clipboard"));
          }
      }
      loading := false;
    }
  }
}
