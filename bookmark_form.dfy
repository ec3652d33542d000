/** The bookmark form: four text fields, an in-flight guard `loading`, a mount
    effect that prefills the fields from the active tab, a listener that takes
    the page's `<meta name="description">`, and a submit handler that checks
    the URL and the banner image before posting to `host/v1/bookmark`.

    Each handler is modelled twice: as a function on a `State` value (the
    specification, with the properties it promises) and as a method of
    `Component`, whose fields are the component's React state and whose
    methods change them step by step as the handler does. Handlers run to
    completion one at a time. */
module BookmarkForm {
  import opened Browser
  import UrlPattern

  /** The banner the form starts with. */
  const PlaceHolder: string := "https://picsum.photos/1280/720"

  /** One entry scraped from the page's `<meta>` tags. */
  datatype Meta = Meta(name: string, property: string, httpEquiv: string, content: string, charset: string)

  /** A runtime message received by the form's listener. */
  datatype Message = Message(methodName: string, metas: seq<Meta>)

  datatype State = State(title: string, url: string, description: string, imageUrl: string, loading: bool)

  const Initial: State := State("", "", "", PlaceHolder, false)

  /** The four inputs, each bound by `onChange` to its own setter. */
  datatype Field = Title | Url | Description | ImageUrl

  function Get(s: State, f: Field): string {
    match f
    case Title => s.title
    case Url => s.url
    case Description => s.description
    case ImageUrl => s.imageUrl
  }

  /** Typing into one input replaces that field and nothing else. */
  function Edit(s: State, f: Field, value: string): (r: State)
    ensures Get(r, f) == value
    ensures forall g :: g != f ==> Get(r, g) == Get(s, g)
    ensures r.loading == s.loading
  {
    match f
    case Title => s.(title := value)
    case Url => s.(url := value)
    case Description => s.(description := value)
    case ImageUrl => s.(imageUrl := value)
  }

  /** The mount effect, given the answer of the active-tab query: without a
      tab only a warning is raised; otherwise the title, url and banner are
      each overwritten by the tab's value when that value is truthy. */
  function Prefill(s: State, tabs: seq<Tab>): (r: (State, Option<Toast>))
    ensures tabs == [] ==> r == (s, Some(Toast(Warning, "No active tab found")))
    ensures tabs != [] ==> r.1 == None
    ensures r.0.description == s.description && r.0.loading == s.loading
    ensures tabs != [] && Truthy(tabs[0].title) ==> r.0.title == tabs[0].title.value
    ensures tabs != [] && Truthy(tabs[0].url) ==> r.0.url == tabs[0].url.value
    ensures tabs != [] && Truthy(tabs[0].favIconUrl) ==> r.0.imageUrl == tabs[0].favIconUrl.value
    ensures !(tabs != [] && Truthy(tabs[0].title)) ==> r.0.title == s.title
    ensures !(tabs != [] && Truthy(tabs[0].url)) ==> r.0.url == s.url
    ensures !(tabs != [] && Truthy(tabs[0].favIconUrl)) ==> r.0.imageUrl == s.imageUrl
  {
    if tabs == [] then (s, Some(Toast(Warning, "No active tab found")))
    else
      var tab := tabs[0];
      var s1 := if Truthy(tab.title) then s.(title := tab.title.value) else s;
      var s2 := if Truthy(tab.url) then s1.(url := tab.url.value) else s1;
      var s3 := if Truthy(tab.favIconUrl) then s2.(imageUrl := tab.favIconUrl.value) else s2;
      (s3, None)
  }

  /** `i` is the first position whose `name` is exactly "description". */
  predicate IsFirstDescription(metas: seq<Meta>, i: int) {
    0 <= i < |metas| && metas[i].name == "description" &&
    forall j :: 0 <= j < i ==> metas[j].name != "description"
  }

  /** `metas.find(meta => meta.name === "description")`, as a position. */
  function FirstDescription(metas: seq<Meta>): (r: Option<nat>)
    ensures r.Some? ==> IsFirstDescription(metas, r.value)
    ensures r.None? ==> forall j :: 0 <= j < |metas| ==> metas[j].name != "description"
  {
    if metas == [] then None
    else if metas[0].name == "description" then Some(0)
    else match FirstDescription(metas[1..])
      case None => None
      case Some(i) => Some(i + 1)
  }

  /** The `onMessage` listener: a "getMetaTags" message sets the description
      to the content of the first description entry, if there is one. */
  function ApplyMessage(s: State, msg: Message): (r: State)
    ensures r == s.(description := r.description)
    ensures msg.methodName != "getMetaTags" ==> r == s
    ensures (forall j :: 0 <= j < |msg.metas| ==> msg.metas[j].name != "description") ==> r == s
    ensures forall i :: msg.methodName == "getMetaTags" && IsFirstDescription(msg.metas, i) ==>
      r.description == msg.metas[i].content
  {
    if msg.methodName != "getMetaTags" then s
    else match FirstDescription(msg.metas)
      case None => s
      case Some(i) => s.(description := msg.metas[i].content)
  }

  /** The request a submit sends once both checks have passed. */
  /** The bookmark POST: to the host's `/v1/bookmark`, authorised by the
      token, its JSON body the four form fields as they stand. */
  function BookmarkRequest(s: State, token: string, host: string): (r: Request)
    ensures r.url == host + "/v1/bookmark" && r.authorization == Some(token)
    ensures r.body.BookmarkBody?
    ensures r.body.title == Get(s, Title) && r.body.url == Get(s, Url)
    ensures r.body.description == Get(s, Description) && r.body.imageUrl == Get(s, ImageUrl)
  {
    Post(host + "/v1/bookmark", Some(token), BookmarkBody(s.title, s.url, s.description, s.imageUrl))
  }

  /** What one submit leaves behind: the new state, the request it sent (if
      any) and the toast it raised (if any). */
  datatype Outcome = Outcome(state: State, request: Option<Request>, notice: Option<Toast>)

  /** `onSubmit`. `imageOk` is what the image probe of the banner URL answers
      and `outcome` is how the request settles; each is consulted only when
      the handler gets that far. */
  function Submit(s: State, token: string, host: string, imageOk: bool, outcome: FetchOutcome): (r: Outcome)
    // a submit while one is in flight changes nothing and sends nothing
    ensures s.loading ==> r == Outcome(s, None, None)
    // a request is sent exactly when the form is idle and both checks pass
    ensures r.request.Some? <==> !s.loading && UrlPattern.ValidUrl(s.url) && imageOk
    ensures r.request.Some? ==> r.request.value == BookmarkRequest(s, token, host)
    // the URL is checked before the image
    ensures !s.loading && !UrlPattern.ValidUrl(s.url) ==> r.notice == Some(Toast(Error, "Invalid URL"))
    ensures !s.loading && UrlPattern.ValidUrl(s.url) && !imageOk ==>
      r.notice == Some(Toast(Error, "Invalid image URL"))
    // a failed check leaves `loading` set: the form is locked
    ensures !s.loading && r.request.None? ==> r.state == s.(loading := true)
    // a settled request gives the form back exactly as it was, idle
    ensures r.request.Some? ==> r.state == s && !r.state.loading
    ensures r.request.Some? ==> r.notice == Some(Report(outcome, "Bookmark created", "Bookmark failed "))
    ensures (r.notice.Some? && r.notice.value.kind == Success) <==> r.request.Some? && Succeeded(outcome)
  {
    if s.loading then Outcome(s, None, None)
    else
      var busy := s.(loading := true);
      if !UrlPattern.ValidUrl(s.url) then Outcome(busy, None, Some(Toast(Error, "Invalid URL")))
      else if !imageOk then Outcome(busy, None, Some(Toast(Error, "Invalid image URL")))
      else
        Outcome(busy.(loading := false), Some(BookmarkRequest(s, token, host)),
                Some(Report(outcome, "Bookmark created", "Bookmark failed ")))
  }

  /** Everything that can happen to a mounted form. */
  datatype Event =
    | Changed(field: Field, value: string)
    | Submitted(imageOk: bool, outcome: FetchOutcome)
    | TabsQueried(tabs: seq<Tab>)
    | MessageReceived(msg: Message)

  function Step(s: State, token: string, host: string, e: Event): (r: Outcome)
    ensures !e.Submitted? ==> r.request.None? && r.state.loading == s.loading
  {
    match e
    case Changed(f, v) => Outcome(Edit(s, f, v), None, None)
    case Submitted(imageOk, outcome) => Submit(s, token, host, imageOk, outcome)
    case TabsQueried(tabs) => var p := Prefill(s, tabs); Outcome(p.0, None, p.1)
    case MessageReceived(msg) => Outcome(ApplyMessage(s, msg), None, None)
  }

  /** The final state after a sequence of events, and the requests sent on the way. */
  function Run(s: State, token: string, host: string, events: seq<Event>): (State, seq<Request>)
    decreases |events|
  {
    if events == [] then (s, [])
    else
      var o := Step(s, token, host, events[0]);
      var rest := Run(o.state, token, host, events[1..]);
      (rest.0, (if o.request.Some? then [o.request.value] else []) + rest.1)
  }

  /** Once `loading` is set outside a request, no later event clears it and
      no later submit sends anything. */
  lemma {:induction false} LockedStaysLocked(s: State, token: string, host: string, events: seq<Event>)
    requires s.loading
    ensures Run(s, token, host, events).0.loading
    ensures Run(s, token, host, events).1 == []
    decreases |events|
  {
    if events != [] {
      var o := Step(s, token, host, events[0]);
      assert o.state.loading && o.request.None?;
      LockedStaysLocked(o.state, token, host, events[1..]);
    }
  }

  /** A submit whose URL or image check fails locks the form for good: that
      submit and every later one send nothing, whatever is edited afterwards. */
  lemma FailedCheckLocksForm(s: State, token: string, host: string, imageOk: bool,
                             outcome: FetchOutcome, later: seq<Event>)
    requires !s.loading && !(UrlPattern.ValidUrl(s.url) && imageOk)
    ensures Submit(s, token, host, imageOk, outcome).request.None?
    ensures Run(s, token, host, [Submitted(imageOk, outcome)] + later).1 == []
    ensures Run(s, token, host, [Submitted(imageOk, outcome)] + later).0.loading
  {
    var events := [Submitted(imageOk, outcome)] + later;
    assert events[0] == Submitted(imageOk, outcome) && events[1..] == later;
    LockedStaysLocked(Submit(s, token, host, imageOk, outcome).state, token, host, later);
  }

  /** The mounted component: its React state as fields, `token` and `host` as props. */
  class Component {
    const token: string
    const host: string
    var title: string
    var url: string
    var description: string
    var imageUrl: string
    var loading: bool

    function Snapshot(): State
      reads this
    {
      State(title, url, description, imageUrl, loading)
    }

    constructor (token: string, host: string)
      ensures this.token == token && this.host == host
      ensures Snapshot() == Initial
    {
      this.token := token;
      this.host := host;
      title := "";
      url := "";
      description := "";
      imageUrl := PlaceHolder;
      loading := false;
    }

    method OnChange(f: Field, value: string)
      modifies this
      ensures Snapshot() == Edit(old(Snapshot()), f, value)
    {
      match f
      case Title => title := value;
      case Url => url := value;
      case Description => description := value;
      case ImageUrl => imageUrl := value;
    }

    /** The `then` of the active-tab query in the mount effect. */
    method OnTabsQueried(tabs: seq<Tab>) returns (notice: Option<Toast>)
      modifies this
      ensures (Snapshot(), notice) == Prefill(old(Snapshot()), tabs)
    {
      if |tabs| == 0 {
        notice := Some(Toast(Warning, "No active tab found"));
        return;
      }
      var current := tabs[0];
      if Truthy(current.title) { title := current.title.value; }
      if Truthy(current.url) { url := current.url.value; }
      if Truthy(current.favIconUrl) { imageUrl := current.favIconUrl.value; }
      notice := None;
    }

    /** The `onMessage` listener registered by the mount effect. */
    method OnMessage(msg: Message)
      modifies this
      ensures Snapshot() == ApplyMessage(old(Snapshot()), msg)
    {
      if msg.methodName == "getMetaTags" {
        var found := FirstDescription(msg.metas);
        if found.Some? {
          description := msg.metas[found.value].content;
        }
      }
    }

    method OnSubmit(imageOk: bool, outcome: FetchOutcome) returns (request: Option<Request>, notice: Option<Toast>)
      modifies this
      ensures Outcome(Snapshot(), request, notice) == Submit(old(Snapshot()), token, host, imageOk, outcome)
    {
      if loading {
        return None, None;
      }
      loading := true;
      if !UrlPattern.ValidUrl(url) {
        return None, Some(Toast(Error, "Invalid URL"));
      }
      if !imageOk {
        return None, Some(Toast(Error, "Invalid image URL"));
      }
      request := Some(Post(host + "/v1/bookmark", Some(token), BookmarkBody(title, url, description, imageUrl)));
      notice := Some(Report(outcome, "Bookmark created", "Bookmark failed "));
      loading := false;
    }
  }
}
