/** The home screen: a menu of two buttons, each setting one flag; the render
    shows the bookmark form when `bookmark` is set, else the shortener when
    `shorten` is set, else the menu. No handler clears a flag, so the choice
    is one-way. */
module Home {
  import opened Browser

  datatype State = State(bookmark: bool, shorten: bool)

  const Initial: State := State(false, false)

  datatype Click = BookmarkClick | ShortenClick

  /** `onBookmarkClick` and `onShortenClick`: each sets its own flag and no other. */
  function OnClick(s: State, c: Click): (r: State)
    ensures c == BookmarkClick ==> r.bookmark && r.shorten == s.shorten
    ensures c == ShortenClick ==> r.shorten && r.bookmark == s.bookmark
  {
    match c
    case BookmarkClick => s.(bookmark := true)
    case ShortenClick => s.(shorten := true)
  }

  /** The render, which passes `host` and `token` on unchanged; the bookmark
      check comes first, so it wins when both flags are set. */
  function Render(s: State, host: string, token: string): (r: Screen)
    ensures r == BookmarkFormScreen(host, token) <==> s.bookmark
    ensures r == ShortenFormScreen(host, token) <==> !s.bookmark && s.shorten
    ensures r == MenuScreen <==> !s.bookmark && !s.shorten
  {
    if s.bookmark then BookmarkFormScreen(host, token)
    else if s.shorten then ShortenFormScreen(host, token)
    else MenuScreen
  }

  function Run(s: State, clicks: seq<Click>): State
    decreases |clicks|
  {
    if clicks == [] then s else Run(OnClick(s, clicks[0]), clicks[1..])
  }

  /** After any clicks a flag is set exactly when it was set before or its
      button was clicked: flags never go back to false. */
  lemma {:induction false} FlagsAfterClicks(s: State, clicks: seq<Click>)
    ensures Run(s, clicks).bookmark == (s.bookmark || BookmarkClick in clicks)
    ensures Run(s, clicks).shorten == (s.shorten || ShortenClick in clicks)
    decreases |clicks|
  {
    if clicks != [] {
      assert clicks == [clicks[0]] + clicks[1..];
      FlagsAfterClicks(OnClick(s, clicks[0]), clicks[1..]);
    }
  }

  /** From a fresh home screen the menu shows until a button is clicked;
      after that the form whose button was clicked shows, the bookmark form
      if both were. */
  lemma ScreenAfterClicks(clicks: seq<Click>, host: string, token: string)
    ensures Render(Run(Initial, clicks), host, token) ==
      if BookmarkClick in clicks then BookmarkFormScreen(host, token)
      else if ShortenClick in clicks then ShortenFormScreen(host, token)
      else MenuScreen
  {
    FlagsAfterClicks(Initial, clicks);
  }

  /** The mounted component: `host` and `token` are props, the flags its state. */
  class Component {
    const host: string
    const token: string
    var bookmark: bool
    var shorten: bool

    function Snapshot(): State
      reads this
    {
      State(bookmark, shorten)
    }

    constructor (host: string, token: string)
      ensures this.host == host && this.token == token
      ensures Snapshot() == Initial
    {
      this.host := host;
      this.token := token;
      bookmark := false;
      shorten := false;
    }

    method OnBookmarkClick()
      modifies this
      ensures Snapshot() == OnClick(old(Snapshot()), BookmarkClick)
    {
      bookmark := true;
    }

    method OnShortenClick()
      modifies this
      ensures Snapshot() == OnClick(old(Snapshot()), ShortenClick)
    {
      shorten := true;
    }
  }
}
