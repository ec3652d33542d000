# storage-chrome-extension, modelled in Dafny

The extension is a browser popup that talks to a personal "storage" server.
The popup root reads a saved session (`token`, `host`) from
`browser.storage.sync`. It shows the home screen when a session is saved and
the login form otherwise. A successful login saves the session and shows the
bookmark form. The home screen is a two-button menu that chooses between the
bookmark form and the URL-shortener form.

The bookmark form prefills its fields from the active tab and from the page's
`<meta name="description">`. It checks the URL with a hand-written regular
expression (`validURL`) and the banner with an image probe, then posts the
bookmark. The shortener checks the URL, posts it, and copies the short link to
the clipboard.

The model has two parts.

- **The URL recogniser** (`url_pattern.dfy`, `url_pattern_lemmas.dfy`).
  - `UrlPattern.ValidUrl` transcribes `validURL`'s anchored, case-insensitive
    regular expression as a grammar over `string`:
    - each concatenation is a choice of split point;
    - each `*` or `+` is a recursion.
  - The lemmas give closed forms of its parts and what it accepts and rejects.
  - It does not model RFC 3986: the pattern is not that standard, and neither is the model.
- **The components** (`browser.dfy`, `bookmark_form.dfy`, `shorten_form.dfy`,
  `login.dfy`, `home.dfy`, `popup.dfy`).
  - Each handler is a function on a `State` value. That function's contract
    states what the handler promises.
  - The same handler is also a method of a `Component` class. The class's
    fields are the component's React state, and its methods update them step by
    step as the handler does. Each method is proved equal to the function.
  - Effects are values:
    - inputs: the answer of the tab query, how the image probe answers, how
      `fetch` settles, whether the storage write is rejected;
    - outputs: the request sent, the toast raised, the text copied.
  - `browser.storage.sync` is a `Browser.SyncStorage` object. The login
    writes to it and the popup root only reads it.

Both forms keep `loading` stuck when the input fails a check. `loading` is set
to true before the checks, and the early return on a failed URL or image check
never clears it. Every later submit of that form is then ignored. The model
keeps this, and `BookmarkForm.FailedCheckLocksForm` and
`ShortenForm.InvalidUrlLocksForm` state it. A failed check leaves the fields
editable, but the form can never be submitted again.

After a login, the login form renders the bookmark form in its own place, not
the home screen. The next time the popup opens, it shows the home screen,
provided the saved token and storage URL are both non-empty
(`Popup.ReopenAfterLogin`).

## Model

| member | source | states |
|---|---|---|
| `UrlPattern.ValidUrl` | src/components/BookmarkForm/index.tsx:202-213 | the recogniser: a string is accepted when some split of it is an optional scheme, a host, then the port, path, query and fragment parts in that order, with nothing before or after |
| `UrlPattern.IsScheme` | src/components/BookmarkForm/index.tsx:204 | `(https?:\/\/)?`: empty, or `http://` or `https://` in any letter case |
| `UrlPattern.IsHost` | src/components/BookmarkForm/index.tsx:205-206 | a domain name (one or more labels each followed by a dot, then two or more letters) or four dot-separated groups of 1 to 3 digits |
| `UrlPattern.IsPort` | src/components/BookmarkForm/index.tsx:207 | `(\:\d+)?`: empty, or a colon followed by one or more digits |
| `UrlPattern.IsPath` | src/components/BookmarkForm/index.tsx:207 | `(\/[-a-z\d%_.~+]*)*`: any number of segments, each a slash followed by path characters |
| `UrlPattern.IsQuery` | src/components/BookmarkForm/index.tsx:208 | `(\?[;&a-z\d%_.~+=-]*)?`: empty, or `?` followed by query characters |
| `UrlPattern.IsFragment` | src/components/BookmarkForm/index.tsx:209 | `(\#[-a-z\d_]*)?`: empty, or `#` followed by fragment characters |
| `UrlPatternLemmas.LabelTailShape` | src/components/BookmarkForm/index.tsx:205 | the repeated group `([a-z\d-]*[a-z\d])*` is empty or a run of label characters that ends in a letter or digit |
| `UrlPatternLemmas.LabelShape` | src/components/BookmarkForm/index.tsx:205 | a label is non-empty, has only letters, digits and `-`, and starts and ends with a letter or digit |
| `UrlPatternLemmas.PathShape` | src/components/BookmarkForm/index.tsx:207 | the path part is empty, or starts with `/` and holds only path characters and slashes |
| `UrlPatternLemmas.HostChars` | src/components/BookmarkForm/index.tsx:205-206 | both host forms consist only of letters, digits, `-` and `.` |
| `UrlPatternLemmas.CharsRestricted` | src/components/BookmarkForm/index.tsx:203-211 | anchoring: every character of an accepted string belongs to one of the pattern's classes or separators |
| `UrlPatternLemmas.OnlyHttpScheme` | src/components/BookmarkForm/index.tsx:204-205 | in an accepted string, `://` can only occur right after `http` or `https`, in any letter case, at the start |
| `UrlPatternLemmas.FtpRejected` | src/components/BookmarkForm/index.tsx:204-205 | any string starting with `ftp://` is rejected, whatever follows |
| `UrlPatternLemmas.ValidUrlHasDot` | src/components/BookmarkForm/index.tsx:205-206 | the host is mandatory and both of its forms contain a dot, so every accepted string contains one |
| `UrlPatternLemmas.DotlessRejected` | src/components/BookmarkForm/index.tsx:203-209 | a string without a dot is rejected |
| `UrlPatternLemmas.NoDotRejected` | src/components/BookmarkForm/index.tsx:203-209 | the empty string and the single-label host `localhost` are rejected |
| `UrlPatternLemmas.FragmentIsSuffix` | src/components/BookmarkForm/index.tsx:209 | in an accepted string, everything from a `#` onwards is a fragment: `#` followed by fragment characters |
| `UrlPatternLemmas.Accepts` | src/components/BookmarkForm/index.tsx:204-209 | any scheme, host, port, path, query and fragment that each fit their part, concatenated in that order, are accepted |
| `UrlPatternLemmas.HostAccepted` | src/components/BookmarkForm/index.tsx:205-209 | a host on its own, with no scheme, port, path, query or fragment, is accepted |
| `UrlPatternLemmas.DottedQuadAccepted` | src/components/BookmarkForm/index.tsx:206 | four dot-separated groups of 1 to 3 digits are accepted, with no range check |
| `UrlPatternLemmas.OutOfRangeQuadAccepted` | src/components/BookmarkForm/index.tsx:206 | `999.999.999.999` is accepted |
| `UrlPatternLemmas.DomainAccepted` | src/components/BookmarkForm/index.tsx:205 | a label, a dot and a top-level domain of two or more letters are accepted |
| `UrlPatternLemmas.ExampleDomainAccepted` | src/components/BookmarkForm/index.tsx:205 | `example.com` is accepted without a scheme |
| `UrlPatternLemmas.CaseInsensitive` | src/components/BookmarkForm/index.tsx:210 | the `i` flag: a string is accepted exactly when its ASCII lower-case form is |
| `Browser.Report` | src/components/BookmarkForm/index.tsx:107-119 | the settled request's toast is a success exactly on a status in 200..299; otherwise it is an error with the prefixed server message, or the rejection's own message |
| `Browser.Lookup` | src/popup/component.tsx:14-15 | a storage read yields a key's value when the key is present, and `undefined` otherwise |
| `Browser.SyncStorage.SetSession` | src/components/Login/index.tsx:46-49 | saving a session overwrites `token` and `host` and keeps every other key |
| `BookmarkForm.Edit` | src/components/BookmarkForm/index.tsx:80-85 | typing into an input sets that field and changes no other field and not `loading` |
| `BookmarkForm.Prefill` | src/components/BookmarkForm/index.tsx:50-62 | with no active tab, only the warning "No active tab found"; otherwise title, url and banner each take the tab's value when it is truthy and are kept when not; description and `loading` are untouched |
| `BookmarkForm.FirstDescription` | src/components/BookmarkForm/index.tsx:72-74 | finds the first meta entry whose name is exactly `description`, or reports that there is none |
| `BookmarkForm.ApplyMessage` | src/components/BookmarkForm/index.tsx:69-77 | a `getMetaTags` message sets the description to the content of the first description entry; any other message, or no such entry, changes nothing; nothing else ever changes |
| `BookmarkForm.BookmarkRequest` | src/components/BookmarkForm/index.tsx:94-105 | the bookmark POST goes to `host/v1/bookmark` with the token as Authorization, and its body is exactly title, url, description and banner as they stand |
| `BookmarkForm.Submit` | src/components/BookmarkForm/index.tsx:87-122 | a submit while loading is ignored; the URL check comes before the image check; a failed check sends nothing and leaves `loading` true; a request is sent exactly when both pass, carrying exactly title, url, description and banner, with the token, to `host/v1/bookmark`; once it settles the form is as before and idle, and the toast is a success exactly on a 2xx |
| `BookmarkForm.Step` | src/components/BookmarkForm/index.tsx:50-122 | only a submit sends a request or changes `loading` |
| `BookmarkForm.LockedStaysLocked` | src/components/BookmarkForm/index.tsx:89-92 | once `loading` is stuck, no sequence of edits, tab answers, messages and submits clears it or sends a request |
| `BookmarkForm.FailedCheckLocksForm` | src/components/BookmarkForm/index.tsx:89-92 | a submit that fails the URL or image check sends nothing, and nothing is ever sent afterwards |
| `BookmarkForm.Component.constructor` | src/components/BookmarkForm/index.tsx:43-47 | the form starts with empty fields, the placeholder banner and `loading` false |
| `BookmarkForm.Component.OnChange` | src/components/BookmarkForm/index.tsx:80-85 | updates the fields as `Edit` specifies |
| `BookmarkForm.Component.OnTabsQueried` | src/components/BookmarkForm/index.tsx:53-62 | updates the fields and raises the toast as `Prefill` specifies |
| `BookmarkForm.Component.OnMessage` | src/components/BookmarkForm/index.tsx:69-77 | updates the description as `ApplyMessage` specifies |
| `BookmarkForm.Component.OnSubmit` | src/components/BookmarkForm/index.tsx:87-122 | updates the state and returns the request and toast exactly as `Submit` specifies |
| `ShortenForm.Edit` | src/components/ShortenForm/index.tsx:33-38 | typing sets one field and changes nothing else |
| `ShortenForm.Prefill` | src/components/ShortenForm/index.tsx:19-31 | with no active tab, only a warning; otherwise the url takes the tab's url when it is truthy; code and `loading` are untouched |
| `ShortenForm.ShortenRequest` | src/components/ShortenForm/index.tsx:49-58 | the shorten POST goes to `host/v1/shorten` with the token as Authorization, and its body is exactly url and code as they stand |
| `ShortenForm.ShortLink` | src/components/ShortenForm/index.tsx:68 | the copied link is the host, one slash, then the returned code, which can be read back from the link |
| `ShortenForm.Submit` | src/components/ShortenForm/index.tsx:40-77 | a submit while loading is ignored; an invalid URL sends nothing and leaves `loading` true; otherwise the body is exactly url and code (an empty code included); the clipboard gets `host/data` exactly on a 2xx; after settling the form is as before and idle |
| `ShortenForm.Step` | src/components/ShortenForm/index.tsx:19-77 | only a submit sends, copies or changes `loading` |
| `ShortenForm.LockedStaysLocked` | src/components/ShortenForm/index.tsx:42-47 | once `loading` is stuck, nothing more is ever copied and the form stays locked |
| `ShortenForm.InvalidUrlLocksForm` | src/components/ShortenForm/index.tsx:42-47 | a submit with an invalid URL copies nothing, and nothing is copied afterwards |
| `ShortenForm.CopiesAreLinksOnHost` | src/components/ShortenForm/index.tsx:68 | everything ever copied starts with the form's host and a slash |
| `ShortenForm.Component.constructor` | src/components/ShortenForm/index.tsx:13-15 | the form starts with an empty url and code and `loading` false |
| `ShortenForm.Component.OnChange` | src/components/ShortenForm/index.tsx:33-38 | updates the fields as `Edit` specifies |
| `ShortenForm.Component.OnTabsQueried` | src/components/ShortenForm/index.tsx:22-29 | updates the url and raises the toast as `Prefill` specifies |
| `ShortenForm.Component.OnSubmit` | src/components/ShortenForm/index.tsx:40-77 | updates the state and returns the request, toast and clipboard text exactly as `Submit` specifies |
| `Login.Edit` | src/components/Login/index.tsx:14-19 | typing sets one field and leaves token, redirect and `loading` alone |
| `Login.LoginRequest` | src/components/Login/index.tsx:26-35 | the login POST goes to `storageUrl/v1/auth/login` with no Authorization header, and its body is exactly username and password |
| `Login.Submit` | src/components/Login/index.tsx:21-60 | a submit while loading is ignored; otherwise the unvalidated request goes to `storageUrl/v1/auth/login` with exactly username and password and no Authorization; only a 2xx with an accepted write stores `{token, host}` and sets token and redirect; every other outcome writes nothing, keeps token and redirect, and raises its error; `loading` is false after settling |
| `Login.Render` | src/components/Login/index.tsx:62-63 | the bookmark form, given the kept token and the storage URL as host, shows exactly when `redirect` is set; the login form shows otherwise |
| `Login.Step` | src/components/Login/index.tsx:14-60 | only a submit sends a request or writes storage |
| `Login.SavedSessionShown` | src/components/Login/index.tsx:44-63 | after a saved session, storage holds the access token and storage URL, and the screen is the bookmark form given exactly those |
| `Login.NeverLocked` | src/components/Login/index.tsx:21-60 | from an idle form, `loading` is false after any sequence of edits and submits |
| `Login.RedirectIsFinal` | src/components/Login/index.tsx:11-53 | once redirect is set, no event clears it |
| `Login.StorageOnlyFromSavedSessions` | src/components/Login/index.tsx:39-57 | a run with no 2xx submit whose write went through leaves storage unchanged |
| `Login.Component.constructor` | src/components/Login/index.tsx:7-12 | the login starts with empty fields and token, redirect false and `loading` false |
| `Login.Component.OnChange` | src/components/Login/index.tsx:14-19 | updates the fields as `Edit` specifies |
| `Login.Component.OnSubmit` | src/components/Login/index.tsx:21-60 | updates its state and the shared storage, and returns the request and toast, exactly as `Submit` specifies |
| `Home.OnClick` | src/components/Home/index.tsx:14-20 | each button sets its own flag to true and leaves the other flag alone |
| `Home.Render` | src/components/Home/index.tsx:22-25 | the bookmark form shows exactly when `bookmark` is set; the shortener exactly when only `shorten` is; the menu when neither is; both are given host and token unchanged |
| `Home.FlagsAfterClicks` | src/components/Home/index.tsx:11-20 | after any clicks a flag is set exactly when it was set before or its button was clicked, so no flag ever returns to false |
| `Home.ScreenAfterClicks` | src/components/Home/index.tsx:11-25 | from a fresh home screen: the menu until a click; then the clicked form; the bookmark form if both were clicked |
| `Home.Component.constructor` | src/components/Home/index.tsx:11-12 | both flags start false |
| `Home.Component.OnBookmarkClick` | src/components/Home/index.tsx:14-16 | sets the flags as `OnClick` specifies for the bookmark button |
| `Home.Component.OnShortenClick` | src/components/Home/index.tsx:18-20 | sets the flags as `OnClick` specifies for the shorten button |
| `Popup.Mount` | src/popup/component.tsx:12-23 | redirect becomes true only when both stored values are truthy, and then token and host are exactly the stored ones; otherwise nothing changes |
| `Popup.Render` | src/popup/component.tsx:39 | home, given the kept host and token, shows exactly when `redirect` is set; the login form shows otherwise |
| `Popup.OpensOn` | src/popup/component.tsx:8-39 | the popup starts on the login form; after mounting it shows home with the stored host and token when a session is stored, and the login form otherwise |
| `Popup.ReopenAfterLogin` | src/popup/component.tsx:14-19 | after a login that saved a session, a popup opened on that storage shows home with that login's storage URL and token, provided neither is empty |
| `Popup.Component.constructor` | src/popup/component.tsx:8-10 | redirect starts false, with empty token and host |
| `Popup.Component.OnMount` | src/popup/component.tsx:12-23 | updates the state as `Mount` specifies and leaves storage unchanged |

## Left out

- `isImage`: it needs image decoding and network loading. The probe's answer is the `imageOk` input of `BookmarkForm.Submit`.
- The injected `metaScript`, `browser.tabs.executeScript` and the runtime messaging: this is DOM and browser plumbing. The model takes the list of meta entries as given in the message.
- `fetch` and `res.json()`: a request settles as a `FetchOutcome` input. A body that fails to parse is a rejection.
- The login's `body.data.access_token`: the model takes it as a string. A 2xx body without `data` throws inside the handler and reaches the same `catch` as a network failure, so it is a `Rejected` outcome.
- A missing `access_token` (stored as `undefined`) is not modelled.
- Browser APIs:
  - `browser.tabs.query`: an input.
  - `browser.storage.sync`: the `SyncStorage` object.
  - A rejected storage write: the `writeError` input. It is taken to leave storage unchanged.
  - A rejected storage read in the popup root: not modelled.
  - The clipboard and `toast`: outputs.
- The unused `setTab` state of both forms: nothing reads it.
- React rendering, JSX and styling: only the choice of screen is modelled, as `Browser.Screen`.
- Async interleaving: each handler runs to completion before the next event. So the model does not capture these:
  - two submits overlapping before React re-renders, with the stale `loading` of the closure;
  - the form's fields changing while a request is in flight;
  - a tab answer or message arriving in between.
- The browser's own check of `required` inputs, which keeps `onSubmit` from running while such an input is empty: not modelled. The handler models are total and also cover empty fields.
- The shortener's `utils/validURL` module is not part of this model. It is taken to be the bookmark form's `validURL`, `UrlPattern.ValidUrl`.
- Exports and imports (the default versus named export of the bookmark form) and the webpack build: module wiring with no behaviour.
- JavaScript's template-string rendering of `undefined` or non-string values (`${body.message}`, `${body.data}`): message and data are taken as strings.
- Non-ASCII case folding: the pattern has no `u` flag, and JavaScript does not map non-ASCII characters onto ASCII letters in that mode. The model folds ASCII letters only.
