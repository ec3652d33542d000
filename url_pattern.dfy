/** The URL-shape recogniser `validURL` of the bookmark form.

    The source tests the string against one anchored, case-insensitive regular
    expression:

      ^ (https?://)? ( (label\.)+ [a-z]{2,} | (\d{1,3}\.){3}\d{1,3} )
        (:\d+)? (/[-a-z\d%_.~+]*)* (\?[;&a-z\d%_.~+=-]*)? (#[-a-z\d_]*)? $

    with  label = [a-z\d]([a-z\d-]*[a-z\d])*.  Anchoring means the whole string
    must belong to the language of the pattern, so each concatenation below is
    an existential choice of a split point, each `*` or `+` a recursion, and
    `ValidUrl(s)` holds exactly when some split of `s` fits the pattern.

    Case-insensitivity: without the `u` flag a JavaScript regular expression folds
    case by upper-casing, but never maps a non-ASCII character onto an ASCII one,
    so `[a-z]` under `i` matches exactly the 52 ASCII letters and the literal
    `http` matches any mix of cases of those four ASCII letters. `\d` is `[0-9]`.
 */
module UrlPattern {

  // ---------------------------------------------------------------------------
  // Character classes

  predicate IsLetter(c: char) { 'a' <= c <= 'z' || 'A' <= c <= 'Z' }
  predicate IsDigit(c: char) { '0' <= c <= '9' }
  predicate IsAlnum(c: char) { IsLetter(c) || IsDigit(c) }

  /** [a-z\d-] */
  predicate IsLabelChar(c: char) { IsAlnum(c) || c == '-' }

  /** [-a-z\d%_.~+] */
  predicate IsPathChar(c: char) {
    c == '-' || IsAlnum(c) || c == '%' || c == '_' || c == '.' || c == '~' || c == '+'
  }

  /** [;&a-z\d%_.~+=-] */
  predicate IsQueryChar(c: char) {
    c == ';' || c == '&' || IsAlnum(c) || c == '%' || c == '_' || c == '.' || c == '~'
    || c == '+' || c == '=' || c == '-'
  }

  /** [-a-z\d_] */
  predicate IsFragmentChar(c: char) { c == '-' || IsAlnum(c) || c == '_' }

  predicate AllDigits(s: string) { forall i :: 0 <= i < |s| ==> IsDigit(s[i]) }
  predicate AllLetters(s: string) { forall i :: 0 <= i < |s| ==> IsLetter(s[i]) }
  predicate AllLabelChars(s: string) { forall i :: 0 <= i < |s| ==> IsLabelChar(s[i]) }
  predicate AllPathChars(s: string) { forall i :: 0 <= i < |s| ==> IsPathChar(s[i]) }
  predicate AllQueryChars(s: string) { forall i :: 0 <= i < |s| ==> IsQueryChar(s[i]) }
  predicate AllFragmentChars(s: string) { forall i :: 0 <= i < |s| ==> IsFragmentChar(s[i]) }

  /** ASCII case folding, the only folding the `i` flag performs here. */
  function Lower(c: char): char {
    if 'A' <= c <= 'Z' then (c as int + 32) as char else c
  }

  predicate SameIgnoringCase(a: string, b: string) {
    |a| == |b| && forall i :: 0 <= i < |a| ==> Lower(a[i]) == Lower(b[i])
  }

  // ---------------------------------------------------------------------------
  // The parts of the pattern, in order

  /** (https?:\/\/)? */
  predicate IsScheme(p: string) {
    p == [] || SameIgnoringCase(p, "http://") || SameIgnoringCase(p, "https://")
  }

  /** ([a-z\d-]*[a-z\d])* */
  predicate IsLabelTail(s: string)
    decreases |s|
  {
    s == [] ||
    exists k | 0 <= k < |s| :: AllLabelChars(s[..k]) && IsAlnum(s[k]) && IsLabelTail(s[k + 1..])
  }

  /** [a-z\d]([a-z\d-]*[a-z\d])* */
  predicate IsLabel(s: string) {
    |s| > 0 && IsAlnum(s[0]) && IsLabelTail(s[1..])
  }

  /** [a-z]{2,} */
  predicate IsTld(s: string) { |s| >= 2 && AllLetters(s) }

  /** (label\.)+[a-z]{2,} */
  predicate IsDomain(h: string)
    decreases |h|
  {
    exists k | 0 <= k < |h| ::
      h[k] == '.' && IsLabel(h[..k]) && (IsTld(h[k + 1..]) || IsDomain(h[k + 1..]))
  }

  /** \d{1,3} -- there is no check that the group is at most 255 */
  predicate IsDigitGroup(g: string) { 1 <= |g| <= 3 && AllDigits(g) }

  /** (\d{1,3}\.){n}\d{1,3} */
  predicate IsDottedGroups(h: string, n: nat)
    decreases n
  {
    if n == 0 then IsDigitGroup(h)
    else exists k | 0 <= k < |h| ::
      h[k] == '.' && IsDigitGroup(h[..k]) && IsDottedGroups(h[k + 1..], n - 1)
  }

  /** (\d{1,3}\.){3}\d{1,3} */
  predicate IsDottedQuad(h: string) { IsDottedGroups(h, 3) }

  predicate IsHost(h: string) { IsDomain(h) || IsDottedQuad(h) }

  /** (\:\d+)? */
  predicate IsPort(p: string) {
    p == [] || (|p| >= 2 && p[0] == ':' && AllDigits(p[1..]))
  }

  /** (\/[-a-z\d%_.~+]*)* */
  predicate IsPath(p: string)
    decreases |p|
  {
    p == [] ||
    (p[0] == '/' && exists k | 1 <= k <= |p| :: AllPathChars(p[1..k]) && IsPath(p[k..]))
  }

  /** (\?[;&a-z\d%_.~+=-]*)? */
  predicate IsQuery(q: string) {
    q == [] || (q[0] == '?' && AllQueryChars(q[1..]))
  }

  /** (\#[-a-z\d_]*)? */
  predicate IsFragment(f: string) {
    f == [] || (f[0] == '#' && AllFragmentChars(f[1..]))
  }

  // ---------------------------------------------------------------------------
  // Concatenation, from the end of the pattern back to its start

  predicate QueryOnward(t: string) {
    exists i | 0 <= i <= |t| :: IsQuery(t[..i]) && IsFragment(t[i..])
  }

  predicate PathOnward(t: string) {
    exists i | 0 <= i <= |t| :: IsPath(t[..i]) && QueryOnward(t[i..])
  }

  predicate PortOnward(t: string) {
    exists i | 0 <= i <= |t| :: IsPort(t[..i]) && PathOnward(t[i..])
  }

  predicate HostOnward(t: string) {
    exists i | 0 <= i <= |t| :: IsHost(t[..i]) && PortOnward(t[i..])
  }

  /** validURL: the whole string matches the anchored pattern. */
  predicate ValidUrl(s: string) {
    exists i | 0 <= i <= |s| :: IsScheme(s[..i]) && HostOnward(s[i..])
  }
}
