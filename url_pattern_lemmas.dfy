/** What the URL pattern of `UrlPattern` accepts and rejects. */
module UrlPatternLemmas {
  import opened UrlPattern

  // ---------------------------------------------------------------------------
  // Closed forms of the starred parts

  /** A label tail `([a-z\d-]*[a-z\d])*` is empty or a run of label characters ending in a letter or digit. */
  lemma LabelTailShape(s: string)
    ensures IsLabelTail(s) <==> s == [] || (AllLabelChars(s) && IsAlnum(s[|s| - 1]))
  {
    if s != [] {
      if IsLabelTail(s) {
        LabelTailRun(s);
      }
      if AllLabelChars(s) && IsAlnum(s[|s| - 1]) {
        var k := |s| - 1;
        assert AllLabelChars(s[..k]) && IsAlnum(s[k]) && s[k + 1..] == [];
      }
    }
  }

  lemma {:induction false} LabelTailRun(s: string)
    requires s != [] && IsLabelTail(s)
    ensures AllLabelChars(s) && IsAlnum(s[|s| - 1])
    decreases |s|, 1
  {
    var k :| 0 <= k < |s| && AllLabelChars(s[..k]) && IsAlnum(s[k]) && IsLabelTail(s[k + 1..]);
    LabelTailRunAt(s, k);
  }

  lemma {:induction false} LabelTailRunAt(s: string, k: int)
    requires 0 <= k < |s| && AllLabelChars(s[..k]) && IsAlnum(s[k]) && IsLabelTail(s[k + 1..])
    ensures AllLabelChars(s) && IsAlnum(s[|s| - 1])
    decreases |s|, 0
  {
    if k + 1 < |s| {
      LabelTailRun(s[k + 1..]);
    }
    LabelRunsJoin(s, k);
  }

  /** A run of label characters, an alphanumeric, and an empty or well-ended
      run of label characters make a well-ended run. */
  lemma LabelRunsJoin(s: string, k: int)
    requires 0 <= k < |s| && AllLabelChars(s[..k]) && IsAlnum(s[k])
    requires k + 1 < |s| ==> AllLabelChars(s[k + 1..]) && IsAlnum(s[|s| - 1])
    ensures AllLabelChars(s) && IsAlnum(s[|s| - 1])
  {
    forall i | 0 <= i < |s| ensures IsLabelChar(s[i]) {
      if i < k {
        assert s[..k][i] == s[i];
      } else if k < i {
        assert s[k + 1..][i - k - 1] == s[i];
      }
    }
  }

  /** A label is a non-empty run of letters, digits and hyphens that starts and ends with a letter or digit. */
  lemma LabelShape(s: string)
    ensures IsLabel(s) <==>
      |s| > 0 && AllLabelChars(s) && IsAlnum(s[0]) && IsAlnum(s[|s| - 1])
  {
    if |s| > 0 {
      LabelTailShape(s[1..]);
      assert s == [s[0]] + s[1..];
    }
  }

  predicate AllPathOrSlash(p: string) {
    forall i :: 0 <= i < |p| ==> IsPathChar(p[i]) || p[i] == '/'
  }

  /** The first '/' at or after position `i`, or `|p|` when there is none. */
  function SlashFrom(p: string, i: nat): (k: nat)
    requires i <= |p|
    ensures i <= k <= |p|
    ensures k < |p| ==> p[k] == '/'
    ensures forall j :: i <= j < k ==> p[j] != '/'
    decreases |p| - i
  {
    if i == |p| || p[i] == '/' then i else SlashFrom(p, i + 1)
  }

  /** The path `(\/[-a-z\d%_.~+]*)*` is empty or a '/' followed by path characters and further slashes. */
  lemma {:induction false} PathShape(p: string)
    ensures IsPath(p) <==> p == [] || (p[0] == '/' && AllPathOrSlash(p))
    decreases |p|
  {
    if p != [] && p[0] == '/' {
      if IsPath(p) {
        var k :| 1 <= k <= |p| && AllPathChars(p[1..k]) && IsPath(p[k..]);
        PathShape(p[k..]);
        forall i | 0 <= i < |p| ensures IsPathChar(p[i]) || p[i] == '/' {
          if 1 <= i < k {
            assert p[1..k][i - 1] == p[i];
          } else if k <= i {
            assert p[k..][i - k] == p[i];
          }
        }
      }
      if AllPathOrSlash(p) {
        var k := SlashFrom(p, 1);
        assert AllPathChars(p[1..k]) by {
          forall i | 0 <= i < k - 1 ensures IsPathChar(p[1..k][i]) {
            assert p[1..k][i] == p[i + 1];
          }
        }
        if k < |p| {
          assert AllPathOrSlash(p[k..]) by {
            forall i | 0 <= i < |p| - k ensures IsPathChar(p[k..][i]) || p[k..][i] == '/' {
              assert p[k..][i] == p[k + i];
            }
          }
          PathShape(p[k..]);
        }
        assert IsPath(p[k..]);
      }
    }
  }

  // ---------------------------------------------------------------------------
  // Which characters each part may hold

  predicate AllHostChars(h: string) {
    forall i :: 0 <= i < |h| ==> IsLabelChar(h[i]) || h[i] == '.'
  }

  /** Host characters on both sides of a dot make host characters throughout. */
  lemma HostCharsAroundDot(h: string, k: int)
    requires 0 <= k < |h| && h[k] == '.'
    requires AllHostChars(h[..k]) && AllHostChars(h[k + 1..])
    ensures AllHostChars(h)
  {
    forall i | 0 <= i < |h| ensures IsLabelChar(h[i]) || h[i] == '.' {
      if i < k {
        assert h[..k][i] == h[i];
      } else if k < i {
        assert h[k + 1..][i - k - 1] == h[i];
      }
    }
  }

  lemma {:induction false} DomainChars(h: string)
    requires IsDomain(h)
    ensures AllHostChars(h)
    decreases |h|
  {
    var k :| 0 <= k < |h| && h[k] == '.' && IsLabel(h[..k]) && (IsTld(h[k + 1..]) || IsDomain(h[k + 1..]));
    LabelShape(h[..k]);
    if IsDomain(h[k + 1..]) {
      DomainChars(h[k + 1..]);
    }
    HostCharsAroundDot(h, k);
  }

  lemma {:induction false} DottedGroupsChars(h: string, n: nat)
    requires IsDottedGroups(h, n)
    ensures AllHostChars(h)
    decreases n, 2
  {
    if n > 0 {
      DottedGroupsCharsStep(h, n);
    }
  }

  lemma {:induction false} DottedGroupsCharsStep(h: string, n: nat)
    requires n > 0 && IsDottedGroups(h, n)
    ensures AllHostChars(h)
    decreases n, 1
  {
    var k :| 0 <= k < |h| && h[k] == '.' && IsDigitGroup(h[..k]) && IsDottedGroups(h[k + 1..], n - 1);
    DottedGroupsCharsAt(h, n, k);
  }

  lemma {:induction false} DottedGroupsCharsAt(h: string, n: nat, k: int)
    requires n > 0 && 0 <= k < |h| && h[k] == '.' && IsDigitGroup(h[..k]) && IsDottedGroups(h[k + 1..], n - 1)
    ensures AllHostChars(h)
    decreases n, 0
  {
    DottedGroupsChars(h[k + 1..], n - 1);
    DigitsThenHostChars(h, k);
  }

  lemma DigitsThenHostChars(h: string, k: int)
    requires 0 <= k < |h| && h[k] == '.' && AllDigits(h[..k]) && AllHostChars(h[k + 1..])
    ensures AllHostChars(h)
  {
    HostCharsAroundDot(h, k);
  }

  /** A host consists of letters, digits, hyphens and dots only. */
  lemma HostChars(h: string)
    requires IsHost(h)
    ensures AllHostChars(h)
  {
    if IsDomain(h) {
      DomainChars(h);
    } else {
      DottedGroupsChars(h, 3);
    }
  }

  predicate AllSchemeChars(p: string) {
    forall i :: 0 <= i < |p| ==> IsLetter(p[i]) || p[i] == ':' || p[i] == '/'
  }

  /** Every character of a scheme is a letter, ':' or '/'. */
  lemma SchemeChars(p: string)
    requires IsScheme(p)
    ensures AllSchemeChars(p)
  {
    forall i | 0 <= i < |p| ensures IsLetter(p[i]) || p[i] == ':' || p[i] == '/' {
      var lit := if |p| == 7 then "http://" else "https://";
      assert Lower(p[i]) == Lower(lit[i]);
      assert i < 8;
    }
  }

  /** The characters that may follow the host. */
  predicate IsTailChar(c: char) {
    IsQueryChar(c) || c == '/' || c == '?' || c == '#'
  }

  /** The characters a valid URL may contain at all. */
  predicate IsUrlChar(c: char) { IsTailChar(c) || c == ':' }

  predicate AllTailChars(t: string) { forall i :: 0 <= i < |t| ==> IsTailChar(t[i]) }
  predicate AllUrlChars(t: string) { forall i :: 0 <= i < |t| ==> IsUrlChar(t[i]) }

  lemma QueryOnwardChars(t: string)
    requires QueryOnward(t)
    ensures AllTailChars(t)
  {
    var j :| 0 <= j <= |t| && IsQuery(t[..j]) && IsFragment(t[j..]);
    forall i | 0 <= i < |t| ensures IsTailChar(t[i]) {
      if 0 < i < j {
        assert t[..j][1..][i - 1] == t[i];
      } else if j < i {
        assert t[j..][1..][i - j - 1] == t[i];
      }
    }
  }

  lemma PathOnwardChars(t: string)
    requires PathOnward(t)
    ensures AllTailChars(t)
  {
    var j :| 0 <= j <= |t| && IsPath(t[..j]) && QueryOnward(t[j..]);
    PathShape(t[..j]);
    QueryOnwardChars(t[j..]);
    forall i | 0 <= i < |t| ensures IsTailChar(t[i]) {
      if i < j {
        assert t[..j][i] == t[i];
      } else {
        assert t[j..][i - j] == t[i];
      }
    }
  }

  /** Every ':' is followed by a digit, as the opening of a port is. */
  predicate ColonsOpenPorts(t: string) {
    forall m :: 0 <= m < |t| && t[m] == ':' ==> m + 1 < |t| && IsDigit(t[m + 1])
  }

  /** After the host, a ':' can only open the port, and a digit follows it. */
  lemma PortOnwardColons(t: string)
    requires PortOnward(t)
    ensures ColonsOpenPorts(t)
  {
    var j :| 0 <= j <= |t| && IsPort(t[..j]) && PathOnward(t[j..]);
    PathOnwardChars(t[j..]);
    PortThenColons(t, j);
  }

  lemma PortThenColons(t: string, j: int)
    requires 0 <= j <= |t| && IsPort(t[..j]) && AllTailChars(t[j..])
    ensures ColonsOpenPorts(t)
  {
    forall m | 0 < m < j ensures IsDigit(t[m]) {
      assert t[..j][1..][m - 1] == t[m];
    }
    forall m | j <= m < |t| ensures IsTailChar(t[m]) {
      assert t[j..][m - j] == t[m];
    }
  }

  lemma PortOnwardChars(t: string)
    requires PortOnward(t)
    ensures AllUrlChars(t)
  {
    var j :| 0 <= j <= |t| && IsPort(t[..j]) && PathOnward(t[j..]);
    PathOnwardChars(t[j..]);
    PortThenChars(t, j);
  }

  lemma PortThenChars(t: string, j: int)
    requires 0 <= j <= |t| && IsPort(t[..j]) && AllTailChars(t[j..])
    ensures AllUrlChars(t)
  {
    forall i | 0 <= i < |t| ensures IsUrlChar(t[i]) {
      if 0 < i < j {
        assert t[..j][1..][i - 1] == t[i];
      } else if j <= i {
        assert t[j..][i - j] == t[i];
      }
    }
  }

  /** A colon fact about the suffix t[j..], read back at position i of t. */
  lemma ColonInSuffix(t: string, j: int, i: int)
    requires 0 <= j <= i < |t| && t[i] == ':' && ColonsOpenPorts(t[j..])
    ensures i + 1 < |t| && IsDigit(t[i + 1])
  {
    assert t[j..][i - j] == t[i];
    assert i - j + 1 < |t[j..]|;
    assert t[j..][i - j + 1] == t[i + 1];
  }

  /** Colons only in the suffix t[j..], each opening a port there, open ports in t. */
  lemma ColonsFromSuffix(t: string, j: int)
    requires 0 <= j <= |t| && AllHostChars(t[..j]) && ColonsOpenPorts(t[j..])
    ensures ColonsOpenPorts(t)
  {
    forall m | 0 <= m < j ensures t[m] != ':' {
      assert t[..j][m] == t[m];
    }
    forall m | 0 <= m < |t| && t[m] == ':' ensures m + 1 < |t| && IsDigit(t[m + 1]) {
      ColonInSuffix(t, j, m);
    }
  }

  /** Past the scheme, every ':' opens a port and is followed by a digit. */
  lemma HostOnwardColons(t: string)
    requires HostOnward(t)
    ensures ColonsOpenPorts(t)
  {
    var j :| 0 <= j <= |t| && IsHost(t[..j]) && PortOnward(t[j..]);
    HostChars(t[..j]);
    PortOnwardColons(t[j..]);
    ColonsFromSuffix(t, j);
  }

  lemma HostOnwardChars(t: string)
    requires HostOnward(t)
    ensures AllUrlChars(t)
  {
    var j :| 0 <= j <= |t| && IsHost(t[..j]) && PortOnward(t[j..]);
    HostChars(t[..j]);
    PortOnwardChars(t[j..]);
    HostThenChars(t, j);
  }

  lemma HostThenChars(t: string, j: int)
    requires 0 <= j <= |t| && AllHostChars(t[..j]) && AllUrlChars(t[j..])
    ensures AllUrlChars(t)
  {
    forall i | 0 <= i < |t| ensures IsUrlChar(t[i]) {
      if i < j {
        assert t[..j][i] == t[i];
      } else {
        assert t[j..][i - j] == t[i];
      }
    }
  }

  // ---------------------------------------------------------------------------
  // Properties of the whole pattern

  /** Anchoring: a valid URL holds no character outside the pattern's classes
      (no space, no '@', no '!' anywhere in it). */
  lemma CharsRestricted(s: string)
    requires ValidUrl(s)
    ensures AllUrlChars(s)
  {
    var j :| 0 <= j <= |s| && IsScheme(s[..j]) && HostOnward(s[j..]);
    SchemeChars(s[..j]);
    HostOnwardChars(s[j..]);
    SchemeThenChars(s, j);
  }

  lemma SchemeThenChars(s: string, j: int)
    requires 0 <= j <= |s| && AllSchemeChars(s[..j]) && AllUrlChars(s[j..])
    ensures AllUrlChars(s)
  {
    forall i | 0 <= i < |s| ensures IsUrlChar(s[i]) {
      if i < j {
        assert s[..j][i] == s[i];
      } else {
        assert s[j..][i - j] == s[i];
      }
    }
  }

  /** Inside a scheme the ':' stands right after "http" or "https". */
  lemma SchemeColon(p: string, i: int)
    requires IsScheme(p) && 0 <= i < |p| && p[i] == ':'
    ensures (i == 4 && SameIgnoringCase(p[..4], "http")) || (i == 5 && SameIgnoringCase(p[..5], "https"))
  {
    var lit := if |p| == 7 then "http://" else "https://";
    assert SameIgnoringCase(p, lit);
    assert Lower(p[i]) == Lower(lit[i]);
    assert lit[..4] == "http" && (|p| == 8 ==> lit[..5] == "https");
    forall m | 0 <= m < i ensures Lower(p[..i][m]) == Lower(lit[..i][m]) {
      assert p[..i][m] == p[m] && lit[..i][m] == lit[m];
    }
  }

  /** A "://" whose ':' cannot open a port lies inside the scheme. */
  lemma SeparatorInScheme(s: string, j: int, i: int)
    requires 0 <= j <= |s| && IsScheme(s[..j]) && ColonsOpenPorts(s[j..])
    requires 0 <= i && i + 3 <= |s| && s[i..i + 3] == "://"
    ensures (i == 4 && SameIgnoringCase(s[..4], "http")) || (i == 5 && SameIgnoringCase(s[..5], "https"))
  {
    assert s[i] == s[i..i + 3][0] && s[i + 1] == s[i..i + 3][1];
    if j <= i {
      ColonInSuffix(s, j, i);
    }
    assert s[..j][i] == s[i];
    SchemeColon(s[..j], i);
    assert s[..j][..i] == s[..i];
  }

  /** The only scheme a valid URL can carry is http or https, in any case:
      wherever "://" occurs, what precedes it is exactly "http" or "https". */
  lemma OnlyHttpScheme(s: string, i: int)
    requires ValidUrl(s) && 0 <= i && i + 3 <= |s| && s[i..i + 3] == "://"
    ensures (i == 4 && SameIgnoringCase(s[..4], "http")) || (i == 5 && SameIgnoringCase(s[..5], "https"))
  {
    var j :| 0 <= j <= |s| && IsScheme(s[..j]) && HostOnward(s[j..]);
    HostOnwardColons(s[j..]);
    SeparatorInScheme(s, j, i);
  }

  /** So a string with any other scheme, such as ftp://, is rejected whatever follows. */
  lemma FtpRejected(rest: string)
    ensures !ValidUrl("ftp://" + rest)
  {
    var s := "ftp://" + rest;
    assert s[3..6] == "://";
    if ValidUrl(s) {
      OnlyHttpScheme(s, 3);
    }
  }

  /** Every host form contains a dot. */
  lemma HostDot(h: string) returns (m: int)
    requires IsHost(h)
    ensures 0 <= m < |h| && h[m] == '.'
  {
    if IsDomain(h) {
      m :| 0 <= m < |h| && h[m] == '.' && IsLabel(h[..m]) && (IsTld(h[m + 1..]) || IsDomain(h[m + 1..]));
    } else {
      m :| 0 <= m < |h| && h[m] == '.' && IsDigitGroup(h[..m]) && IsDottedGroups(h[m + 1..], 2);
    }
  }

  lemma HostOnwardDot(t: string) returns (m: int)
    requires HostOnward(t)
    ensures 0 <= m < |t| && t[m] == '.'
  {
    var k :| 0 <= k <= |t| && IsHost(t[..k]) && PortOnward(t[k..]);
    m := HostDot(t[..k]);
    assert t[..k][m] == t[m];
  }

  /** The host is mandatory and always dotted, so a valid URL contains a dot. */
  lemma ValidUrlHasDot(s: string)
    requires ValidUrl(s)
    ensures '.' in s
  {
    var j :| 0 <= j <= |s| && IsScheme(s[..j]) && HostOnward(s[j..]);
    var m := HostOnwardDot(s[j..]);
    assert s[j..][m] == s[j + m];
  }

  /** A string without a dot is rejected. */
  lemma DotlessRejected(s: string)
    requires '.' !in s
    ensures !ValidUrl(s)
  {
    if ValidUrl(s) {
      ValidUrlHasDot(s);
    }
  }

  /** The empty string and a bare single-label name such as "localhost" are rejected. */
  lemma NoDotRejected()
    ensures !ValidUrl("")
    ensures !ValidUrl("localhost")
  {
    DotlessRejected("");
    DotlessRejected("localhost");
  }

  // ---------------------------------------------------------------------------
  // The fragment is the whole rest of the string from its '#': '#' occurs at
  // most once, and only fragment characters follow it.

  predicate FragmentsFromHash(t: string) {
    forall m :: 0 <= m < |t| && t[m] == '#' ==> IsFragment(t[m..])
  }

  lemma QueryOnwardHash(t: string)
    requires QueryOnward(t)
    ensures FragmentsFromHash(t)
  {
    var j :| 0 <= j <= |t| && IsQuery(t[..j]) && IsFragment(t[j..]);
    forall m | 0 < m < j ensures IsQueryChar(t[m]) {
      assert t[..j][1..][m - 1] == t[m];
    }
    forall m | j < m < |t| ensures IsFragmentChar(t[m]) {
      assert t[j..][1..][m - j - 1] == t[m];
    }
    if j > 0 {
      assert t[..j][0] == t[0];
    }
  }

  /** Moves a hash fact from the suffix t[j..] back to t. */
  lemma HashesFromSuffix(t: string, j: int)
    requires 0 <= j <= |t| && FragmentsFromHash(t[j..])
    requires forall m :: 0 <= m < j ==> t[m] != '#'
    ensures FragmentsFromHash(t)
  {
    forall m | 0 <= m < |t| && t[m] == '#' ensures IsFragment(t[m..]) {
      assert t[j..][m - j] == t[m];
      assert t[j..][m - j..] == t[m..];
    }
  }

  lemma PathOnwardHash(t: string)
    requires PathOnward(t)
    ensures FragmentsFromHash(t)
  {
    var j :| 0 <= j <= |t| && IsPath(t[..j]) && QueryOnward(t[j..]);
    PathShape(t[..j]);
    QueryOnwardHash(t[j..]);
    forall m | 0 <= m < j ensures t[m] != '#' {
      assert t[..j][m] == t[m];
    }
    HashesFromSuffix(t, j);
  }

  lemma PortOnwardHash(t: string)
    requires PortOnward(t)
    ensures FragmentsFromHash(t)
  {
    var j :| 0 <= j <= |t| && IsPort(t[..j]) && PathOnward(t[j..]);
    PathOnwardHash(t[j..]);
    forall m | 0 < m < j ensures t[m] != '#' {
      assert t[..j][1..][m - 1] == t[m];
    }
    if j > 0 {
      assert t[..j][0] == t[0];
    }
    HashesFromSuffix(t, j);
  }

  lemma HostOnwardHash(t: string)
    requires HostOnward(t)
    ensures FragmentsFromHash(t)
  {
    var j :| 0 <= j <= |t| && IsHost(t[..j]) && PortOnward(t[j..]);
    HostChars(t[..j]);
    PortOnwardHash(t[j..]);
    HostThenFragments(t, j);
  }

  lemma HostThenFragments(t: string, j: int)
    requires 0 <= j <= |t| && AllHostChars(t[..j]) && FragmentsFromHash(t[j..])
    ensures FragmentsFromHash(t)
  {
    forall m | 0 <= m < j ensures t[m] != '#' {
      assert t[..j][m] == t[m];
    }
    HashesFromSuffix(t, j);
  }

  lemma FragmentIsSuffix(s: string, i: int)
    requires ValidUrl(s) && 0 <= i < |s| && s[i] == '#'
    ensures IsFragment(s[i..])
  {
    var j :| 0 <= j <= |s| && IsScheme(s[..j]) && HostOnward(s[j..]);
    SchemeChars(s[..j]);
    HostOnwardHash(s[j..]);
    SchemeThenFragments(s, j);
  }

  lemma SchemeThenFragments(s: string, j: int)
    requires 0 <= j <= |s| && AllSchemeChars(s[..j]) && FragmentsFromHash(s[j..])
    ensures FragmentsFromHash(s)
  {
    forall m | 0 <= m < j ensures s[m] != '#' {
      assert s[..j][m] == s[m];
    }
    HashesFromSuffix(s, j);
  }

  // ---------------------------------------------------------------------------
  // Acceptance

  lemma QueryOnwardIntro(query: string, fragment: string)
    requires IsQuery(query) && IsFragment(fragment)
    ensures QueryOnward(query + fragment)
  {
    var t := query + fragment;
    assert t[..|query|] == query && t[|query|..] == fragment;
  }

  lemma PathOnwardIntro(path: string, rest: string)
    requires IsPath(path) && QueryOnward(rest)
    ensures PathOnward(path + rest)
  {
    var t := path + rest;
    assert t[..|path|] == path && t[|path|..] == rest;
  }

  lemma PortOnwardIntro(port: string, rest: string)
    requires IsPort(port) && PathOnward(rest)
    ensures PortOnward(port + rest)
  {
    var t := port + rest;
    assert t[..|port|] == port && t[|port|..] == rest;
  }

  lemma HostOnwardIntro(host: string, rest: string)
    requires IsHost(host) && PortOnward(rest)
    ensures HostOnward(host + rest)
  {
    var t := host + rest;
    assert t[..|host|] == host && t[|host|..] == rest;
  }

  lemma ValidUrlIntro(scheme: string, rest: string)
    requires IsScheme(scheme) && HostOnward(rest)
    ensures ValidUrl(scheme + rest)
  {
    var t := scheme + rest;
    assert t[..|scheme|] == scheme && t[|scheme|..] == rest;
  }

  lemma ConcatAssoc(a: string, b: string, c: string, d: string, e: string, f: string)
    ensures a + (b + (c + (d + (e + f)))) == a + b + c + d + e + f
  {
  }

  /** Any well-formed choice of the six parts, concatenated in order, is accepted:
      every part but the host is optional, and they follow one another in this order. */
  lemma Accepts(scheme: string, host: string, port: string, path: string, query: string, fragment: string)
    requires IsScheme(scheme) && IsHost(host) && IsPort(port)
    requires IsPath(path) && IsQuery(query) && IsFragment(fragment)
    ensures ValidUrl(scheme + host + port + path + query + fragment)
  {
    QueryOnwardIntro(query, fragment);
    PathOnwardIntro(path, query + fragment);
    PortOnwardIntro(port, path + (query + fragment));
    HostOnwardIntro(host, port + (path + (query + fragment)));
    ValidUrlIntro(scheme, host + (port + (path + (query + fragment))));
    ConcatAssoc(scheme, host, port, path, query, fragment);
  }

  /** Port, path, query and fragment may all be absent. */
  lemma EmptyTail()
    ensures PortOnward("")
  {
    assert IsQuery("") && IsFragment("") && IsPath("") && IsPort("");
    assert ""[..0] == "" && ""[0..] == "";
    assert QueryOnward("");
    assert PathOnward("");
  }

  /** A host alone, with no scheme and nothing after it, is accepted. */
  lemma HostAccepted(host: string)
    requires IsHost(host)
    ensures ValidUrl(host)
  {
    EmptyTail();
    assert host[..|host|] == host && host[|host|..] == "";
    assert HostOnward(host);
    assert host[..0] == "" && host[0..] == host;
  }

  lemma DottedGroupsIntro(a: string, rest: string, n: nat)
    requires IsDigitGroup(a) && IsDottedGroups(rest, n)
    ensures IsDottedGroups(a + "." + rest, n + 1)
  {
    var h := a + "." + rest;
    assert h[|a|] == '.' && h[..|a|] == a && h[|a| + 1..] == rest;
  }

  lemma QuadConcat(a: string, b: string, c: string, d: string)
    ensures a + "." + (b + "." + (c + "." + d)) == a + "." + b + "." + c + "." + d
  {
  }

  /** A dotted quad of 1–3 digit groups is accepted, with no range check on the groups. */
  lemma DottedQuadAccepted(a: string, b: string, c: string, d: string)
    requires IsDigitGroup(a) && IsDigitGroup(b) && IsDigitGroup(c) && IsDigitGroup(d)
    ensures ValidUrl(a + "." + b + "." + c + "." + d)
  {
    DottedGroupsIntro(c, d, 0);
    DottedGroupsIntro(b, c + "." + d, 1);
    DottedGroupsIntro(a, b + "." + (c + "." + d), 2);
    HostAccepted(a + "." + (b + "." + (c + "." + d)));
    QuadConcat(a, b, c, d);
  }

  lemma OutOfRangeQuadAccepted()
    ensures ValidUrl("999.999.999.999")
  {
    assert AllDigits("999");
    DottedQuadAccepted("999", "999", "999", "999");
    QuadLiteral();
  }

  lemma QuadLiteral()
    ensures "999" + "." + "999" + "." + "999" + "." + "999" == "999.999.999.999"
  {
  }

  /** One label, a dot and a top-level domain of two or more letters form a host. */
  lemma DomainAccepted(name: string, tld: string)
    requires |name| > 0 && AllLabelChars(name) && IsAlnum(name[0]) && IsAlnum(name[|name| - 1])
    requires IsTld(tld)
    ensures ValidUrl(name + "." + tld)
  {
    LabelShape(name);
    var h := name + "." + tld;
    assert h[|name|] == '.' && h[..|name|] == name && h[|name| + 1..] == tld;
    assert IsDomain(h);
    HostAccepted(h);
  }

  /** A bare domain such as "example.com" needs no scheme. */
  lemma ExampleDomainAccepted()
    ensures ValidUrl("example.com")
  {
    assert "example" + "." + "com" == "example.com";
    DomainAccepted("example", "com");
  }

  // ---------------------------------------------------------------------------
  // Case-insensitivity: the flag "i" makes the pattern blind to ASCII case

  /** The string with every ASCII capital replaced by its small letter. */
  function Fold(s: string): (r: string)
    ensures |r| == |s| && forall i :: 0 <= i < |s| ==> r[i] == Lower(s[i])
  {
    seq(|s|, i requires 0 <= i < |s| => Lower(s[i]))
  }

  lemma FoldSlices(s: string, i: int)
    requires 0 <= i <= |s|
    ensures Fold(s)[..i] == Fold(s[..i]) && Fold(s)[i..] == Fold(s[i..])
  {
  }

  /** Folding a character keeps it in every class the pattern uses. */
  lemma LowerKeepsClasses(c: char)
    ensures IsLetter(Lower(c)) == IsLetter(c) && IsDigit(Lower(c)) == IsDigit(c)
    ensures IsAlnum(Lower(c)) == IsAlnum(c) && IsLabelChar(Lower(c)) == IsLabelChar(c)
    ensures IsPathChar(Lower(c)) == IsPathChar(c) && IsQueryChar(Lower(c)) == IsQueryChar(c)
    ensures IsFragmentChar(Lower(c)) == IsFragmentChar(c)
    ensures (Lower(c) == '.') == (c == '.') && (Lower(c) == ':') == (c == ':')
    ensures (Lower(c) == '/') == (c == '/') && (Lower(c) == '?') == (c == '?')
    ensures (Lower(c) == '#') == (c == '#')
    ensures Lower(Lower(c)) == Lower(c)
  {
  }

  lemma FoldKeepsRuns(s: string)
    ensures AllDigits(Fold(s)) == AllDigits(s) && AllLetters(Fold(s)) == AllLetters(s)
    ensures AllLabelChars(Fold(s)) == AllLabelChars(s) && AllPathChars(Fold(s)) == AllPathChars(s)
    ensures AllQueryChars(Fold(s)) == AllQueryChars(s) && AllFragmentChars(Fold(s)) == AllFragmentChars(s)
    ensures AllPathOrSlash(Fold(s)) == AllPathOrSlash(s)
  {
    forall i | 0 <= i < |s| {
      LowerKeepsClasses(s[i]);
    }
  }

  lemma FoldScheme(p: string)
    ensures IsScheme(Fold(p)) == IsScheme(p)
  {
    forall i | 0 <= i < |p| {
      LowerKeepsClasses(p[i]);
    }
    assert SameIgnoringCase(Fold(p), "http://") == SameIgnoringCase(p, "http://");
    assert SameIgnoringCase(Fold(p), "https://") == SameIgnoringCase(p, "https://");
  }

  lemma FoldLabel(s: string)
    ensures IsLabel(Fold(s)) == IsLabel(s)
  {
    LabelShape(s);
    LabelShape(Fold(s));
    FoldKeepsRuns(s);
    if |s| > 0 {
      LowerKeepsClasses(s[0]);
      LowerKeepsClasses(s[|s| - 1]);
    }
  }

  /** Around a dot at `k`: the label before it and the top-level domain after
      it keep their truth value under folding, and folding commutes with the
      split. */
  lemma FoldAroundDot(h: string, k: int)
    requires 0 <= k < |h|
    ensures (Fold(h)[k] == '.') == (h[k] == '.')
    ensures IsLabel(Fold(h)[..k]) == IsLabel(h[..k]) && IsTld(Fold(h)[k + 1..]) == IsTld(h[k + 1..])
    ensures IsDigitGroup(Fold(h)[..k]) == IsDigitGroup(h[..k])
    ensures Fold(h)[k + 1..] == Fold(h[k + 1..])
  {
    FoldSlices(h, k);
    FoldSlices(h, k + 1);
    LowerKeepsClasses(h[k]);
    FoldLabel(h[..k]);
    FoldKeepsRuns(h[..k]);
    FoldKeepsRuns(h[k + 1..]);
  }

  lemma DomainWitness(h: string, k: int)
    requires 0 <= k < |h| && h[k] == '.' && IsLabel(h[..k]) && (IsTld(h[k + 1..]) || IsDomain(h[k + 1..]))
    ensures IsDomain(h)
  {
  }

  lemma {:induction false} FoldDomain(h: string)
    ensures IsDomain(Fold(h)) == IsDomain(h)
    decreases |h|, 2
  {
    if IsDomain(h) {
      FoldDomainForward(h);
    }
    if IsDomain(Fold(h)) {
      FoldDomainBackward(h);
    }
  }

  lemma {:induction false} FoldDomainForward(h: string)
    requires IsDomain(h)
    ensures IsDomain(Fold(h))
    decreases |h|, 1
  {
    var k :| 0 <= k < |h| && h[k] == '.' && IsLabel(h[..k]) && (IsTld(h[k + 1..]) || IsDomain(h[k + 1..]));
    FoldDomainForwardAt(h, k);
  }

  lemma {:induction false} FoldDomainForwardAt(h: string, k: int)
    requires 0 <= k < |h| && h[k] == '.' && IsLabel(h[..k]) && (IsTld(h[k + 1..]) || IsDomain(h[k + 1..]))
    ensures IsDomain(Fold(h))
    decreases |h|, 0
  {
    FoldAroundDot(h, k);
    FoldDomain(h[k + 1..]);
    DomainWitness(Fold(h), k);
  }

  lemma {:induction false} FoldDomainBackward(h: string)
    requires IsDomain(Fold(h))
    ensures IsDomain(h)
    decreases |h|, 1
  {
    var f := Fold(h);
    var k :| 0 <= k < |f| && f[k] == '.' && IsLabel(f[..k]) && (IsTld(f[k + 1..]) || IsDomain(f[k + 1..]));
    FoldDomainBackwardAt(h, k);
  }

  lemma {:induction false} FoldDomainBackwardAt(h: string, k: int)
    requires 0 <= k < |h|
    requires Fold(h)[k] == '.' && IsLabel(Fold(h)[..k]) && (IsTld(Fold(h)[k + 1..]) || IsDomain(Fold(h)[k + 1..]))
    ensures IsDomain(h)
    decreases |h|, 0
  {
    FoldAroundDot(h, k);
    FoldDomain(h[k + 1..]);
    DomainWitness(h, k);
  }

  lemma DottedWitness(h: string, k: int, n: nat)
    requires 0 <= k < |h| && n > 0
    requires h[k] == '.' && IsDigitGroup(h[..k]) && IsDottedGroups(h[k + 1..], n - 1)
    ensures IsDottedGroups(h, n)
  {
  }

  lemma {:induction false} FoldDotted(h: string, n: nat)
    ensures IsDottedGroups(Fold(h), n) == IsDottedGroups(h, n)
    decreases n, 2
  {
    if n == 0 {
      FoldKeepsRuns(h);
    } else {
      if IsDottedGroups(h, n) {
        FoldDottedForward(h, n);
      }
      if IsDottedGroups(Fold(h), n) {
        FoldDottedBackward(h, n);
      }
    }
  }

  lemma {:induction false} FoldDottedForward(h: string, n: nat)
    requires n > 0 && IsDottedGroups(h, n)
    ensures IsDottedGroups(Fold(h), n)
    decreases n, 1
  {
    var k :| 0 <= k < |h| && h[k] == '.' && IsDigitGroup(h[..k]) && IsDottedGroups(h[k + 1..], n - 1);
    FoldDottedForwardAt(h, n, k);
  }

  lemma {:induction false} FoldDottedForwardAt(h: string, n: nat, k: int)
    requires n > 0 && 0 <= k < |h|
    requires h[k] == '.' && IsDigitGroup(h[..k]) && IsDottedGroups(h[k + 1..], n - 1)
    ensures IsDottedGroups(Fold(h), n)
    decreases n, 0
  {
    FoldAroundDot(h, k);
    FoldDotted(h[k + 1..], n - 1);
    DottedWitness(Fold(h), k, n);
  }

  lemma {:induction false} FoldDottedBackward(h: string, n: nat)
    requires n > 0 && IsDottedGroups(Fold(h), n)
    ensures IsDottedGroups(h, n)
    decreases n, 1
  {
    var f := Fold(h);
    var k :| 0 <= k < |f| && f[k] == '.' && IsDigitGroup(f[..k]) && IsDottedGroups(f[k + 1..], n - 1);
    FoldDottedBackwardAt(h, n, k);
  }

  lemma {:induction false} FoldDottedBackwardAt(h: string, n: nat, k: int)
    requires n > 0 && 0 <= k < |h|
    requires Fold(h)[k] == '.' && IsDigitGroup(Fold(h)[..k]) && IsDottedGroups(Fold(h)[k + 1..], n - 1)
    ensures IsDottedGroups(h, n)
    decreases n, 0
  {
    FoldAroundDot(h, k);
    FoldDotted(h[k + 1..], n - 1);
    DottedWitness(h, k, n);
  }

  lemma FoldParts(s: string)
    ensures IsHost(Fold(s)) == IsHost(s) && IsPort(Fold(s)) == IsPort(s)
    ensures IsPath(Fold(s)) == IsPath(s) && IsQuery(Fold(s)) == IsQuery(s)
    ensures IsFragment(Fold(s)) == IsFragment(s)
  {
    FoldDomain(s);
    FoldDotted(s, 3);
    PathShape(s);
    PathShape(Fold(s));
    FoldKeepsRuns(s);
    if |s| > 0 {
      LowerKeepsClasses(s[0]);
      FoldSlices(s, 1);
      FoldKeepsRuns(s[1..]);
    }
  }

  /** Each concatenation step keeps its truth value under folding, split by split. */
  lemma FoldSplit(t: string, i: int)
    requires 0 <= i <= |t|
    ensures IsQuery(Fold(t)[..i]) == IsQuery(t[..i]) && IsFragment(Fold(t)[i..]) == IsFragment(t[i..])
    ensures IsPath(Fold(t)[..i]) == IsPath(t[..i]) && IsPort(Fold(t)[..i]) == IsPort(t[..i])
    ensures IsHost(Fold(t)[..i]) == IsHost(t[..i]) && IsScheme(Fold(t)[..i]) == IsScheme(t[..i])
    ensures Fold(t)[i..] == Fold(t[i..])
  {
    FoldSlices(t, i);
    FoldParts(t[..i]);
    FoldParts(t[i..]);
    FoldScheme(t[..i]);
  }

  lemma FoldQueryOnward(t: string)
    ensures QueryOnward(Fold(t)) == QueryOnward(t)
  {
    if QueryOnward(t) {
      var i :| 0 <= i <= |t| && IsQuery(t[..i]) && IsFragment(t[i..]);
      FoldSplit(t, i);
    }
    if QueryOnward(Fold(t)) {
      var i :| 0 <= i <= |t| && IsQuery(Fold(t)[..i]) && IsFragment(Fold(t)[i..]);
      FoldSplit(t, i);
    }
  }

  lemma FoldPathOnward(t: string)
    ensures PathOnward(Fold(t)) == PathOnward(t)
  {
    if PathOnward(t) {
      var i :| 0 <= i <= |t| && IsPath(t[..i]) && QueryOnward(t[i..]);
      FoldSplit(t, i);
      FoldQueryOnward(t[i..]);
    }
    if PathOnward(Fold(t)) {
      var i :| 0 <= i <= |t| && IsPath(Fold(t)[..i]) && QueryOnward(Fold(t)[i..]);
      FoldSplit(t, i);
      FoldQueryOnward(t[i..]);
    }
  }

  lemma FoldPortOnward(t: string)
    ensures PortOnward(Fold(t)) == PortOnward(t)
  {
    if PortOnward(t) {
      var i :| 0 <= i <= |t| && IsPort(t[..i]) && PathOnward(t[i..]);
      FoldSplit(t, i);
      FoldPathOnward(t[i..]);
    }
    if PortOnward(Fold(t)) {
      var i :| 0 <= i <= |t| && IsPort(Fold(t)[..i]) && PathOnward(Fold(t)[i..]);
      FoldSplit(t, i);
      FoldPathOnward(t[i..]);
    }
  }

  lemma FoldHostOnward(t: string)
    ensures HostOnward(Fold(t)) == HostOnward(t)
  {
    if HostOnward(t) {
      var i :| 0 <= i <= |t| && IsHost(t[..i]) && PortOnward(t[i..]);
      FoldSplit(t, i);
      FoldPortOnward(t[i..]);
    }
    if HostOnward(Fold(t)) {
      var i :| 0 <= i <= |t| && IsHost(Fold(t)[..i]) && PortOnward(Fold(t)[i..]);
      FoldSplit(t, i);
      FoldPortOnward(t[i..]);
    }
  }

  /** validURL does not depend on letter case: a string and its lower-case form
      are accepted or rejected together. */
  lemma CaseInsensitive(s: string)
    ensures ValidUrl(Fold(s)) == ValidUrl(s)
  {
    if ValidUrl(s) {
      var i :| 0 <= i <= |s| && IsScheme(s[..i]) && HostOnward(s[i..]);
      FoldSplit(s, i);
      FoldHostOnward(s[i..]);
    }
    if ValidUrl(Fold(s)) {
      var i :| 0 <= i <= |s| && IsScheme(Fold(s)[..i]) && HostOnward(Fold(s)[i..]);
      FoldSplit(s, i);
      FoldHostOnward(s[i..]);
    }
  }
}
