/** The part of Python's `urllib.parse.urlsplit` the analyzers rely on: the
    scheme (recognised only when the text before the first ':' starts with
    an ASCII letter and holds only scheme characters, and lower-cased) and
    the network location (the text after "//" up to the first '/', '?' or
    '#'). */
module Urls {
  import opened Prelude

  predicate IsAsciiLetter(c: char) { 'a' <= c <= 'z' || 'A' <= c <= 'Z' }

  predicate IsAsciiDigit(c: char) { '0' <= c <= '9' }

  predicate IsSchemeChar(c: char)
  {
    IsAsciiLetter(c) || IsAsciiDigit(c) || c == '+' || c == '-' || c == '.'
  }

  /** The index of the first character of `s` in `stop`, |s| when there is none. */
  function FindFirst(s: string, stop: set<char>): (i: nat)
    ensures i <= |s|
    ensures forall k :: 0 <= k < i ==> s[k] !in stop
    ensures i < |s| ==> s[i] in stop
  {
    if s == [] then 0
    else if s[0] in stop then 0
    else 1 + FindFirst(s[1..], stop)
  }

  /** The scheme urlsplit recognises, and the rest of the URL after its ':'. */
  function SplitScheme(url: string): (string, string)
  {
    var i := FindFirst(url, {':'});
    if 0 < i < |url| && IsAsciiLetter(url[0]) && forall k :: 0 <= k < i ==> IsSchemeChar(url[k])
    then (Lower(url[..i]), url[i + 1..])
    else ("", url)
  }

  function Scheme(url: string): string
  {
    SplitScheme(url).0
  }

  /** The authority of a URL tail that follows "//": up to the first '/', '?' or '#'. */
  function Authority(s: string): (a: string)
    ensures |a| <= |s| && a == s[..|a|]
    ensures '/' !in a && '?' !in a && '#' !in a
  {
    var i := FindFirst(s, {'/', '?', '#'});
    assert forall k :: 0 <= k < i ==> s[..i][k] == s[k];
    s[..i]
  }

  /** `urlsplit(url).netloc`: "" unless the text after the scheme starts with "//". */
  function Netloc(url: string): string
  {
    var rest := SplitScheme(url).1;
    if StartsWith(rest, "//") then Authority(rest[2..]) else ""
  }

  /** A URL written with an "http://" or "https://" prefix splits into that
      scheme and the authority that follows the prefix. */
  lemma WebSchemeSplit(url: string)
    ensures StartsWith(url, "https://") ==> Scheme(url) == "https" && Netloc(url) == Authority(url[8..])
    ensures StartsWith(url, "http://") ==> Scheme(url) == "http" && Netloc(url) == Authority(url[7..])
  {
    if StartsWith(url, "https://") {
      HttpsSplit(url);
    }
    if StartsWith(url, "http://") {
      HttpSplit(url);
    }
  }

  lemma HttpsSplit(url: string)
    requires StartsWith(url, "https://")
    ensures SplitScheme(url) == ("https", url[6..])
    ensures Netloc(url) == Authority(url[8..])
  {
    assert url[..8] == "https://";
    assert url[5] == ':' && IsAsciiLetter(url[0]);
    SchemeAt(url, 5);
    assert url[..5] == "https";
    LowerOfLower(url[..5]);
    assert url[6..][..2] == "//" && url[6..][2..] == url[8..];
  }

  lemma HttpSplit(url: string)
    requires StartsWith(url, "http://")
    ensures SplitScheme(url) == ("http", url[5..])
    ensures Netloc(url) == Authority(url[7..])
  {
    assert url[..7] == "http://";
    assert url[4] == ':' && IsAsciiLetter(url[0]);
    SchemeAt(url, 4);
    assert url[..4] == "http";
    LowerOfLower(url[..4]);
    assert url[5..][..2] == "//" && url[5..][2..] == url[7..];
  }

  /** Text with no upper-case ASCII letter is its own lower-case form. */
  lemma LowerOfLower(s: string)
    requires forall k :: 0 <= k < |s| ==> !('A' <= s[k] <= 'Z')
    ensures Lower(s) == s
  {
  }

  /** When the first ':' sits at i and everything before it is a lower-case
      scheme starting with a letter, urlsplit cuts there. */
  lemma SchemeAt(url: string, i: nat)
    requires 0 < i < |url| && url[i] == ':' && IsAsciiLetter(url[0])
    requires forall k :: 0 <= k < i ==> url[k] != ':' && IsSchemeChar(url[k])
    ensures SplitScheme(url) == (Lower(url[..i]), url[i + 1..])
  {
    var j := FindFirst(url, {':'});
    assert j == i;
  }
}

/** `normalize_url` and `validate_url`: a scheme is added when missing, and
    a URL is valid when its network location is a dotted host name. The
    host pattern accepts one or more labels of 1 to 63 ASCII letters, digits
    and hyphens that neither start nor end with a hyphen (the label syntax of
    section 2.1 of RFC 1123 with the label limit of section 2.3.4 of RFC
    1035), each followed by a dot, and then an all-letter final label of at
    least two characters. Labels and the final label cannot hold a dot, so a
    match is exactly a split of the host at its dots into valid pieces; the
    pattern is modelled as that split. */
module Validator {
  import opened Prelude
  import opened Urls

  predicate HasWebScheme(url: string)
  {
    StartsWith(url, "http://") || StartsWith(url, "https://")
  }

  /** `normalize_url`. */
  function NormalizeUrl(url: string): (r: string)
    ensures HasWebScheme(r)
    ensures StartsWith(r, "https://") || r == url
  {
    if HasWebScheme(url) then url
    else
      assert ("https://" + url)[..8] == "https://";
      "https://" + url
  }

  /** A URL that already has a web scheme is left alone; any other gets
      "https://" in front. */
  lemma NormalizeUrlSpec(url: string)
    ensures HasWebScheme(url) ==> NormalizeUrl(url) == url
    ensures !HasWebScheme(url) ==> NormalizeUrl(url) == "https://" + url && |NormalizeUrl(url)| == |url| + 8
  {
  }

  /** Normalizing twice is normalizing once. */
  lemma NormalizeIdempotent(url: string)
    ensures NormalizeUrl(NormalizeUrl(url)) == NormalizeUrl(url)
  {
  }

  predicate IsAlnum(c: char) { IsAsciiLetter(c) || IsAsciiDigit(c) }

  /** `[a-zA-Z0-9]([a-zA-Z0-9-]{0,61}[a-zA-Z0-9])?` */
  predicate IsLabel(s: string)
  {
    1 <= |s| <= 63 && IsAlnum(s[0]) && IsAlnum(s[|s| - 1]) &&
    forall k :: 0 <= k < |s| ==> IsAlnum(s[k]) || s[k] == '-'
  }

  /** `[a-zA-Z]{2,}` */
  predicate IsTopLabel(s: string)
  {
    |s| >= 2 && forall k :: 0 <= k < |s| ==> IsAsciiLetter(s[k])
  }

  /** The host pattern, anchored at both ends. */
  predicate HostMatches(host: string)
  {
    var parts := Split(host, '.');
    |parts| >= 2 && IsTopLabel(parts[|parts| - 1]) &&
    forall k :: 0 <= k < |parts| - 1 ==> IsLabel(parts[k])
  }

  /** `validate_url`: prefix a scheme, split, require a scheme and a network
      location, require http or https, then match the host pattern. */
  function ValidateUrl(url: string): bool
  {
    var u := if HasWebScheme(url) then url else "https://" + url;
    var scheme := Scheme(u);
    var netloc := Netloc(u);
    if scheme == [] || netloc == [] then false
    else if scheme != "http" && scheme != "https" then false
    else HostMatches(netloc)
  }

  /** The text after the web-scheme prefix of a normalized URL. */
  function AfterPrefix(u: string): string
    requires HasWebScheme(u)
  {
    if StartsWith(u, "https://") then u[8..] else u[7..]
  }

  /** Validation is the host pattern applied to the authority of the
      normalized URL: the scheme test can never fail after prefixing, and
      an empty authority never matches the pattern. */
  lemma ValidateUrlSpec(url: string)
    ensures ValidateUrl(url) == HostMatches(Authority(AfterPrefix(NormalizeUrl(url))))
  {
    var u := NormalizeUrl(url);
    assert u == if HasWebScheme(url) then url else "https://" + url;
    WebParts(u);
    EmptyHostRejected();
  }

  /** A URL with a web-scheme prefix has that scheme and the authority after it. */
  lemma WebParts(u: string)
    requires HasWebScheme(u)
    ensures Scheme(u) == "http" || Scheme(u) == "https"
    ensures Netloc(u) == Authority(AfterPrefix(u))
  {
    if StartsWith(u, "https://") {
      HttpsSplit(u);
    } else {
      HttpSplit(u);
    }
  }

  /** Validating the normalized URL gives the same answer as validating the
      URL itself, since validation applies the same prefixing first. */
  lemma ValidateNormalized(url: string)
    ensures ValidateUrl(NormalizeUrl(url)) == ValidateUrl(url)
  {
    NormalizeIdempotent(url);
    ValidateUrlSpec(url);
    ValidateUrlSpec(NormalizeUrl(url));
  }

  lemma EmptyHostRejected()
    ensures !HostMatches([])
  {
    assert Split([], '.') == [[]];
  }

  // ---------------------------------------------------------------------------
  // Splitting at the dots

  /** Splitting a text that has no separator gives the text itself. */
  lemma {:induction false} SplitNoSep(s: string, sep: char)
    requires sep !in s
    ensures Split(s, sep) == [s]
  {
    if s != [] {
      SplitNoSep(s[..|s| - 1], sep);
      assert s[..|s| - 1] + [s[|s| - 1]] == s;
    }
  }

  /** Appending separator-free text extends the last piece. */
  lemma {:induction false} SplitAppendPlain(a: string, b: string, sep: char)
    requires sep !in b
    ensures Split(a + b, sep) == Split(a, sep)[..|Split(a, sep)| - 1] + [Split(a, sep)[|Split(a, sep)| - 1] + b]
    decreases |b|
  {
    var s := Split(a, sep);
    if b == [] {
      assert a + b == a;
      assert s[|s| - 1] + b == s[|s| - 1];
    } else {
      var b' := b[..|b| - 1];
      SplitAppendPlain(a, b', sep);
      assert (a + b)[..|a + b| - 1] == a + b';
      assert (a + b)[|a + b| - 1] == b[|b| - 1];
      assert s[|s| - 1] + b' + [b[|b| - 1]] == s[|s| - 1] + b;
    }
  }

  /** Appending a separator starts a new, empty piece. */
  lemma SplitAppendSep(a: string, sep: char)
    ensures Split(a + [sep], sep) == Split(a, sep) + [[]]
  {
    assert (a + [sep])[..|a|] == a;
  }

  /** Splitting a join of separator-free pieces gives the pieces back. */
  lemma {:induction false} SplitJoin(parts: seq<string>, sep: char)
    requires |parts| >= 1
    requires forall k :: 0 <= k < |parts| ==> sep !in parts[k]
    ensures Split(Join(parts, sep), sep) == parts
  {
    var last := parts[|parts| - 1];
    if |parts| == 1 {
      SplitAppendPlain([], last, sep);
      assert [] + last == last;
    } else {
      var init := parts[..|parts| - 1];
      SplitJoin(init, sep);
      SplitJoinStep(init, last, sep);
      assert init + [last] == parts;
    }
  }

  /** One more separator and piece after a join that splits back. */
  lemma SplitJoinStep(init: seq<string>, last: string, sep: char)
    requires |init| >= 1 && Split(Join(init, sep), sep) == init && sep !in last
    ensures Split(Join(init, sep) + [sep] + last, sep) == init + [last]
  {
    var a := Join(init, sep) + [sep];
    SplitAppendSep(Join(init, sep), sep);
    SplitAppendPlain(a, last, sep);
    var s := Split(a, sep);
    assert s[..|s| - 1] == init;
    assert s[|s| - 1] + last == last;
  }

  /** Every character of a piece occurs in the split text. */
  lemma {:induction false} SplitPiecesFromText(s: string, sep: char)
    ensures forall k, c :: 0 <= k < |Split(s, sep)| && c in Split(s, sep)[k] ==> c in s
  {
    if s != [] {
      var init := s[..|s| - 1];
      SplitPiecesFromText(init, sep);
      assert forall c :: c in init ==> c in s;
    }
  }

  /** Every character of the text other than the separator occurs in a piece. */
  lemma {:induction false} SplitKeepsText(s: string, sep: char, c: char)
    requires c in s && c != sep
    ensures exists k :: 0 <= k < |Split(s, sep)| && c in Split(s, sep)[k]
  {
    var init := s[..|s| - 1];
    var parts := Split(s, sep);
    var ip := Split(init, sep);
    var n := |ip| - 1;
    if c == s[|s| - 1] {
      assert parts[n] == ip[n] + [c];
      assert c in parts[n];
    } else {
      assert c in init;
      SplitKeepsText(init, sep, c);
      var k :| 0 <= k < |ip| && c in ip[k];
      if s[|s| - 1] == sep {
        assert parts[k] == ip[k];
      } else if k < n {
        assert parts[k] == ip[k];
      } else {
        assert parts[n] == ip[n] + [s[|s| - 1]];
        assert c in parts[n];
      }
    }
  }

  // ---------------------------------------------------------------------------
  // Which hosts the pattern accepts

  /** Any host written as valid labels and a valid final label, joined with
      dots, is accepted. */
  lemma LabelsAccepted(labels: seq<string>, top: string)
    requires |labels| >= 1 && IsTopLabel(top)
    requires forall k :: 0 <= k < |labels| ==> IsLabel(labels[k])
    ensures HostMatches(Join(labels + [top], '.'))
  {
    forall k | 0 <= k < |labels|
      ensures '.' !in labels[k]
    {
      LabelHasNoDot(labels[k]);
    }
    LabelHasNoDot(top);
    PiecesAccepted(labels, top);
  }

  /** Dot-free pieces that pass the label tests join into an accepted host. */
  lemma PiecesAccepted(labels: seq<string>, top: string)
    requires |labels| >= 1 && IsTopLabel(top) && '.' !in top
    requires forall k :: 0 <= k < |labels| ==> IsLabel(labels[k]) && '.' !in labels[k]
    ensures HostMatches(Join(labels + [top], '.'))
  {
    var parts := labels + [top];
    forall k | 0 <= k < |parts|
      ensures '.' !in parts[k]
    {
      if k < |labels| {
        assert parts[k] == labels[k];
      }
    }
    forall k | 0 <= k < |parts| - 1
      ensures IsLabel(parts[k])
    {
      assert parts[k] == labels[k];
    }
    SplitJoin(parts, '.');
    MatchesWhenSplit(Join(parts, '.'), parts);
  }

  lemma MatchesWhenSplit(host: string, parts: seq<string>)
    requires Split(host, '.') == parts
    requires |parts| >= 2 && IsTopLabel(parts[|parts| - 1])
    requires forall k :: 0 <= k < |parts| - 1 ==> IsLabel(parts[k])
    ensures HostMatches(host)
  {
  }

  /** Neither kind of label can hold a dot. */
  lemma LabelHasNoDot(s: string)
    requires IsLabel(s) || IsTopLabel(s)
    ensures '.' !in s
  {
    forall i | 0 <= i < |s|
      ensures s[i] != '.'
    {
    }
  }

  /** Conversely, an accepted host is such a join: of its pieces before the
      last dot and of the piece after it. */
  lemma AcceptedIsLabels(host: string)
    requires HostMatches(host)
    ensures var parts := Split(host, '.');
            host == Join(parts, '.') &&
            (forall k :: 0 <= k < |parts| - 1 ==> IsLabel(parts[k])) && IsTopLabel(parts[|parts| - 1])
  {
    JoinSplit(host, '.');
  }

  /** A host with no dot (such as "localhost") is rejected. */
  lemma SingleLabelRejected(host: string)
    requires '.' !in host
    ensures !HostMatches(host)
  {
    SplitNoSep(host, '.');
  }

  /** A host ending in a dot is rejected: its last piece is empty. */
  lemma TrailingDotRejected(host: string)
    requires |host| > 0 && host[|host| - 1] == '.'
    ensures !HostMatches(host)
  {
  }

  /** A host with a port, or any other ':', is rejected. */
  lemma PortRejected(host: string)
    requires ':' in host
    ensures !HostMatches(host)
  {
    SplitKeepsText(host, '.', ':');
    var parts := Split(host, '.');
    var k :| 0 <= k < |parts| && ':' in parts[k];
    var i :| 0 <= i < |parts[k]| && parts[k][i] == ':';
    assert !IsLabel(parts[k]) && !IsTopLabel(parts[k]) by {
      assert !IsAlnum(parts[k][i]) && parts[k][i] != '-';
    }
  }

  /** A dotted-decimal address such as "192.168.0.1" is rejected: its last
      piece holds no letter. */
  lemma NumericHostRejected(host: string)
    requires forall k :: 0 <= k < |host| ==> IsAsciiDigit(host[k]) || host[k] == '.'
    ensures !HostMatches(host)
  {
    var parts := Split(host, '.');
    var top := parts[|parts| - 1];
    SplitPiecesFromText(host, '.');
    if |top| >= 2 {
      assert top[0] in host;
      assert !IsAsciiLetter(top[0]);
    }
  }

  lemma AuthorityOfHost(s: string)
    requires '/' !in s && '?' !in s && '#' !in s
    ensures Authority(s) == s
  {
  }

  /** A bare host name (no scheme, no path) is valid exactly when it matches
      the host pattern. */
  lemma BareHostValidity(host: string)
    requires !HasWebScheme(host)
    requires '/' !in host && '?' !in host && '#' !in host
    ensures ValidateUrl(host) == HostMatches(host)
  {
    ValidateUrlSpec(host);
    assert ("https://" + host)[8..] == host;
    AuthorityOfHost(host);
  }

  /** A host name behind "http://" is valid exactly when it matches the host
      pattern. */
  lemma HttpHostValidity(host: string)
    requires '/' !in host && '?' !in host && '#' !in host
    ensures ValidateUrl("http://" + host) == HostMatches(host)
  {
    var u := "http://" + host;
    assert u[..7] == "http://";
    assert u[7..] == host;
    assert !StartsWith(u, "https://") by { assert u[4] == ':'; }
    ValidateUrlSpec(u);
    AuthorityOfHost(host);
  }

  lemma ExampleComMatches()
    ensures HostMatches("example.com")
  {
    LabelsAccepted(["example"], "com");
    assert ["example"] + ["com"] == ["example", "com"];
    assert Join(["example"], '.') == "example";
    assert Join(["example", "com"], '.') == "example.com";
  }

  /** "example.com" without a scheme is valid. */
  lemma ExampleComValid()
    ensures ValidateUrl("example.com")
  {
    assert "example.com"[0] == 'e';
    BareHostValidity("example.com");
    ExampleComMatches();
  }

  /** "localhost" is not valid: it has no dot. */
  lemma LocalhostInvalid()
    ensures !ValidateUrl("localhost")
  {
    assert "localhost"[0] == 'l';
    BareHostValidity("localhost");
    SingleLabelRejected("localhost");
  }

  /** A URL whose authority carries a port, such as
      "http://example.com:8080", is not valid. */
  lemma PortUrlInvalid(host: string)
    requires ':' in host && '/' !in host && '?' !in host && '#' !in host
    ensures !ValidateUrl("http://" + host)
  {
    HttpHostValidity(host);
    PortRejected(host);
  }
}
