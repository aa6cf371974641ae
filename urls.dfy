/** The part of Python's `urllib.parse.urlparse` the backend reads: scheme,
    network location, path (without `;params`), query and fragment, and the
    `hostname` attribute derived from the network location. */
module Urls {
  import opened Strings

  datatype Url = Url(scheme: string, netloc: string, path: string, query: string, fragment: string)

  /** Tab, carriage return and line feed, which `urlsplit` deletes everywhere. */
  predicate IsUnsafe(c: char) { c == '\t' || c == '\r' || c == '\n' }

  function RemoveUnsafe(s: string): (r: string)
    ensures forall i :: 0 <= i < |r| ==> !IsUnsafe(r[i])
  {
    if s == [] then []
    else
      var last := s[|s| - 1];
      var r := RemoveUnsafe(s[..|s| - 1]) + (if IsUnsafe(last) then [] else [last]);
      assert forall i :: 0 <= i < |r| - 1 ==> r[i] == RemoveUnsafe(s[..|s| - 1])[i];
      r
  }

  /** The number of leading C0 control characters and spaces from `k` on. */
  function LeadingControls(s: string, k: nat): (r: nat)
    requires k <= |s|
    ensures k <= r <= |s|
    decreases |s| - k
  {
    if k < |s| && s[k] as int <= 32 then LeadingControls(s, k + 1) else k
  }

  /** Leading C0 control characters and spaces, which `urlsplit` strips. */
  function LStripControl(s: string): string {
    s[LeadingControls(s, 0)..]
  }

  predicate IsSchemeChar(c: char) { IsCased(c) || IsDigit(c) || c == '+' || c == '-' || c == '.' }

  /** Schemes for which `urlparse` splits `;params` off the path. */
  const UsesParams: seq<string> := ["", "ftp", "hdl", "prospero", "http", "imap", "https", "shttp", "rtsp",
                                    "rtsps", "rtspu", "sip", "sips", "mms", "sftp", "tel"]

  function Min3(a: nat, b: nat, c: nat): nat {
    if a <= b && a <= c then a else if b <= c then b else c
  }

  /** `_splitparams`: the path without its `;params` part. */
  function StripParams(path: string): string {
    if '/' in path then
      var slash := LastIndexOf(path, '/');
      assert slash >= 0;
      var j := IndexOf(path[slash..], ';');
      if j == |path[slash..]| then path else path[..slash + j]
    else
      path[..IndexOf(path, ';')]
  }

  /** The scheme (lower-cased) and what follows its colon, or `""` and the whole
      text when it does not start with a valid scheme. */
  function SplitScheme(u: string): (string, string) {
    var i := IndexOf(u, ':');
    if 0 < i < |u| && IsCased(u[0]) && forall k :: 0 <= k < i ==> IsSchemeChar(u[k])
    then (Lower(u[..i]), u[i + 1..])
    else ("", u)
  }

  /** `_splitnetloc`: after a leading `//`, the network location runs to the first
      `/`, `?` or `#`. */
  function SplitNetloc(s: string): (string, string) {
    if StartsWith(s, "//") then
      var tail := s[2..];
      var d := Min3(IndexOf(tail, '/'), IndexOf(tail, '?'), IndexOf(tail, '#'));
      (tail[..d], tail[d..])
    else ("", s)
  }

  /** Fragment after the first `#`, then query after the first `?`. */
  function SplitRest(scheme: string, netloc: string, rest: string): Url {
    var h := IndexOf(rest, '#');
    var beforeFragment := rest[..h];
    var fragment := if h < |rest| then rest[h + 1..] else "";
    var q := IndexOf(beforeFragment, '?');
    var path := beforeFragment[..q];
    var query := if q < |beforeFragment| then beforeFragment[q + 1..] else "";
    Url(scheme, netloc, if scheme in UsesParams then StripParams(path) else path, query, fragment)
  }

  function ParseUrl(raw: string): Url {
    var u := LStripControl(RemoveUnsafe(raw));
    var (scheme, afterScheme) := SplitScheme(u);
    var (netloc, rest) := SplitNetloc(afterScheme);
    SplitRest(scheme, netloc, rest)
  }

  /** `urlsplit` raises `ValueError("Invalid IPv6 URL")` when the network
      location holds one square bracket without the other. */
  predicate UnbalancedBrackets(netloc: string) {
    ('[' in netloc) != (']' in netloc)
  }

  /** True when `urlparse(raw)` raises instead of returning `ParseUrl(raw)`. */
  predicate ParseRaises(raw: string) {
    UnbalancedBrackets(ParseUrl(raw).netloc)
  }

  /** `urlparse(url).hostname or ""`: the host without user information and port,
      lower-cased up to an IPv6 zone separator. */
  function HostName(netloc: string): string {
    var at := LastIndexOf(netloc, '@');
    var info := if at < 0 then netloc else netloc[at + 1..];
    var b := IndexOf(info, '[');
    var host := if b < |info| then
                  var bracketed := info[b + 1..];
                  bracketed[..IndexOf(bracketed, ']')]
                else info[..IndexOf(info, ':')];
    var p := IndexOf(host, '%');
    Lower(host[..p]) + host[p..]
  }

  // ---- lemmas about simple absolute URLs ----

  lemma IndexOfAbsent(s: string, c: char)
    requires c !in s
    ensures IndexOf(s, c) == |s|
  {
    IndexFromIs(s, c, 0, |s|);
  }

  lemma IndexOfAppend(a: string, b: string, c: char)
    requires c !in a
    ensures IndexOf(a + b, c) == |a| + IndexOf(b, c)
  {
    var r := |a| + IndexOf(b, c);
    IndexOfFirst(b, c);
    forall j | 0 <= j < r ensures (a + b)[j] != c {
      if j < |a| { assert (a + b)[j] == a[j]; } else { assert (a + b)[j] == b[j - |a|]; }
    }
    if r < |a + b| {
      assert (a + b)[r] == b[r - |a|];
    }
    IndexFromIs(a + b, c, 0, r);
  }

  lemma {:induction false} LastIndexOfAbsent(s: string, c: char)
    requires c !in s
    ensures LastIndexOf(s, c) == -1
  {
  }

  lemma {:induction false} RemoveUnsafeSafe(s: string)
    requires Safe(s)
    ensures RemoveUnsafe(s) == s
  {
    if s != [] {
      var init := s[..|s| - 1];
      assert Safe(init) by {
        forall i | 0 <= i < |init| ensures !IsUnsafe(init[i]) { assert init[i] == s[i]; }
      }
      RemoveUnsafeSafe(init);
      assert s == init + [s[|s| - 1]];
    }
  }

  lemma LowerOfLower(s: string)
    requires forall i :: 0 <= i < |s| ==> !IsUpper(s[i])
    ensures Lower(s) == s
  {
    assert forall i :: 0 <= i < |s| ==> Lower(s)[i] == s[i];
  }

  /** A host name as it appears in an ordinary link: no user information, port,
      brackets, zone, path, query or fragment characters, already lower-case. */
  predicate HostChar(c: char) {
    c != '/' && c != '?' && c != '#' && c != '@' && c != ':' && c != '[' && c != ']' && c != '%' && c != ';'
    && !IsUnsafe(c) && !IsUpper(c)
  }

  ghost predicate PlainHost(h: string) {
    forall i :: 0 <= i < |h| ==> HostChar(h[i])
  }

  ghost predicate Safe(s: string) {
    forall i :: 0 <= i < |s| ==> !IsUnsafe(s[i])
  }

  /** Text that can stand between `//` and the path: no delimiter, nothing unsafe. */
  ghost predicate NetlocText(h: string) {
    forall i :: 0 <= i < |h| ==> h[i] != '/' && h[i] != '?' && h[i] != '#' && !IsUnsafe(h[i])
  }

  lemma {:induction false} SafeAppend(a: string, b: string)
    requires Safe(a) && Safe(b)
    ensures Safe(a + b)
  {
    forall i | 0 <= i < |a + b| ensures !IsUnsafe((a + b)[i]) {
      if i < |a| { assert (a + b)[i] == a[i]; } else { assert (a + b)[i] == b[i - |a|]; }
    }
  }

  ghost predicate PlainScheme(s: string) {
    |s| > 0 && forall i :: 0 <= i < |s| ==> IsLower(s[i])
  }

  lemma PlainHostName(h: string)
    requires PlainHost(h)
    ensures HostName(h) == h
  {
    assert '@' !in h && '[' !in h && ':' !in h && '%' !in h;
    LastIndexOfAbsent(h, '@');
    assert h[0..] == h;
    IndexOfAbsent(h, '[');
    IndexOfAbsent(h, ':');
    IndexOfAbsent(h, '%');
    LowerOfLower(h);
  }

  lemma SplitSchemeOf(scheme: string, tail: string)
    requires PlainScheme(scheme)
    ensures SplitScheme(scheme + ":" + tail) == (scheme, tail)
  {
    var u := scheme + ":" + tail;
    assert ':' !in scheme;
    assert u == scheme + (":" + tail);
    IndexOfAppend(scheme, ":" + tail, ':');
    assert u[..|scheme|] == scheme;
    assert u[|scheme| + 1..] == tail;
    LowerOfLower(scheme);
  }

  lemma {:induction false} SplitNetlocOf(host: string, rest: string)
    requires NetlocText(host)
    requires rest == [] || rest[0] in "/?#"
    ensures SplitNetloc("//" + host + rest) == (host, rest)
  {
    var s := "//" + host + rest;
    var tail := s[2..];
    assert tail == host + rest;
    assert '/' !in host && '?' !in host && '#' !in host;
    IndexOfAppend(host, rest, '/');
    IndexOfAppend(host, rest, '?');
    IndexOfAppend(host, rest, '#');
    if rest != [] {
      assert IndexOf(rest, rest[0]) == 0;
    }
    assert Min3(IndexOf(tail, '/'), IndexOf(tail, '?'), IndexOf(tail, '#')) == |host|;
    assert StartsWith(s, "//");
    assert tail[..|host|] == host;
    assert tail[|host|..] == rest;
  }

  lemma {:induction false} PlainRaw(scheme: string, host: string, rest: string)
    requires PlainScheme(scheme) && NetlocText(host) && Safe(rest)
    ensures LStripControl(RemoveUnsafe(scheme + "://" + host + rest)) == scheme + "://" + host + rest
  {
    var raw := scheme + "://" + host + rest;
    assert Safe(scheme);
    assert Safe("://");
    assert Safe(host);
    SafeAppend(scheme, "://");
    SafeAppend(scheme + "://", host);
    SafeAppend(scheme + "://" + host, rest);
    RemoveUnsafeSafe(raw);
    assert raw[0] == scheme[0];
    assert LeadingControls(raw, 0) == 0;
    assert raw[0..] == raw;
  }

  /** For `scheme://host` followed by nothing or by a part that starts with `/`,
      `?` or `#`, the parser recovers the scheme and the host. */
  lemma ParseAbsolute(scheme: string, host: string, rest: string)
    requires PlainScheme(scheme) && PlainHost(host)
    requires rest == [] || rest[0] in "/?#"
    requires Safe(rest)
    ensures var u := ParseUrl(scheme + "://" + host + rest);
      u == SplitRest(scheme, host, rest) && HostName(u.netloc) == host
    ensures !ParseRaises(scheme + "://" + host + rest)
  {
    var raw := scheme + "://" + host + rest;
    PlainRaw(scheme, host, rest);
    assert raw == scheme + ":" + ("//" + host + rest);
    SplitSchemeOf(scheme, "//" + host + rest);
    SplitNetlocOf(host, rest);
    PlainHostName(host);
    assert '[' !in host && ']' !in host;
  }

  /** `scheme://netloc` followed by nothing or by `/`, `?` or `#`: the network
      location is split off as written. */
  lemma ParseNetloc(scheme: string, netloc: string, rest: string)
    requires PlainScheme(scheme) && NetlocText(netloc)
    requires rest == [] || rest[0] in "/?#"
    requires Safe(rest)
    ensures ParseUrl(scheme + "://" + netloc + rest) == SplitRest(scheme, netloc, rest)
  {
    var raw := scheme + "://" + netloc + rest;
    PlainRaw(scheme, netloc, rest);
    assert raw == scheme + ":" + ("//" + netloc + rest);
    SplitSchemeOf(scheme, "//" + netloc + rest);
    SplitNetlocOf(netloc, rest);
  }

  /** `hostname` of `[host` with no closing bracket is the host itself. */
  lemma UnclosedHostName(host: string)
    requires PlainHost(host)
    ensures HostName("[" + host) == host
  {
    var h := "[" + host;
    assert ']' !in host && '@' !in host && '%' !in host;
    assert '@' !in h && h[0] == '[';
    LastIndexOfAbsent(h, '@');
    assert h[0..] == h && h[1..] == host;
    IndexOfAbsent(host, ']');
    IndexOfAbsent(host, '%');
    LowerOfLower(host);
  }

  /** An opening bracket that is never closed: `urlparse` raises, although the
      host name the parser would read is the plain host after the bracket. */
  lemma UnclosedBracketRaises(scheme: string, host: string, rest: string)
    requires PlainScheme(scheme) && PlainHost(host)
    requires rest == [] || rest[0] in "/?#"
    requires Safe(rest)
    ensures ParseRaises(scheme + "://[" + host + rest)
    ensures HostName(ParseUrl(scheme + "://[" + host + rest).netloc) == host
  {
    var h := "[" + host;
    assert scheme + "://[" + host + rest == scheme + "://" + h + rest;
    UnclosedNetloc(host);
    ParseNetloc(scheme, h, rest);
    UnclosedHostName(host);
  }

  lemma UnclosedNetloc(host: string)
    requires PlainHost(host)
    ensures NetlocText("[" + host) && UnbalancedBrackets("[" + host)
  {
    var h := "[" + host;
    forall i | 0 <= i < |h| ensures h[i] != '/' && h[i] != '?' && h[i] != '#' && h[i] != ']' && !IsUnsafe(h[i]) {
      if i > 0 { assert h[i] == host[i - 1]; }
    }
    assert h[0] == '[';
  }

  lemma {:induction false} StripParamsPlain(path: string)
    requires ';' !in path
    ensures StripParams(path) == path
  {
    IndexOfAbsent(path, ';');
    if '/' in path {
      var slash := LastIndexOf(path, '/');
      assert ';' !in path[slash..];
      IndexOfAbsent(path[slash..], ';');
    } else {
      assert path[..|path|] == path;
    }
  }

  /** A remainder with neither query nor fragment is all path. */
  lemma {:induction false} SplitRestPath(scheme: string, netloc: string, path: string)
    requires '#' !in path && '?' !in path && ';' !in path
    ensures SplitRest(scheme, netloc, path) == Url(scheme, netloc, path, "", "")
  {
    IndexOfAbsent(path, '#');
    IndexOfAbsent(path, '?');
    assert path[..|path|] == path;
    StripParamsPlain(path);
  }

  /** A remainder `path?query` without a fragment. */
  lemma {:induction false} SplitRestQuery(scheme: string, netloc: string, path: string, query: string)
    requires '#' !in path && '?' !in path && ';' !in path && '#' !in query
    ensures SplitRest(scheme, netloc, path + "?" + query) == Url(scheme, netloc, path, query, "")
  {
    var rest := path + "?" + query;
    assert rest == path + ("?" + query);
    assert '#' !in rest by {
      forall i | 0 <= i < |rest| ensures rest[i] != '#' {
        if i < |path| { assert rest[i] == path[i]; }
        else if i > |path| { assert rest[i] == query[i - |path| - 1]; }
      }
    }
    IndexOfAbsent(rest, '#');
    assert rest[..|rest|] == rest;
    IndexOfAppend(path, "?" + query, '?');
    assert rest[..|path|] == path;
    assert rest[|path| + 1..] == query;
    StripParamsPlain(path);
  }
}
