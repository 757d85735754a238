/**
 * What the pipeline sees of the network: parsed URLs and fetch responses.
 * A fetch is given as data; `NetworkError` stands for a fetch that throws
 * (unreachable host, timeout, unreadable body).
 */
module Http {

  import opened Wrappers
  import opened Text

  /** The parts of a WHATWG `URL` the pipeline reads: `protocol` (with its colon), `host`, `pathname`. */
  datatype Url = Url(protocol: string, host: string, pathname: string)

  datatype Response = NetworkError | Http(status: int, body: string)

  /** `res.ok`: a response with a 2xx status. */
  predicate IsOk(r: Response)
  {
    r.Http? && 200 <= r.status <= 299
  }

  /** The characters the URL parser strips from both ends of its input: C0 controls and space. */
  predicate IsC0OrSpace(c: char)
  {
    c <= ' '
  }

  /** The number of C0 controls and spaces that `s` starts with. */
  function LeadingC0(s: string): (n: nat)
    ensures n <= |s| && (n == |s| || !IsC0OrSpace(s[n]))
    ensures forall k :: 0 <= k < n ==> IsC0OrSpace(s[k])
  {
    if s != [] && IsC0OrSpace(s[0]) then 1 + LeadingC0(s[1..]) else 0
  }

  /** The number of C0 controls and spaces that `s` ends with. */
  function TrailingC0(s: string): (n: nat)
    ensures n <= |s| && (n == |s| || !IsC0OrSpace(s[|s| - 1 - n]))
    ensures forall k :: |s| - n <= k < |s| ==> IsC0OrSpace(s[k])
  {
    if s != [] && IsC0OrSpace(s[|s| - 1]) then 1 + TrailingC0(s[..|s| - 1]) else 0
  }

  /**
   * The URL parser's first step: leading and trailing C0 controls and
   * spaces are removed, and nothing else (a no-break space stays).
   */
  function StripC0(s: string): (r: string)
    ensures |r| <= |s|
    ensures r == [] || (!IsC0OrSpace(r[0]) && !IsC0OrSpace(r[|r| - 1]))
  {
    var t := s[LeadingC0(s)..];
    t[..|t| - TrailingC0(t)]
  }

  /** What `StripC0` removes is C0 controls and spaces at the two ends and nothing else. */
  lemma StripC0Slice(s: string)
    ensures exists i, j ::
              && 0 <= i <= j <= |s| && StripC0(s) == s[i..j]
              && (forall k :: 0 <= k < i ==> IsC0OrSpace(s[k]))
              && (forall k :: j <= k < |s| ==> IsC0OrSpace(s[k]))
  {
    var i := LeadingC0(s);
    var t := s[i..];
    var j := i + |t| - TrailingC0(t);
    assert forall k :: j <= k < |s| ==> s[k] == t[k - i];
    assert s[i..j] == t[..|t| - TrailingC0(t)];
  }

  /**
   * `new URL(s)` for absolute http and https URLs: the ends are stripped of
   * C0 controls and spaces, the scheme is matched case-insensitively, the
   * host runs to the first `/`, `?` or `#` and is lowercased, the path runs
   * to the first `?` or `#` and defaults to `/`. `None` stands for the
   * constructor throwing.
   */
  function ParseUrl(s: string): (r: Option<Url>)
    ensures r.Some? ==> r.value.host != [] && |r.value.pathname| > 0 && r.value.pathname[0] == '/'
  {
    var t := StripC0(s);
    var protocol := Scheme(t);
    if protocol == [] then None
    else
      Authority(protocol, t[|protocol| + 2..])
  }

  /**
   * The URL whose text after `protocol//` is `rest`: the host runs to the
   * first `/`, `?` or `#` and is lowercased; an empty host is an invalid URL.
   */
  function Authority(protocol: string, rest: string): (r: Option<Url>)
    ensures r.Some? ==> r.value.host != [] && |r.value.pathname| > 0 && r.value.pathname[0] == '/'
  {
    var hostEnd := IndexOfAny(rest, {'/', '?', '#'});
    var host := Lower(rest[..hostEnd]);
    var path := PathOf(rest[hostEnd..]);
    if host == [] then None
    else if path == [] then Some(Url(protocol, host, "/"))
    else Some(Url(protocol, host, path))
  }

  /**
   * The path of the text after the host: everything up to the first `?`
   * or `#`. After a host the text is empty or starts with `/`, `?` or `#`,
   * so a path that is not empty starts with `/`.
   */
  function PathOf(after: string): (p: string)
    requires after == [] || after[0] in {'/', '?', '#'}
    ensures p == [] || p[0] == '/'
    ensures |p| <= |after| && p == after[..|p|]
  {
    after[..IndexOfAny(after, {'?', '#'})]
  }

  /** A host in the parser's normal form: printable ASCII, lower case, no delimiter. */
  predicate NormalHost(host: string)
  {
    host != [] && forall c :: c in host ==> ' ' < c <= '~' && c !in {'/', '?', '#', '\\'} && !('A' <= c <= 'Z')
  }

  /** A path in the parser's normal form: printable ASCII from a leading `/`, no query or fragment. */
  predicate NormalPath(path: string)
  {
    |path| > 0 && path[0] == '/' && forall c :: c in path ==> ' ' < c <= '~' && c !in {'?', '#', '\\'}
  }

  /** The `href` of a URL with no query, fragment, port or user info. */
  function Href(u: Url): string
  {
    u.protocol + "//" + u.host + u.pathname
  }

  /** A URL in normal form reads back as itself from its `href`. */
  lemma ParseHref(u: Url)
    requires u.protocol == "http:" || u.protocol == "https:"
    requires NormalHost(u.host) && NormalPath(u.pathname)
    ensures ParseUrl(Href(u)) == Some(u)
  {
    HrefText(u);
    SchemeOfHref(u);
    AuthorityOfNormal(u.protocol, u.host, u.pathname);
  }

  /** An `href` is not stripped, and after `protocol//` it holds the host and the path. */
  lemma HrefText(u: Url)
    requires u.protocol == "http:" || u.protocol == "https:"
    requires NormalPath(u.pathname)
    ensures StripC0(Href(u)) == Href(u)
    ensures Href(u)[|u.protocol| + 2..] == u.host + u.pathname
  {
    var s := Href(u);
    assert s[0] == 'h';
    assert s[|s| - 1] == u.pathname[|u.pathname| - 1] && s[|s| - 1] in u.pathname;
    StripNothing(s);
    var head, rest := u.protocol + "//", u.host + u.pathname;
    assert s == head + rest;
    assert s[|head|..] == rest;
  }

  /** Text that neither starts nor ends with a C0 control or space is not stripped. */
  lemma StripNothing(s: string)
    requires s != [] && !IsC0OrSpace(s[0]) && !IsC0OrSpace(s[|s| - 1])
    ensures StripC0(s) == s
  {
    assert LeadingC0(s) == 0;
    assert TrailingC0(s) == 0;
    assert s[0..|s|] == s;
  }

  /** The scheme read from an `href` is its protocol. */
  lemma SchemeOfHref(u: Url)
    requires u.protocol == "http:" || u.protocol == "https:"
    ensures Scheme(Href(u)) == u.protocol
  {
    var s := Href(u);
    var n := |u.protocol| + 2;
    var lower := Lower(s);
    forall k | 0 <= k < n
      ensures lower[k] == s[k]
    {
      assert s[k] == (u.protocol + "//")[k];
    }
    assert lower[..n] == s[..n] == u.protocol + "//";
    if u.protocol == "https:" {
      assert lower[4] == 's';
    }
  }

  /** After the scheme, a normal host and path are read back unchanged. */
  lemma AuthorityOfNormal(protocol: string, host: string, path: string)
    requires NormalHost(host) && NormalPath(path)
    ensures Authority(protocol, host + path) == Some(Url(protocol, host, path))
  {
    var rest := host + path;
    assert forall k :: 0 <= k < |host| ==> rest[k] == host[k] && host[k] in host;
    assert rest[|host|] == '/';
    assert IndexOfAny(rest, {'/', '?', '#'}) == |host|;
    assert rest[..|host|] == host && rest[|host|..] == path;
    assert forall k :: 0 <= k < |host| ==> host[k] in host;
    assert Lower(host) == host;
    assert forall k :: 0 <= k < |path| ==> path[k] in path;
    assert IndexOfAny(path, {'?', '#'}) == |path|;
    assert path[..|path|] == path;
  }

  /** The `protocol` of an absolute http or https URL, or empty for any other text. */
  function Scheme(t: string): (p: string)
    ensures p == [] || p == "http:" || p == "https:"
    ensures p != [] ==> |p| + 2 <= |t|
  {
    var lower := Lower(t);
    if StartsWith(lower, "http://") then "http:"
    else if StartsWith(lower, "https://") then "https:"
    else ""
  }

  /** `${url.protocol}//${url.host}/robots.txt`. */
  function RobotsUrl(u: Url): string
  {
    u.protocol + "//" + u.host + "/robots.txt"
  }

  /** The response the network gives for `url`; a URL nobody answers is a network error. */
  function Fetch(responses: map<string, Response>, url: string): Response
  {
    if url in responses then responses[url] else NetworkError
  }
}
