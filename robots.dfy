/**
 * The robots.txt gate of the discovery pipeline (`isAllowedByRobots`).
 *
 * It is a line-oriented subset of robots.txt: each `User-agent` line
 * replaces the "this block applies to us" flag (consecutive agent lines
 * are not grouped), `Disallow` values are collected while the flag is
 * set, `Allow` lines are ignored, and a directive's value is only the
 * text between its first and second colon. A URL is denied when a
 * collected value is `/` or a prefix of its path. Every failure (a URL
 * that does not parse, a fetch that throws, a response that is not 2xx,
 * 5xx included) allows.
 */
module Robots {

  import opened Wrappers
  import opened Text
  import opened Http

  /** The crawler's identifying token, matched case-insensitively inside a `User-agent` value. */
  const CrawlerToken := "linkly"

  /** Blank lines and comment lines carry no directive. */
  predicate IsSkipped(trimmed: string)
  {
    trimmed == [] || trimmed[0] == '#'
  }

  /** What a line of robots.txt is to the parser. */
  datatype LineKind =
    | Skipped                          // blank or `#` comment
    | Agent(addressesUs: bool)         // `User-agent`, and whether its value addresses this crawler
    | Disallow(value: Option<string>)  // `Disallow`, with its value when that is not empty
    | Other                            // anything else, `Allow` included

  /** A `User-agent` value that addresses this crawler: `*`, or one containing the crawler token. */
  predicate AgentValueMatches(field: Option<string>)
  {
    match field
    case None => false
    case Some(v) => Trim(v) == "*" || Contains(Lower(Trim(v)), CrawlerToken)
  }

  /** The trimmed text between the first and second colon, when there is a colon and that text is not empty. */
  function DirectiveValue(trimmed: string): (r: Option<string>)
    ensures r.Some? ==> r.value != []
  {
    match SecondField(trimmed, ':')
    case None => None
    case Some(v) => if Trim(v) == [] then None else Some(Trim(v))
  }

  /** Directive names are matched case-insensitively at the start of the trimmed line. */
  function Classify(line: string): LineKind
  {
    var t := Trim(line);
    if IsSkipped(t) then Skipped
    else if StartsWith(Lower(t), "user-agent") then Agent(AgentValueMatches(SecondField(t, ':')))
    else if StartsWith(Lower(t), "disallow") then Disallow(DirectiveValue(t))
    else Other
  }

  /** The parser's state between lines: the agent flag and the values collected so far. */
  datatype ScanState = ScanState(active: bool, disallows: seq<string>)

  /** One line of the parse loop. */
  function Step(st: ScanState, kind: LineKind): ScanState
  {
    match kind
    case Agent(m) => ScanState(m, st.disallows)
    case Disallow(Some(d)) => if st.active then ScanState(st.active, st.disallows + [d]) else st
    case _ => st
  }

  /** The state after the lines of kinds `kinds`: no block is active before the first `User-agent`. */
  function ScanKinds(kinds: seq<LineKind>): ScanState
  {
    if kinds == [] then ScanState(false, [])
    else Step(ScanKinds(kinds[..|kinds| - 1]), kinds[|kinds| - 1])
  }

  /** The kind of each line, in order (see `KindsAt`). */
  function Kinds(lines: seq<string>): (kinds: seq<LineKind>)
    ensures |kinds| == |lines|
  {
    if lines == [] then []
    else Kinds(lines[..|lines| - 1]) + [Classify(lines[|lines| - 1])]
  }

  lemma {:induction false} KindsAt(lines: seq<string>, i: nat)
    requires i < |lines|
    ensures Kinds(lines)[i] == Classify(lines[i])
  {
    if i < |lines| - 1 {
      KindsAt(lines[..|lines| - 1], i);
    }
  }

  /** The state after parsing `lines` from the start. */
  function Scan(lines: seq<string>): ScanState
  {
    ScanKinds(Kinds(lines))
  }

  lemma ScanNext(lines: seq<string>, i: nat)
    requires i < |lines|
    ensures Scan(lines[..i + 1]) == Step(Scan(lines[..i]), Classify(lines[i]))
  {
    assert lines[..i + 1][..i] == lines[..i];
  }

  /** A collected value that denies `path`. */
  predicate Blocks(d: string, path: string)
  {
    d == "/" || (d != [] && StartsWith(path, d))
  }

  predicate Denies(disallows: seq<string>, path: string)
  {
    exists i :: 0 <= i < |disallows| && Blocks(disallows[i], path)
  }

  /** The gate's answer for `pageUrl`, given the robots.txt responses of every origin. */
  function RobotsAllows(pageUrl: string, robots: map<string, Response>): bool
  {
    match ParseUrl(pageUrl)
    case None => true
    case Some(u) => Verdict(Fetch(robots, RobotsUrl(u)), u.pathname)
  }

  /** The answer for a path, given its origin's robots.txt response. */
  function Verdict(res: Response, path: string): bool
  {
    !IsOk(res) || !Denies(Scan(SplitLines(res.body)).disallows, path)
  }

  /** `isAllowedByRobots`: fail-open on every error, otherwise parse and check the path. */
  method IsAllowedByRobots(pageUrl: string, robots: map<string, Response>) returns (allowed: bool)
    ensures allowed == RobotsAllows(pageUrl, robots)
  {
    var parsed := ParseUrl(pageUrl);
    if parsed.None? {
      return true;
    }
    var url := parsed.value;
    var res := Fetch(robots, RobotsUrl(url));
    if !IsOk(res) {
      return true;
    }
    var disallows := CollectDisallows(res.body);
    var denied := AnyBlocks(disallows, url.pathname);
    return !denied;
  }

  /** The parse loop of `isAllowedByRobots`: one pass over the lines, updating the agent flag. */
  method CollectDisallows(text: string) returns (disallows: seq<string>)
    ensures disallows == Scan(SplitLines(text)).disallows
  {
    var lines := SplitLines(text);
    disallows := [];
    var userAgentBlock := false;
    for i := 0 to |lines|
      invariant Scan(lines[..i]) == ScanState(userAgentBlock, disallows)
    {
      ScanNext(lines, i);
      userAgentBlock, disallows := ScanLine(lines[i], userAgentBlock, disallows);
    }
    assert lines[..|lines|] == lines;
  }

  /** The body of the parse loop for one line. */
  method ScanLine(line: string, userAgentBlock: bool, disallows: seq<string>)
    returns (block': bool, disallows': seq<string>)
    ensures ScanState(block', disallows') == Step(ScanState(userAgentBlock, disallows), Classify(line))
  {
    block', disallows' := userAgentBlock, disallows;
    var trimmed := Trim(line);
    if IsSkipped(trimmed) {
      assert Classify(line) == Skipped;
      return;
    }
    var lowered := Lower(trimmed);
    var isAgent, isDisallow := StartsWith(lowered, "user-agent"), StartsWith(lowered, "disallow");
    NotBoth(lowered);
    if isAgent {
      assert Classify(line) == Agent(AgentValueMatches(SecondField(trimmed, ':')));
      block' := AgentValueMatches(SecondField(trimmed, ':'));
    } else if isDisallow {
      assert Classify(line) == Disallow(DirectiveValue(trimmed));
    } else {
      assert Classify(line) == Other;
    }
    if block' && isDisallow {
      var path := DirectiveValue(trimmed);
      if path.Some? {
        disallows' := disallows' + [path.value];
      }
    }
  }

  /** The check loop of `isAllowedByRobots`: the first collected value that blocks `path` denies. */
  method AnyBlocks(disallows: seq<string>, path: string) returns (denied: bool)
    ensures denied == Denies(disallows, path)
  {
    for j := 0 to |disallows|
      invariant forall k :: 0 <= k < j ==> !Blocks(disallows[k], path)
    {
      if disallows[j] == "/" {
        return true;
      }
      if disallows[j] != [] && StartsWith(path, disallows[j]) {
        return true;
      }
    }
    return false;
  }

  /** No directive name is a prefix of both `user-agent` and `disallow`. */
  lemma NotBoth(s: string)
    ensures !(StartsWith(s, "user-agent") && StartsWith(s, "disallow"))
  {
    if StartsWith(s, "user-agent") {
      assert s[0] == s[..10][0] == 'u';
    }
    if StartsWith(s, "disallow") {
      assert s[0] == s[..8][0] == 'd';
    }
  }

  /**
   * Whether a block addressed to this crawler is open just before line
   * `j`: some earlier `User-agent` line addresses this crawler, and no
   * `User-agent` line comes between it and `j`.
   */
  ghost predicate ActiveBefore(kinds: seq<LineKind>, j: nat)
    requires j <= |kinds|
  {
    exists k :: 0 <= k < j && kinds[k] == Agent(true) && forall m :: k < m < j ==> !kinds[m].Agent?
  }

  /** The parser's flag is exactly "the most recent `User-agent` line addresses this crawler". */
  lemma {:induction false} ScanActive(kinds: seq<LineKind>, j: nat)
    requires j <= |kinds|
    ensures ScanKinds(kinds[..j]).active <==> ActiveBefore(kinds, j)
  {
    if j > 0 {
      ScanActive(kinds, j - 1);
      assert kinds[..j][..j - 1] == kinds[..j - 1];
      if kinds[j - 1].Agent? {
        if kinds[j - 1].addressesUs {
          assert ActiveBefore(kinds, j);
        } else if ActiveBefore(kinds, j) {
          var k :| 0 <= k < j && kinds[k] == Agent(true) && forall m :: k < m < j ==> !kinds[m].Agent?;
          assert false;
        }
      } else {
        if ActiveBefore(kinds, j - 1) {
          var k :| 0 <= k < j - 1 && kinds[k] == Agent(true) && forall m :: k < m < j - 1 ==> !kinds[m].Agent?;
          assert ActiveBefore(kinds, j);
        }
        if ActiveBefore(kinds, j) {
          var k :| 0 <= k < j && kinds[k] == Agent(true) && forall m :: k < m < j ==> !kinds[m].Agent?;
          assert ActiveBefore(kinds, j - 1);
        }
      }
    }
  }

  /**
   * A value is collected exactly when a `Disallow` line carries it inside
   * a block addressed to this crawler; so `Disallow` lines before any
   * `User-agent` line are never collected.
   */
  lemma {:induction false} ScanCollects(kinds: seq<LineKind>, j: nat, d: string)
    requires j <= |kinds|
    ensures d in ScanKinds(kinds[..j]).disallows
        <==> exists i :: 0 <= i < j && kinds[i] == Disallow(Some(d)) && ActiveBefore(kinds, i)
  {
    if j > 0 {
      ScanCollects(kinds, j - 1, d);
      ScanActive(kinds, j - 1);
      assert kinds[..j][..j - 1] == kinds[..j - 1];
    }
  }

  /** Some `Disallow` value in a block addressed to this crawler is `/` or a prefix of `path`. */
  ghost predicate RuleDenies(kinds: seq<LineKind>, path: string)
  {
    exists i, d :: 0 <= i < |kinds| && kinds[i] == Disallow(Some(d)) && ActiveBefore(kinds, i) && Blocks(d, path)
  }

  /**
   * For a robots.txt that was fetched: `path` is denied exactly when some
   * `Disallow` value in a block addressed to this crawler is `/` or a
   * prefix of `path`.
   */
  lemma ScanDeniesIff(kinds: seq<LineKind>, path: string)
    ensures Denies(ScanKinds(kinds).disallows, path) <==> RuleDenies(kinds, path)
  {
    var ds := ScanKinds(kinds).disallows;
    assert kinds[..|kinds|] == kinds;
    if Denies(ds, path) {
      var k :| 0 <= k < |ds| && Blocks(ds[k], path);
      ScanCollects(kinds, |kinds|, ds[k]);
    }
    if exists i, d :: 0 <= i < |kinds| && kinds[i] == Disallow(Some(d)) && ActiveBefore(kinds, i) && Blocks(d, path) {
      var i, d :| 0 <= i < |kinds| && kinds[i] == Disallow(Some(d)) && ActiveBefore(kinds, i) && Blocks(d, path);
      ScanCollects(kinds, |kinds|, d);
      var k :| 0 <= k < |ds| && ds[k] == d;
    }
  }

  /**
   * Given its origin's robots.txt response, a path is denied exactly when
   * the response is 2xx and a rule of its text denies the path.
   */
  lemma VerdictDeniesIff(res: Response, path: string)
    ensures !Verdict(res, path) <==> IsOk(res) && RuleDenies(Kinds(SplitLines(res.body)), path)
  {
    if IsOk(res) {
      ScanDeniesIff(Kinds(SplitLines(res.body)), path);
    }
  }

  /**
   * The gate denies a URL exactly when the URL parses, its origin's
   * robots.txt answers with a 2xx status, and a rule of that text denies
   * the URL's path.
   */
  lemma RobotsDeniesIff(pageUrl: string, robots: map<string, Response>)
    ensures !RobotsAllows(pageUrl, robots) <==>
      ParseUrl(pageUrl).Some? &&
      var u := ParseUrl(pageUrl).value;
      var res := Fetch(robots, RobotsUrl(u));
      IsOk(res) && RuleDenies(Kinds(SplitLines(res.body)), u.pathname)
  {
    if ParseUrl(pageUrl).Some? {
      var u := ParseUrl(pageUrl).value;
      VerdictDeniesIff(Fetch(robots, RobotsUrl(u)), u.pathname);
    }
  }

  /** Fail-open: no parsed URL, a fetch that throws, or any non-2xx answer (5xx included) allows. */
  lemma {:induction false} RobotsFailsOpen(pageUrl: string, robots: map<string, Response>)
    requires ParseUrl(pageUrl).None? || !IsOk(Fetch(robots, RobotsUrl(ParseUrl(pageUrl).value)))
    ensures RobotsAllows(pageUrl, robots)
  {
  }

  /**
   * Agent lines are not grouped: an agent line for another crawler right
   * after one for every crawler switches the block off, so a following
   * `Disallow` is not collected.
   */
  lemma AgentLinesNotGrouped(d: string)
    ensures ScanKinds([Agent(true), Agent(false), Disallow(Some(d))]).disallows == []
  {
    var kinds := [Agent(true), Agent(false), Disallow(Some(d))];
    var first, firstTwo := kinds[..1], kinds[..2];
    assert first[..0] == [];
    assert ScanKinds(first) == ScanState(true, []);
    assert firstTwo[..1] == first;
    assert ScanKinds(firstTwo) == ScanState(false, []);
    assert kinds[..2] == firstTwo;
  }

  /** An `Allow` line is no directive to the parser: it leaves the state as it is. */
  lemma AllowLineIgnored(line: string)
    requires StartsWith(Lower(Trim(line)), "allow")
    ensures Classify(line) == Other
  {
    var t := Trim(line);
    AllowIsNoDirective(Lower(t));
    assert LowerChar(t[0]) == Lower(t)[0];
  }

  /** Text that starts with `allow` starts with neither `user-agent` nor `disallow`. */
  lemma AllowIsNoDirective(lowered: string)
    requires StartsWith(lowered, "allow")
    ensures lowered != [] && lowered[0] == 'a'
    ensures !StartsWith(lowered, "user-agent") && !StartsWith(lowered, "disallow")
  {
    assert lowered[..5][0] == lowered[0];
    if |lowered| >= 10 {
      assert lowered[..10][0] == lowered[0];
    }
    if |lowered| >= 8 {
      assert lowered[..8][0] == lowered[0];
    }
  }
}
