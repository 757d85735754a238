/**
 * Content extraction and job-wide deduplication (`scrapePage` and
 * `deduplicate`). The page's HTML is given already taken apart: the
 * e-mail regex's matches over the body text, in order, and the text of
 * its `<title>`.
 */
module Extraction {

  import opened Wrappers
  import opened Text
  import opened FirstWins
  import opened Store

  /** `RawLead`: a contact candidate found on one page. */
  datatype Candidate = Candidate(
    email: string,
    name: Option<string>,
    company: Option<string>,
    website: Option<string>,
    sourceUrl: string)

  /** A page fetch: one that throws, or a response with its status, regex matches and title text. */
  datatype Page = Unreachable | PageResponse(status: int, matches: seq<string>, title: string)

  function FetchPage(pages: map<string, Page>, url: string): Page
  {
    if url in pages then pages[url] else Unreachable
  }

  /** Every match, lowercased, in order. */
  function LowerAll(matches: seq<string>): (r: seq<string>)
    ensures |r| == |matches|
    ensures forall i :: 0 <= i < |matches| ==> r[i] == Lower(matches[i])
  {
    seq(|matches|, i requires 0 <= i < |matches| => Lower(matches[i]))
  }

  function Identity(s: string): string
  {
    s
  }

  /** The `emails` set of `scrapePage`: each lowercased match once, in order of first occurrence. */
  function DistinctEmails(matches: seq<string>): seq<string>
  {
    KeepFirst(LowerAll(matches), Identity)
  }

  /** `title || undefined` for the trimmed title. */
  function CompanyOf(title: string): (r: Option<string>)
    ensures r.Some? ==> r.value != []
  {
    if Trim(title) == [] then None else Some(Trim(title))
  }

  /** One candidate per e-mail, each naming the page as website and source. */
  function Candidates(emails: seq<string>, company: Option<string>, pageUrl: string): (cs: seq<Candidate>)
    ensures |cs| == |emails|
  {
    seq(|emails|, i requires 0 <= i < |emails| => Candidate(emails[i], None, company, Some(pageUrl), pageUrl))
  }

  /** One candidate per distinct e-mail of the page. */
  function PageCandidates(pageUrl: string, matches: seq<string>, title: string): seq<Candidate>
  {
    Candidates(DistinctEmails(matches), CompanyOf(title), pageUrl)
  }

  /** What `scrapePage` yields: an error when the fetch throws, nothing for a non-2xx page. */
  function Scrape(pageUrl: string, pages: map<string, Page>): Result<seq<Candidate>, JobError>
  {
    match FetchPage(pages, pageUrl)
    case Unreachable => Failure(PageUnreachable(pageUrl))
    case PageResponse(status, matches, title) =>
      if 200 <= status <= 299 then Success(PageCandidates(pageUrl, matches, title)) else Success([])
  }

  /** `scrapePage`: fill the e-mail set from the matches, then emit one candidate per e-mail. */
  method ScrapePage(pageUrl: string, pages: map<string, Page>) returns (r: Result<seq<Candidate>, JobError>)
    ensures r == Scrape(pageUrl, pages)
  {
    var res := FetchPage(pages, pageUrl);
    if res.Unreachable? {
      return Failure(PageUnreachable(pageUrl));
    }
    if !(200 <= res.status <= 299) {
      return Success([]);
    }
    var emails := CollectEmails(res.matches);
    var title := Trim(res.title);
    var leads := EmitCandidates(emails, if title == [] then None else Some(title), pageUrl);
    return Success(leads);
  }

  /** The `while` loop of `scrapePage`: add each lowercased match to the e-mail set. */
  method CollectEmails(matches: seq<string>) returns (emails: seq<string>)
    ensures emails == DistinctEmails(matches)
  {
    emails := [];
    var seen: set<string> := {};
    for i := 0 to |matches|
      invariant emails == KeepFirst(LowerAll(matches[..i]), Identity)
      invariant seen == Keys(emails, Identity)
    {
      assert LowerAll(matches[..i + 1]) == LowerAll(matches[..i]) + [Lower(matches[i])];
      assert (LowerAll(matches[..i]) + [Lower(matches[i])])[..i] == LowerAll(matches[..i]);
      var email := Lower(matches[i]);
      if email !in seen {
        KeysAppend(emails, Identity, email);
        emails := emails + [email];
        seen := seen + {email};
      }
    }
    assert matches[..|matches|] == matches;
  }

  /** The `for` loop of `scrapePage`: one candidate per e-mail, in set order. */
  method EmitCandidates(emails: seq<string>, company: Option<string>, pageUrl: string) returns (leads: seq<Candidate>)
    ensures leads == Candidates(emails, company, pageUrl)
  {
    leads := [];
    for i := 0 to |emails|
      invariant leads == Candidates(emails, company, pageUrl)[..i]
    {
      leads := leads + [Candidate(emails[i], None, company, Some(pageUrl), pageUrl)];
    }
  }

  /** The lowercased matches, as a set. */
  function LoweredMatches(matches: seq<string>): set<string>
  {
    set m | m in matches :: Lower(m)
  }

  /** The e-mails of some candidates, as a set. */
  function EmailsOf(cs: seq<Candidate>): set<string>
  {
    set c | c in cs :: c.email
  }

  /** The page's e-mails: pairwise distinct, and exactly the lowercased matches. */
  lemma DistinctEmailsSpec(matches: seq<string>)
    ensures forall k, l :: 0 <= k < l < |DistinctEmails(matches)| ==> DistinctEmails(matches)[k] != DistinctEmails(matches)[l]
    ensures (set e | e in DistinctEmails(matches)) == LoweredMatches(matches)
  {
    var lowered := LowerAll(matches);
    var emails := DistinctEmails(matches);
    KeepFirstDistinct(lowered, Identity);
    assert Keys(emails, Identity) == Keys(lowered, Identity);
    forall e | e in emails
      ensures e in LoweredMatches(matches)
    {
      var k :| 0 <= k < |emails| && emails[k] == e;
      assert Identity(emails[k]) in Keys(lowered, Identity);
      var i :| 0 <= i < |lowered| && Identity(lowered[i]) == e;
      assert matches[i] in matches;
    }
    forall e | e in LoweredMatches(matches)
      ensures e in emails
    {
      var m :| m in matches && Lower(m) == e;
      var i :| 0 <= i < |matches| && matches[i] == m;
      assert Identity(lowered[i]) in Keys(emails, Identity);
    }
  }

  /**
   * A page's candidates, as the extractor promises them: each carries the
   * page as website and source, no name, and the trimmed title as company
   * (absent when empty); their e-mails are the page's lowercased matches,
   * each exactly once.
   */
  lemma PageCandidatesSpec(pageUrl: string, matches: seq<string>, title: string)
    ensures forall k :: 0 <= k < |PageCandidates(pageUrl, matches, title)| ==>
      && PageCandidates(pageUrl, matches, title)[k].name.None?
      && PageCandidates(pageUrl, matches, title)[k].company == CompanyOf(title)
      && PageCandidates(pageUrl, matches, title)[k].website == Some(pageUrl)
      && PageCandidates(pageUrl, matches, title)[k].sourceUrl == pageUrl
    ensures forall k, l :: 0 <= k < l < |PageCandidates(pageUrl, matches, title)| ==>
      PageCandidates(pageUrl, matches, title)[k].email != PageCandidates(pageUrl, matches, title)[l].email
    ensures EmailsOf(PageCandidates(pageUrl, matches, title)) == LoweredMatches(matches)
  {
    DistinctEmailsSpec(matches);
    CandidatesEmails(DistinctEmails(matches), CompanyOf(title), pageUrl);
  }

  /** The candidates built from a list of e-mails: one per e-mail, in order, with the same e-mail set. */
  lemma CandidatesEmails(emails: seq<string>, company: Option<string>, pageUrl: string)
    ensures |Candidates(emails, company, pageUrl)| == |emails|
    ensures forall k :: 0 <= k < |emails| ==>
      Candidates(emails, company, pageUrl)[k] == Candidate(emails[k], None, company, Some(pageUrl), pageUrl)
    ensures EmailsOf(Candidates(emails, company, pageUrl)) == set e | e in emails
  {
    var cs := Candidates(emails, company, pageUrl);
    forall e | e in emails
      ensures e in EmailsOf(cs)
    {
      var k :| 0 <= k < |emails| && emails[k] == e;
      assert cs[k] in cs;
    }
  }

  /** The in-page e-mail set follows first occurrence: the k-th e-mail first appears before the (k+1)-th. */
  lemma DistinctEmailsOrder(matches: seq<string>)
    ensures var emails, pos := DistinctEmails(matches), FirstPositions(LowerAll(matches), Identity);
      && |pos| == |emails|
      && (forall k :: 0 <= k < |pos| ==>
            && pos[k] < |matches| && emails[k] == Lower(matches[pos[k]])
            && forall j :: 0 <= j < pos[k] ==> Lower(matches[j]) != emails[k])
      && (forall k, l :: 0 <= k < l < |pos| ==> pos[k] < pos[l])
  {
    KeepFirstSelects(LowerAll(matches), Identity);
  }

  /** `l.company || ''`. */
  function CompanyOrEmpty(c: Candidate): string
  {
    if c.company.Some? then c.company.value else ""
  }

  /** The deduplication key `${email}|${company || ''}`. */
  function Key(c: Candidate): string
  {
    c.email + "|" + CompanyOrEmpty(c)
  }

  /** The characters the e-mail pattern can match: letters, digits, `._%+-` and `@`. */
  predicate EmailChar(ch: char)
  {
    ('a' <= ch <= 'z') || ('A' <= ch <= 'Z') || ('0' <= ch <= '9')
    || ch == '.' || ch == '_' || ch == '%' || ch == '+' || ch == '-' || ch == '@'
  }

  /**
   * The key separates e-mail and company unambiguously when the e-mails
   * contain no `|`, which no text the e-mail pattern matches does.
   */
  lemma KeyInjective(a: Candidate, b: Candidate)
    requires '|' !in a.email && '|' !in b.email
    requires Key(a) == Key(b)
    ensures a.email == b.email && CompanyOrEmpty(a) == CompanyOrEmpty(b)
  {
    BarPosition(a.email, CompanyOrEmpty(a));
    BarPosition(b.email, CompanyOrEmpty(b));
    var ka, kb := Key(a), Key(b);
    assert a.email == ka[..|a.email|] && b.email == kb[..|b.email|];
    assert CompanyOrEmpty(a) == ka[|a.email| + 1..] && CompanyOrEmpty(b) == kb[|b.email| + 1..];
  }

  /** In `x|u` with no `|` in `x`, the first `|` follows `x`. */
  lemma BarPosition(x: string, u: string)
    requires '|' !in x
    ensures IndexOf(x + "|" + u, '|') == |x|
  {
    var k := x + "|" + u;
    assert k[|x|] == '|';
    assert forall j :: 0 <= j < |x| ==> k[j] == x[j];
  }

  /** Lowercasing a match of the e-mail pattern gives a text without `|`. */
  lemma LoweredMatchHasNoBar(m: string)
    requires forall i :: 0 <= i < |m| ==> EmailChar(m[i])
    ensures '|' !in Lower(m)
  {
    forall i | 0 <= i < |m|
      ensures Lower(m)[i] != '|'
    {
      assert EmailChar(m[i]);
    }
  }

  /** `deduplicate`: fill a map keyed by `Key`, keeping the first candidate per key, in insertion order. */
  method Deduplicate(leads: seq<Candidate>) returns (r: seq<Candidate>)
    ensures r == KeepFirst(leads, Key)
  {
    r := [];
    var keys: set<string> := {};
    for i := 0 to |leads|
      invariant r == KeepFirst(leads[..i], Key)
      invariant keys == Keys(r, Key)
    {
      assert leads[..i + 1][..i] == leads[..i];
      var l := leads[i];
      if Key(l) !in keys {
        KeysAppend(r, Key, l);
        r := r + [l];
        keys := keys + {Key(l)};
      }
    }
    assert leads[..|leads|] == leads;
  }
}
