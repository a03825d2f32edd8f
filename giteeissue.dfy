/**
 * The Gitee issue-comment client: locating an issue from a discussion URL, listing the
 * solution links found in its comments page by page, and posting a new comment.
 * The HTTP exchange is replaced by the replies the server gives; the strategy that
 * extracts a link from a comment body is a parameter.
 */
module GiteeIssue {
  import opened Wrappers
  import opened GoStrings

  /** The issue a discussion URL points at. */
  datatype IssueInfo = IssueInfo(owner: string, repo: string, num: string)

  /** The client's errors: a malformed URL, a failed request, an unexpected status, an undecodable body. */
  datatype ClientError = InvalidURL | RequestFailed | BadStatus(status: int) | DecodeFailed

  /** One element of the comment listing: its `body` field may be absent. */
  datatype Comment = Comment(body: Option<string>)

  /**
   * What a GET of one listing page gives: either the request failed, or a status and,
   * when the body decodes as a JSON array of comments, those comments.
   */
  datatype Response = RequestError | Response(status: int, comments: Option<seq<Comment>>)

  /** What a POST gives: either the request failed, or a status. */
  datatype PostReply = PostError | PostReply(status: int)

  /** A POST the client sends: the endpoint and the comment text it carries as `body`. */
  datatype Post = Post(url: string, body: string)

  /** What AddSolution did: the request it sent, if any, and its outcome. */
  datatype Added = Added(sent: Option<Post>, outcome: Outcome<ClientError>)

  /** 200 OK and 201 Created (sections 15.3.1 and 15.3.2 of RFC 9110). */
  const StatusOK: int := 200
  const StatusCreated: int := 201

  const ApiRepos: string := "https://gitee.com/api/v5/repos"

  const PerPage: string := "100"

  /**
   * parseIssue: split the trimmed URL at every '/', take the fourth piece from the end as
   * the owner, the third as the repository and the last as the issue number; the second
   * from the end is not looked at. Fewer than four pieces is an invalid URL.
   */
  function ParseIssue(url: string): (r: Result<IssueInfo, ClientError>)
    ensures r.Failure? ==> r.error == InvalidURL
  {
    var v := Split(TrimSpace(url), '/');
    var n := |v| - 1;
    if n < 3 then Failure(InvalidURL) else Success(IssueInfo(v[n - 3], v[n - 2], v[n]))
  }

  /** ParseIssue fails exactly when the trimmed URL holds fewer than three slashes. */
  lemma ParseIssueFails(url: string)
    ensures ParseIssue(url).Failure? <==> Occurrences(TrimSpace(url), '/') < 3
  {
    SplitLength(TrimSpace(url), '/');
  }

  /** The pieces ParseIssue returns never contain a slash. */
  lemma ParseIssueSlashFree(url: string)
    requires ParseIssue(url).Success?
    ensures var i := ParseIssue(url).value;
            '/' !in i.owner && '/' !in i.repo && '/' !in i.num
  {
    SplitPiecesFree(TrimSpace(url), '/');
  }

  /** Appending a slash and a slash-free segment appends one piece. */
  lemma SplitSnoc(p: string, q: string)
    requires '/' !in q
    ensures Split(p + "/" + q, '/') == Split(p, '/') + [q]
  {
    SplitAppend(p, '/', q);
    SplitFree(q, '/');
  }

  /**
   * After any prefix, four slash-free segments `/a/b/c/d` parse as owner `a`, repository `b`
   * and number `d`, whatever `c` is; white space before the prefix is trimmed away.
   */
  lemma ParseTail(prefix: string, a: string, b: string, c: string, d: string)
    requires '/' !in a && '/' !in b && '/' !in c && '/' !in d
    requires d == [] || !IsSpace(d[|d| - 1])
    ensures ParseIssue(prefix + "/" + a + "/" + b + "/" + c + "/" + d) == Success(IssueInfo(a, b, d))
  {
    var tail := "/" + a + "/" + b + "/" + c + "/" + d;
    var url := prefix + "/" + a + "/" + b + "/" + c + "/" + d;
    assert url == prefix + tail;
    var p := TrimLeft(prefix);
    var x := p + "/" + a + "/" + b + "/" + c + "/" + d;
    assert x == p + tail;
    TrimLeftConcat(prefix, tail);
    TrimLeftRemoves(prefix);
    assert x[0] == if p == [] then '/' else p[0];
    assert x[|x| - 1] == if d == [] then '/' else d[|d| - 1];
    assert TrimSpace(url) == x;
    ParseTrimmedTail(p, a, b, c, d);
  }

  /** ParseTail for a URL that has no white space at its ends. */
  lemma ParseTrimmedTail(prefix: string, a: string, b: string, c: string, d: string)
    requires '/' !in a && '/' !in b && '/' !in c && '/' !in d
    requires Trimmed(prefix + "/" + a + "/" + b + "/" + c + "/" + d)
    ensures ParseIssue(prefix + "/" + a + "/" + b + "/" + c + "/" + d) == Success(IssueInfo(a, b, d))
  {
    var u1 := prefix + "/" + a;
    var u2 := u1 + "/" + b;
    var u3 := u2 + "/" + c;
    var url := u3 + "/" + d;
    TrimSpaceOfTrimmed(url);
    SplitSnoc(prefix, a);
    SplitSnoc(u1, b);
    SplitSnoc(u2, c);
    SplitSnoc(u3, d);
    var v := Split(url, '/');
    assert v == Split(prefix, '/') + [a] + [b] + [c] + [d];
    var n := |v| - 1;
    assert v[n - 3] == a && v[n - 2] == b && v[n] == d;
  }

  /**
   * Round trip: a URL ending in `/{owner}/{repo}/issues/{num}`, with slash-free parts and
   * no white space at its end, parses back to that owner, repository and number.
   */
  lemma ParseIssueRoundTrip(prefix: string, owner: string, repo: string, num: string)
    requires '/' !in owner && '/' !in repo && '/' !in num
    requires num == [] || !IsSpace(num[|num| - 1])
    ensures ParseIssue(prefix + "/" + owner + "/" + repo + "/issues/" + num) == Success(IssueInfo(owner, repo, num))
  {
    var url := prefix + "/" + owner + "/" + repo + "/issues/" + num;
    assert url == prefix + "/" + owner + "/" + repo + "/" + "issues" + "/" + num;
    ParseTail(prefix, owner, repo, "issues", num);
  }

  /** The URL of the issue's page in the API, from which both endpoints are built. */
  function IssuePath(issue: IssueInfo): (path: string)
  {
    ApiRepos + "/" + issue.owner + "/" + issue.repo + "/issues/" + issue.num
  }

  /** The issue's comments endpoint, target of the POST and prefix of every listing page. */
  function CommentsURL(issue: IssueInfo): (u: string)
    ensures IssuePath(issue) <= u
  {
    IssuePath(issue) + "/comments"
  }

  /**
   * The comments endpoint of an issue with slash-free parts names it segment by segment:
   * after the API prefix come the owner, the repository, "issues", the number and "comments".
   * So different such issues have different endpoints.
   */
  lemma CommentsURLPieces(issue: IssueInfo)
    requires '/' !in issue.owner && '/' !in issue.repo && '/' !in issue.num
    ensures Split(CommentsURL(issue), '/') == Split(ApiRepos, '/') + [issue.owner, issue.repo, "issues", issue.num, "comments"]
  {
    assert CommentsURL(issue) == ApiRepos + "/" + issue.owner + "/" + issue.repo + "/" + "issues" + "/" + issue.num + "/" + "comments";
    SegmentPieces(ApiRepos, issue.owner, issue.repo, "issues", issue.num, "comments");
  }

  /** Five slash-free segments appended to any prefix are five more pieces. */
  lemma SegmentPieces(prefix: string, a: string, b: string, c: string, d: string, e: string)
    requires '/' !in a && '/' !in b && '/' !in c && '/' !in d && '/' !in e
    ensures Split(prefix + "/" + a + "/" + b + "/" + c + "/" + d + "/" + e, '/') == Split(prefix, '/') + [a, b, c, d, e]
  {
    var u1 := prefix + "/" + a;
    var u2 := u1 + "/" + b;
    var u3 := u2 + "/" + c;
    var u4 := u3 + "/" + d;
    SplitSnoc(prefix, a);
    SplitSnoc(u1, b);
    SplitSnoc(u2, c);
    SplitSnoc(u3, d);
    SplitSnoc(u4, e);
  }

  /** Issues with slash-free parts that share a comments endpoint are the same issue. */
  lemma CommentsURLInjective(a: IssueInfo, b: IssueInfo)
    requires '/' !in a.owner && '/' !in a.repo && '/' !in a.num
    requires '/' !in b.owner && '/' !in b.repo && '/' !in b.num
    ensures CommentsURL(a) == CommentsURL(b) <==> a == b
  {
    if CommentsURL(a) == CommentsURL(b) {
      CommentsURLPieces(a);
      CommentsURLPieces(b);
      var n := |Split(ApiRepos, '/')|;
      var pa := Split(CommentsURL(a), '/');
      assert pa[n] == a.owner && pa[n + 1] == a.repo && pa[n + 3] == a.num;
      assert pa[n] == b.owner && pa[n + 1] == b.repo && pa[n + 3] == b.num;
    }
  }

  /** The listing request for page `page`, 100 comments per page. */
  function PageURL(issue: IssueInfo, page: nat): (u: string)
    ensures CommentsURL(issue) <= u
  {
    CommentsURL(issue) + "?page=" + Itoa(page) + "&per_page=" + PerPage
  }

  /** The API path of a parsed issue parses back to the same issue. */
  lemma IssuePathRoundTrip(url: string)
    requires ParseIssue(url).Success?
    ensures ParseIssue(IssuePath(ParseIssue(url).value)) == ParseIssue(url)
  {
    var i := ParseIssue(url).value;
    ParseIssueSlashFree(url);
    var t := TrimSpace(url);
    TrimSpaceTrimmed(url);
    SplitLastSuffix(t, '/');
    if i.num != [] {
      assert i.num[|i.num| - 1] == t[|t| - 1];
    }
    ParseIssueRoundTrip(ApiRepos, i.owner, i.repo, i.num);
  }

  /** The first `n` listing requests: pages 1 to `n`, in order. */
  function Requests(issue: IssueInfo, n: nat): (urls: seq<string>)
  {
    if n == 0 then [] else Requests(issue, n - 1) + [PageURL(issue, n)]
  }

  /** The listing asks for page `j + 1` as its request number `j`, and makes no other request. */
  lemma {:induction false} RequestsAt(issue: IssueInfo, n: nat)
    ensures |Requests(issue, n)| == n
    ensures forall j :: 0 <= j < n ==> Requests(issue, n)[j] == PageURL(issue, j + 1)
  {
    if n > 0 {
      var init := Requests(issue, n - 1);
      RequestsAt(issue, n - 1);
      forall j | 0 <= j < n
        ensures Requests(issue, n)[j] == PageURL(issue, j + 1)
      {
        if j < n - 1 {
          assert Requests(issue, n)[j] == init[j];
        }
      }
    }
  }

  /** Different pages of one issue are different requests. */
  lemma PageURLInjective(issue: IssueInfo, p: nat, q: nat)
    requires PageURL(issue, p) == PageURL(issue, q)
    ensures p == q
  {
    var head := CommentsURL(issue) + "?page=";
    var tail := "&per_page=" + PerPage;
    var u := PageURL(issue, p);
    assert u == head + Itoa(p) + tail == head + Itoa(q) + tail;
    assert |Itoa(p)| == |Itoa(q)|;
    assert Itoa(p) == u[|head|..|u| - |tail|] == Itoa(q);
    AtoiItoa(p);
    AtoiItoa(q);
  }

  /** The link a comment contributes: the strategy's answer for a present body, unless empty. */
  function Solution(parseURL: string -> string, c: Comment): (links: seq<string>)
  {
    if c.body.Some? && parseURL(c.body.value) != "" then [parseURL(c.body.value)] else []
  }

  /** The comment `c` has a body for which the strategy answers the non-empty `link`. */
  predicate Offers(parseURL: string -> string, c: Comment, link: string)
  {
    c.body.Some? && link != "" && parseURL(c.body.value) == link
  }

  /** The links found in a page's comments, in comment order. */
  function Harvest(parseURL: string -> string, comments: seq<Comment>): (links: seq<string>)
    ensures forall k :: 0 <= k < |links| ==> links[k] != ""
  {
    if comments == [] then []
    else Harvest(parseURL, comments[..|comments| - 1]) + Solution(parseURL, comments[|comments| - 1])
  }

  /**
   * A link is harvested exactly when some comment has a body for which the strategy
   * answers that non-empty link; there is at most one link per comment.
   */
  lemma {:induction false} HarvestMembers(parseURL: string -> string, comments: seq<Comment>, link: string)
    ensures |Harvest(parseURL, comments)| <= |comments|
    ensures link in Harvest(parseURL, comments) <==>
            exists j :: 0 <= j < |comments| && Offers(parseURL, comments[j], link)
  {
    if comments != [] {
      var init := comments[..|comments| - 1];
      HarvestMembers(parseURL, init, link);
      assert forall j :: 0 <= j < |init| ==> init[j] == comments[j];
    }
  }

  /** A page the listing loop goes past: status 200 and a non-empty list of comments. */
  predicate Continues(r: Response)
  {
    r.Response? && r.status == StatusOK && r.comments.Some? && |r.comments.value| > 0
  }

  /** Harvesting one comment more adds that comment's link, if any, at the end. */
  lemma HarvestNext(parseURL: string -> string, comments: seq<Comment>, j: nat)
    requires j < |comments|
    ensures Harvest(parseURL, comments[..j + 1]) == Harvest(parseURL, comments[..j]) + Solution(parseURL, comments[j])
  {
    assert comments[..j + 1][..j] == comments[..j];
  }

  /** Harvesting a run of comments harvests each part in turn. */
  lemma {:induction false} HarvestAppend(parseURL: string -> string, a: seq<Comment>, b: seq<Comment>)
    ensures Harvest(parseURL, a + b) == Harvest(parseURL, a) + Harvest(parseURL, b)
  {
    if b == [] {
      assert a + b == a;
    } else {
      var b' := b[..|b| - 1];
      HarvestAppend(parseURL, a, b');
      assert (a + b)[..|a + b| - 1] == a + b';
      assert (a + b)[|a + b| - 1] == b[|b| - 1];
    }
  }

  /** The comments a reply carries; none when it carries no decoded list. */
  function CommentsOf(r: Response): (comments: seq<Comment>)
  {
    if r.Response? && r.comments.Some? then r.comments.value else []
  }

  /** The links of the first `n` pages: page order first, then comment order within a page. */
  function Solutions(parseURL: string -> string, pages: seq<Response>, n: nat): (links: seq<string>)
    requires n <= |pages|
    ensures forall k :: 0 <= k < |links| ==> links[k] != ""
  {
    if n == 0 then [] else Solutions(parseURL, pages, n - 1) + Harvest(parseURL, CommentsOf(pages[n - 1]))
  }

  /** Some comment of page `j` offers `link`. */
  predicate OfferedBy(parseURL: string -> string, pages: seq<Response>, j: nat, link: string)
    requires j < |pages|
  {
    exists i :: 0 <= i < |CommentsOf(pages[j])| && Offers(parseURL, CommentsOf(pages[j])[i], link)
  }

  /**
   * A link is among those of the first `n` pages exactly when some comment of those pages
   * has a body for which the strategy answers that non-empty link.
   */
  lemma {:induction false} SolutionsMembers(parseURL: string -> string, pages: seq<Response>, n: nat, link: string)
    requires n <= |pages|
    ensures link in Solutions(parseURL, pages, n) <==> exists j :: 0 <= j < n && OfferedBy(parseURL, pages, j, link)
  {
    if n > 0 {
      SolutionsMembers(parseURL, pages, n - 1, link);
      HarvestMembers(parseURL, CommentsOf(pages[n - 1]), link);
      assert link in Harvest(parseURL, CommentsOf(pages[n - 1])) <==> OfferedBy(parseURL, pages, n - 1, link);
    }
  }

  /** The index of the first page that ends the listing. */
  function FirstStop(pages: seq<Response>): (k: nat)
    requires exists p :: 0 <= p < |pages| && !Continues(pages[p])
    ensures k < |pages| && !Continues(pages[k])
    ensures forall j :: 0 <= j < k ==> Continues(pages[j])
  {
    if !Continues(pages[0]) then 0
    else
      var p :| 0 <= p < |pages| && !Continues(pages[p]);
      assert p > 0 && !Continues(pages[1..][p - 1]);
      1 + FirstStop(pages[1..])
  }

  /**
   * The comments a reply to a listing request carries, or the error it stands for: a failed
   * request, a status other than 200, or a body that does not decode.
   */
  function Decoded(r: Response): (got: Result<seq<Comment>, ClientError>)
  {
    match r
    case RequestError => Failure(RequestFailed)
    case Response(status, comments) =>
      if status != StatusOK then Failure(BadStatus(status))
      else if comments.None? then Failure(DecodeFailed)
      else Success(comments.value)
  }

  /**
   * What the listing returns when `pages[k]` is the first reply that ends it: the error that
   * reply stands for and no links, or, when it is a well-formed (then empty) list, the links
   * of the pages before it.
   */
  function Listing(parseURL: string -> string, pages: seq<Response>, k: nat): (result: Result<seq<string>, ClientError>)
    requires k < |pages|
  {
    match Decoded(pages[k])
    case Failure(e) => Failure(e)
    case Success(_) => Success(Solutions(parseURL, pages, k))
  }

  /**
   * The listing succeeds exactly when the reply that ends it is an empty list with status
   * 200, and then holds the links of all the pages before it.
   */
  lemma ListingSucceeds(parseURL: string -> string, pages: seq<Response>)
    requires exists p :: 0 <= p < |pages| && !Continues(pages[p])
    ensures var k := FirstStop(pages);
            && (Listing(parseURL, pages, k).Success? <==> pages[k] == Response(StatusOK, Some([])))
            && (Listing(parseURL, pages, k).Success? ==> Listing(parseURL, pages, k).value == Solutions(parseURL, pages, k))
  {
    var k := FirstStop(pages);
    if pages[k].Response? && pages[k].status == StatusOK && pages[k].comments.Some? {
      assert pages[k].comments.value == [];
    }
  }

  /**
   * CountCommentedSolutons. `pages[j]` is the server's reply to the request for page j + 1;
   * some page ends the listing (an empty list, an error or an unexpected status), since the
   * loop has no other bound. Makes no request when the URL is invalid; otherwise requests
   * pages 1, 2, ... up to and including the first page that ends the listing, and returns
   * what Listing says for that page.
   */
  method CountCommentedSolutions(url: string, parseURL: string -> string, pages: seq<Response>)
    returns (result: Result<seq<string>, ClientError>, requested: seq<string>)
    requires exists p :: 0 <= p < |pages| && !Continues(pages[p])
    ensures ParseIssue(url).Failure? ==> result == Failure(InvalidURL) && requested == []
    ensures ParseIssue(url).Success? ==>
      && requested == Requests(ParseIssue(url).value, FirstStop(pages) + 1)
      && result == Listing(parseURL, pages, FirstStop(pages))
  {
    var parsed := ParseIssue(url);
    if parsed.Failure? {
      return Failure(parsed.error), [];
    }
    result, requested := ListComments(parsed.value, parseURL, pages);
  }

  /**
   * The page loop of CountCommentedSolutons for a parsed issue: requests pages 1, 2, ... up
   * to and including the first page that ends the listing, and returns what Listing says for it.
   */
  method ListComments(issue: IssueInfo, parseURL: string -> string, pages: seq<Response>)
    returns (result: Result<seq<string>, ClientError>, requested: seq<string>)
    requires exists p :: 0 <= p < |pages| && !Continues(pages[p])
    ensures requested == Requests(issue, FirstStop(pages) + 1)
    ensures result == Listing(parseURL, pages, FirstStop(pages))
  {
    ghost var k := FirstStop(pages);
    var urls: seq<string> := [];
    requested := [];
    var page := 1;
    while true
      invariant 1 <= page <= k + 1
      invariant requested == Requests(issue, page - 1)
      invariant urls == Solutions(parseURL, pages, page - 1)
      decreases k + 1 - page
    {
      requested := requested + [PageURL(issue, page)];
      var got := Fetch(pages[page - 1]);
      if !Continues(pages[page - 1]) {
        assert page - 1 == k;
      }
      if got.Failure? {
        return Failure(got.error), requested;
      }
      var comments := got.value;
      if |comments| == 0 {
        break;
      }
      urls := CollectLinks(urls, parseURL, comments);
      page := page + 1;
    }
    return Success(urls), requested;
  }

  /** The reply to one listing request, checked: a failed request, a status other than 200 or an undecodable body is an error. */
  method Fetch(resp: Response) returns (got: Result<seq<Comment>, ClientError>)
    ensures got == Decoded(resp)
    ensures got.Success? ==> resp == Response(StatusOK, Some(got.value))
  {
    if resp.RequestError? {
      return Failure(RequestFailed);
    }
    if resp.status != StatusOK {
      return Failure(BadStatus(resp.status));
    }
    if resp.comments.None? {
      return Failure(DecodeFailed);
    }
    return Success(resp.comments.value);
  }

  /** The inner loop of the listing: appends the link of each comment of one page, in order. */
  method CollectLinks(urls: seq<string>, parseURL: string -> string, comments: seq<Comment>) returns (result: seq<string>)
    ensures result == urls + Harvest(parseURL, comments)
  {
    result := urls;
    for j := 0 to |comments|
      invariant result == urls + Harvest(parseURL, comments[..j])
    {
      HarvestNext(parseURL, comments, j);
      var c := comments[j];
      if c.body.Some? {
        var v := parseURL(c.body.value);
        if v != "" {
          result := result + [v];
        }
      }
    }
    assert comments[..|comments|] == comments;
  }

  /**
   * AddSolution: for a valid URL, POST the comment to the issue's comments endpoint;
   * succeeds only on 201 Created. An invalid URL fails before any request.
   */
  function AddSolution(url: string, comment: string, reply: PostReply): (r: Added)
    ensures ParseIssue(url).Failure? ==> r == Added(None, Fail(InvalidURL))
    ensures ParseIssue(url).Success? ==> r.sent == Some(Post(CommentsURL(ParseIssue(url).value), comment))
    ensures r.outcome.Pass? <==> ParseIssue(url).Success? && reply == PostReply(StatusCreated)
  {
    var parsed := ParseIssue(url);
    if parsed.Failure? then Added(None, Fail(parsed.error))
    else
      var post := Post(CommentsURL(parsed.value), comment);
      match reply
      case PostError => Added(Some(post), Fail(RequestFailed))
      case PostReply(status) =>
        if status != StatusCreated then Added(Some(post), Fail(BadStatus(status))) else Added(Some(post), Pass)
  }

  /** A well-formed issue URL parses to its parts. */
  lemma ParseIssueExample()
    ensures ParseIssue("https://example.com/ownerA/repoB/issues/42") == Success(IssueInfo("ownerA", "repoB", "42"))
  {
    var url := "https://example.com" + "/" + "ownerA" + "/" + "repoB" + "/issues/" + "42";
    assert url == "https://example.com/ownerA/repoB/issues/42";
    ParseIssueRoundTrip("https://example.com", "ownerA", "repoB", "42");
  }

  /** A URL with only two path segments still parses: the scheme's empty piece becomes the owner. */
  lemma ParseIssueShortURL()
    ensures ParseIssue("https://example.com/a/b") == Success(IssueInfo("", "example.com", "b"))
  {
    var url := "https:" + "/" + "" + "/" + "example.com" + "/" + "a" + "/" + "b";
    assert url == "https://example.com/a/b";
    ParseTail("https:", "", "example.com", "a", "b");
  }
}
