/**
 * The GitHub side of github_setup.py (and its copy scripts/github_setup.py): the three
 * requests `enable_github_pages` may send and the outcome it reports, and the repository
 * names the Pages endpoint and `git_commands` use. The GitHub API is a function from a
 * request to what `requests` gives back; the token header, identical on every request, is
 * not modelled.
 */
module GithubPages {
  import opened Json
  import opened Strings

  const Username: string := "fullstackslife"

  datatype Verb = Get | Post | Put

  /** One HTTPS request to the GitHub API: verb, URL and JSON body (`Null` for none). */
  datatype HttpRequest = HttpRequest(verb: Verb, url: string, body: Value)

  /** What a `requests` call gives back: a status code, or an exception it raised. */
  datatype HttpReply = Raised | Status(code: int)

  /** The repository name of the Pages endpoints: `domain.lower()`. */
  function PagesRepo(domain: string): string {
    Lower(domain)
  }

  function PagesUrl(domain: string): string {
    "https://api.github.com/repos/" + Username + "/" + PagesRepo(domain) + "/pages"
  }

  /** "Is Pages already enabled?" */
  function CheckRequest(domain: string): HttpRequest {
    HttpRequest(Get, PagesUrl(domain), Null)
  }

  /** Create the Pages site from branch `master`, path `/`. */
  function CreateRequest(domain: string): HttpRequest {
    HttpRequest(Post, PagesUrl(domain), Obj([("source", Obj([("branch", Str("master")), ("path", Str("/"))]))]))
  }

  /** Enforce HTTPS on the new site. */
  function HttpsRequest(domain: string): HttpRequest {
    HttpRequest(Put, PagesUrl(domain), Obj([("https_enforced", Bool(true))]))
  }

  /** The POST statuses taken as "site created". */
  predicate Created(r: HttpReply) {
    r.Status? && (r.code == 201 || r.code == 204)
  }

  /**
   * `enable_github_pages(domain)`: GET the site; a 200 means already enabled. Otherwise POST
   * it; on 201 or 204 PUT the HTTPS setting and report success whatever status the PUT gets.
   * Any other POST status is a failure, and so is an exception raised by any of the three
   * calls. `sent` lists the requests in the order they were sent.
   */
  method EnableGithubPages(domain: string, http: HttpRequest -> HttpReply) returns (ok: bool, sent: seq<HttpRequest>)
    ensures 1 <= |sent| <= 3
    ensures sent == [CheckRequest(domain), CreateRequest(domain), HttpsRequest(domain)][..|sent|]
    ensures http(CheckRequest(domain)) == Status(200) ==> ok && |sent| == 1
    ensures http(CheckRequest(domain)).Raised? ==> !ok && |sent| == 1
    ensures |sent| > 1 <==> http(CheckRequest(domain)).Status? && http(CheckRequest(domain)).code != 200
    ensures |sent| == 2 <==> |sent| > 1 && !Created(http(CreateRequest(domain)))
    ensures |sent| == 2 ==> !ok
    ensures |sent| == 3 ==> (ok <==> http(HttpsRequest(domain)).Status?)
  {
    var reply := http(CheckRequest(domain));
    sent := [CheckRequest(domain)];
    if reply.Raised? {
      return false, sent;
    }
    if reply.code == 200 {
      return true, sent;
    }
    reply := http(CreateRequest(domain));
    sent := sent + [CreateRequest(domain)];
    if reply.Raised? || !(reply.code == 201 || reply.code == 204) {
      return false, sent;
    }
    reply := http(HttpsRequest(domain));
    sent := sent + [HttpsRequest(domain)];
    // the status of the PUT is only logged
    ok := !reply.Raised?;
  }

  /** The remote `git_commands` adds: the repository named by the domain as given. */
  function RemoteUrl(token: string, domain: string): string {
    "https://" + Username + ":" + token + "@github.com/" + Username + "/" + domain + ".git"
  }

  /** The body `git_commands` posts to create a missing repository: its name is the domain as given. */
  function CreateRepoBody(domain: string): Value {
    Obj([("name", Str(domain)), ("private", Bool(false)), ("auto_init", Bool(false))])
  }

  predicate HasUpper(s: string) {
    exists i :: 0 <= i < |s| && 'A' <= s[i] <= 'Z'
  }

  /**
   * The Pages endpoints name the repository `git_commands` creates and pushes to exactly when
   * the domain has no upper-case ASCII letter; otherwise they name a lower-cased repository.
   */
  lemma PagesRepoIsCreatedRepoIff(domain: string)
    ensures CreateRepoBody(domain).fields[0].1.s == domain
    ensures PagesRepo(domain) == domain <==> !HasUpper(domain)
  {
    if HasUpper(domain) {
      var i :| 0 <= i < |domain| && 'A' <= domain[i] <= 'Z';
      assert PagesRepo(domain)[i] != domain[i];
    } else {
      forall i | 0 <= i < |domain|
        ensures PagesRepo(domain)[i] == domain[i]
      {
        assert !('A' <= domain[i] <= 'Z');
      }
    }
  }

  /** The remote `git_commands` adds ends in `/<domain>.git`: it uses the domain as given, not lower-cased. */
  lemma RemoteUrlNamesDomain(token: string, domain: string)
    ensures var u := RemoteUrl(token, domain);
      |u| >= |domain| + 5 && u[|u| - |domain| - 5..] == "/" + domain + ".git"
  {
    var u := RemoteUrl(token, domain);
    var head := "https://" + Username + ":" + token + "@github.com/" + Username;
    assert u == head + ("/" + domain + ".git");
  }

  /** Domains that differ only in the case of ASCII letters share one Pages endpoint. */
  lemma PagesUrlIgnoresCase(domain: string)
    ensures PagesUrl(Lower(domain)) == PagesUrl(domain)
    ensures !HasUpper(PagesRepo(domain))
  {
    LowerIdempotent(domain);
    PagesRepoIsCreatedRepoIff(Lower(domain));
  }
}
