/**
 * The single-request forge client used by the ingestion layer: its headers are fixed
 * when it is built, commits are listed without paging and issue failures are swallowed.
 */
module Bulletproof {
  import opened Outcomes
  import opened Errors
  import opened Environment
  import opened JsonValue
  import opened Records
  import opened Paging
  import ExtractCommits

  /** The header every request carries. */
  const AcceptHeader := "application/vnd.github.v3+json"

  class BulletproofGitHub {
    var token: Option<string>
    var headers: map<string, string>

    /** The header map is valid: Accept always, Authorization exactly when a token is set. */
    predicate Valid()
      reads this
    {
      && "Accept" in headers && headers["Accept"] == AcceptHeader
      && ("Authorization" in headers <==> Given(token))
      && (Given(token) ==> headers["Authorization"] == "token " + token.value)
      && headers.Keys <= {"Accept", "Authorization"}
    }

    /** Reads GITHUB_TOKEN from the environment; an empty value counts as unset. */
    constructor (env: Env)
      ensures token == Getenv(env, "GITHUB_TOKEN")
      ensures Valid()
    {
      token := Getenv(env, "GITHUB_TOKEN");
      headers := map["Accept" := AcceptHeader];
      new;
      if Given(token) {
        headers := headers["Authorization" := "token " + token.value];
      }
    }

    /**
     * get_commits: one request for `per_page` commits. A 200 answer gives one normalised
     * record per element, in order; 401 raises the unauthorised error, any other status
     * the generic API error, and a request that raises propagates.
     */
    method GetCommits(repo: string, perPage: int, answer: Result<Reply<seq<ApiCommit>>, Error>)
      returns (r: Result<seq<Commit>, Error>, sent: Request)
      requires Valid()
      ensures Valid()
      ensures sent == Request(ExtractCommits.CommitsUrl(repo), map["per_page" := PInt(perPage)])
      ensures answer.Err? ==> r == Err(answer.error)
      ensures answer.Ok? && answer.value.status == 200 ==>
        && r.Ok? && |r.value| == |answer.value.body|
        && forall i :: 0 <= i < |r.value| ==> r.value[i] == NormaliseCommit(answer.value.body[i])
      ensures answer.Ok? && answer.value.status == 401 ==> r == Err(Unauthorized)
      ensures answer.Ok? && answer.value.status != 200 && answer.value.status != 401 ==>
        r == Err(ApiStatus(answer.value.status))
    {
      sent := Request(ExtractCommits.CommitsUrl(repo), map["per_page" := PInt(perPage)]);
      if answer.Err? {
        return Err(answer.error), sent;
      }
      if answer.value.status == 200 {
        var commits := ExtractCommits.NormaliseEach(answer.value.body);
        forall i | 0 <= i < |commits|
          ensures commits[i] == NormaliseCommit(answer.value.body[i])
        {
          NormaliseCommitsAt(answer.value.body, i);
        }
        return Ok(commits), sent;
      }
      if answer.value.status == 401 {
        return Err(Unauthorized), sent;
      }
      r := Err(ApiStatus(answer.value.status));
    }

    /**
     * get_issues: one request; the decoded body is returned as it is on 200 when it has a
     * length (the success message takes len()); any other status, a body without a length
     * or a request that raises gives []. It never raises.
     */
    method GetIssues(repo: string, state: string, perPage: int, answer: Result<Reply<Json>, Error>)
      returns (issues: Json, sent: Request)
      requires Valid()
      ensures Valid()
      ensures sent == Request("https://api.github.com/repos/" + repo + "/issues",
        map["state" := PStr(state), "per_page" := PInt(perPage), "sort" := PStr("updated"), "direction" := PStr("desc")])
      ensures answer.Ok? && answer.value.status == 200 && Len(answer.value.body).Some? ==> issues == answer.value.body
      ensures !(answer.Ok? && answer.value.status == 200 && Len(answer.value.body).Some?) ==> issues == JArr([])
    {
      sent := Request("https://api.github.com/repos/" + repo + "/issues",
        map["state" := PStr(state), "per_page" := PInt(perPage), "sort" := PStr("updated"), "direction" := PStr("desc")]);
      if answer.Err? || answer.value.status != 200 {
        return JArr([]), sent;
      }
      if Len(answer.value.body).None? {
        return JArr([]), sent;
      }
      issues := answer.value.body;
    }
  }
}
