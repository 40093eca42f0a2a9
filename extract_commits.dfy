/**
 * Commit extraction: the `git log` line parser, the forge's paged commit listing and the
 * tag-range extraction with its fallback.
 */
module ExtractCommits {
  import opened Outcomes
  import opened Errors
  import opened Text
  import opened Records
  import opened Paging
  import opened Environment

  /** The `--pretty` format: six fields separated by `|`. */
  const LogFormat := "--pretty=format:%H|%an|%s|%b|%cd|%ci"

  /** The git command line; `--since`/`--until` are added only for given bounds. */
  function GitLogCommand(path: string, since: Option<string>, until: Option<string>): (cmd: seq<string>)
    ensures |cmd| == 5 + (if Given(since) then 2 else 0) + (if Given(until) then 2 else 0)
    ensures cmd[..5] == ["git", "-C", path, "log", LogFormat]
    ensures Given(since) ==> cmd[5] == "--since" && cmd[6] == since.value
    ensures Given(until) ==> cmd[|cmd| - 2] == "--until" && cmd[|cmd| - 1] == until.value
    ensures !Given(since) && !Given(until) ==> cmd == ["git", "-C", path, "log", LogFormat]
  {
    ["git", "-C", path, "log", LogFormat]
    + (if Given(since) then ["--since", since.value] else [])
    + (if Given(until) then ["--until", until.value] else [])
  }

  /** A line is split on `|` at most this many times. */
  const MaxSplits: nat := 5

  /** A local commit's line: its six fields separated by `|`. */
  function Line(c: Commit): string {
    c.hash + ("|" + (c.author + ("|" + (c.subject + ("|" + (c.body + ("|" + (c.date + ("|" + c.commitDate)))))))))
  }

  /**
   * One output line: blank lines are skipped, and a line is kept exactly when splitting
   * it on `|` at most five times gives six fields. The fields joined back with `|` are
   * the line itself; the first five hold no `|`, so the last one keeps any further `|`.
   */
  function ParseLogLine(line: string): (r: Option<Commit>)
    ensures r.Some? <==> Strip(line) != "" && Count(line, '|') >= 5
    ensures r.Some? ==> r.value.forge.None? && Line(r.value) == line
    ensures r.Some? ==> '|' !in r.value.hash && '|' !in r.value.author && '|' !in r.value.subject
                        && '|' !in r.value.body && '|' !in r.value.date
  {
    if Strip(line) == "" then None
    else
      var parts := SplitMax(line, '|', MaxSplits);
      LogFields(line);
      if |parts| >= 6 then
        var c := Commit(parts[0], parts[1], parts[2], parts[3], parts[4], parts[5], None);
        JoinSix(parts);
        Some(c)
      else None
  }

  /** What splitting a line at most five times on `|` gives. */
  lemma LogFields(line: string)
    ensures |SplitMax(line, '|', MaxSplits)| >= 6 <==> Count(line, '|') >= 5
    ensures |SplitMax(line, '|', MaxSplits)| <= 6
    ensures Join(SplitMax(line, '|', MaxSplits), "|") == line
    ensures forall k :: 0 <= k < |SplitMax(line, '|', MaxSplits)| - 1 ==> '|' !in SplitMax(line, '|', MaxSplits)[k]
  {
    SplitMaxCount(line, '|', 5);
    SplitMaxJoin(line, '|', 5);
    SplitMaxPartsLackSeparator(line, '|', 5);
  }

  /** Six parts joined with `|`, written out. */
  lemma JoinSix(parts: seq<string>)
    requires |parts| == 6
    ensures Join(parts, "|")
      == parts[0] + ("|" + (parts[1] + ("|" + (parts[2] + ("|" + (parts[3] + ("|" + (parts[4] + ("|" + parts[5])))))))))
  {
    var sep := "|";
    var t1, t2, t3, t4, t5 := parts[1..], parts[2..], parts[3..], parts[4..], parts[5..];
    assert parts == [parts[0]] + t1 && t1 == [parts[1]] + t2 && t2 == [parts[2]] + t3;
    assert t3 == [parts[3]] + t4 && t4 == [parts[4]] + t5 && t5 == [parts[5]];
    JoinCons(parts[4], t5, sep);
    JoinCons(parts[3], t4, sep);
    JoinCons(parts[2], t3, sep);
    JoinCons(parts[1], t2, sep);
    JoinCons(parts[0], t1, sep);
  }

  /** The commits of the output lines, in line order. */
  function LocalCommits(lines: seq<string>): seq<Commit> {
    if lines == [] then []
    else
      var last := lines[|lines| - 1];
      LocalCommits(lines[..|lines| - 1])
      + (if ParseLogLine(last).Some? then [ParseLogLine(last).value] else [])
  }

  /** What extract_commits_local returns for the command's outcome. */
  function LocalOutcome(out: Result<string, Error>): Result<seq<Commit>, Error> {
    match out
    case Err(e) => Err(e)
    case Ok(o) => Ok(LocalCommits(SplitLines(o)))
  }

  /**
   * extract_commits_local: runs `git log` (its outcome for a command line is `git`) and
   * parses the output line by line.
   */
  method ExtractCommitsLocal(
    path: string, since: Option<string>, until: Option<string>,
    git: seq<string> -> Result<string, Error>)
    returns (r: Result<seq<Commit>, Error>)
    ensures r == LocalOutcome(git(GitLogCommand(path, since, until)))
  {
    var out := git(GitLogCommand(path, since, until));
    if out.Err? {
      return Err(out.error);
    }
    var lines := SplitLines(out.value);
    var commits: seq<Commit> := [];
    var i := 0;
    while i < |lines|
      invariant 0 <= i <= |lines|
      invariant commits == LocalCommits(lines[..i])
    {
      var parsed := ParseLogLine(lines[i]);
      if parsed.Some? {
        commits := commits + [parsed.value];
      }
      assert lines[..i + 1][..i] == lines[..i];
      i := i + 1;
    }
    assert lines[..i] == lines;
    r := Ok(commits);
  }

  /** Every extracted commit comes from one output line, and there are no more commits than lines. */
  lemma {:induction false} LocalCommitsFromLines(lines: seq<string>)
    ensures |LocalCommits(lines)| <= |lines|
    ensures forall c :: c in LocalCommits(lines) ==> exists l :: l in lines && ParseLogLine(l) == Some(c)
  {
    if lines != [] {
      var init := lines[..|lines| - 1];
      LocalCommitsFromLines(init);
      forall c | c in LocalCommits(lines)
        ensures exists l :: l in lines && ParseLogLine(l) == Some(c)
      {
        if c in LocalCommits(init) {
          var l :| l in init && ParseLogLine(l) == Some(c);
          assert l in lines;
        } else {
          assert ParseLogLine(lines[|lines| - 1]) == Some(c);
        }
      }
    }
  }

  /** The `for commit_data in data: commits.append({...})` loop the forge adapters share. */
  method NormaliseEach(data: seq<ApiCommit>) returns (commits: seq<Commit>)
    ensures commits == NormaliseCommits(data)
  {
    commits := [];
    var j := 0;
    while j < |data|
      invariant 0 <= j <= |data|
      invariant commits == NormaliseCommits(data[..j])
    {
      commits := commits + [NormaliseCommit(data[j])];
      assert data[..j + 1][..j] == data[..j];
      j := j + 1;
    }
    assert data[..j] == data;
  }

  /** The listing URL of a repository's commits. */
  function CommitsUrl(repo: string): string {
    "https://api.github.com/repos/" + repo + "/commits"
  }

  /** The first request's query: per_page 100, and since/until/sha only when given. */
  function CommitParams(since: Option<string>, until: Option<string>, sha: Option<string>): (p: map<string, Param>)
    ensures "per_page" in p && p["per_page"] == PInt(100)
    ensures ("since" in p <==> Given(since)) && ("until" in p <==> Given(until)) && ("sha" in p <==> Given(sha))
    ensures Given(since) ==> p["since"] == PStr(since.value)
    ensures Given(until) ==> p["until"] == PStr(until.value)
    ensures Given(sha) ==> p["sha"] == PStr(sha.value)
    ensures p.Keys <= {"per_page", "since", "until", "sha"}
  {
    var p0 := map["per_page" := PInt(100)];
    var p1 := if Given(since) then p0["since" := PStr(since.value)] else p0;
    var p2 := if Given(until) then p1["until" := PStr(until.value)] else p1;
    if Given(sha) then p2["sha" := PStr(sha.value)] else p2
  }

  /** One page of the listing normalised; this processing never raises. */
  function NormalisePage(items: seq<ApiCommit>): Result<seq<Commit>, Error> {
    Ok(NormaliseCommits(items))
  }

  /**
   * What extract_commits_github does: no token raises before any request; otherwise the
   * listing is followed from its first page with the query of CommitParams.
   */
  function GithubCommits(
    repo: string, token: Option<string>, env: Env, since: Option<string>, until: Option<string>, sha: Option<string>,
    pages: seq<Response<ApiCommit>>): Run<Commit>
  {
    if !Given(TokenOrEnv(token, env)) then Run([], Err(ValueError(NoTokenMessage)))
    else Follow(CommitsUrl(repo), CommitParams(since, until, sha), pages, NormalisePage, None, [], [])
  }

  /**
   * extract_commits_github: follows the `next` links, normalising every commit of every
   * page in order; without a token argument the environment's GITHUB_TOKEN is used.
   */
  method ExtractCommitsGithub(
    repo: string, token: Option<string>, env: Env, since: Option<string>, until: Option<string>, sha: Option<string>,
    pages: seq<Response<ApiCommit>>)
    returns (r: Result<seq<Commit>, Error>, sent: seq<Request>)
    ensures Run(sent, r) == GithubCommits(repo, token, env, since, until, sha, pages)
  {
    var tok := TokenOrEnv(token, env);
    if !Given(tok) {
      return Err(ValueError(NoTokenMessage)), [];
    }
    var url: Option<string> := Some(CommitsUrl(repo));
    var params := CommitParams(since, until, sha);
    ghost var run := Follow(url.value, params, pages, NormalisePage, None, [], []);
    var commits: seq<Commit> := [];
    var k := 0;
    sent := [];
    assert pages[k..] == pages;
    while url.Some? && k < |pages|
      invariant 0 <= k <= |pages|
      invariant url.Some? ==> run == Follow(url.value, params, pages[k..], NormalisePage, None, commits, sent)
      invariant url.None? ==> run == Run(sent, Ok(commits))
      decreases |pages| - k
    {
      FollowAt(url.value, params, pages, k, NormalisePage, None, commits, sent);
      sent := sent + [Request(url.value, params)];
      var response := pages[k];
      if response.Err? {
        return Err(response.error), sent;
      }
      if FailingStatus(response.value.status) {
        return Err(HttpError(response.value.status)), sent;
      }
      var normalised := NormaliseEach(response.value.items);
      commits := commits + normalised;
      if response.value.next.Some? {
        url := response.value.next;
        params := map[];
      } else {
        url := None;
      }
      k := k + 1;
    }
    if url.Some? {
      assert pages[k..] == [];
    }
    r := Ok(commits);
  }

  /** The message of the TypeError raised by slicing None. */
  const NotSubscriptable := "'NoneType' object is not subscriptable"

  /** A tag lookup answer: the status and the `object.sha` of the decoded body. */
  datatype RefAnswer = RefAnswer(status: int, sha: Option<string>)

  /** The tag-range lookups: os.getenv('GITHUB_TOKEN', token) prefers a set variable. */
  function TagToken(token: Option<string>, env: Env): Option<string> {
    if "GITHUB_TOKEN" in env then Some(env["GITHUB_TOKEN"]) else token
  }

  /** A tag resolves when its lookup answered 200 with a non-empty sha; failures are swallowed. */
  predicate Resolves(ref: Result<RefAnswer, Error>) {
    ref.Ok? && ref.value.status == 200 && Given(ref.value.sha)
  }

  /**
   * extract_commits_between_tags: without a token (none given and GITHUB_TOKEN unset) the
   * debug line's `token[:10]` raises before any request; the compare answer is used only
   * when both tags resolve and it answers 200; a compare request that raises propagates;
   * every other case returns the unbounded forge extraction.
   */
  method ExtractCommitsBetweenTags(
    repo: string, token: Option<string>, env: Env, fromTag: string, toTag: string,
    fromRef: Result<RefAnswer, Error>, toRef: Result<RefAnswer, Error>,
    compare: Result<Reply<seq<ApiCommit>>, Error>, pages: seq<Response<ApiCommit>>)
    returns (r: Result<seq<Commit>, Error>)
    ensures TagToken(token, env).None? ==> r == Err(TypeError(NotSubscriptable))
    ensures TagToken(token, env).Some? && Resolves(fromRef) && Resolves(toRef) && compare.Err? ==> r == Err(compare.error)
    ensures TagToken(token, env).Some? && Resolves(fromRef) && Resolves(toRef) && compare.Ok? && compare.value.status == 200 ==>
      r == Ok(NormaliseCommits(compare.value.body))
    ensures TagToken(token, env).Some? && !(Resolves(fromRef) && Resolves(toRef) && (compare.Err? || compare.value.status == 200)) ==>
      r == GithubCommits(repo, TagToken(token, env), env, None, None, None, pages).outcome
  {
    var tok := TagToken(token, env);
    if tok.None? {
      return Err(TypeError(NotSubscriptable));
    }
    var fromSha: Option<string> := None;
    var toSha: Option<string> := None;
    if fromRef.Ok? && fromRef.value.status == 200 {
      fromSha := fromRef.value.sha;
    }
    if toRef.Ok? && toRef.value.status == 200 {
      toSha := toRef.value.sha;
    }
    if Given(fromSha) && Given(toSha) {
      if compare.Err? {
        return Err(compare.error);
      }
      if compare.value.status == 200 {
        var commits := NormaliseEach(compare.value.body);
        return Ok(commits);
      }
    }
    var sent;
    r, sent := ExtractCommitsGithub(repo, tok, env, None, None, None, pages);
  }
}
