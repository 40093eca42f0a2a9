/**
 * The forge's release listing with its limit, the lookup of one release by tag, the
 * changelog file lookup and the selection of previous releases.
 */
module FetchReleases {
  import opened Outcomes
  import opened Errors
  import opened Environment
  import opened Text
  import opened JsonValue
  import opened Records
  import opened Paging

  /** The listing URL of a repository's releases. */
  function ReleasesUrl(repo: string): string {
    "https://api.github.com/repos/" + repo + "/releases"
  }

  /** One page of the listing normalised; this processing never raises. */
  function NormaliseReleasePage(items: seq<ApiRelease>): Result<seq<ReleaseInfo>, Error> {
    Ok(NormaliseReleases(items))
  }

  /** The number of records after which the loop stops asking for pages (a limit below 0 stops after one). */
  function Cap(limit: int): nat {
    if limit < 0 then 0 else limit
  }

  /**
   * What fetch_github_releases does: no token raises; otherwise the listing is followed
   * with `per_page` set to the limit, paging stops once `limit` records are gathered, and
   * the result is cut to `releases[:limit]`.
   */
  function GithubReleases(repo: string, token: Option<string>, env: Env, limit: int, pages: seq<Response<ApiRelease>>)
    : Run<ReleaseInfo>
  {
    if !Given(TokenOrEnv(token, env)) then Run([], Err(ValueError(NoTokenMessage)))
    else
      var run := Follow(ReleasesUrl(repo), map["per_page" := PInt(limit)], pages, NormaliseReleasePage, Some(Cap(limit)), [], []);
      Run(run.sent, if run.outcome.Ok? then Ok(SliceTo(run.outcome.value, limit)) else run.outcome)
  }

  /**
   * The listing returns at most `limit` records, each the normalisation of an answered
   * record; when every page holds a record, no more than `limit` requests are sent.
   */
  lemma GithubReleasesBounds(repo: string, token: Option<string>, env: Env, limit: nat, pages: seq<Response<ApiRelease>>)
    requires forall i :: 0 <= i < |pages| ==> Contributes(pages[i], NormaliseReleasePage)
    ensures GithubReleases(repo, token, env, limit, pages).outcome.Ok? ==>
      |GithubReleases(repo, token, env, limit, pages).outcome.value| <= limit
    ensures limit > 0 ==> |GithubReleases(repo, token, env, limit, pages).sent| <= limit
  {
    if Given(TokenOrEnv(token, env)) && limit > 0 {
      FollowStopsAtCap(ReleasesUrl(repo), map["per_page" := PInt(limit)], pages, NormaliseReleasePage, limit, [], []);
    }
  }

  /** The `for release in data: releases.append({...})` loop of one page. */
  method NormaliseEachRelease(data: seq<ApiRelease>) returns (releases: seq<ReleaseInfo>)
    ensures releases == NormaliseReleases(data)
  {
    releases := [];
    var j := 0;
    while j < |data|
      invariant 0 <= j <= |data|
      invariant releases == NormaliseReleases(data[..j])
    {
      releases := releases + [NormaliseRelease(data[j])];
      j := j + 1;
    }
    assert data[..j] == data;
  }

  /**
   * fetch_github_releases: follows the `next` links and stops once `limit` records are
   * gathered, then returns the first `limit` of them.
   */
  method FetchGithubReleases(repo: string, token: Option<string>, env: Env, limit: int, pages: seq<Response<ApiRelease>>)
    returns (r: Result<seq<ReleaseInfo>, Error>, sent: seq<Request>)
    ensures Run(sent, r) == GithubReleases(repo, token, env, limit, pages)
  {
    var tok := TokenOrEnv(token, env);
    if !Given(tok) {
      return Err(ValueError(NoTokenMessage)), [];
    }
    var releases;
    releases, sent := FollowReleases(ReleasesUrl(repo), map["per_page" := PInt(limit)], limit, pages);
    if releases.Err? {
      return releases, sent;
    }
    r := Ok(SliceTo(releases.value, limit));
  }

  /** The `while url:` loop of fetch_github_releases, with its `len(releases) >= limit` break. */
  method FollowReleases(url0: string, params0: map<string, Param>, limit: int, pages: seq<Response<ApiRelease>>)
    returns (r: Result<seq<ReleaseInfo>, Error>, sent: seq<Request>)
    ensures Run(sent, r) == Follow(url0, params0, pages, NormaliseReleasePage, Some(Cap(limit)), [], [])
  {
    var url: Option<string> := Some(url0);
    var params := params0;
    ghost var run := Follow(url0, params0, pages, NormaliseReleasePage, Some(Cap(limit)), [], []);
    var releases: seq<ReleaseInfo> := [];
    var k := 0;
    sent := [];
    assert pages[k..] == pages;
    while url.Some? && k < |pages|
      invariant 0 <= k <= |pages|
      invariant url.Some? ==> run == Follow(url.value, params, pages[k..], NormaliseReleasePage, Some(Cap(limit)), releases, sent)
      invariant url.None? ==> run == Run(sent, Ok(releases))
      decreases |pages| - k
    {
      FollowAt(url.value, params, pages, k, NormaliseReleasePage, Some(Cap(limit)), releases, sent);
      sent := sent + [Request(url.value, params)];
      var response := pages[k];
      if response.Err? {
        return Err(response.error), sent;
      }
      if FailingStatus(response.value.status) {
        return Err(HttpError(response.value.status)), sent;
      }
      var page := NormaliseEachRelease(response.value.items);
      releases := releases + page;
      if response.value.next.Some? {
        url := response.value.next;
        params := map[];
      } else {
        url := None;
      }
      k := k + 1;
      if |releases| >= limit {
        return Ok(releases), sent;
      }
    }
    if url.Some? {
      assert pages[k..] == [];
    }
    r := Ok(releases);
  }

  /**
   * fetch_release_by_tag: no token raises; a 404 answer means there is no such release;
   * any other failing status raises; otherwise the normalised record.
   */
  function FetchReleaseByTag(token: Option<string>, env: Env, answer: Result<Reply<ApiRelease>, Error>)
    : (r: Result<Option<ReleaseInfo>, Error>)
    ensures !Given(TokenOrEnv(token, env)) ==> r == Err(ValueError(NoTokenMessage))
    ensures Given(TokenOrEnv(token, env)) && answer.Ok? && answer.value.status == 404 ==> r == Ok(None)
    ensures Given(TokenOrEnv(token, env)) && answer.Ok? && answer.value.status != 404 && FailingStatus(answer.value.status) ==>
      r == Err(HttpError(answer.value.status))
    ensures r.Ok? && r.value.Some? ==>
      answer.Ok? && !FailingStatus(answer.value.status) && r.value.value == NormaliseRelease(answer.value.body)
    ensures Given(TokenOrEnv(token, env)) && answer.Err? ==> r == Err(answer.error)
    ensures Given(TokenOrEnv(token, env)) && answer.Ok? && !FailingStatus(answer.value.status) ==>
      r == Ok(Some(NormaliseRelease(answer.value.body)))
  {
    if !Given(TokenOrEnv(token, env)) then Err(ValueError(NoTokenMessage))
    else if answer.Err? then Err(answer.error)
    else if answer.value.status == 404 then Ok(None)
    else if FailingStatus(answer.value.status) then Err(HttpError(answer.value.status))
    else Ok(Some(NormaliseRelease(answer.value.body)))
  }

  /** The file names the changelog lookup tries, in this order. */
  const ChangelogNames: seq<string> := ["CHANGELOG.md", "CHANGELOG", "Changelog.md", "changelog.md", "HISTORY.md"]

  /** The contents URL of one file of a repository. */
  function ContentsUrl(repo: string, name: string): string {
    "https://api.github.com/repos/" + repo + "/contents/" + name
  }

  /**
   * One attempt of the changelog lookup: the decoded text when the answer is 200 with a
   * non-empty string `content` that decodes. Every failure inside the attempt (the request,
   * a body without `.get`, a content that is not text, a failed decoding) is swallowed by
   * the bare `except` and yields None. `decode` is base64 decoding followed by UTF-8.
   */
  function Attempt(
    repo: string, name: string, fetch: string -> Result<Reply<Json>, Error>, decode: string -> Result<string, Error>)
    : (r: Option<string>)
    ensures r.Some? ==>
      var a := fetch(ContentsUrl(repo, name));
      a.Ok? && a.value.status == 200 && a.value.body.JObj? && "content" in a.value.body.fields &&
      a.value.body.fields["content"].JStr? && a.value.body.fields["content"].s != "" &&
      decode(a.value.body.fields["content"].s) == Ok(r.value)
    ensures
      var a := fetch(ContentsUrl(repo, name));
      (a.Ok? && a.value.status == 200 && a.value.body.JObj? && "content" in a.value.body.fields &&
       a.value.body.fields["content"].JStr? && a.value.body.fields["content"].s != "" &&
       decode(a.value.body.fields["content"].s).Ok?) ==>
        r == Some(decode(a.value.body.fields["content"].s).value)
  {
    var answer := fetch(ContentsUrl(repo, name));
    if answer.Err? || answer.value.status != 200 then None
    else match Get(answer.value.body, "content", JStr(""))
      case Err(_) => None
      case Ok(content) =>
        if !Truthy(content) || !content.JStr? then None
        else match decode(content.s)
          case Err(_) => None
          case Ok(text) => Some(text)
  }

  /** The first attempt over `names` that yields a text. */
  function FirstChangelog(
    repo: string, names: seq<string>, fetch: string -> Result<Reply<Json>, Error>, decode: string -> Result<string, Error>)
    : Option<string>
  {
    if names == [] then None
    else if Attempt(repo, names[0], fetch, decode).Some? then Attempt(repo, names[0], fetch, decode)
    else FirstChangelog(repo, names[1..], fetch, decode)
  }

  /**
   * The lookup returns the text of the earliest name whose attempt yields one, and None
   * exactly when no attempt does.
   */
  lemma {:induction false} FirstChangelogSpec(
    repo: string, names: seq<string>, fetch: string -> Result<Reply<Json>, Error>, decode: string -> Result<string, Error>)
    ensures FirstChangelog(repo, names, fetch, decode).None? <==>
      forall i :: 0 <= i < |names| ==> Attempt(repo, names[i], fetch, decode).None?
    ensures FirstChangelog(repo, names, fetch, decode).Some? ==>
      exists i :: 0 <= i < |names| && FirstChangelog(repo, names, fetch, decode) == Attempt(repo, names[i], fetch, decode) &&
        forall j :: 0 <= j < i ==> Attempt(repo, names[j], fetch, decode).None?
  {
    if names != [] && Attempt(repo, names[0], fetch, decode).None? {
      FirstChangelogSpec(repo, names[1..], fetch, decode);
      var r := FirstChangelog(repo, names, fetch, decode);
      forall i | 1 <= i < |names|
        ensures Attempt(repo, names[i], fetch, decode) == Attempt(repo, names[1..][i - 1], fetch, decode)
      {
        assert names[1..][i - 1] == names[i];
      }
      if r.Some? {
        var i :| 0 <= i < |names[1..]| && r == Attempt(repo, names[1..][i], fetch, decode) &&
          forall j :: 0 <= j < i ==> Attempt(repo, names[1..][j], fetch, decode).None?;
        assert r == Attempt(repo, names[i + 1], fetch, decode);
        assert forall j :: 0 <= j < i + 1 ==> Attempt(repo, names[j], fetch, decode).None?;
      }
    }
  }

  /** fetch_changelog_from_repo: no token raises; otherwise the five names are tried in order. */
  method FetchChangelogFromRepo(
    repo: string, token: Option<string>, env: Env,
    fetch: string -> Result<Reply<Json>, Error>, decode: string -> Result<string, Error>)
    returns (r: Result<Option<string>, Error>)
    ensures !Given(TokenOrEnv(token, env)) ==> r == Err(ValueError(NoTokenMessage))
    ensures Given(TokenOrEnv(token, env)) ==> r == Ok(FirstChangelog(repo, ChangelogNames, fetch, decode))
  {
    if !Given(TokenOrEnv(token, env)) {
      return Err(ValueError(NoTokenMessage));
    }
    var i := 0;
    while i < |ChangelogNames|
      invariant 0 <= i <= |ChangelogNames|
      invariant FirstChangelog(repo, ChangelogNames, fetch, decode) == FirstChangelog(repo, ChangelogNames[i..], fetch, decode)
    {
      assert ChangelogNames[i..][1..] == ChangelogNames[i + 1..];
      var text := Attempt(repo, ChangelogNames[i], fetch, decode);
      if text.Some? {
        return Ok(text);
      }
      i := i + 1;
    }
    assert ChangelogNames[i..] == [];
    r := Ok(None);
  }

  /** A release get_previous_release_notes keeps: another tag, not a draft. */
  predicate Keeps(release: ReleaseInfo, currentVersion: string) {
    release.tagName != currentVersion && !release.draft
  }

  /**
   * The selection loop from `rs`, having kept `acc`: a kept release is appended, then the
   * loop stops as soon as `count` are kept; the length test follows the append.
   */
  function Previous(rs: seq<ReleaseInfo>, currentVersion: string, count: int, acc: seq<ReleaseInfo>): seq<ReleaseInfo>
    decreases |rs|
  {
    if rs == [] then acc
    else
      var kept := if Keeps(rs[0], currentVersion) then acc + [rs[0]] else acc;
      if |kept| >= count then kept else Previous(rs[1..], currentVersion, count, kept)
  }

  /**
   * Every selected release is a kept one, taken from the listing in listing order
   * (each occurs later than the one before); at most `count` are selected when `count`
   * is positive, and at most one otherwise.
   */
  lemma {:induction false} PreviousSpec(rs: seq<ReleaseInfo>, currentVersion: string, count: int, acc: seq<ReleaseInfo>)
    requires |acc| < count || acc == []
    ensures var p := Previous(rs, currentVersion, count, acc);
      |acc| <= |p| && p[..|acc|] == acc &&
      (forall x :: x in p[|acc|..] ==> x in rs && Keeps(x, currentVersion)) &&
      |p| <= (if count >= 1 then count else 1)
    decreases |rs|
  {
    if rs != [] {
      var kept := if Keeps(rs[0], currentVersion) then acc + [rs[0]] else acc;
      if |kept| < count {
        PreviousSpec(rs[1..], currentVersion, count, kept);
        var p := Previous(rs[1..], currentVersion, count, kept);
        assert p[..|acc|] == p[..|kept|][..|acc|];
        forall x | x in p[|acc|..]
          ensures x in rs && Keeps(x, currentVersion)
        {
          var i :| |acc| <= i < |p| && p[i] == x;
          if i >= |kept| {
            assert x in p[|kept|..];
            assert x in rs[1..];
          } else {
            assert x == rs[0];
          }
        }
      } else {
        assert kept[..|acc|] == acc;
        assert forall x :: x in kept[|acc|..] ==> x == rs[0];
      }
    }
  }

  /** The releases the selection keeps, in listing order. */
  function KeptOf(rs: seq<ReleaseInfo>, currentVersion: string): (r: seq<ReleaseInfo>)
    ensures |r| <= |rs|
    ensures forall x :: x in r ==> x in rs && Keeps(x, currentVersion)
    ensures forall i :: 0 <= i < |rs| && Keeps(rs[i], currentVersion) ==> rs[i] in r
  {
    if rs == [] then []
    else (if Keeps(rs[0], currentVersion) then [rs[0]] else []) + KeptOf(rs[1..], currentVersion)
  }

  /**
   * With a positive `count` the selection is exactly the first `count` kept releases (all
   * of them when fewer are kept), after those already selected.
   */
  lemma {:induction false} PreviousTakesKept(rs: seq<ReleaseInfo>, currentVersion: string, count: int, acc: seq<ReleaseInfo>)
    requires |acc| < count
    ensures Previous(rs, currentVersion, count, acc) == SliceTo(acc + KeptOf(rs, currentVersion), count)
    decreases |rs|
  {
    if rs == [] {
      assert acc + [] == acc;
    } else {
      var kept := if Keeps(rs[0], currentVersion) then acc + [rs[0]] else acc;
      var head := if Keeps(rs[0], currentVersion) then [rs[0]] else [];
      assert acc + KeptOf(rs, currentVersion) == kept + KeptOf(rs[1..], currentVersion) by {
        assert KeptOf(rs, currentVersion) == head + KeptOf(rs[1..], currentVersion);
        assert acc + head == kept;
      }
      if |kept| >= count {
        assert |kept| == count;
        assert (kept + KeptOf(rs[1..], currentVersion))[..count] == kept;
      } else {
        PreviousTakesKept(rs[1..], currentVersion, count, kept);
      }
    }
  }

  /**
   * With `count` below 1 the test after the first release already stops the loop: the
   * selection is that release when it is kept, and empty otherwise.
   */
  lemma PreviousCountBelowOne(rs: seq<ReleaseInfo>, currentVersion: string, count: int)
    requires count < 1
    ensures Previous(rs, currentVersion, count, []) ==
      if rs != [] && Keeps(rs[0], currentVersion) then [rs[0]] else []
  {
  }

  /** The `for release in releases:` selection loop of get_previous_release_notes. */
  method SelectPrevious(releases: seq<ReleaseInfo>, currentVersion: string, count: int) returns (previous: seq<ReleaseInfo>)
    ensures previous == Previous(releases, currentVersion, count, [])
  {
    previous := [];
    var i := 0;
    assert releases[i..] == releases;
    while i < |releases|
      invariant 0 <= i <= |releases|
      invariant Previous(releases, currentVersion, count, []) == Previous(releases[i..], currentVersion, count, previous)
    {
      assert releases[i..][1..] == releases[i + 1..];
      if Keeps(releases[i], currentVersion) {
        previous := previous + [releases[i]];
      }
      if |previous| >= count {
        return;
      }
      i := i + 1;
    }
    assert releases[i..] == [];
  }

  /**
   * get_previous_release_notes: the first 50 releases of the listing, then the selection;
   * a fetch that raises propagates.
   */
  method GetPreviousReleaseNotes(
    repo: string, token: Option<string>, env: Env, currentVersion: string, count: int,
    pages: seq<Response<ApiRelease>>)
    returns (r: Result<seq<ReleaseInfo>, Error>)
    ensures GithubReleases(repo, token, env, 50, pages).outcome.Err? ==> r == GithubReleases(repo, token, env, 50, pages).outcome
    ensures GithubReleases(repo, token, env, 50, pages).outcome.Ok? ==>
      r == Ok(Previous(GithubReleases(repo, token, env, 50, pages).outcome.value, currentVersion, count, []))
  {
    var releases, sent := FetchGithubReleases(repo, token, env, 50, pages);
    if releases.Err? {
      return releases;
    }
    var previous := SelectPrevious(releases.value, currentVersion, count);
    r := Ok(previous);
  }
}
