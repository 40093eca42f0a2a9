/**
 * The ingestion service: which source each kind of input is taken from, and the
 * combined dataset. Everything the service asks of the outside world (the environment,
 * git, the forge, the tracker, files) is an answer held in a World value.
 */
module DataIngestion {
  import opened Outcomes
  import opened Errors
  import opened Environment
  import opened JsonValue
  import opened Records
  import opened Paging
  import opened IngestionLoaders
  import ExtractCommits
  import Bulletproof

  /** The service's settings, fixed when it is built: the configured repository and the tracker. */
  datatype Service = Service(configRepo: Option<string>, jira: JiraConfig)

  /** `DataIngestionService()`: the configured repository and the tracker settings of the environment. */
  function NewService(configRepo: Option<string>, env: Env): (s: Service)
    ensures s.configRepo == configRepo
    ensures s.jira.baseUrl == Getenv(env, "JIRA_BASE_URL") && s.jira.projectKey == Getenv(env, "JIRA_PROJECT_KEY")
  {
    Service(configRepo, LoadJiraConfig(env))
  }

  /**
   * The answers of the outside world: the environment after the dotenv files are loaded,
   * git, the forge's commit, issue and release listings, the tracker search (with the
   * order in which its document listed each dict's keys), the JSON
   * issue file reader, the local release files, CHANGELOG.md, the timestamp renderer
   * and the ingestion time.
   */
  datatype World = World(
    env: Env,
    git: seq<string> -> Result<string, Error>,
    commitAnswer: Result<Reply<seq<ApiCommit>>, Error>,
    issueAnswer: Result<Reply<Json>, Error>,
    jiraAnswer: Result<Reply<Json>, Error>,
    keyOrder: map<string, Json> -> seq<string>,
    readJson: string -> Result<Json, Error>,
    releaseAnswer: Result<Reply<seq<ApiRelease>>, Error>,
    releaseDir: Option<seq<ReleaseFile>>,
    changelog: Option<Result<string, Error>>,
    stamp: int -> string,
    ingestedAt: string)

  /** `repo or self.config.get('repo')`. */
  function RepoOf(s: Service, repo: Option<string>): (r: Option<string>)
    ensures Given(repo) ==> r == repo
    ensures !Given(repo) ==> r == s.configRepo
  {
    if Given(repo) then repo else s.configRepo
  }

  /** The commit source actually used: "auto" means the forge when a token is set, git otherwise. */
  function CommitSource(source: string, env: Env): (r: string)
    ensures source != "auto" ==> r == source
    ensures source == "auto" ==> (r == "github" <==> Given(Getenv(env, "GITHUB_TOKEN")))
    ensures source == "auto" ==> (r == "local" <==> !Given(Getenv(env, "GITHUB_TOKEN")))
  {
    if source == "auto" then (if Given(Getenv(env, "GITHUB_TOKEN")) then "github" else "local") else source
  }

  /**
   * `ingest_commits`: from the forge through the single-request client, or from the local
   * git history. When the forge request fails in any way (including an explicit "github"
   * source) the local history of the working directory is used instead; an unknown
   * source raises.
   */
  method IngestCommits(
    s: Service, gh: Bulletproof.BulletproofGitHub, w: World,
    source: string, repo: Option<string>, since: Option<string>, until: Option<string>)
    returns (r: Result<seq<Commit>, Error>, sent: Option<Request>)
    requires gh.Valid()
    ensures var src := CommitSource(source, w.env);
      && (src == "github" ==> sent == Some(Request(ExtractCommits.CommitsUrl(PyStr(RepoOf(s, repo))), map["per_page" := PInt(100)])))
      && (src != "github" ==> sent.None?)
      && (src == "github" && w.commitAnswer.Ok? && w.commitAnswer.value.status == 200 ==>
            r.Ok? && |r.value| == |w.commitAnswer.value.body| &&
            forall i :: 0 <= i < |r.value| ==> r.value[i] == NormaliseCommit(w.commitAnswer.value.body[i]))
      && (src == "github" && !(w.commitAnswer.Ok? && w.commitAnswer.value.status == 200) ==>
            r == ExtractCommits.LocalOutcome(w.git(ExtractCommits.GitLogCommand(".", since, until))))
      && (src == "local" ==> r == ExtractCommits.LocalOutcome(w.git(ExtractCommits.GitLogCommand(".", since, until))))
      && (src != "github" && src != "local" ==> r == Err(ValueError("Unsupported commit source: " + source)))
  {
    var repo' := RepoOf(s, repo);
    var src := CommitSource(source, w.env);
    if src == "github" {
      var fromForge, request := gh.GetCommits(PyStr(repo'), 100, w.commitAnswer);
      sent := Some(request);
      if fromForge.Ok? {
        return fromForge, sent;
      }
      r := ExtractCommits.ExtractCommitsLocal(".", since, until, w.git);
    } else if src == "local" {
      sent := None;
      r := ExtractCommits.ExtractCommitsLocal(".", since, until, w.git);
    } else {
      sent := None;
      r := Err(ValueError("Unsupported commit source: " + source));
    }
  }

  /**
   * `ingest_issues`: the forge's closed issues through the single-request client (which
   * never raises), the tracker search with the given or configured project key and the
   * status "Done", or the JSON issue file; an unknown source raises.
   */
  method IngestIssues(
    s: Service, gh: Bulletproof.BulletproofGitHub, w: World,
    source: string, repo: Option<string>, since: Option<string>, projectKey: Option<string>, jsonFile: Option<string>)
    returns (r: Result<Json, Error>)
    requires gh.Valid()
    ensures source == "github" ==>
      && r.Ok?
      && (w.issueAnswer.Ok? && w.issueAnswer.value.status == 200 && Len(w.issueAnswer.value.body).Some? ==>
            r.value == w.issueAnswer.value.body)
      && (!(w.issueAnswer.Ok? && w.issueAnswer.value.status == 200 && Len(w.issueAnswer.value.body).Some?) ==>
            r.value == JArr([]))
    ensures source == "jira" ==> r == Ok(JArr(JiraOutcome(s.jira, w.jiraAnswer, w.keyOrder)))
    ensures source == "json" ==> r == Ok(LoadJsonIssues(jsonFile, w.readJson))
    ensures source !in {"github", "jira", "json"} ==> r == Err(ValueError("Unsupported issue source: " + source))
  {
    if source == "github" {
      var issues, _ := gh.GetIssues(PyStr(RepoOf(s, repo)), "closed", 100, w.issueAnswer);
      r := Ok(issues);
    } else if source == "jira" {
      var key := if Given(projectKey) then projectKey else s.jira.projectKey;
      var issues, _ := FetchJiraIssues(s.jira, key, since, "Done", w.jiraAnswer, w.keyOrder);
      r := Ok(JArr(issues));
    } else if source == "json" {
      r := Ok(LoadJsonIssues(jsonFile, w.readJson));
    } else {
      r := Err(ValueError("Unsupported issue source: " + source));
    }
  }

  /** Previous releases: forge or local records, or the changelog parser's records. */
  datatype PreviousReleases = Records(releases: seq<Release>) | Changelog(entries: seq<Entry>)

  /** The number of previous releases held. */
  function PreviousCount(p: PreviousReleases): nat {
    match p
    case Records(rs) => |rs|
    case Changelog(es) => |es|
  }

  /**
   * `ingest_previous_releases`. With "auto" and a token the forge loader is used, and since
   * that loader never raises its answer is final, even when it is empty; without a token
   * the local release files are used. "github", "local" and "changelog" name their loader;
   * an unknown source raises.
   */
  method IngestPreviousReleases(s: Service, w: World, source: string, repo: Option<string>, count: int, currentVersion: Option<string>)
    returns (r: Result<PreviousReleases, Error>)
    ensures var forge := ForgeReleases(RepoOf(s, repo), Getenv(w.env, "GITHUB_TOKEN"), count, currentVersion, w.releaseAnswer);
      && (source == "auto" && Given(Getenv(w.env, "GITHUB_TOKEN")) ==> r == Ok(Records(forge)))
      && (source == "github" ==> r == Ok(Records(forge)))
    ensures (source == "local" || (source == "auto" && !Given(Getenv(w.env, "GITHUB_TOKEN")))) ==>
      && r.Ok? && r.value.Records?
      && (w.releaseDir.None? ==> r.value.releases == [])
      && (w.releaseDir.Some? ==>
            r.value.releases == LocalRecords(SortNewestFirst(w.releaseDir.value), count, currentVersion, w.stamp, []))
    ensures source == "changelog" ==>
      && r.Ok? && r.value.Changelog?
      && (w.changelog.None? || w.changelog.value.Err? ==> r.value.entries == [])
      && (w.changelog.Some? && w.changelog.value.Ok? ==>
            r.value.entries == ParseChangelog(w.changelog.value.value, count, currentVersion))
    ensures source !in {"auto", "github", "local", "changelog"} ==> r == Err(ValueError("Unsupported release source: " + source))
    ensures r.Ok? && count >= 0 ==> PreviousCount(r.value) <= count
  {
    var token := Getenv(w.env, "GITHUB_TOKEN");
    if source == "auto" {
      if Given(token) {
        var forge, _ := FetchForgeReleases(RepoOf(s, repo), token, count, currentVersion, w.releaseAnswer);
        ForgeBound(RepoOf(s, repo), token, count, currentVersion, w.releaseAnswer);
        return Ok(Records(forge));
      }
      var local := LoadLocalReleases(w.releaseDir, count, currentVersion, w.stamp);
      r := Ok(Records(local));
    } else if source == "github" {
      var forge, _ := FetchForgeReleases(RepoOf(s, repo), token, count, currentVersion, w.releaseAnswer);
      ForgeBound(RepoOf(s, repo), token, count, currentVersion, w.releaseAnswer);
      r := Ok(Records(forge));
    } else if source == "local" {
      var local := LoadLocalReleases(w.releaseDir, count, currentVersion, w.stamp);
      r := Ok(Records(local));
    } else if source == "changelog" {
      var entries := ParseChangelogFile(w.changelog, count, currentVersion);
      if count >= 0 && w.changelog.Some? && w.changelog.value.Ok? {
        ParseChangelogSpec(w.changelog.value.value, count, currentVersion);
      }
      r := Ok(Changelog(entries));
    } else {
      r := Err(ValueError("Unsupported release source: " + source));
    }
  }

  /** Which sources the dataset names. */
  datatype Sources = Sources(commits: string, issues: string, releases: string)

  datatype Metadata = Metadata(version: string, repo: Option<string>, sources: Sources, ingestedAt: string)

  /** The combined dataset. */
  datatype Dataset = Dataset(commits: seq<Commit>, issues: Json, previousReleases: PreviousReleases, metadata: Metadata)

  /** The optional keyword arguments `ingest_all_data` forwards. */
  datatype Extras = Extras(
    until: Option<string>, projectKey: Option<string>, jsonFile: Option<string>,
    releaseSource: Option<string>, count: Option<int>)

  /** The previous-release step of `ingest_all_data`: "auto" and three releases unless given. */
  method IngestPreviousIfAsked(s: Service, w: World, version: string, repo: Option<string>, includePrevious: bool, extras: Extras)
    returns (r: Result<PreviousReleases, Error>)
    ensures !includePrevious ==> r == Ok(Records([]))
    ensures includePrevious && r.Ok? && extras.count.Some? && extras.count.value >= 0 ==>
      PreviousCount(r.value) <= extras.count.value
    ensures includePrevious && r.Ok? && extras.count.None? ==> PreviousCount(r.value) <= 3
  {
    if !includePrevious {
      return Ok(Records([]));
    }
    var source := if extras.releaseSource.Some? then extras.releaseSource.value else "auto";
    var count := if extras.count.Some? then extras.count.value else 3;
    r := IngestPreviousReleases(s, w, source, repo, count, Some(version));
  }

  /**
   * `ingest_all_data`: commits, then issues, then (when asked for) previous releases with
   * the release source "auto" and three releases unless given; the first of them that
   * raises ends it. The metadata names the three sources, "none" for releases when they
   * were not asked for.
   */
  method IngestAllData(
    configRepo: Option<string>, gh: Bulletproof.BulletproofGitHub, w: World,
    version: string, repo: Option<string>, since: Option<string>,
    commitSource: string, issueSource: string, includePrevious: bool, extras: Extras)
    returns (r: Result<Dataset, Error>)
    requires gh.Valid()
    ensures CommitSource(commitSource, w.env) !in {"github", "local"} ==>
      r == Err(ValueError("Unsupported commit source: " + commitSource))
    ensures var local := ExtractCommits.LocalOutcome(w.git(ExtractCommits.GitLogCommand(".", since, extras.until)));
      && (r.Ok? && CommitSource(commitSource, w.env) == "local" ==> local == Ok(r.value.commits))
      && (r.Ok? && CommitSource(commitSource, w.env) == "github" && !(w.commitAnswer.Ok? && w.commitAnswer.value.status == 200) ==>
            local == Ok(r.value.commits))
      && (CommitSource(commitSource, w.env) == "local" && local.Ok? && issueSource !in {"github", "jira", "json"} ==>
            r == Err(ValueError("Unsupported issue source: " + issueSource)))
    ensures r.Ok? && CommitSource(commitSource, w.env) == "github" && w.commitAnswer.Ok? && w.commitAnswer.value.status == 200 ==>
      |r.value.commits| == |w.commitAnswer.value.body| &&
      forall i :: 0 <= i < |r.value.commits| ==> r.value.commits[i] == NormaliseCommit(w.commitAnswer.value.body[i])
    ensures r.Ok? ==> issueSource in {"github", "jira", "json"}
    ensures r.Ok? && issueSource == "json" ==> r.value.issues == LoadJsonIssues(extras.jsonFile, w.readJson)
    ensures r.Ok? && issueSource == "jira" ==> r.value.issues == JArr(JiraOutcome(LoadJiraConfig(w.env), w.jiraAnswer, w.keyOrder))
    ensures r.Ok? && issueSource == "github" ==>
      if w.issueAnswer.Ok? && w.issueAnswer.value.status == 200 && Len(w.issueAnswer.value.body).Some?
      then r.value.issues == w.issueAnswer.value.body
      else r.value.issues == JArr([])
    ensures r.Ok? ==>
      && r.value.metadata == Metadata(version, repo,
           Sources(commitSource, issueSource, if includePrevious then "auto" else "none"), w.ingestedAt)
      && (!includePrevious ==> r.value.previousReleases == Records([]))
      && (includePrevious && extras.count.Some? && extras.count.value >= 0 ==>
            PreviousCount(r.value.previousReleases) <= extras.count.value)
      && (includePrevious && extras.count.None? ==> PreviousCount(r.value.previousReleases) <= 3)
  {
    var s := NewService(configRepo, w.env);
    var commits, _ := IngestCommits(s, gh, w, commitSource, repo, since, extras.until);
    if commits.Err? {
      return Err(commits.error);
    }
    var issues := IngestIssues(s, gh, w, issueSource, repo, since, extras.projectKey, extras.jsonFile);
    if issues.Err? {
      return Err(issues.error);
    }
    var previous := IngestPreviousIfAsked(s, w, version, repo, includePrevious, extras);
    if previous.Err? {
      return Err(previous.error);
    }
    var sources := Sources(commitSource, issueSource, if includePrevious then "auto" else "none");
    r := Ok(Dataset(commits.value, issues.value, previous.value, Metadata(version, repo, sources, w.ingestedAt)));
  }
}
